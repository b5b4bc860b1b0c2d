/**
  The recommendation engine of the AI tutor: from a student's per-SLO
  performance rows it derives content recommendations ordered by urgency,
  mastery badges, the knowledge-map series and summary statistics.
*/
module Recommendation {
  import opened Wrappers
  import opened Levels

  // ---------------------------------------------------------------------------
  // Thresholds

  /** The kind of practice content offered for a percentage. */
  datatype ContentType = Challenge | Reinforcement | Foundational

  /** Challenge from 85 per cent up, reinforcement from 60, foundational below; one kind per level. */
  function GetContentType(percentage: real): (ct: ContentType)
    ensures ct == Challenge <==> GetMasteryLevel(percentage) == Mastery
    ensures ct == Reinforcement <==> GetMasteryLevel(percentage) == Satisfactory
    ensures ct == Foundational <==> GetMasteryLevel(percentage) == Developmental
  {
    if percentage >= 85.0 then Challenge
    else if percentage >= 60.0 then Reinforcement
    else Foundational
  }

  datatype ContentDetails = ContentDetails(labelText: string, description: string, estimatedTime: string, activities: seq<string>)

  /** The fixed presentation of each kind of content. */
  function GetContentDetails(ct: ContentType): (d: ContentDetails)
    ensures |d.activities| == 4
  {
    match ct
    case Challenge =>
      ContentDetails("Challenge Mode", "Push your limits with advanced content", "20-30 min",
                     ["Advanced worksheets", "Critical thinking tasks", "Peer-teaching exercises", "Complex problem solving"])
    case Reinforcement =>
      ContentDetails("Reinforcement", "Strengthen your understanding", "15-20 min",
                     ["Standard practice tests", "Mid-level exercises", "Review quizzes", "Application problems"])
    case Foundational =>
      ContentDetails("Back to Basics", "Build a strong foundation", "25-35 min",
                     ["Video tutorials", "Step-by-step worksheets", "Flashcard practice", "Guided examples"])
  }

  /** Each kind of content has its own label, so the label identifies the kind. */
  lemma ContentLabelsDistinct(a: ContentType, b: ContentType)
    ensures GetContentDetails(a).labelText == GetContentDetails(b).labelText <==> a == b
  {
    assert GetContentDetails(Challenge).labelText[0] == 'C';
    assert GetContentDetails(Reinforcement).labelText[0] == 'R';
    assert GetContentDetails(Foundational).labelText[0] == 'B';
  }

  /** Foundational content is the most urgent (3), then reinforcement (2), then challenge (1). */
  function Priority(ct: ContentType): (p: nat)
    ensures 1 <= p <= 3
    ensures p == 3 <==> ct == Foundational
    ensures p == 1 <==> ct == Challenge
  {
    match ct
    case Foundational => 3
    case Reinforcement => 2
    case Challenge => 1
  }

  // ---------------------------------------------------------------------------
  // Rows

  /** A row of `slo_performance`, joined with the SLO's description and subject name when present. */
  datatype Performance = Performance(
    sloId: string,
    description: Option<string>,
    subjectName: Option<string>,
    percentage: real,
    currentLevel: Level,
    lastUpdated: string)

  /** `value || fallback` on an optional string: an absent or empty value gives the fallback. */
  function OrElse(value: Option<string>, fallback: string): (r: string)
    ensures value.Some? && value.value != "" ==> r == value.value
    ensures value.None? || value.value == "" ==> r == fallback
  {
    if value.Some? && value.value != "" then value.value else fallback
  }

  // ---------------------------------------------------------------------------
  // Recommendations

  datatype Recommendation = Recommendation(
    sloId: string,
    sloName: string,
    subjectName: string,
    masteryPercentage: real,
    masteryLevel: Level,
    contentType: ContentType,
    contentLabel: string,
    description: string,
    estimatedTime: string,
    activities: seq<string>,
    priority: nat)

  /** The recommendation for one row, before sorting. */
  function Recommend(perf: Performance): (r: Recommendation)
    ensures r.sloId == perf.sloId && r.masteryPercentage == perf.percentage
    ensures r.masteryLevel == GetMasteryLevel(perf.percentage)
    ensures r.contentType == GetContentType(perf.percentage) && r.priority == Priority(r.contentType)
    ensures r.sloName == OrElse(perf.description, "Unknown SLO")
    ensures r.subjectName == OrElse(perf.subjectName, "Unknown Subject")
    ensures var d := GetContentDetails(r.contentType);
            && r.contentLabel == d.labelText && r.description == d.description
            && r.estimatedTime == d.estimatedTime && r.activities == d.activities && |r.activities| == 4
  {
    var ct := GetContentType(perf.percentage);
    var details := GetContentDetails(ct);
    Recommendation(perf.sloId, OrElse(perf.description, "Unknown SLO"), OrElse(perf.subjectName, "Unknown Subject"),
                   perf.percentage, GetMasteryLevel(perf.percentage), ct,
                   details.labelText, details.description, details.estimatedTime, details.activities, Priority(ct))
  }

  /** The level shown is recomputed from the percentage; the stored `current_level` plays no part. */
  lemma LevelIsRecomputed(perf: Performance, stored: Level)
    ensures Recommend(perf.(currentLevel := stored)) == Recommend(perf)
    ensures Recommend(perf).masteryLevel == GetMasteryLevel(perf.percentage)
  {
  }

  /** Priority 3 exactly for developmental rows, 2 for satisfactory, 1 for mastery. */
  lemma PriorityFollowsLevel(perf: Performance)
    ensures var r := Recommend(perf);
            (r.priority == 3 <==> r.masteryLevel == Developmental)
            && (r.priority == 2 <==> r.masteryLevel == Satisfactory)
            && (r.priority == 1 <==> r.masteryLevel == Mastery)
  {
  }

  function RecommendAll(ps: seq<Performance>): (r: seq<Recommendation>)
    ensures |r| == |ps|
    ensures forall i :: 0 <= i < |ps| ==> r[i] == Recommend(ps[i])
  {
    seq(|ps|, i requires 0 <= i < |ps| => Recommend(ps[i]))
  }

  /**
    Inserting one recommendation into a list sorted by priority: it goes
    after every entry whose priority is at least its own, as the stable
    `Array.prototype.sort` with the comparator `b.priority - a.priority` does.
  */
  function Insert(s: seq<Recommendation>, x: Recommendation): (r: seq<Recommendation>)
    ensures |r| == |s| + 1
  {
    if s == [] then [x]
    else if s[|s| - 1].priority >= x.priority then s + [x]
    else Insert(s[..|s| - 1], x) + [s[|s| - 1]]
  }

  /** `.sort((a, b) => b.priority - a.priority)`: a stable sort by non-increasing priority. */
  function SortByPriority(s: seq<Recommendation>): (r: seq<Recommendation>)
    ensures |r| == |s|
  {
    if s == [] then [] else Insert(SortByPriority(s[..|s| - 1]), s[|s| - 1])
  }

  /** The entries of `s` with priority `p`, in their original order. */
  function WithPriority(s: seq<Recommendation>, p: nat): (r: seq<Recommendation>)
    ensures |r| <= |s|
    ensures forall i :: 0 <= i < |r| ==> r[i].priority == p
  {
    if s == [] then []
    else WithPriority(s[..|s| - 1], p) + if s[|s| - 1].priority == p then [s[|s| - 1]] else []
  }

  /** The reference order: all priority-3 entries, then priority 2, then priority 1, each in input order. */
  function Grouped(s: seq<Recommendation>): seq<Recommendation> {
    WithPriority(s, 3) + WithPriority(s, 2) + WithPriority(s, 1)
  }

  predicate PrioritiesInRange(s: seq<Recommendation>) {
    forall i :: 0 <= i < |s| ==> 1 <= s[i].priority <= 3
  }

  predicate SortedByPriority(s: seq<Recommendation>) {
    forall i, j :: 0 <= i < j < |s| ==> s[i].priority >= s[j].priority
  }

  /** An entry at or below the last one's priority goes at the end. */
  lemma InsertAtEnd(u: seq<Recommendation>, x: Recommendation)
    requires u == [] || u[|u| - 1].priority >= x.priority
    ensures Insert(u, x) == u + [x]
  {
  }

  /** An entry above the last one's priority goes before it. */
  lemma InsertBeforeLast(u: seq<Recommendation>, x: Recommendation)
    requires u != [] && u[|u| - 1].priority < x.priority
    ensures Insert(u, x) == Insert(u[..|u| - 1], x) + [u[|u| - 1]]
  {
  }

  /** Inserting into `s + t`, where `s` ends at or above `x`'s priority and `t` lies below it, lands between them. */
  lemma {:induction false} InsertBetween(s: seq<Recommendation>, t: seq<Recommendation>, x: Recommendation)
    requires s == [] || s[|s| - 1].priority >= x.priority
    requires forall i :: 0 <= i < |t| ==> t[i].priority < x.priority
    ensures Insert(s + t, x) == s + [x] + t
  {
    if t == [] {
      assert s + t == s && s + [x] + t == s + [x];
      InsertAtEnd(s, x);
    } else {
      var n := |t| - 1;
      InsertBetween(s, t[..n], x);
      InsertBeforeLast(s + t, x);
      ConcatSplitLast(s, t, x);
    }
  }

  /** How `s + t` and `s + [y] + t` come apart at the last entry of `t`. */
  lemma ConcatSplitLast<T>(s: seq<T>, t: seq<T>, y: T)
    requires t != []
    ensures (s + t)[..|s + t| - 1] == s + t[..|t| - 1]
    ensures (s + t)[|s + t| - 1] == t[|t| - 1]
    ensures s + [y] + t == (s + [y] + t[..|t| - 1]) + [t[|t| - 1]]
  {
    assert t == t[..|t| - 1] + [t[|t| - 1]];
  }

  lemma WithPriorityAppend(s: seq<Recommendation>, x: Recommendation, p: nat)
    ensures x.priority == p ==> WithPriority(s + [x], p) == WithPriority(s, p) + [x]
    ensures x.priority != p ==> WithPriority(s + [x], p) == WithPriority(s, p)
  {
    assert (s + [x])[..|s|] == s;
    assert WithPriority(s, p) + [] == WithPriority(s, p);
  }

  predicate AllPriority(s: seq<Recommendation>, p: nat) {
    forall i :: 0 <= i < |s| ==> s[i].priority == p
  }

  /** A priority-3 entry goes after the other priority-3 entries, before the rest. */
  lemma InsertTop(a: seq<Recommendation>, b: seq<Recommendation>, c: seq<Recommendation>, x: Recommendation)
    requires AllPriority(a, 3) && AllPriority(b, 2) && AllPriority(c, 1) && x.priority == 3
    ensures Insert(a + b + c, x) == (a + [x]) + b + c
  {
    assert forall i :: 0 <= i < |b + c| ==> (b + c)[i].priority < 3;
    InsertBetween(a, b + c, x);
    assert a + (b + c) == a + b + c;
    assert a + [x] + (b + c) == (a + [x]) + b + c;
  }

  /** A priority-2 entry goes after the priority-3 and -2 entries, before the priority-1 ones. */
  lemma InsertMiddle(a: seq<Recommendation>, b: seq<Recommendation>, c: seq<Recommendation>, x: Recommendation)
    requires AllPriority(a, 3) && AllPriority(b, 2) && AllPriority(c, 1) && x.priority == 2
    ensures Insert(a + b + c, x) == a + (b + [x]) + c
  {
    var ab := a + b;
    assert ab == [] || ab[|ab| - 1].priority >= 2 by {
      if b == [] { assert ab == a; } else { assert ab[|ab| - 1] == b[|b| - 1]; }
    }
    InsertBetween(ab, c, x);
    assert ab + [x] + c == a + (b + [x]) + c;
  }

  /** A priority-1 entry goes last. */
  lemma InsertBottom(a: seq<Recommendation>, b: seq<Recommendation>, c: seq<Recommendation>, x: Recommendation)
    requires AllPriority(a, 3) && AllPriority(b, 2) && AllPriority(c, 1) && x.priority == 1
    ensures Insert(a + b + c, x) == a + b + (c + [x])
  {
    var abc := a + b + c;
    assert abc == [] || abc[|abc| - 1].priority >= 1 by {
      if abc != [] {
        var k := |abc| - 1;
        assert abc[k] in a || abc[k] in b || abc[k] in c;
      }
    }
    InsertBetween(abc, [], x);
    assert abc + [] == abc;
    assert abc + [x] + [] == a + b + (c + [x]);
  }

  /** Inserting one more entry into the reference order of a list gives the reference order of the extended list. */
  lemma InsertGrouped(init: seq<Recommendation>, x: Recommendation)
    requires 1 <= x.priority <= 3
    ensures Insert(Grouped(init), x) == Grouped(init + [x])
  {
    var a, b, c := WithPriority(init, 3), WithPriority(init, 2), WithPriority(init, 1);
    WithPriorityAppend(init, x, 3);
    WithPriorityAppend(init, x, 2);
    WithPriorityAppend(init, x, 1);
    var a', b', c' := WithPriority(init + [x], 3), WithPriority(init + [x], 2), WithPriority(init + [x], 1);
    assert Grouped(init + [x]) == a' + b' + c';
    if x.priority == 3 {
      InsertTop(a, b, c, x);
      assert a' == a + [x] && b' == b && c' == c;
    } else if x.priority == 2 {
      InsertMiddle(a, b, c, x);
      assert a' == a && b' == b + [x] && c' == c;
    } else {
      InsertBottom(a, b, c, x);
      assert a' == a && b' == b && c' == c + [x];
    }
  }

  /** The stable sort produces exactly the reference order. */
  lemma {:induction false} SortIsGrouped(s: seq<Recommendation>)
    requires PrioritiesInRange(s)
    ensures SortByPriority(s) == Grouped(s)
  {
    if s != [] {
      var init, x := s[..|s| - 1], s[|s| - 1];
      assert s == init + [x];
      assert PrioritiesInRange(init);
      SortIsGrouped(init);
      assert SortByPriority(s) == Insert(SortByPriority(init), x);
      InsertGrouped(init, x);
    }
  }

  lemma {:induction false} GroupedPermutes(s: seq<Recommendation>)
    requires PrioritiesInRange(s)
    ensures multiset(Grouped(s)) == multiset(s)
  {
    if s != [] {
      var init, x := s[..|s| - 1], s[|s| - 1];
      assert s == init + [x];
      GroupedPermutes(init);
      WithPriorityAppend(init, x, 3);
      WithPriorityAppend(init, x, 2);
      WithPriorityAppend(init, x, 1);
    }
  }

  lemma GroupedSorted(s: seq<Recommendation>)
    ensures SortedByPriority(Grouped(s))
  {
    var a, b, c := WithPriority(s, 3), WithPriority(s, 2), WithPriority(s, 1);
    var g := a + b + c;
    forall i, j | 0 <= i < j < |g| ensures g[i].priority >= g[j].priority {
      var pi := if i < |a| then 3 else if i < |a| + |b| then 2 else 1;
      var pj := if j < |a| then 3 else if j < |a| + |b| then 2 else 1;
      assert g[i].priority == pi by {
        if i < |a| { assert g[i] == a[i]; }
        else if i < |a| + |b| { assert g[i] == b[i - |a|]; }
        else { assert g[i] == c[i - |a| - |b|]; }
      }
      assert g[j].priority == pj by {
        if j < |a| { assert g[j] == a[j]; }
        else if j < |a| + |b| { assert g[j] == b[j - |a|]; }
        else { assert g[j] == c[j - |a| - |b|]; }
      }
    }
  }

  /** `recommendations`: one per row, sorted by urgency; nothing for no rows. */
  function Recommendations(ps: seq<Performance>): (r: seq<Recommendation>)
    ensures |r| == |ps|
  {
    if ps == [] then [] else SortByPriority(RecommendAll(ps))
  }

  /**
    The recommendations are the per-row recommendations rearranged: sorted by
    non-increasing priority, and among equal priorities in the order of the rows.
  */
  lemma RecommendationsOrdered(ps: seq<Performance>)
    ensures var r := Recommendations(ps);
            SortedByPriority(r)
            && multiset(r) == multiset(RecommendAll(ps))
            && r == Grouped(RecommendAll(ps))
  {
    var all := RecommendAll(ps);
    assert PrioritiesInRange(all);
    SortIsGrouped(all);
    GroupedPermutes(all);
    GroupedSorted(all);
  }

  // ---------------------------------------------------------------------------
  // Badges

  datatype BadgeType = Bronze | Silver | Gold

  datatype MasteryBadge = MasteryBadge(sloId: string, sloName: string, achievedAt: string, badgeType: BadgeType)

  predicate Mastered(perf: Performance) { perf.percentage >= 85.0 }

  /** Gold from 95 per cent, silver from 90, otherwise bronze. */
  function BadgeTypeFor(percentage: real): (b: BadgeType)
    ensures b == Gold <==> percentage >= 95.0
    ensures b == Silver <==> 90.0 <= percentage < 95.0
    ensures b == Bronze <==> percentage < 90.0
  {
    if percentage >= 95.0 then Gold else if percentage >= 90.0 then Silver else Bronze
  }

  function Badge(perf: Performance): (b: MasteryBadge)
    ensures b.sloId == perf.sloId && b.achievedAt == perf.lastUpdated && b.badgeType == BadgeTypeFor(perf.percentage)
    ensures b.sloName == OrElse(perf.description, "Unknown SLO")
  {
    MasteryBadge(perf.sloId, OrElse(perf.description, "Unknown SLO"), perf.lastUpdated, BadgeTypeFor(perf.percentage))
  }

  /** `masteryBadges`: a badge for each row at 85 per cent or more, in row order. */
  function MasteryBadges(ps: seq<Performance>): (r: seq<MasteryBadge>)
    ensures |r| <= |ps|
    ensures forall b :: b in r ==> exists i :: 0 <= i < |ps| && Mastered(ps[i]) && b == Badge(ps[i])
    ensures forall i :: 0 <= i < |ps| && Mastered(ps[i]) ==> Badge(ps[i]) in r
  {
    if ps == [] then []
    else
      var init := ps[..|ps| - 1];
      var rest := MasteryBadges(init);
      assert forall i :: 0 <= i < |init| ==> init[i] == ps[i];
      rest + if Mastered(ps[|ps| - 1]) then [Badge(ps[|ps| - 1])] else []
  }

  /** `b` is a badge `perf` earns: the row is mastered, and the colour follows the 95/90 thresholds. */
  predicate BadgeFits(b: MasteryBadge, perf: Performance) {
    && perf.percentage >= 85.0 && b.sloId == perf.sloId
    && (b.badgeType == Gold <==> perf.percentage >= 95.0)
    && (b.badgeType == Silver <==> 90.0 <= perf.percentage < 95.0)
    && (b.badgeType == Bronze <==> perf.percentage < 90.0)
  }

  /** Every badge is for a mastered row, and its colour follows the 95/90 thresholds. */
  lemma BadgesAreForMastery(ps: seq<Performance>)
    ensures forall b :: b in MasteryBadges(ps) ==> exists i :: 0 <= i < |ps| && BadgeFits(b, ps[i])
  {
    forall b | b in MasteryBadges(ps)
      ensures exists i :: 0 <= i < |ps| && BadgeFits(b, ps[i])
    {
      var i :| 0 <= i < |ps| && Mastered(ps[i]) && b == Badge(ps[i]);
    }
  }

  // ---------------------------------------------------------------------------
  // Knowledge map

  /**
    The short axis label, as written: `description?.substring(0, 20) + "..."`.
    An absent description makes the left operand `undefined`, which the
    concatenation turns into the text `undefined`.
  */
  function SubjectAsWritten(description: Option<string>): (r: string)
    ensures |r| >= 3 && r[|r| - 3..] == "..."
  {
    (if description.Some? then Prefix(description.value, 20) else "undefined") + "..."
  }

  /** The `|| "SLO"` fallback is never taken: the concatenation is never empty. */
  lemma SubjectFallbackUnreachable(description: Option<string>)
    ensures SubjectAsWritten(description) != "SLO"
    ensures SubjectAsWritten(None) == "undefined..."
  {
    var r := SubjectAsWritten(description);
    assert r[|r| - 1] == '.';
  }

  /** `s.substring(0, n)`: at most the first `n` characters. */
  function Prefix(s: string, n: nat): (r: string)
    ensures |r| <= n && r <= s
    ensures |s| <= n ==> r == s
  {
    if |s| <= n then s else s[..n]
  }

  /** The short axis label as evidently intended: the first 20 characters and `...`, or `SLO` when there is no description. */
  function Subject(description: Option<string>): (r: string)
    ensures r == "SLO" <==> description.None? || description.value == ""
    ensures description.Some? && description.value != "" ==>
      exists k :: 1 <= k <= |description.value| && k <= 20 && r == description.value[..k] + "..."
        && (k == 20 || k == |description.value|)
  {
    if description.Some? && description.value != "" then
      var p := Prefix(description.value, 20);
      assert p == description.value[..|p|];
      var r := p + "...";
      assert r != "SLO" by { assert |r| >= 4; }
      r
    else "SLO"
  }

  datatype MapPoint = MapPoint(subject: string, fullName: string, value: real, fullMark: real)

  /**
    `knowledgeMapData` as written: one point per row, in row order, whose
    short label is `SubjectAsWritten`, so it always ends in `...` and is never `SLO`.
  */
  function KnowledgeMapData(ps: seq<Performance>): (r: seq<MapPoint>)
    ensures |r| == |ps|
    ensures forall i :: 0 <= i < |ps| ==> r[i].value == ps[i].percentage && r[i].fullMark == 100.0
    ensures forall i :: 0 <= i < |ps| ==> r[i].subject == SubjectAsWritten(ps[i].description)
    ensures forall i :: 0 <= i < |ps| ==> r[i].fullName == OrElse(ps[i].description, "Unknown")
  {
    seq(|ps|, i requires 0 <= i < |ps| =>
      MapPoint(SubjectAsWritten(ps[i].description), OrElse(ps[i].description, "Unknown"), ps[i].percentage, 100.0))
  }

  /** The knowledge-map series with the short label as evidently intended: `SLO` exactly for a row without a description. */
  function IntendedKnowledgeMapData(ps: seq<Performance>): (r: seq<MapPoint>)
    ensures |r| == |ps|
    ensures forall i :: 0 <= i < |ps| ==> r[i].value == ps[i].percentage && r[i].fullMark == 100.0
    ensures forall i :: 0 <= i < |ps| ==>
      (r[i].subject == "SLO" <==> ps[i].description.None? || ps[i].description.value == "")
    ensures forall i :: 0 <= i < |ps| ==> r[i].fullName == OrElse(ps[i].description, "Unknown")
  {
    seq(|ps|, i requires 0 <= i < |ps| =>
      MapPoint(Subject(ps[i].description), OrElse(ps[i].description, "Unknown"), ps[i].percentage, 100.0))
  }

  /** The series as written and as intended differ at a row exactly when that row has no description, or an empty one. */
  lemma KnowledgeMapDiffersWithoutDescription(ps: seq<Performance>, i: nat)
    requires i < |ps|
    ensures KnowledgeMapData(ps)[i] == IntendedKnowledgeMapData(ps)[i] <==>
      ps[i].description.Some? && ps[i].description.value != ""
  {
    var d := ps[i].description;
    if d.Some? && d.value != "" {
      var p := Prefix(d.value, 20);
      assert p == d.value[..|p|];
    } else {
      SubjectFallbackUnreachable(d);
    }
  }

  // ---------------------------------------------------------------------------
  // Statistics

  datatype Stats = Stats(mastery: nat, satisfactory: nat, developmental: nat, averageScore: int)

  /** The number of rows whose level is `level`. */
  function CountLevel(ps: seq<Performance>, level: Level): (n: nat)
    ensures n <= |ps|
  {
    if ps == [] then 0
    else CountLevel(ps[..|ps| - 1], level) + if GetMasteryLevel(ps[|ps| - 1].percentage) == level then 1 else 0
  }

  function SumPercentages(ps: seq<Performance>): real {
    if ps == [] then 0.0 else SumPercentages(ps[..|ps| - 1]) + ps[|ps| - 1].percentage
  }

  /** `Math.round`: the nearest integer, halves rounded up. */
  function Round(x: real): (r: int)
    ensures x - 0.5 < r as real <= x + 0.5
  {
    (x + 0.5).Floor
  }

  /** `stats`: the rows counted by level and their mean percentage rounded; all zero for no rows. */
  function GetStats(ps: seq<Performance>): (s: Stats)
    ensures ps == [] ==> s == Stats(0, 0, 0, 0)
    ensures s.mastery == CountLevel(ps, Mastery) && s.satisfactory == CountLevel(ps, Satisfactory)
    ensures s.developmental == CountLevel(ps, Developmental)
    ensures ps != [] ==> s.averageScore == Round(SumPercentages(ps) / |ps| as real)
  {
    if ps == [] then Stats(0, 0, 0, 0)
    else Stats(CountLevel(ps, Mastery), CountLevel(ps, Satisfactory), CountLevel(ps, Developmental),
               Round(SumPercentages(ps) / |ps| as real))
  }

  /** The three counts partition the rows. */
  lemma {:induction false} CountsPartition(ps: seq<Performance>)
    ensures CountLevel(ps, Mastery) + CountLevel(ps, Satisfactory) + CountLevel(ps, Developmental) == |ps|
  {
    if ps != [] {
      CountsPartition(ps[..|ps| - 1]);
    }
  }

  /** The mastery count is the number of badges. */
  lemma {:induction false} MasteryCountIsBadgeCount(ps: seq<Performance>)
    ensures |MasteryBadges(ps)| == CountLevel(ps, Mastery) == GetStats(ps).mastery
  {
    if ps != [] {
      MasteryCountIsBadgeCount(ps[..|ps| - 1]);
    }
  }

  lemma {:induction false} SumBounds(ps: seq<Performance>)
    requires forall i :: 0 <= i < |ps| ==> 0.0 <= ps[i].percentage <= 100.0
    ensures 0.0 <= SumPercentages(ps) <= 100.0 * |ps| as real
  {
    if ps != [] {
      SumBounds(ps[..|ps| - 1]);
    }
  }

  /** With every percentage between 0 and 100, so is the average score. */
  lemma AverageInRange(ps: seq<Performance>)
    requires forall i :: 0 <= i < |ps| ==> 0.0 <= ps[i].percentage <= 100.0
    ensures 0 <= GetStats(ps).averageScore <= 100
  {
    if ps != [] {
      SumBounds(ps);
      var n := |ps| as real;
      var avg := SumPercentages(ps) / n;
      assert 0.0 <= avg <= 100.0 by {
        assert SumPercentages(ps) <= 100.0 * n;
      }
    }
  }

  /** No rows: no recommendations, badges or map points, and all-zero statistics. */
  lemma NoRowsNothingDerived()
    ensures Recommendations([]) == [] && MasteryBadges([]) == [] && KnowledgeMapData([]) == []
    ensures GetStats([]) == Stats(0, 0, 0, 0)
  {
  }
}
