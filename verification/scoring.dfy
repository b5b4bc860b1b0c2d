/**
  Scoring of one submitted test attempt: the correctness of each answer, the
  raw score, and the per-SLO `{earned, possible}` breakdown in which a
  question's earned marks are split across its SLO mappings in proportion to
  each mapping's mark contribution.
*/
module Scoring {
  import opened Wrappers
  import opened Text

  type QuestionId = string
  type SloId = string

  /** A `questions` row, reduced to the fields that scoring reads. */
  datatype Question = Question(id: QuestionId, correctAnswer: string, maxMarks: real)

  /** A `question_slo_mappings` row of one question. */
  datatype SloMapping = SloMapping(sloId: SloId, markContribution: real)

  /** The `{earned, possible}` pair kept for one SLO. */
  datatype SloScore = SloScore(earned: real, possible: real)

  /**
    The `sloScores` object being built: a JavaScript object keeps its
    (non-numeric) keys in insertion order, recorded in `order`.
  */
  datatype Tally = Tally(order: seq<SloId>, scores: map<SloId, SloScore>)

  /** What the scoring pass produces when every question has an answer. */
  datatype Scored = Scored(rawScore: real, tally: Tally)

  predicate Distinct<T(==)>(s: seq<T>) {
    forall i, j :: 0 <= i < j < |s| ==> s[i] != s[j]
  }

  /** Dropping the last element of a repeat-free sequence keeps it repeat-free, and the last element is not among the rest. */
  lemma DistinctLast<T>(s: seq<T>)
    requires s != [] && Distinct(s)
    ensures Distinct(s[..|s| - 1]) && s[|s| - 1] !in s[..|s| - 1]
  {
    var n := |s| - 1;
    forall j | 0 <= j < n ensures s[..n][j] != s[n] {
      assert s[..n][j] == s[j];
    }
  }

  ghost predicate ValidTally(t: Tally) {
    && Distinct(t.order)
    && (forall s :: s in t.scores <==> s in t.order)
  }

  const EmptyTally := Tally([], map[])

  // ---------------------------------------------------------------------------
  // Correctness of one answer

  /** Trimmed and lower-cased, the form in which answers are compared. */
  function Normalize(s: string): string {
    ToLower(Trim(s))
  }

  predicate IsCorrect(answer: string, correctAnswer: string) {
    Normalize(answer) == Normalize(correctAnswer)
  }

  /** All-or-nothing: the full marks of the question or none. */
  function EarnedMarks(q: Question, answer: string): (earned: real)
    ensures earned == q.maxMarks || earned == 0.0
    ensures q.maxMarks != 0.0 ==> (earned == q.maxMarks <==> IsCorrect(answer, q.correctAnswer))
  {
    if IsCorrect(answer, q.correctAnswer) then q.maxMarks else 0.0
  }

  /** Surrounding whitespace never changes whether an answer is correct. */
  lemma CorrectIgnoresPadding(answer: string, correctAnswer: string, before: string, after: string)
    requires AllWhitespace(before) && AllWhitespace(after)
    ensures IsCorrect(before + answer + after, correctAnswer) <==> IsCorrect(answer, correctAnswer)
  {
    TrimPadded(answer, before, after);
  }

  /** Nor does the case of ASCII letters, in the answer or in the key. */
  lemma CorrectIgnoresCase(answer: string, correctAnswer: string, upper: bool)
    ensures IsCorrect(CaseMap(answer, upper), correctAnswer) <==> IsCorrect(answer, correctAnswer)
    ensures IsCorrect(answer, CaseMap(correctAnswer, upper)) <==> IsCorrect(answer, correctAnswer)
  {
    TrimCaseMap(answer, upper);
    LowerAfterCaseMap(Trim(answer), upper);
    TrimCaseMap(correctAnswer, upper);
    LowerAfterCaseMap(Trim(correctAnswer), upper);
  }

  // ---------------------------------------------------------------------------
  // Grading: the earned marks of every question

  predicate Answered(qs: seq<Question>, answers: map<QuestionId, string>) {
    forall i :: 0 <= i < |qs| ==> qs[i].id in answers
  }

  /** The earned marks of each question, in question order. */
  function Grades(qs: seq<Question>, answers: map<QuestionId, string>): (g: seq<real>)
    requires Answered(qs, answers)
    ensures |g| == |qs|
    ensures forall i :: 0 <= i < |qs| ==> g[i] == EarnedMarks(qs[i], answers[qs[i].id])
  {
    if qs == [] then []
    else
      var q := qs[|qs| - 1];
      Grades(qs[..|qs| - 1], answers) + [EarnedMarks(q, answers[q.id])]
  }

  /** Every question earned either its maximum marks or nothing. */
  predicate AllOrNothing(qs: seq<Question>, g: seq<real>) {
    |g| == |qs| && forall i :: 0 <= i < |qs| ==> g[i] == qs[i].maxMarks || g[i] == 0.0
  }

  /** Sum of a sequence of marks. */
  function Total(xs: seq<real>): real {
    if xs == [] then 0.0 else Total(xs[..|xs| - 1]) + xs[|xs| - 1]
  }

  // ---------------------------------------------------------------------------
  // The per-SLO allocation (the inner loop over one question's mappings)

  const NoScore := SloScore(0.0, 0.0)

  /** The score kept for `slo`, or zeros when the tally has no entry for it. */
  function Get(t: Tally, slo: SloId): SloScore {
    if slo in t.scores then t.scores[slo] else NoScore
  }

  function Plus(a: SloScore, b: SloScore): SloScore {
    SloScore(a.earned + b.earned, a.possible + b.possible)
  }

  lemma PlusAssoc(a: SloScore, b: SloScore, c: SloScore)
    ensures Plus(Plus(a, b), c) == Plus(a, Plus(b, c))
  {}

  lemma PlusSwap(a: SloScore, b: SloScore, c: SloScore)
    ensures Plus(Plus(a, b), c) == Plus(Plus(a, c), b)
  {}

  lemma PlusScores(e1: real, p1: real, e2: real, p2: real)
    ensures Plus(SloScore(e1, p1), SloScore(e2, p2)) == SloScore(e1 + e2, p1 + p2)
  {}

  lemma PlusNoScore(a: SloScore)
    ensures Plus(a, NoScore) == a && Plus(NoScore, a) == a
  {}

  /** The part of `earned` passed to a mapping that contributes `contribution` of `maxMarks`. */
  function Share(earned: real, contribution: real, maxMarks: real): real
    requires maxMarks != 0.0
  {
    earned * (contribution / maxMarks)
  }

  /** What one mapping adds to its SLO: the proportional share earned, the whole contribution possible. */
  function Portion(earned: real, maxMarks: real, m: SloMapping): SloScore
    requires maxMarks != 0.0
  {
    SloScore(Share(earned, m.markContribution, maxMarks), m.markContribution)
  }

  /**
    Adds one mapping of a question that earned `earned` of `maxMarks`: the
    mapped SLO gets its portion added to what it already had, every other SLO
    keeps its score, and a new SLO is appended to the key order.
  */
  function AddMapping(t: Tally, earned: real, maxMarks: real, m: SloMapping): (r: Tally)
    requires maxMarks != 0.0
    ensures r.order == if m.sloId in t.scores then t.order else t.order + [m.sloId]
    ensures r.scores.Keys == t.scores.Keys + {m.sloId}
    ensures Get(r, m.sloId) == Plus(Get(t, m.sloId), Portion(earned, maxMarks, m))
    ensures forall s :: s != m.sloId ==> Get(r, s) == Get(t, s)
  {
    var base := if m.sloId in t.scores then t else Tally(t.order + [m.sloId], t.scores[m.sloId := NoScore]);
    var old_ := base.scores[m.sloId];
    Tally(base.order, base.scores[m.sloId := SloScore(old_.earned + Share(earned, m.markContribution, maxMarks), old_.possible + m.markContribution)])
  }

  /** The SLOs a question's mappings name. */
  function SlosOf(ms: seq<SloMapping>): set<SloId> {
    if ms == [] then {} else SlosOf(ms[..|ms| - 1]) + {ms[|ms| - 1].sloId}
  }

  /** Adds all mappings of one question, first to last. */
  function AddMappings(t: Tally, earned: real, maxMarks: real, ms: seq<SloMapping>): (r: Tally)
    requires ms != [] ==> maxMarks != 0.0
    ensures t.order <= r.order
    ensures r.scores.Keys == t.scores.Keys + SlosOf(ms)
  {
    if ms == [] then t
    else AddMapping(AddMappings(t, earned, maxMarks, ms[..|ms| - 1]), earned, maxMarks, ms[|ms| - 1])
  }

  /** Adding a mapping keeps the key order free of repeats and in step with the entries. */
  lemma AddMappingValid(t: Tally, earned: real, maxMarks: real, m: SloMapping)
    requires maxMarks != 0.0 && ValidTally(t)
    ensures ValidTally(AddMapping(t, earned, maxMarks, m))
  {
    var r := AddMapping(t, earned, maxMarks, m);
    if m.sloId !in t.scores {
      forall i, j | 0 <= i < j < |r.order| ensures r.order[i] != r.order[j] {
        if j == |t.order| {
          assert r.order[i] == t.order[i];
        } else {
          assert r.order[i] == t.order[i] && r.order[j] == t.order[j];
        }
      }
    }
  }

  lemma {:induction false} AddMappingsValid(t: Tally, earned: real, maxMarks: real, ms: seq<SloMapping>)
    requires (ms != [] ==> maxMarks != 0.0) && ValidTally(t)
    ensures ValidTally(AddMappings(t, earned, maxMarks, ms))
  {
    if ms != [] {
      AddMappingsValid(t, earned, maxMarks, ms[..|ms| - 1]);
      AddMappingValid(AddMappings(t, earned, maxMarks, ms[..|ms| - 1]), earned, maxMarks, ms[|ms| - 1]);
    }
  }

  /** The mappings stored for a question; none when the query returned nothing. */
  function MappingsOf(db: map<QuestionId, seq<SloMapping>>, id: QuestionId): seq<SloMapping> {
    if id in db then db[id] else []
  }

  /** Every question that has a mapping has non-zero maximum marks to divide by. */
  predicate Divisible(qs: seq<Question>, db: map<QuestionId, seq<SloMapping>>) {
    forall i :: 0 <= i < |qs| ==> MappingsOf(db, qs[i].id) != [] ==> qs[i].maxMarks != 0.0
  }

  /**
    The divisions the scoring loop reaches are defined: a question's maximum
    marks are divided by only when it and all questions before it have
    answers (a missing answer aborts the loop first) and it has a mapping.
  */
  predicate DivisionsDefined(qs: seq<Question>, answers: map<QuestionId, string>, db: map<QuestionId, seq<SloMapping>>) {
    forall i :: 0 <= i < |qs| ==> DivisionDefinedAt(qs, answers, db, i)
  }

  /** The division for question `i` is defined, if the loop gets that far. */
  predicate DivisionDefinedAt(qs: seq<Question>, answers: map<QuestionId, string>, db: map<QuestionId, seq<SloMapping>>, i: nat)
    requires i < |qs|
  {
    Answered(qs[..i + 1], answers) && MappingsOf(db, qs[i].id) != [] ==> qs[i].maxMarks != 0.0
  }

  /** The SLOs that some mapping of some question names. */
  function TouchedSlos(qs: seq<Question>, db: map<QuestionId, seq<SloMapping>>): set<SloId> {
    if qs == [] then {} else TouchedSlos(qs[..|qs| - 1], db) + SlosOf(MappingsOf(db, qs[|qs| - 1].id))
  }

  /**
    The `sloScores` object after the loop over all questions, question `i`
    having earned `g[i]`: it has an entry for each SLO that some mapping
    names, and only for those.
  */
  function TallyOf(qs: seq<Question>, g: seq<real>, db: map<QuestionId, seq<SloMapping>>): (t: Tally)
    requires |g| == |qs| && Divisible(qs, db)
    ensures t.scores.Keys == TouchedSlos(qs, db)
  {
    if qs == [] then EmptyTally
    else
      var q := qs[|qs| - 1];
      AddMappings(TallyOf(qs[..|qs| - 1], g[..|g| - 1], db), g[|g| - 1], q.maxMarks, MappingsOf(db, q.id))
  }

  lemma DivisibleInit(qs: seq<Question>, db: map<QuestionId, seq<SloMapping>>)
    requires qs != [] && Divisible(qs, db)
    ensures Divisible(qs[..|qs| - 1], db)
  {
    forall i | 0 <= i < |qs| - 1 ensures qs[..|qs| - 1][i] == qs[i] {}
  }

  /** The tally lists each of its SLOs exactly once, in first-seen order. */
  lemma {:induction false} TallyOfValid(qs: seq<Question>, g: seq<real>, db: map<QuestionId, seq<SloMapping>>)
    requires |g| == |qs| && Divisible(qs, db)
    ensures ValidTally(TallyOf(qs, g, db))
  {
    if qs != [] {
      var q := qs[|qs| - 1];
      DivisibleInit(qs, db);
      TallyOfValid(qs[..|qs| - 1], g[..|g| - 1], db);
      AddMappingsValid(TallyOf(qs[..|qs| - 1], g[..|g| - 1], db), g[|g| - 1], q.maxMarks, MappingsOf(db, q.id));
    }
  }

  // ---------------------------------------------------------------------------
  // Reference sums: what each SLO should receive, defined without the tally

  /** Sum of the portions one question's mappings hand to `slo`. */
  function PortionsFor(slo: SloId, earned: real, maxMarks: real, ms: seq<SloMapping>): SloScore
    requires ms != [] ==> maxMarks != 0.0
  {
    if ms == [] then NoScore
    else
      var m := ms[|ms| - 1];
      Plus(PortionsFor(slo, earned, maxMarks, ms[..|ms| - 1]), if m.sloId == slo then Portion(earned, maxMarks, m) else NoScore)
  }

  /** Sum of the contributions of one question's mappings to `slo`. */
  function PossibleFor(slo: SloId, ms: seq<SloMapping>): real {
    if ms == [] then 0.0
    else PossibleFor(slo, ms[..|ms| - 1]) + (if ms[|ms| - 1].sloId == slo then ms[|ms| - 1].markContribution else 0.0)
  }

  /** Sum over all questions of the portions handed to `slo`. */
  function TotalFor(slo: SloId, qs: seq<Question>, g: seq<real>, db: map<QuestionId, seq<SloMapping>>): SloScore
    requires |g| == |qs| && Divisible(qs, db)
  {
    if qs == [] then NoScore
    else
      var q := qs[|qs| - 1];
      Plus(TotalFor(slo, qs[..|qs| - 1], g[..|g| - 1], db), PortionsFor(slo, g[|g| - 1], q.maxMarks, MappingsOf(db, q.id)))
  }

  /** Sum over all questions of the contributions to `slo`. */
  function TotalPossibleFor(slo: SloId, qs: seq<Question>, db: map<QuestionId, seq<SloMapping>>): real {
    if qs == [] then 0.0
    else TotalPossibleFor(slo, qs[..|qs| - 1], db) + PossibleFor(slo, MappingsOf(db, qs[|qs| - 1].id))
  }

  lemma {:induction false} AddMappingsSums(t: Tally, earned: real, maxMarks: real, ms: seq<SloMapping>, slo: SloId)
    requires ms != [] ==> maxMarks != 0.0
    ensures Get(AddMappings(t, earned, maxMarks, ms), slo) == Plus(Get(t, slo), PortionsFor(slo, earned, maxMarks, ms))
  {
    if ms != [] {
      var init := ms[..|ms| - 1];
      var m := ms[|ms| - 1];
      AddMappingsSums(t, earned, maxMarks, init, slo);
      PlusAssoc(Get(t, slo), PortionsFor(slo, earned, maxMarks, init), if m.sloId == slo then Portion(earned, maxMarks, m) else NoScore);
    } else {
      PlusNoScore(Get(t, slo));
    }
  }

  /** The possible marks a question hands to `slo` do not depend on the answer. */
  lemma {:induction false} PortionsPossible(slo: SloId, earned: real, maxMarks: real, ms: seq<SloMapping>)
    requires ms != [] ==> maxMarks != 0.0
    ensures PortionsFor(slo, earned, maxMarks, ms).possible == PossibleFor(slo, ms)
  {
    if ms != [] {
      PortionsPossible(slo, earned, maxMarks, ms[..|ms| - 1]);
    }
  }

  /**
    The entry of each SLO is the sum over all questions of the portions
    handed to it, so contributions from different questions accumulate.
  */
  lemma {:induction false} TallySums(qs: seq<Question>, g: seq<real>, db: map<QuestionId, seq<SloMapping>>, slo: SloId)
    requires |g| == |qs| && Divisible(qs, db)
    ensures Get(TallyOf(qs, g, db), slo) == TotalFor(slo, qs, g, db)
  {
    if qs != [] {
      var q := qs[|qs| - 1];
      DivisibleInit(qs, db);
      TallySums(qs[..|qs| - 1], g[..|g| - 1], db, slo);
      AddMappingsSums(TallyOf(qs[..|qs| - 1], g[..|g| - 1], db), g[|g| - 1], q.maxMarks, MappingsOf(db, q.id), slo);
    }
  }

  /**
    An SLO's possible marks are the sum of every contribution to it, whatever
    the questions earned.
  */
  lemma {:induction false} PossibleIgnoresGrades(qs: seq<Question>, g: seq<real>, db: map<QuestionId, seq<SloMapping>>, slo: SloId)
    requires |g| == |qs| && Divisible(qs, db)
    ensures TotalFor(slo, qs, g, db).possible == TotalPossibleFor(slo, qs, db)
  {
    if qs != [] {
      var q := qs[|qs| - 1];
      DivisibleInit(qs, db);
      PossibleIgnoresGrades(qs[..|qs| - 1], g[..|g| - 1], db, slo);
      PortionsPossible(slo, g[|g| - 1], q.maxMarks, MappingsOf(db, q.id));
    }
  }

  // ---------------------------------------------------------------------------
  // Conservation: the proportional split neither gains nor loses marks

  function SumContributions(ms: seq<SloMapping>): real {
    if ms == [] then 0.0 else SumContributions(ms[..|ms| - 1]) + ms[|ms| - 1].markContribution
  }

  /** Sum of the portions a question hands to all its mappings. */
  function Allocated(earned: real, maxMarks: real, ms: seq<SloMapping>): SloScore
    requires ms != [] ==> maxMarks != 0.0
  {
    if ms == [] then NoScore
    else Plus(Allocated(earned, maxMarks, ms[..|ms| - 1]), Portion(earned, maxMarks, ms[|ms| - 1]))
  }

  /** Shares of the same earned marks over the same maximum add up like their contributions. */
  lemma ShareAdds(earned: real, a: real, c: real, maxMarks: real)
    requires maxMarks != 0.0
    ensures Share(earned, a, maxMarks) + Share(earned, c, maxMarks) == Share(earned, a + c, maxMarks)
  {
    assert a / maxMarks + c / maxMarks == (a + c) / maxMarks;
  }

  /** The share of a contribution equal to the whole maximum is all of the earned marks. */
  lemma ShareOfWhole(earned: real, maxMarks: real)
    requires maxMarks != 0.0
    ensures Share(earned, maxMarks, maxMarks) == earned
  {
    assert maxMarks / maxMarks == 1.0;
  }

  /** The earned shares add up to the share of the total contribution. */
  lemma {:induction false} AllocatedIsProportional(earned: real, maxMarks: real, ms: seq<SloMapping>)
    requires maxMarks != 0.0
    ensures Allocated(earned, maxMarks, ms) == SloScore(Share(earned, SumContributions(ms), maxMarks), SumContributions(ms))
  {
    if ms != [] {
      var init := ms[..|ms| - 1];
      var c := ms[|ms| - 1].markContribution;
      AllocatedIsProportional(earned, maxMarks, init);
      ShareAdds(earned, SumContributions(init), c, maxMarks);
      PlusScores(Share(earned, SumContributions(init), maxMarks), SumContributions(init), Share(earned, c, maxMarks), c);
    } else {
      assert Share(earned, 0.0, maxMarks) == 0.0;
    }
  }

  /**
    When a question's contributions add up to its maximum marks, the shares
    it allocates add up to exactly its earned marks (all or nothing) and the
    possible marks it allocates to exactly its maximum marks.
  */
  lemma AllocationConserves(earned: real, maxMarks: real, ms: seq<SloMapping>)
    requires maxMarks != 0.0 && SumContributions(ms) == maxMarks
    ensures Allocated(earned, maxMarks, ms) == SloScore(earned, maxMarks)
  {
    AllocatedIsProportional(earned, maxMarks, ms);
    ShareOfWhole(earned, maxMarks);
  }

  /** Component-wise sum of the scores of the keys in `order`. */
  function SumOver(order: seq<SloId>, t: Tally): SloScore {
    if order == [] then NoScore
    else Plus(SumOver(order[..|order| - 1], t), Get(t, order[|order| - 1]))
  }

  /** The sum of all entries of a tally. */
  function TallyTotal(t: Tally): SloScore {
    SumOver(t.order, t)
  }

  lemma {:induction false} SumOverOtherKey(order: seq<SloId>, t: Tally, r: Tally, k: SloId)
    requires k !in order
    requires forall s :: s != k ==> Get(r, s) == Get(t, s)
    ensures SumOver(order, r) == SumOver(order, t)
  {
    if order != [] {
      SumOverOtherKey(order[..|order| - 1], t, r, k);
    }
  }

  lemma {:induction false} SumOverAdd(order: seq<SloId>, t: Tally, r: Tally, k: SloId, d: SloScore)
    requires Distinct(order) && k in order
    requires Get(r, k) == Plus(Get(t, k), d)
    requires forall s :: s != k ==> Get(r, s) == Get(t, s)
    ensures SumOver(order, r) == Plus(SumOver(order, t), d)
  {
    var init := order[..|order| - 1];
    var last := order[|order| - 1];
    if last == k {
      assert k !in init by {
        forall i | 0 <= i < |init| ensures init[i] != k {
          assert init[i] == order[i];
        }
      }
      SumOverOtherKey(init, t, r, k);
      PlusAssoc(SumOver(init, t), Get(t, k), d);
    } else {
      assert k in init by {
        var i :| 0 <= i < |order| && order[i] == k;
        assert init[i] == k;
      }
      assert Distinct(init) by {
        forall i, j | 0 <= i < j < |init| ensures init[i] != init[j] {
          assert init[i] == order[i] && init[j] == order[j];
        }
      }
      SumOverAdd(init, t, r, k, d);
      PlusSwap(SumOver(init, t), Get(t, last), d);
    }
  }

  lemma AddMappingTotal(t: Tally, earned: real, maxMarks: real, m: SloMapping)
    requires maxMarks != 0.0 && ValidTally(t)
    ensures TallyTotal(AddMapping(t, earned, maxMarks, m)) == Plus(TallyTotal(t), Portion(earned, maxMarks, m))
  {
    var r := AddMapping(t, earned, maxMarks, m);
    var k := m.sloId;
    var p := Portion(earned, maxMarks, m);
    if k in t.scores {
      SumOverAdd(t.order, t, r, k, p);
    } else {
      assert k !in t.order;
      SumOverOtherKey(t.order, t, r, k);
      PlusNoScore(p);
      TotalWithNewKey(t, r, k, p);
    }
  }

  /** A tally that gains the entry `k` with score `p` at the end of its order gains `p` in total. */
  lemma TotalWithNewKey(t: Tally, r: Tally, k: SloId, p: SloScore)
    requires r.order == t.order + [k]
    requires SumOver(t.order, r) == SumOver(t.order, t)
    requires Get(r, k) == p
    ensures TallyTotal(r) == Plus(TallyTotal(t), p)
  {
    var n := |r.order| - 1;
    assert r.order[..n] == t.order;
  }

  lemma {:induction false} AddMappingsTotal(t: Tally, earned: real, maxMarks: real, ms: seq<SloMapping>)
    requires ms != [] ==> maxMarks != 0.0
    requires ValidTally(t)
    ensures TallyTotal(AddMappings(t, earned, maxMarks, ms)) == Plus(TallyTotal(t), Allocated(earned, maxMarks, ms))
  {
    if ms != [] {
      var init := ms[..|ms| - 1];
      AddMappingsTotal(t, earned, maxMarks, init);
      AddMappingsValid(t, earned, maxMarks, init);
      AddMappingTotal(AddMappings(t, earned, maxMarks, init), earned, maxMarks, ms[|ms| - 1]);
      PlusAssoc(TallyTotal(t), Allocated(earned, maxMarks, init), Portion(earned, maxMarks, ms[|ms| - 1]));
    } else {
      PlusNoScore(TallyTotal(t));
    }
  }

  function SumMaxMarks(qs: seq<Question>): real {
    if qs == [] then 0.0 else SumMaxMarks(qs[..|qs| - 1]) + qs[|qs| - 1].maxMarks
  }

  /** Every question's mapped contributions add up to its maximum marks. */
  predicate FullyMapped(qs: seq<Question>, db: map<QuestionId, seq<SloMapping>>) {
    forall i :: 0 <= i < |qs| ==> SumContributions(MappingsOf(db, qs[i].id)) == qs[i].maxMarks
  }

  /** One fully mapped question adds its earned and its maximum marks to the tally's total. */
  lemma ConservesStep(before: Tally, e: real, maxMarks: real, ms: seq<SloMapping>, raw: real, max: real)
    requires ValidTally(before) && TallyTotal(before) == SloScore(raw, max)
    requires ms == [] ==> maxMarks == 0.0 && e == 0.0
    requires ms != [] ==> maxMarks != 0.0 && SumContributions(ms) == maxMarks
    ensures TallyTotal(AddMappings(before, e, maxMarks, ms)) == SloScore(raw + e, max + maxMarks)
  {
    AddMappingsTotal(before, e, maxMarks, ms);
    if ms != [] {
      AllocationConserves(e, maxMarks, ms);
    }
    PlusScores(raw, max, e, maxMarks);
  }

  lemma ConservesLast(qs: seq<Question>, g: seq<real>, db: map<QuestionId, seq<SloMapping>>)
    requires qs != [] && |g| == |qs| && Divisible(qs, db) && Divisible(qs[..|qs| - 1], db)
    requires ValidTally(TallyOf(qs[..|qs| - 1], g[..|g| - 1], db))
    requires TallyTotal(TallyOf(qs[..|qs| - 1], g[..|g| - 1], db)) == SloScore(Total(g[..|g| - 1]), SumMaxMarks(qs[..|qs| - 1]))
    requires var q := qs[|qs| - 1]; SumContributions(MappingsOf(db, q.id)) == q.maxMarks
    requires g[|g| - 1] == qs[|qs| - 1].maxMarks || g[|g| - 1] == 0.0
    ensures TallyTotal(TallyOf(qs, g, db)) == SloScore(Total(g), SumMaxMarks(qs))
  {
    var q := qs[|qs| - 1];
    var before := TallyOf(qs[..|qs| - 1], g[..|g| - 1], db);
    var after := AddMappings(before, g[|g| - 1], q.maxMarks, MappingsOf(db, q.id));
    ConservesStep(before, g[|g| - 1], q.maxMarks, MappingsOf(db, q.id), Total(g[..|g| - 1]), SumMaxMarks(qs[..|qs| - 1]));
    assert TallyOf(qs, g, db) == after;
    assert Total(g) == Total(g[..|g| - 1]) + g[|g| - 1];
    assert SumMaxMarks(qs) == SumMaxMarks(qs[..|qs| - 1]) + q.maxMarks;
  }

  /**
    When every question is fully mapped and earned all or nothing, the
    breakdown distributes exactly the raw score as earned marks and exactly
    the sum of the maximum marks as possible marks, summed over all SLOs.
  */
  lemma {:induction false} TallyConservesMarks(qs: seq<Question>, g: seq<real>, db: map<QuestionId, seq<SloMapping>>)
    requires Divisible(qs, db) && FullyMapped(qs, db) && AllOrNothing(qs, g)
    ensures TallyTotal(TallyOf(qs, g, db)) == SloScore(Total(g), SumMaxMarks(qs))
  {
    if qs != [] {
      var init := qs[..|qs| - 1];
      var q := qs[|qs| - 1];
      var e := g[|g| - 1];
      assert Divisible(init, db) && FullyMapped(init, db) && AllOrNothing(init, g[..|g| - 1]) by {
        forall i | 0 <= i < |init| ensures init[i] == qs[i] && g[..|g| - 1][i] == g[i] {}
      }
      assert SumContributions(MappingsOf(db, q.id)) == q.maxMarks;
      TallyConservesMarks(init, g[..|g| - 1], db);
      TallyOfValid(init, g[..|g| - 1], db);
      ConservesLast(qs, g, db);
    } else {
      assert TallyOf(qs, g, db) == EmptyTally;
    }
  }

  /** The same for the marks the answers actually earned. */
  lemma ScoreConservesMarks(qs: seq<Question>, answers: map<QuestionId, string>, db: map<QuestionId, seq<SloMapping>>)
    requires Answered(qs, answers) && Divisible(qs, db) && FullyMapped(qs, db)
    ensures TallyTotal(TallyOf(qs, Grades(qs, answers), db)) == SloScore(Total(Grades(qs, answers)), SumMaxMarks(qs))
  {
    TallyConservesMarks(qs, Grades(qs, answers), db);
  }

  // ---------------------------------------------------------------------------
  // The scoring loop

  datatype ScoreError = MissingAnswer(id: QuestionId)

  lemma AnsweredStep(qs: seq<Question>, i: nat, answers: map<QuestionId, string>)
    requires i < |qs| && Answered(qs[..i], answers) && qs[i].id in answers
    ensures Answered(qs[..i + 1], answers)
  {
    var done := qs[..i + 1];
    forall k | 0 <= k < |done| ensures done[k].id in answers {
      if k < i { assert done[k] == qs[..i][k]; }
    }
  }

  lemma DivisibleStep(qs: seq<Question>, i: nat, db: map<QuestionId, seq<SloMapping>>)
    requires i < |qs| && Divisible(qs[..i], db)
    requires MappingsOf(db, qs[i].id) != [] ==> qs[i].maxMarks != 0.0
    ensures Divisible(qs[..i + 1], db)
  {
    var done := qs[..i + 1];
    forall k | 0 <= k < |done| ensures MappingsOf(db, done[k].id) != [] ==> done[k].maxMarks != 0.0 {
      if k < i { assert done[k] == qs[..i][k]; }
    }
  }

  lemma GradesStep(qs: seq<Question>, i: nat, answers: map<QuestionId, string>)
    requires i < |qs| && Answered(qs[..i + 1], answers)
    ensures Answered(qs[..i], answers)
    ensures Grades(qs[..i + 1], answers) == Grades(qs[..i], answers) + [EarnedMarks(qs[i], answers[qs[i].id])]
    ensures Total(Grades(qs[..i + 1], answers)) == Total(Grades(qs[..i], answers)) + EarnedMarks(qs[i], answers[qs[i].id])
  {
    assert qs[..i + 1][..i] == qs[..i];
    var g := Grades(qs[..i + 1], answers);
    assert g[..i] == Grades(qs[..i], answers);
  }

  lemma TallyStep(qs: seq<Question>, g: seq<real>, i: nat, db: map<QuestionId, seq<SloMapping>>)
    requires i < |qs| && |g| == i + 1 && Divisible(qs[..i + 1], db)
    ensures Divisible(qs[..i], db)
    ensures TallyOf(qs[..i + 1], g, db) == AddMappings(TallyOf(qs[..i], g[..i], db), g[i], qs[i].maxMarks, MappingsOf(db, qs[i].id))
  {
    assert qs[..i + 1][..i] == qs[..i];
    DivisibleInit(qs[..i + 1], db);
  }

  /** One more question scored: the raw score and the tally each take that question's share. */
  lemma ScoreStep(qs: seq<Question>, answers: map<QuestionId, string>, db: map<QuestionId, seq<SloMapping>>, i: nat)
    requires i < |qs| && DivisionsDefined(qs, answers, db)
    requires Answered(qs[..i], answers) && Divisible(qs[..i], db) && qs[i].id in answers
    ensures Answered(qs[..i + 1], answers) && Divisible(qs[..i + 1], db)
    ensures MappingsOf(db, qs[i].id) != [] ==> qs[i].maxMarks != 0.0
    ensures Total(Grades(qs[..i + 1], answers)) == Total(Grades(qs[..i], answers)) + EarnedMarks(qs[i], answers[qs[i].id])
    ensures TallyOf(qs[..i + 1], Grades(qs[..i + 1], answers), db)
         == AddMappings(TallyOf(qs[..i], Grades(qs[..i], answers), db), EarnedMarks(qs[i], answers[qs[i].id]),
                        qs[i].maxMarks, MappingsOf(db, qs[i].id))
  {
    AnsweredStep(qs, i, answers);
    assert DivisionDefinedAt(qs, answers, db, i);
    DivisibleStep(qs, i, db);
    GradesStep(qs, i, answers);
    var g := Grades(qs[..i + 1], answers);
    TallyStep(qs, g, i, db);
    assert g[..i] == Grades(qs[..i], answers);
  }

  /** The check of one answer against the key: full marks when they match once normalised. */
  method GradeAnswer(question: Question, userAnswer: string) returns (earnedMarks: real)
    ensures earnedMarks == EarnedMarks(question, userAnswer)
  {
    var isCorrect := Normalize(userAnswer) == Normalize(question.correctAnswer);
    earnedMarks := if isCorrect then question.maxMarks else 0.0;
  }

  /**
    One pass of the submit handler's inner loop: the mapping's SLO gets an
    entry when missing, then the proportional share of the earned marks and
    the whole contribution are added to it.
  */
  method AllocateMapping(t: Tally, earnedMarks: real, maxMarks: real, mapping: SloMapping) returns (t': Tally)
    requires maxMarks != 0.0
    ensures t' == AddMapping(t, earnedMarks, maxMarks, mapping)
  {
    t' := t;
    var proportion := mapping.markContribution / maxMarks;
    var slo := mapping.sloId;
    if slo !in t'.scores {
      t' := Tally(t'.order + [slo], t'.scores[slo := SloScore(0.0, 0.0)]);
    }
    var s := t'.scores[slo];
    assert s == (if slo in t.scores then t else Tally(t.order + [slo], t.scores[slo := NoScore])).scores[slo];
    assert earnedMarks * proportion == Share(earnedMarks, mapping.markContribution, maxMarks);
    t' := Tally(t'.order, t'.scores[slo := SloScore(s.earned + earnedMarks * proportion, s.possible + mapping.markContribution)]);
  }

  /** The inner loop of the submit handler: each mapping of the question in turn. */
  method AllocateMarks(sloScores: Tally, earnedMarks: real, maxMarks: real, mappings: seq<SloMapping>)
    returns (t: Tally)
    requires mappings != [] ==> maxMarks != 0.0
    ensures t == AddMappings(sloScores, earnedMarks, maxMarks, mappings)
  {
    t := sloScores;
    var j := 0;
    while j < |mappings|
      invariant 0 <= j <= |mappings|
      invariant t == AddMappings(sloScores, earnedMarks, maxMarks, mappings[..j])
    {
      assert mappings[..j + 1][..j] == mappings[..j];
      t := AllocateMapping(t, earnedMarks, maxMarks, mappings[j]);
      j := j + 1;
    }
    assert mappings[..j] == mappings;
  }

  /**
    One pass of the outer loop over an answered question: its earned marks
    are added to the raw score and its mappings' portions to the tally, so
    both then cover one more question.
  */
  method ScoreQuestion(qs: seq<Question>, answers: map<QuestionId, string>, db: map<QuestionId, seq<SloMapping>>,
                       i: nat, totalScore: real, sloScores: Tally)
    returns (totalScore': real, sloScores': Tally)
    requires i < |qs| && DivisionsDefined(qs, answers, db)
    requires Answered(qs[..i], answers) && Divisible(qs[..i], db) && qs[i].id in answers
    requires totalScore == Total(Grades(qs[..i], answers))
    requires sloScores == TallyOf(qs[..i], Grades(qs[..i], answers), db)
    ensures Answered(qs[..i + 1], answers) && Divisible(qs[..i + 1], db)
    ensures totalScore' == Total(Grades(qs[..i + 1], answers))
    ensures sloScores' == TallyOf(qs[..i + 1], Grades(qs[..i + 1], answers), db)
  {
    var question := qs[i];
    var earnedMarks := GradeAnswer(question, answers[question.id]);
    var mappings := MappingsOf(db, question.id);
    ScoreStep(qs, answers, db, i);
    totalScore' := totalScore + earnedMarks;
    sloScores' := AllocateMarks(sloScores, earnedMarks, question.maxMarks, mappings);
  }

  /**
    The scoring part of the submit handler: walks the questions in order,
    adding each one's earned marks to the raw score and its portions to the
    tally. An answer missing for some question makes the handler throw (it
    calls `trim` on `undefined`), which is reported here as an error.
  */
  method ScoreSubmission(qs: seq<Question>, answers: map<QuestionId, string>, db: map<QuestionId, seq<SloMapping>>)
    returns (r: Result<Scored, ScoreError>)
    requires DivisionsDefined(qs, answers, db)
    ensures r.Err? <==> !Answered(qs, answers)
    ensures r.Err? ==> exists i :: 0 <= i < |qs| && qs[i].id !in answers && r.error == MissingAnswer(qs[i].id)
    ensures r.Ok? ==> Divisible(qs, db)
    ensures r.Ok? ==> r.value == Scored(Total(Grades(qs, answers)), TallyOf(qs, Grades(qs, answers), db))
  {
    var totalScore := 0.0;
    var sloScores := EmptyTally;
    var i := 0;
    while i < |qs|
      invariant 0 <= i <= |qs|
      invariant Answered(qs[..i], answers) && Divisible(qs[..i], db)
      invariant totalScore == Total(Grades(qs[..i], answers))
      invariant sloScores == TallyOf(qs[..i], Grades(qs[..i], answers), db)
    {
      var question := qs[i];
      if question.id !in answers {
        assert !Answered(qs, answers);
        return Err(MissingAnswer(question.id));
      }
      totalScore, sloScores := ScoreQuestion(qs, answers, db, i, totalScore, sloScores);
      i := i + 1;
    }
    assert qs[..i] == qs;
    r := Ok(Scored(totalScore, sloScores));
  }

  // ---------------------------------------------------------------------------
  // Worked scenarios

  /** Padding and case do not matter; a different word earns nothing. */
  lemma ScenarioGrades()
    ensures var q := Question("q1", "Paris", 4.0);
            && Grades([q], map["q1" := " paris "]) == [4.0]
            && Grades([q], map["q1" := "Rome"]) == [0.0]
  {
    assert Trim(" paris ") == "paris" && Trim("Paris") == "Paris" && Trim("Rome") == "Rome";
    assert ToLower("Paris") == "paris" == ToLower("paris");
    assert ToLower("Rome")[0] == 'r';
  }

  /**
    A 4-mark question mapped 3 to A and 1 to B: answered correctly, A gets
    3 of 3 and B 1 of 1; answered wrongly, A gets 0 of 3 and B 0 of 1.
  */
  lemma ScenarioSplitAcrossTwoSlos()
    ensures var qs := [Question("q1", "Paris", 4.0)];
            var db := map["q1" := [SloMapping("A", 3.0), SloMapping("B", 1.0)]];
            && Get(TallyOf(qs, [4.0], db), "A") == SloScore(3.0, 3.0)
            && Get(TallyOf(qs, [4.0], db), "B") == SloScore(1.0, 1.0)
            && Get(TallyOf(qs, [0.0], db), "A") == SloScore(0.0, 3.0)
            && Get(TallyOf(qs, [0.0], db), "B") == SloScore(0.0, 1.0)
  {
    var q := Question("q1", "Paris", 4.0);
    var a, b := SloMapping("A", 3.0), SloMapping("B", 1.0);
    var db := map["q1" := [a, b]];
    SplitOneQuestion(q, a, b, db, 4.0);
    SplitOneQuestion(q, a, b, db, 0.0);
    assert Share(4.0, 3.0, 4.0) == 3.0 && Share(4.0, 1.0, 4.0) == 1.0;
    assert Share(0.0, 3.0, 4.0) == 0.0 && Share(0.0, 1.0, 4.0) == 0.0;
  }

  /** One question with two mappings to different SLOs: each SLO gets exactly its own portion. */
  lemma SplitOneQuestion(q: Question, a: SloMapping, b: SloMapping, db: map<QuestionId, seq<SloMapping>>, e: real)
    requires q.maxMarks != 0.0 && a.sloId != b.sloId && MappingsOf(db, q.id) == [a, b]
    ensures Get(TallyOf([q], [e], db), a.sloId) == Portion(e, q.maxMarks, a)
    ensures Get(TallyOf([q], [e], db), b.sloId) == Portion(e, q.maxMarks, b)
  {
    var qs := [q];
    assert qs[..0] == [] && [e][..0] == [] && [e][0] == e;
    assert [a, b][..1] == [a] && [a][..0] == [];
    assert TallyOf(qs[..0], [e][..0], db) == EmptyTally;
    assert TallyOf(qs, [e], db) == AddMappings(EmptyTally, e, q.maxMarks, [a, b]);
    var t1 := AddMapping(EmptyTally, e, q.maxMarks, a);
    assert AddMappings(EmptyTally, e, q.maxMarks, [a]) == t1;
    PlusNoScore(Portion(e, q.maxMarks, a));
    PlusNoScore(Portion(e, q.maxMarks, b));
  }
}
