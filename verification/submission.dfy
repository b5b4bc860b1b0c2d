/**
  The submit handler of the test page: the completeness check, the scoring
  pass, the `test_attempts` insert and the read-modify-write of one running
  `slo_performance` row per (student, SLO) pair touched by the attempt.
*/
module Submission {
  import opened Wrappers
  import opened Levels
  import opened Scoring

  type StudentId = string
  type AssessmentId = string

  /** The `slo_performance` rows are identified by the pair (student, SLO). */
  type Key = (StudentId, SloId)

  /** A `slo_performance` row: running totals, and the percentage and level derived from them. */
  datatype PerformanceRow = PerformanceRow(id: nat, earned: real, possible: real, percentage: real, level: Level)

  /** A `test_attempts` row. */
  datatype Attempt = Attempt(
    student: StudentId,
    assessment: AssessmentId,
    answers: map<QuestionId, string>,
    rawScore: real,
    totalPossible: real,
    breakdown: Tally)

  /** The performance table as a value: its rows and the id the next insert receives. */
  datatype Table = Table(rows: map<Key, PerformanceRow>, nextId: nat)

  /**
    How a submission ends: refused by the completeness check, failed (an
    exception before anything was written), or stored.
  */
  datatype Outcome = Incomplete | Failed | Submitted

  /** The totals stored for `key`, zero when the student has no row for that SLO yet. */
  function Previous(rows: map<Key, PerformanceRow>, key: Key): (prev: SloScore)
    ensures key !in rows ==> prev == NoScore
    ensures key in rows ==> prev.earned == rows[key].earned && prev.possible == rows[key].possible
  {
    if key in rows then SloScore(rows[key].earned, rows[key].possible) else NoScore
  }

  /** The totals of a row as a score pair. */
  function Totals(row: PerformanceRow): SloScore {
    SloScore(row.earned, row.possible)
  }

  /** The percentage of a row is its earned share of its possible marks, and its level follows from the percentage. */
  predicate Consistent(row: PerformanceRow) {
    && row.possible != 0.0
    && row.percentage == row.earned / row.possible * 100.0
    && row.level == GetMasteryLevel(row.percentage)
  }

  /**
    The row written for an SLO: the previous totals plus this attempt's
    delta, with percentage and level recomputed from the new totals.
  */
  function Merged(prev: SloScore, delta: SloScore, id: nat): (row: PerformanceRow)
    requires prev.possible + delta.possible != 0.0
    ensures row.id == id && Totals(row) == Plus(prev, delta)
    ensures Consistent(row)
  {
    var earned := prev.earned + delta.earned;
    var possible := prev.possible + delta.possible;
    var percentage := earned / possible * 100.0;
    PerformanceRow(id, earned, possible, percentage, GetMasteryLevel(percentage))
  }

  /** Row ids are below the next id to hand out, and no two rows share one. */
  predicate ValidTable(t: Table) {
    && (forall k :: k in t.rows ==> t.rows[k].id < t.nextId)
    && (forall k1, k2 :: k1 in t.rows && k2 in t.rows && k1 != k2 ==> t.rows[k1].id != t.rows[k2].id)
  }

  /**
    Writes one SLO's delta for a student: the existing row is updated in
    place and keeps its id, otherwise a row with a fresh id is inserted; no
    other row changes.
  */
  function Upsert(t: Table, student: StudentId, slo: SloId, delta: SloScore): (r: Table)
    requires Previous(t.rows, (student, slo)).possible + delta.possible != 0.0
    ensures r.rows.Keys == t.rows.Keys + {(student, slo)}
    ensures Totals(r.rows[(student, slo)]) == Plus(Previous(t.rows, (student, slo)), delta)
    ensures Consistent(r.rows[(student, slo)])
    ensures (student, slo) in t.rows ==> r.rows[(student, slo)].id == t.rows[(student, slo)].id && r.nextId == t.nextId
    ensures (student, slo) !in t.rows ==> r.rows[(student, slo)].id == t.nextId && r.nextId == t.nextId + 1
    ensures forall k :: k in t.rows && k != (student, slo) ==> r.rows[k] == t.rows[k]
  {
    var key := (student, slo);
    if key in t.rows then
      Table(t.rows[key := Merged(Previous(t.rows, key), delta, t.rows[key].id)], t.nextId)
    else
      Table(t.rows[key := Merged(Previous(t.rows, key), delta, t.nextId)], t.nextId + 1)
  }

  /** Every SLO in `order` has a non-zero new possible total to divide by. */
  predicate UpsertsDefined(t: Table, student: StudentId, order: seq<SloId>, tally: Tally) {
    forall i :: 0 <= i < |order| ==> Previous(t.rows, (student, order[i])).possible + Get(tally, order[i]).possible != 0.0
  }

  /** The key set of the rows for `student` and the SLOs in `order`. */
  function KeysFor(student: StudentId, order: seq<SloId>): (ks: set<Key>)
    ensures forall k :: k in ks <==> k.0 == student && k.1 in order
  {
    set s | s in order :: (student, s)
  }

  /** The upsert loop over the entries of the breakdown, in key order. */
  function Upserts(t: Table, student: StudentId, order: seq<SloId>, tally: Tally): (r: Table)
    requires Distinct(order) && UpsertsDefined(t, student, order, tally)
    ensures r.rows.Keys == t.rows.Keys + KeysFor(student, order)
    ensures forall k :: k in t.rows && k !in KeysFor(student, order) ==> r.rows[k] == t.rows[k]
  {
    if order == [] then t
    else
      var init := order[..|order| - 1];
      var slo := order[|order| - 1];
      DistinctLast(order);
      UpsertsPrefix(t, student, order, tally, |order| - 1);
      var mid := Upserts(t, student, init, tally);
      Upsert(mid, student, slo, Get(tally, slo))
  }

  /**
    After the loop, each SLO of the breakdown has a row holding its previous
    totals plus the SLO's delta, with a consistent percentage and level.
  */
  lemma {:induction false} UpsertsEffect(t: Table, student: StudentId, order: seq<SloId>, tally: Tally, i: nat)
    requires Distinct(order) && UpsertsDefined(t, student, order, tally) && i < |order|
    ensures (student, order[i]) in Upserts(t, student, order, tally).rows
    ensures Totals(Upserts(t, student, order, tally).rows[(student, order[i])]) == Plus(Previous(t.rows, (student, order[i])), Get(tally, order[i]))
    ensures Consistent(Upserts(t, student, order, tally).rows[(student, order[i])])
  {
    var n := |order| - 1;
    if i < n {
      UpsertsKeepEarlier(t, student, order, tally, i);
      UpsertsEffect(t, student, order[..n], tally, i);
    } else {
      UpsertsLast(t, student, order, tally);
    }
  }

  /** The last SLO of the loop gets its previous totals plus its delta. */
  lemma UpsertsLast(t: Table, student: StudentId, order: seq<SloId>, tally: Tally)
    requires Distinct(order) && UpsertsDefined(t, student, order, tally) && order != []
    ensures var key := (student, order[|order| - 1]);
            var r := Upserts(t, student, order, tally);
            && key in r.rows
            && Totals(r.rows[key]) == Plus(Previous(t.rows, key), Get(tally, key.1))
            && Consistent(r.rows[key])
  {
    var n := |order| - 1;
    UpsertsKeepNext(t, student, order, tally, n);
  }

  /** An SLO before the last keeps the row the earlier iterations wrote for it. */
  lemma UpsertsKeepEarlier(t: Table, student: StudentId, order: seq<SloId>, tally: Tally, i: nat)
    requires Distinct(order) && UpsertsDefined(t, student, order, tally) && i < |order| - 1
    ensures Distinct(order[..|order| - 1]) && UpsertsDefined(t, student, order[..|order| - 1], tally)
    ensures order[..|order| - 1][i] == order[i]
    ensures var key := (student, order[i]);
            var mid := Upserts(t, student, order[..|order| - 1], tally);
            var r := Upserts(t, student, order, tally);
            (key in r.rows <==> key in mid.rows) && (key in mid.rows ==> r.rows[key] == mid.rows[key])
  {
    var n := |order| - 1;
    DistinctLast(order);
    UpsertsPrefix(t, student, order, tally, n);
    assert order[i] != order[n];
  }

  /** Inserted rows get ids never used before, so ids stay unique. */
  lemma UpsertValid(t: Table, student: StudentId, slo: SloId, delta: SloScore)
    requires ValidTable(t) && Previous(t.rows, (student, slo)).possible + delta.possible != 0.0
    ensures ValidTable(Upsert(t, student, slo, delta))
  {
    var r := Upsert(t, student, slo, delta);
    forall k1, k2 | k1 in r.rows && k2 in r.rows && k1 != k2 ensures r.rows[k1].id != r.rows[k2].id {
      if k1 != (student, slo) && k2 != (student, slo) {
        assert r.rows[k1] == t.rows[k1] && r.rows[k2] == t.rows[k2];
      }
    }
  }

  lemma {:induction false} UpsertsValid(t: Table, student: StudentId, order: seq<SloId>, tally: Tally)
    requires Distinct(order) && UpsertsDefined(t, student, order, tally) && ValidTable(t)
    ensures ValidTable(Upserts(t, student, order, tally))
  {
    if order != [] {
      var init := order[..|order| - 1];
      var slo := order[|order| - 1];
      DistinctLast(order);
      UpsertsPrefix(t, student, order, tally, |order| - 1);
      UpsertsValid(t, student, init, tally);
      var mid := Upserts(t, student, init, tally);
      UpsertValid(mid, student, slo, Get(tally, slo));
    }
  }

  /**
    Two attempts touching the same SLO leave the same totals, percentage and
    level as one attempt carrying both deltas: contributions accumulate.
  */
  lemma MergeAccumulates(prev: SloScore, d1: SloScore, d2: SloScore, id1: nat, id2: nat)
    requires prev.possible + d1.possible != 0.0
    requires prev.possible + d1.possible + d2.possible != 0.0
    ensures var once := Merged(prev, d1, id1);
            var twice := Merged(Totals(once), d2, id2);
            twice == Merged(prev, Plus(d1, d2), id2)
  {
    PlusAssoc(prev, d1, d2);
  }

  /** 40 of 50 before, 10 of 10 in this attempt: 50 of 60 is 83.3 per cent, satisfactory. */
  lemma ScenarioSatisfactory()
    ensures var row := Merged(SloScore(40.0, 50.0), SloScore(10.0, 10.0), 7);
            && row.earned == 50.0 && row.possible == 60.0 && row.level == Satisfactory
  {
    var row := Merged(SloScore(40.0, 50.0), SloScore(10.0, 10.0), 7);
    assert row.percentage == 50.0 / 60.0 * 100.0;
  }

  // ---------------------------------------------------------------------------
  // The completeness check

  /** The ids of the questions, as a set. */
  function IdsOf(qs: seq<Question>): (ids: set<QuestionId>)
    ensures forall i :: 0 <= i < |qs| ==> qs[i].id in ids
    ensures forall id :: id in ids ==> exists i :: 0 <= i < |qs| && qs[i].id == id
  {
    if qs == [] then {} else IdsOf(qs[..|qs| - 1]) + {qs[|qs| - 1].id}
  }

  predicate DistinctIds(qs: seq<Question>) {
    forall i, j :: 0 <= i < j < |qs| ==> qs[i].id != qs[j].id
  }

  lemma {:induction false} IdsOfSize(qs: seq<Question>)
    requires DistinctIds(qs)
    ensures |IdsOf(qs)| == |qs|
  {
    if qs != [] {
      var init := qs[..|qs| - 1];
      assert DistinctIds(init) by {
        forall i, j | 0 <= i < j < |init| ensures init[i].id != init[j].id {
          assert init[i] == qs[i] && init[j] == qs[j];
        }
      }
      IdsOfSize(init);
      forall i | 0 <= i < |init| ensures init[i].id != qs[|qs| - 1].id {
        assert init[i] == qs[i];
      }
    }
  }

  /**
    The page only ever stores answers under the ids of the test's questions,
    so when their count matches the number of (distinct) questions, every
    question has an answer and the scoring pass cannot fail.
  */
  lemma CountsMatchMeansAnswered(qs: seq<Question>, answers: map<QuestionId, string>)
    requires DistinctIds(qs) && answers.Keys <= IdsOf(qs) && |answers| == |qs|
    ensures Answered(qs, answers)
  {
    IdsOfSize(qs);
    var missing := IdsOf(qs) - answers.Keys;
    assert |IdsOf(qs)| == |answers.Keys| + |missing|;
    assert missing == {};
  }

  /**
    The count alone does not prove completeness: an answer stored under a
    foreign key makes the count match while a question is left unanswered.
  */
  lemma CountsMatchIsNotEnough()
    ensures var qs := [Question("q1", "a", 1.0)];
            var answers := map["other" := "a"];
            |answers| == |qs| && !Answered(qs, answers)
  {
    var qs := [Question("q1", "a", 1.0)];
    var answers := map["other" := "a"];
    assert answers.Keys == {"other"};
    assert qs[0].id !in answers;
  }

  /** A prefix of a distinct, defined order is distinct and defined. */
  lemma UpsertsPrefix(t: Table, student: StudentId, order: seq<SloId>, tally: Tally, n: nat)
    requires Distinct(order) && UpsertsDefined(t, student, order, tally) && n <= |order|
    ensures Distinct(order[..n]) && UpsertsDefined(t, student, order[..n], tally)
  {
    assert forall j :: 0 <= j < n ==> order[..n][j] == order[j];
  }

  /** The SLO at position `i` is not among those before it, so its previous row is still the original one. */
  lemma UpsertsKeepNext(t: Table, student: StudentId, order: seq<SloId>, tally: Tally, i: nat)
    requires Distinct(order) && UpsertsDefined(t, student, order, tally) && i < |order|
    ensures Distinct(order[..i]) && UpsertsDefined(t, student, order[..i], tally)
    ensures Previous(Upserts(t, student, order[..i], tally).rows, (student, order[i])) == Previous(t.rows, (student, order[i]))
  {
    UpsertsPrefix(t, student, order, tally, i);
    assert order[i] !in order[..i] by {
      forall j | 0 <= j < i ensures order[..i][j] != order[i] {
        assert order[..i][j] == order[j];
      }
    }
  }

  /** One more turn of the upsert loop: the next SLO's row is written on top of the rows so far. */
  lemma UpsertsStep(t: Table, student: StudentId, order: seq<SloId>, tally: Tally, i: nat)
    requires Distinct(order) && UpsertsDefined(t, student, order, tally) && i < |order|
    ensures Distinct(order[..i]) && UpsertsDefined(t, student, order[..i], tally)
    ensures Distinct(order[..i + 1]) && UpsertsDefined(t, student, order[..i + 1], tally)
    ensures Previous(Upserts(t, student, order[..i], tally).rows, (student, order[i])) == Previous(t.rows, (student, order[i]))
    ensures Upserts(t, student, order[..i + 1], tally) == Upsert(Upserts(t, student, order[..i], tally), student, order[i], Get(tally, order[i]))
  {
    UpsertsKeepNext(t, student, order, tally, i);
    UpsertsPrefix(t, student, order, tally, i + 1);
    var p := order[..i + 1];
    assert p[..i] == order[..i] && p[i] == order[i];
  }

  /** The totals read from the existing row, or zeros when there is none. */
  function Existing(existing: Option<PerformanceRow>): SloScore {
    if existing.Some? then Totals(existing.value) else NoScore
  }

  /**
    The new row for an SLO: the running totals increased by the delta, the
    percentage of the new totals and the level it falls in.
  */
  method NewRow(existing: Option<PerformanceRow>, scores: SloScore, id: nat) returns (row: PerformanceRow)
    requires Existing(existing).possible + scores.possible != 0.0
    ensures row == Merged(Existing(existing), scores, id)
  {
    var newTotalEarned := (if existing.Some? then existing.value.earned else 0.0) + scores.earned;
    var newTotalPossible := (if existing.Some? then existing.value.possible else 0.0) + scores.possible;
    var percentage := (newTotalEarned / newTotalPossible) * 100.0;
    var level := Developmental;
    if percentage >= 85.0 {
      level := Mastery;
    } else if percentage >= 60.0 {
      level := Satisfactory;
    }
    row := PerformanceRow(id, newTotalEarned, newTotalPossible, percentage, level);
  }

  // ---------------------------------------------------------------------------
  // The store and the submit handler

  /** Every SLO the attempt touches ends with a non-zero possible total. */
  predicate PercentagesDefined(rows: map<Key, PerformanceRow>, student: StudentId, qs: seq<Question>, db: map<QuestionId, seq<SloMapping>>) {
    forall s :: s in TouchedSlos(qs, db) ==> Previous(rows, (student, s)).possible + TotalPossibleFor(s, qs, db) != 0.0
  }

  lemma PercentagesDefinedForTally(rows: map<Key, PerformanceRow>, nextId: nat, student: StudentId, qs: seq<Question>, g: seq<real>, db: map<QuestionId, seq<SloMapping>>)
    requires |g| == |qs| && Divisible(qs, db) && PercentagesDefined(rows, student, qs, db)
    ensures ValidTally(TallyOf(qs, g, db))
    ensures UpsertsDefined(Table(rows, nextId), student, TallyOf(qs, g, db).order, TallyOf(qs, g, db))
  {
    var t := TallyOf(qs, g, db);
    TallyOfValid(qs, g, db);
    forall i | 0 <= i < |t.order|
      ensures Previous(rows, (student, t.order[i])).possible + Get(t, t.order[i]).possible != 0.0
    {
      var s := t.order[i];
      TallySums(qs, g, db, s);
      PossibleIgnoresGrades(qs, g, db, s);
    }
  }

  /**
    The data the submit handler writes: the `test_attempts` log and the
    `slo_performance` rows keyed by (student, SLO).
  */
  class SubmissionStore {
    var attempts: seq<Attempt>
    var rows: map<Key, PerformanceRow>
    var nextRowId: nat

    ghost predicate Valid()
      reads this
    {
      ValidTable(Table(rows, nextRowId))
    }

    constructor ()
      ensures Valid() && attempts == [] && rows == map[] && nextRowId == 0
    {
      attempts := [];
      rows := map[];
      nextRowId := 0;
    }

    /**
      The submit handler. A count mismatch is refused with nothing scored; a
      missing answer or a failed attempt insert (`insertFails`) ends it with
      nothing written; otherwise the attempt is appended and then each SLO of
      the breakdown is upserted in key order.
    */
    method Submit(student: StudentId, assessment: AssessmentId, totalMarks: real,
                  qs: seq<Question>, answers: map<QuestionId, string>,
                  db: map<QuestionId, seq<SloMapping>>, insertFails: bool)
      returns (outcome: Outcome)
      requires Valid()
      requires DivisionsDefined(qs, answers, db)
      requires PercentagesDefined(rows, student, qs, db)
      modifies this
      ensures Valid()
      ensures outcome == Incomplete <==> |answers| != |qs|
      ensures outcome == Failed <==> |answers| == |qs| && (!Answered(qs, answers) || insertFails)
      ensures outcome != Submitted ==> attempts == old(attempts) && rows == old(rows) && nextRowId == old(nextRowId)
      ensures outcome == Submitted ==>
        && Answered(qs, answers) && Divisible(qs, db)
        && var g := Grades(qs, answers);
           var tally := TallyOf(qs, g, db);
           && ValidTally(tally)
           && UpsertsDefined(old(Table(rows, nextRowId)), student, tally.order, tally)
           && attempts == old(attempts) + [Attempt(student, assessment, answers, Total(g), totalMarks, tally)]
           && Table(rows, nextRowId) == Upserts(old(Table(rows, nextRowId)), student, tally.order, tally)
    {
      if |answers| != |qs| {
        return Incomplete;
      }
      var scored := ScoreSubmission(qs, answers, db);
      if scored.Err? {
        return Failed;
      }
      if insertFails {
        return Failed;
      }
      var totalScore, sloScores := scored.value.rawScore, scored.value.tally;
      ghost var g := Grades(qs, answers);
      PercentagesDefinedForTally(rows, nextRowId, student, qs, g, db);
      attempts := attempts + [Attempt(student, assessment, answers, totalScore, totalMarks, sloScores)];
      UpsertPerformance(student, sloScores);
      return Submitted;
    }

    /**
      The loop over the entries of the breakdown: each SLO's previous row is
      read, its totals are increased by the delta, the percentage and level
      are recomputed, and the row is updated or else inserted.
    */
    method UpsertPerformance(student: StudentId, sloScores: Tally)
      requires Valid() && Distinct(sloScores.order)
      requires forall i :: 0 <= i < |sloScores.order| ==> sloScores.order[i] in sloScores.scores
      requires UpsertsDefined(Table(rows, nextRowId), student, sloScores.order, sloScores)
      modifies this
      ensures Valid() && attempts == old(attempts)
      ensures Table(rows, nextRowId) == Upserts(old(Table(rows, nextRowId)), student, sloScores.order, sloScores)
    {
      ghost var t0 := Table(rows, nextRowId);
      var entries := sloScores.order;
      var i := 0;
      assert entries[..0] == [];
      while i < |entries|
        invariant 0 <= i <= |entries|
        invariant Distinct(entries[..i]) && UpsertsDefined(t0, student, entries[..i], sloScores)
        invariant Table(rows, nextRowId) == Upserts(t0, student, entries[..i], sloScores)
        invariant ValidTable(Table(rows, nextRowId)) && attempts == old(attempts)
      {
        var sloId := entries[i];
        UpsertsStep(t0, student, entries, sloScores, i);
        var scores := sloScores.scores[sloId];
        assert Get(sloScores, sloId) == scores;
        UpsertOne(student, sloId, scores);
        i := i + 1;
      }
      assert entries[..i] == entries;
    }

    /** One turn of the loop: read the SLO's row, then update it in place or insert a new one. */
    method UpsertOne(student: StudentId, sloId: SloId, scores: SloScore)
      requires Valid() && Previous(rows, (student, sloId)).possible + scores.possible != 0.0
      modifies this
      ensures Valid() && attempts == old(attempts)
      ensures Table(rows, nextRowId) == Upsert(old(Table(rows, nextRowId)), student, sloId, scores)
    {
      var key := (student, sloId);
      ghost var before := Table(rows, nextRowId);
      var existing := if key in rows then Some(rows[key]) else None;
      if existing.Some? {
        var row := NewRow(existing, scores, existing.value.id);
        rows := rows[key := row];
      } else {
        var row := NewRow(existing, scores, nextRowId);
        rows := rows[key := row];
        nextRowId := nextRowId + 1;
      }
      UpsertValid(before, student, sloId, scores);
    }
  }
}
