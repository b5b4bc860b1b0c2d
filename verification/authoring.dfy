/**
  The assessment editor: the list of draft questions, the edits made to it,
  the per-question SLO mark mapping, and the submit-time checks that decide
  whether an assessment is stored and what is stored.
*/
module Authoring {
  import opened Wrappers
  import opened Scoring

  /** Draft ids are fresh values handed out by `crypto.randomUUID`. */
  type DraftId = nat

  datatype QuestionType = Mcq | ShortAnswer | TrueFalse

  /** A `{slo_id, marks}` entry of a draft question. */
  datatype DraftMapping = DraftMapping(sloId: SloId, marks: real)

  /** A question being edited; `options` is absent for questions built without them. */
  datatype DraftQuestion = DraftQuestion(
    id: DraftId,
    text: string,
    qtype: QuestionType,
    options: Option<seq<string>>,
    correctAnswer: string,
    maxMarks: real,
    mappings: seq<DraftMapping>)

  /** The fields of a `Partial<Question>` edit; an absent field keeps its value. */
  datatype QuestionUpdate = QuestionUpdate(
    text: Option<string>,
    qtype: Option<QuestionType>,
    options: Option<seq<string>>,
    correctAnswer: Option<string>,
    maxMarks: Option<real>)

  // ---------------------------------------------------------------------------
  // Editing the list of questions

  /** The question `addQuestion` appends: an MCQ with four empty options, 1 mark and no mappings. */
  function BlankQuestion(id: DraftId): (q: DraftQuestion)
    ensures q.id == id && q.qtype == Mcq && q.maxMarks == 1.0 && q.mappings == []
    ensures q.options == Some(["", "", "", ""]) && q.text == "" && q.correctAnswer == ""
  {
    DraftQuestion(id, "", Mcq, Some(["", "", "", ""]), "", 1.0, [])
  }

  function AddQuestion(qs: seq<DraftQuestion>, freshId: DraftId): (r: seq<DraftQuestion>)
    ensures |r| == |qs| + 1 && r[..|qs|] == qs && r[|qs|] == BlankQuestion(freshId)
  {
    qs + [BlankQuestion(freshId)]
  }

  /** `{...q, ...updates}`: the fields present in the update win, the others are kept. */
  function Apply(q: DraftQuestion, u: QuestionUpdate): (r: DraftQuestion)
    ensures r.id == q.id && r.mappings == q.mappings
    ensures r.text == u.text.GetOr(q.text) && r.qtype == u.qtype.GetOr(q.qtype)
    ensures r.correctAnswer == u.correctAnswer.GetOr(q.correctAnswer) && r.maxMarks == u.maxMarks.GetOr(q.maxMarks)
    ensures r.options == if u.options.Some? then u.options else q.options
  {
    DraftQuestion(
      q.id,
      u.text.GetOr(q.text),
      u.qtype.GetOr(q.qtype),
      if u.options.Some? then u.options else q.options,
      u.correctAnswer.GetOr(q.correctAnswer),
      u.maxMarks.GetOr(q.maxMarks),
      q.mappings)
  }

  /** Edits the question(s) carrying `id`; every other question and the order are unchanged. */
  function UpdateQuestion(qs: seq<DraftQuestion>, id: DraftId, u: QuestionUpdate): (r: seq<DraftQuestion>)
    ensures |r| == |qs|
    ensures forall i :: 0 <= i < |qs| ==> r[i].id == qs[i].id
    ensures forall i :: 0 <= i < |qs| && qs[i].id != id ==> r[i] == qs[i]
    ensures forall i :: 0 <= i < |qs| && qs[i].id == id ==> r[i] == Apply(qs[i], u)
  {
    seq(|qs|, i requires 0 <= i < |qs| => if qs[i].id == id then Apply(qs[i], u) else qs[i])
  }

  /** Removes the question(s) carrying `id`. */
  function DeleteQuestion(qs: seq<DraftQuestion>, id: DraftId): (r: seq<DraftQuestion>)
    ensures |r| <= |qs|
    ensures forall q :: q in r <==> q in qs && q.id != id
  {
    if qs == [] then []
    else
      var rest := DeleteQuestion(qs[..|qs| - 1], id);
      var q := qs[|qs| - 1];
      assert forall x :: x in qs <==> x in qs[..|qs| - 1] || x == q by {
        assert qs == qs[..|qs| - 1] + [q];
      }
      if q.id == id then rest else rest + [q]
  }

  /** Deleting keeps the relative order of the remaining questions: it distributes over concatenation. */
  lemma {:induction false} DeleteDistributes(a: seq<DraftQuestion>, b: seq<DraftQuestion>, id: DraftId)
    ensures DeleteQuestion(a + b, id) == DeleteQuestion(a, id) + DeleteQuestion(b, id)
  {
    if b == [] {
      assert a + b == a;
    } else {
      var init := b[..|b| - 1];
      assert (a + b)[..|a + b| - 1] == a + init;
      assert (a + b)[|a + b| - 1] == b[|b| - 1];
      DeleteDistributes(a, init, id);
    }
  }

  /** Deleting an id no question carries changes nothing. */
  lemma {:induction false} DeleteAbsent(qs: seq<DraftQuestion>, id: DraftId)
    requires forall i :: 0 <= i < |qs| ==> qs[i].id != id
    ensures DeleteQuestion(qs, id) == qs
  {
    if qs != [] {
      DeleteAbsent(qs[..|qs| - 1], id);
      assert qs == qs[..|qs| - 1] + [qs[|qs| - 1]];
    }
  }

  // ---------------------------------------------------------------------------
  // The SLO mark mapping of one question

  /** The SLOs a list of draft mappings names. */
  function MappedSlos(ms: seq<DraftMapping>): set<SloId> {
    set m | m in ms :: m.sloId
  }

  predicate DistinctSlos(ms: seq<DraftMapping>) {
    forall i, j :: 0 <= i < j < |ms| ==> ms[i].sloId != ms[j].sloId
  }

  /**
    The mappings after the input for `slo` is set to `marks`: every entry for
    `slo` is overwritten in place if there is one, otherwise an entry is
    appended; entries for other SLOs are unchanged.
  */
  function SetMarks(ms: seq<DraftMapping>, slo: SloId, marks: real): (r: seq<DraftMapping>)
    ensures MappedSlos(r) == MappedSlos(ms) + {slo}
    ensures forall m :: m in r && m.sloId == slo ==> m.marks == marks
    ensures slo in MappedSlos(ms) ==> |r| == |ms| && forall i :: 0 <= i < |ms| && ms[i].sloId != slo ==> r[i] == ms[i]
    ensures slo !in MappedSlos(ms) ==> r == ms + [DraftMapping(slo, marks)]
  {
    if exists m :: m in ms && m.sloId == slo then
      var r := seq(|ms|, i requires 0 <= i < |ms| => if ms[i].sloId == slo then DraftMapping(slo, marks) else ms[i]);
      assert forall m :: m in r ==> m.sloId in MappedSlos(ms) by {
        forall m | m in r ensures m.sloId in MappedSlos(ms) {
          var i :| 0 <= i < |r| && r[i] == m;
          assert ms[i] in ms;
        }
      }
      assert forall m :: m in ms ==> m.sloId in MappedSlos(r) by {
        forall m | m in ms ensures m.sloId in MappedSlos(r) {
          var i :| 0 <= i < |ms| && ms[i] == m;
          assert r[i] in r;
        }
      }
      r
    else
      ms + [DraftMapping(slo, marks)]
  }

  /** A question never ends up with two mappings for one SLO. */
  lemma SetMarksDistinct(ms: seq<DraftMapping>, slo: SloId, marks: real)
    requires DistinctSlos(ms)
    ensures DistinctSlos(SetMarks(ms, slo, marks))
  {
    var r := SetMarks(ms, slo, marks);
    if slo !in MappedSlos(ms) {
      forall i, j | 0 <= i < j < |r| ensures r[i].sloId != r[j].sloId {
        if j == |ms| {
          assert r[i] == ms[i] && ms[i] in ms;
        } else {
          assert r[i] == ms[i] && r[j] == ms[j];
        }
      }
    } else {
      forall i, j | 0 <= i < j < |r| ensures r[i].sloId != r[j].sloId {
        if ms[i].sloId != slo && ms[j].sloId != slo {
          assert r[i] == ms[i] && r[j] == ms[j];
        } else if ms[i].sloId == slo {
          assert r[i].sloId == slo && ms[j].sloId != slo;
          assert r[j] == ms[j];
        } else {
          assert r[j].sloId == slo && r[i] == ms[i];
        }
      }
    }
  }

  /** `q.slo_mappings.reduce((sum, m) => sum + m.marks, 0)`. */
  function MappedTotal(ms: seq<DraftMapping>): real {
    if ms == [] then 0.0 else MappedTotal(ms[..|ms| - 1]) + ms[|ms| - 1].marks
  }

  /** The marks an SLO holds in a mapping list, 0 when it has none (the input shows `marks || 0`). */
  function MarksFor(ms: seq<DraftMapping>, slo: SloId): real {
    if ms == [] then 0.0
    else MarksFor(ms[..|ms| - 1], slo) + if ms[|ms| - 1].sloId == slo then ms[|ms| - 1].marks else 0.0
  }

  /** The running total shown next to the inputs changes by exactly the edit. */
  lemma {:induction false} SetMarksTotal(ms: seq<DraftMapping>, slo: SloId, marks: real)
    requires DistinctSlos(ms)
    ensures MappedTotal(SetMarks(ms, slo, marks)) == MappedTotal(ms) - MarksFor(ms, slo) + marks
  {
    if slo in MappedSlos(ms) {
      ReplaceTotal(ms, SetMarks(ms, slo, marks), slo, marks);
    } else {
      MarksForAbsent(ms, slo);
    }
  }

  lemma {:induction false} MarksForAbsent(ms: seq<DraftMapping>, slo: SloId)
    requires slo !in MappedSlos(ms)
    ensures MarksFor(ms, slo) == 0.0
  {
    if ms != [] {
      assert ms[|ms| - 1] in ms;
      assert MappedSlos(ms[..|ms| - 1]) <= MappedSlos(ms) by {
        forall m | m in ms[..|ms| - 1] ensures m in ms {}
      }
      MarksForAbsent(ms[..|ms| - 1], slo);
    }
  }

  /** Without its last mapping a list keeps distinct SLOs, and the last SLO is not among the others. */
  lemma DistinctSlosLast(ms: seq<DraftMapping>)
    requires ms != [] && DistinctSlos(ms)
    ensures var n := |ms| - 1;
            && DistinctSlos(ms[..n])
            && MappedSlos(ms) == MappedSlos(ms[..n]) + {ms[n].sloId}
            && ms[n].sloId !in MappedSlos(ms[..n])
  {
    var n := |ms| - 1;
    var init := ms[..n];
    assert DistinctSlos(init) by {
      forall i, j | 0 <= i < j < |init| ensures init[i].sloId != init[j].sloId {
        assert init[i] == ms[i] && init[j] == ms[j];
      }
    }
    assert ms == init + [ms[n]];
    forall m | m in init ensures m.sloId != ms[n].sloId {
      var i :| 0 <= i < |init| && init[i] == m;
      assert ms[i].sloId != ms[n].sloId;
    }
  }

  /** Replacing, position by position, the marks of `slo` with `marks` in a list where `slo` occurs once. */
  lemma {:induction false} ReplaceTotal(ms: seq<DraftMapping>, r: seq<DraftMapping>, slo: SloId, marks: real)
    requires DistinctSlos(ms) && |r| == |ms|
    requires forall i :: 0 <= i < |ms| ==> r[i] == if ms[i].sloId == slo then DraftMapping(slo, marks) else ms[i]
    ensures slo in MappedSlos(ms) ==> MappedTotal(r) == MappedTotal(ms) - MarksFor(ms, slo) + marks
    ensures slo !in MappedSlos(ms) ==> MappedTotal(r) == MappedTotal(ms) && MarksFor(ms, slo) == 0.0
  {
    if ms != [] {
      var n := |ms| - 1;
      var init, rinit := ms[..n], r[..n];
      DistinctSlosLast(ms);
      assert forall i :: 0 <= i < |init| ==> rinit[i] == if init[i].sloId == slo then DraftMapping(slo, marks) else init[i];
      ReplaceTotal(init, rinit, slo, marks);
      assert MappedTotal(r) == MappedTotal(rinit) + r[n].marks;
      assert MappedTotal(ms) == MappedTotal(init) + ms[n].marks;
      assert MarksFor(ms, slo) == MarksFor(init, slo) + if ms[n].sloId == slo then ms[n].marks else 0.0;
    }
  }

  /** `updateSloMapping`: sets the marks of one SLO on the question(s) carrying `id`. */
  function UpdateSloMapping(qs: seq<DraftQuestion>, id: DraftId, slo: SloId, marks: real): (r: seq<DraftQuestion>)
    ensures |r| == |qs|
    ensures forall i :: 0 <= i < |qs| && qs[i].id != id ==> r[i] == qs[i]
    ensures forall i :: 0 <= i < |qs| && qs[i].id == id ==>
      r[i] == qs[i].(mappings := SetMarks(qs[i].mappings, slo, marks))
  {
    seq(|qs|, i requires 0 <= i < |qs| =>
      if qs[i].id == id then qs[i].(mappings := SetMarks(qs[i].mappings, slo, marks)) else qs[i])
  }

  // ---------------------------------------------------------------------------
  // Submitting the assessment

  /** Why a save ends without an assessment: a form check, or an insert the database refused. */
  datatype SubmitError = MissingFields | UnmappedMarks(questionText: string) | SaveFailed

  /** A `questions` row as inserted, with the mapping rows inserted after it. */
  datatype StoredQuestion = StoredQuestion(
    text: string,
    qtype: QuestionType,
    options: Option<seq<string>>,
    correctAnswer: string,
    maxMarks: real,
    orderNumber: nat,
    mappings: seq<DraftMapping>)

  /** The `assessments` row and the rows written under it. */
  datatype StoredAssessment = StoredAssessment(
    title: string,
    subjectId: string,
    teacherId: string,
    totalMarks: real,
    questions: seq<StoredQuestion>)

  /** A question's mapped marks add up exactly to its maximum marks. */
  predicate Mapped(q: DraftQuestion) {
    MappedTotal(q.mappings) == q.maxMarks
  }

  /** The index of the first question whose mapped marks fall short of or exceed its maximum. */
  function FirstUnmapped(qs: seq<DraftQuestion>): (r: Option<nat>)
    ensures r.None? <==> forall i :: 0 <= i < |qs| ==> Mapped(qs[i])
    ensures r.Some? ==> r.value < |qs| && !Mapped(qs[r.value]) && forall i :: 0 <= i < r.value ==> Mapped(qs[i])
  {
    if qs == [] then None
    else if !Mapped(qs[0]) then Some(0)
    else
      match FirstUnmapped(qs[1..])
      case None =>
        assert forall i :: 1 <= i < |qs| ==> qs[i] == qs[1..][i - 1];
        None
      case Some(k) =>
        assert forall i :: 1 <= i < k + 1 ==> qs[i] == qs[1..][i - 1];
        Some(k + 1)
  }

  function SumMaxMarksOf(qs: seq<DraftQuestion>): real {
    if qs == [] then 0.0 else SumMaxMarksOf(qs[..|qs| - 1]) + qs[|qs| - 1].maxMarks
  }

  /** The row stored for the question at position `i`: numbered from 1, options kept for MCQs only. */
  function Stored(q: DraftQuestion, i: nat): (s: StoredQuestion)
    ensures s.orderNumber == i + 1
    ensures s.options.Some? ==> q.qtype == Mcq
    ensures q.qtype == Mcq ==> s.options == q.options
    ensures s.text == q.text && s.correctAnswer == q.correctAnswer && s.maxMarks == q.maxMarks && s.mappings == q.mappings
  {
    StoredQuestion(q.text, q.qtype, if q.qtype == Mcq then q.options else None, q.correctAnswer, q.maxMarks, i + 1, q.mappings)
  }

  /** `q.slo_mappings.reduce((sum, m) => sum + m.marks, 0)`, as the save computes it. */
  method SumMappedMarks(q: DraftQuestion) returns (totalMapped: real)
    ensures totalMapped == MappedTotal(q.mappings)
  {
    totalMapped := 0.0;
    var j := 0;
    while j < |q.mappings|
      invariant 0 <= j <= |q.mappings|
      invariant totalMapped == MappedTotal(q.mappings[..j])
    {
      assert q.mappings[..j + 1][..j] == q.mappings[..j];
      totalMapped := totalMapped + q.mappings[j].marks;
      j := j + 1;
    }
    assert q.mappings[..j] == q.mappings;
  }

  /** The save's check of each question in turn: the first one whose mapped marks differ from its maximum. */
  method CheckMappings(qs: seq<DraftQuestion>) returns (bad: Option<nat>)
    ensures bad == FirstUnmapped(qs)
  {
    var k := 0;
    while k < |qs|
      invariant 0 <= k <= |qs|
      invariant forall i :: 0 <= i < k ==> Mapped(qs[i])
    {
      var totalMapped := SumMappedMarks(qs[k]);
      if totalMapped != qs[k].maxMarks {
        var f := FirstUnmapped(qs);
        assert f.Some? && f.value <= k;
        return Some(k);
      }
      k := k + 1;
    }
    return None;
  }

  /** `questions.reduce((sum, q) => sum + q.max_marks, 0)`. */
  method SumQuestionMarks(qs: seq<DraftQuestion>) returns (totalMarks: real)
    ensures totalMarks == SumMaxMarksOf(qs)
  {
    totalMarks := 0.0;
    var n := 0;
    while n < |qs|
      invariant 0 <= n <= |qs|
      invariant totalMarks == SumMaxMarksOf(qs[..n])
    {
      assert qs[..n + 1][..n] == qs[..n];
      totalMarks := totalMarks + qs[n].maxMarks;
      n := n + 1;
    }
    assert qs[..n] == qs;
  }

  // ---------------------------------------------------------------------------
  // The inserts of a save

  /**
    A row the save inserts: the assessment, a question, or one SLO mapping of
    the question with the given order number (standing for the id the
    database returns for that question).
  */
  datatype Row =
    | AssessmentRow(title: string, subjectId: string, teacherId: string, totalMarks: real)
    | QuestionRow(question: StoredQuestion)
    | MappingRow(orderNumber: nat, sloId: SloId, markContribution: real)

  /** The mapping rows of the question at position `i`, in mapping order. */
  function MappingRows(i: nat, ms: seq<DraftMapping>): (r: seq<Row>)
    ensures |r| == |ms|
  {
    if ms == [] then []
    else MappingRows(i, ms[..|ms| - 1]) + [MappingRow(i + 1, ms[|ms| - 1].sloId, ms[|ms| - 1].marks)]
  }

  /** The rows of the questions in list order, each question row followed by its mapping rows. */
  function QuestionRows(qs: seq<DraftQuestion>): seq<Row> {
    if qs == [] then []
    else QuestionRows(qs[..|qs| - 1]) + ([QuestionRow(Stored(qs[|qs| - 1], |qs| - 1))] + MappingRows(|qs| - 1, qs[|qs| - 1].mappings))
  }

  /** Every row a successful save inserts, in the order it inserts them. */
  function SavePlan(title: string, subjectId: string, teacherId: string, qs: seq<DraftQuestion>): seq<Row> {
    [AssessmentRow(title, subjectId, teacherId, SumMaxMarksOf(qs))] + QuestionRows(qs)
  }

  /**
    One `insert`. The database is a parameter: it refuses the insert made
    when `failAt` rows are already written, and accepts every other one.
  */
  method InsertRow(written: seq<Row>, row: Row, failAt: Option<nat>) returns (written': seq<Row>, ok: bool)
    ensures ok <==> failAt != Some(|written|)
    ensures ok ==> written' == written + [row]
    ensures !ok ==> written' == written
  {
    if failAt == Some(|written|) {
      return written, false;
    }
    return written + [row], true;
  }

  lemma MappingRowsStep(i: nat, ms: seq<DraftMapping>, j: nat)
    requires j < |ms|
    ensures MappingRows(i, ms[..j + 1]) == MappingRows(i, ms[..j]) + [MappingRow(i + 1, ms[j].sloId, ms[j].marks)]
  {
    assert ms[..j + 1][..j] == ms[..j];
  }

  /** The mapping rows written so far are the first ones of the question's mapping rows. */
  lemma {:induction false} MappingRowsPrefix(i: nat, ms: seq<DraftMapping>, j: nat)
    requires j <= |ms|
    ensures MappingRows(i, ms[..j]) <= MappingRows(i, ms)
    decreases |ms|
  {
    if j < |ms| {
      var n := |ms| - 1;
      assert ms[..n][..j] == ms[..j];
      MappingRowsPrefix(i, ms[..n], j);
    } else {
      assert ms[..j] == ms;
    }
  }

  /**
    The save of the question at position `i` (the body of the question
    loop): its question row, then its mapping rows one by one, stopping at
    the first insert the database refuses.
  */
  method SaveQuestion(qs: seq<DraftQuestion>, i: nat, failAt: Option<nat>, written: seq<Row>)
    returns (written': seq<Row>, ok: bool)
    requires i < |qs|
    requires failAt.None? || failAt.value >= |written|
    ensures var rows := written + ([QuestionRow(Stored(qs[i], i))] + MappingRows(i, qs[i].mappings));
            && (ok <==> failAt.None? || failAt.value >= |rows|)
            && (ok ==> written' == rows)
            && (!ok ==> written' == rows[..failAt.value])
  {
    var q := qs[i];
    var questionRow := QuestionRow(Stored(q, i));
    written', ok := InsertRow(written, questionRow, failAt);
    if !ok {
      return;
    }
    var j := 0;
    while j < |q.mappings|
      invariant 0 <= j <= |q.mappings|
      invariant written' == written + ([questionRow] + MappingRows(i, q.mappings[..j]))
      invariant failAt.None? || failAt.value >= |written'|
    {
      MappingRowsStep(i, q.mappings, j);
      written', ok := InsertRow(written', MappingRow(i + 1, q.mappings[j].sloId, q.mappings[j].marks), failAt);
      if !ok {
        MappingRowsPrefix(i, q.mappings, j);
        return;
      }
      j := j + 1;
    }
    assert q.mappings[..j] == q.mappings;
  }

  lemma QuestionRowsStep(qs: seq<DraftQuestion>, i: nat)
    requires i < |qs|
    ensures QuestionRows(qs[..i + 1]) == QuestionRows(qs[..i]) + ([QuestionRow(Stored(qs[i], i))] + MappingRows(i, qs[i].mappings))
  {
    assert qs[..i + 1][..i] == qs[..i];
  }

  /** The rows of the first `i` questions come first among the rows of all of them. */
  lemma {:induction false} QuestionRowsPrefix(qs: seq<DraftQuestion>, i: nat)
    requires i <= |qs|
    ensures QuestionRows(qs[..i]) <= QuestionRows(qs)
    decreases |qs|
  {
    if i < |qs| {
      var n := |qs| - 1;
      assert qs[..n][..i] == qs[..i];
      QuestionRowsPrefix(qs[..n], i);
    } else {
      assert qs[..i] == qs;
    }
  }

  /**
    The question loop of the save, after the rows `head`: each question in
    list order with its mappings, stopping at the first refused insert.
    `stored` lists the questions saved.
  */
  method SaveQuestions(qs: seq<DraftQuestion>, failAt: Option<nat>, head: seq<Row>)
    returns (written: seq<Row>, ok: bool, stored: seq<StoredQuestion>)
    requires failAt.None? || failAt.value >= |head|
    ensures var rows := head + QuestionRows(qs);
            && (ok <==> failAt.None? || failAt.value >= |rows|)
            && (ok ==> written == rows)
            && (!ok ==> written == rows[..failAt.value])
    ensures ok ==> |stored| == |qs| && forall j :: 0 <= j < |qs| ==> stored[j] == Stored(qs[j], j)
  {
    written, ok, stored := head, true, [];
    var i := 0;
    while i < |qs|
      invariant 0 <= i <= |qs|
      invariant written == head + QuestionRows(qs[..i])
      invariant failAt.None? || failAt.value >= |written|
      invariant |stored| == i && forall j :: 0 <= j < i ==> stored[j] == Stored(qs[j], j)
    {
      written, ok := SaveNext(qs, i, failAt, head, written);
      if !ok {
        return;
      }
      stored := stored + [Stored(qs[i], i)];
      i := i + 1;
    }
    assert qs[..i] == qs;
  }

  /** One pass of the question loop: the rows of one more question, or the rows of the save cut at the refused insert. */
  method SaveNext(qs: seq<DraftQuestion>, i: nat, failAt: Option<nat>, head: seq<Row>, written: seq<Row>)
    returns (written': seq<Row>, ok: bool)
    requires i < |qs| && written == head + QuestionRows(qs[..i])
    requires failAt.None? || failAt.value >= |written|
    ensures ok ==> written' == head + QuestionRows(qs[..i + 1]) && (failAt.None? || failAt.value >= |written'|)
    ensures !ok ==> failAt.Some? && failAt.value < |head + QuestionRows(qs)|
                    && written' == (head + QuestionRows(qs))[..failAt.value]
  {
    QuestionRowsStep(qs, i);
    assert head + QuestionRows(qs[..i + 1]) == written + ([QuestionRow(Stored(qs[i], i))] + MappingRows(i, qs[i].mappings));
    written', ok := SaveQuestion(qs, i, failAt, written);
    if !ok {
      SavedPrefix(qs, i + 1, head, failAt.value);
    }
  }

  /** Cutting the rows of the first `i` questions is cutting the rows of all of them. */
  lemma SavedPrefix(qs: seq<DraftQuestion>, i: nat, head: seq<Row>, k: nat)
    requires i <= |qs| && k <= |head + QuestionRows(qs[..i])|
    ensures |head + QuestionRows(qs[..i])| <= |head + QuestionRows(qs)|
    ensures (head + QuestionRows(qs[..i]))[..k] == (head + QuestionRows(qs))[..k]
  {
    QuestionRowsPrefix(qs, i);
  }

  /**
    `handleSubmit`: refuses a missing title or subject or an empty list,
    then refuses the first question whose mapped marks do not sum to its
    maximum. Otherwise it inserts the assessment with the sum of the
    maximum marks as its total, then each question in list order followed
    by its SLO mappings. The first refused insert ends the save with an
    error, and the rows already inserted stay: exactly the first `failAt`
    rows of the save.
  */
  method HandleSubmit(title: string, subjectId: string, teacherId: string, qs: seq<DraftQuestion>, failAt: Option<nat>)
    returns (r: Result<StoredAssessment, SubmitError>, written: seq<Row>)
    ensures r == Err(MissingFields) <==> title == "" || subjectId == "" || qs == []
    ensures r.Err? && r.error.UnmappedMarks? ==>
      FirstUnmapped(qs).Some? && r.error.questionText == qs[FirstUnmapped(qs).value].text
    ensures r.Err? && !r.error.SaveFailed? ==> written == []
    ensures var valid := title != "" && subjectId != "" && qs != [] && FirstUnmapped(qs).None?;
            var plan := SavePlan(title, subjectId, teacherId, qs);
            && (r == Err(SaveFailed) <==> valid && failAt.Some? && failAt.value < |plan|)
            && (r == Err(SaveFailed) ==> written == plan[..failAt.value])
            && (r.Ok? <==> valid && (failAt.None? || failAt.value >= |plan|))
            && (r.Ok? ==> written == plan)
    ensures r.Ok? ==> r.value.title == title && r.value.subjectId == subjectId && r.value.teacherId == teacherId
    ensures r.Ok? ==> r.value.totalMarks == SumMaxMarksOf(qs)
    ensures r.Ok? ==> |r.value.questions| == |qs| && forall i :: 0 <= i < |qs| ==> r.value.questions[i] == Stored(qs[i], i)
  {
    if title == "" || subjectId == "" || |qs| == 0 {
      return Err(MissingFields), [];
    }
    var bad := CheckMappings(qs);
    if bad.Some? {
      return Err(UnmappedMarks(qs[bad.value].text)), [];
    }
    var totalMarks := SumQuestionMarks(qs);
    var ok;
    written, ok := InsertRow([], AssessmentRow(title, subjectId, teacherId, totalMarks), failAt);
    if !ok {
      return Err(SaveFailed), written;
    }
    var stored;
    written, ok, stored := SaveQuestions(qs, failAt, written);
    if !ok {
      return Err(SaveFailed), written;
    }
    return Ok(StoredAssessment(title, subjectId, teacherId, totalMarks, stored)), written;
  }

  // ---------------------------------------------------------------------------
  // Reading a save back

  /** The question rows among `rows`, in order. */
  function QuestionsIn(rows: seq<Row>): seq<StoredQuestion> {
    if rows == [] then []
    else QuestionsIn(rows[..|rows| - 1]) + if rows[|rows| - 1].QuestionRow? then [rows[|rows| - 1].question] else []
  }

  /** The marks the mapping rows among `rows` give the question with order number `k`. */
  function MarksMappedTo(rows: seq<Row>, k: nat): real {
    if rows == [] then 0.0
    else
      var last := rows[|rows| - 1];
      MarksMappedTo(rows[..|rows| - 1], k) + (if last.MappingRow? && last.orderNumber == k then last.markContribution else 0.0)
  }

  lemma {:induction false} ReadBackAppend(a: seq<Row>, b: seq<Row>, k: nat)
    ensures QuestionsIn(a + b) == QuestionsIn(a) + QuestionsIn(b)
    ensures MarksMappedTo(a + b, k) == MarksMappedTo(a, k) + MarksMappedTo(b, k)
    decreases |b|
  {
    if b != [] {
      var n := |b| - 1;
      assert (a + b)[..|a + b| - 1] == a + b[..n];
      ReadBackAppend(a, b[..n], k);
    } else {
      assert a + b == a;
    }
  }

  /** The mapping rows of one question hold no question and give its marks to it alone. */
  lemma {:induction false} MappingRowsReadBack(i: nat, ms: seq<DraftMapping>, k: nat)
    ensures QuestionsIn(MappingRows(i, ms)) == []
    ensures MarksMappedTo(MappingRows(i, ms), k) == if k == i + 1 then MappedTotal(ms) else 0.0
    decreases |ms|
  {
    if ms != [] {
      var n := |ms| - 1;
      MappingRowsReadBack(i, ms[..n], k);
      var rows := MappingRows(i, ms);
      assert rows[..|rows| - 1] == MappingRows(i, ms[..n]);
    }
  }

  /** The rows of the question at position `n`: that question, and its mapped marks for it alone. */
  lemma QuestionBlockReadBack(q: DraftQuestion, n: nat, k: nat)
    ensures var rows := [QuestionRow(Stored(q, n))] + MappingRows(n, q.mappings);
            && QuestionsIn(rows) == [Stored(q, n)]
            && MarksMappedTo(rows, k) == if k == n + 1 then MappedTotal(q.mappings) else 0.0
  {
    var qrow := [QuestionRow(Stored(q, n))];
    ReadBackAppend(qrow, MappingRows(n, q.mappings), k);
    MappingRowsReadBack(n, q.mappings, k);
    assert qrow[..0] == [];
  }

  /** Read back, the rows of the questions give each question as stored, in list order. */
  lemma {:induction false} QuestionRowsQuestions(qs: seq<DraftQuestion>)
    ensures |QuestionsIn(QuestionRows(qs))| == |qs|
    ensures forall i :: 0 <= i < |qs| ==> QuestionsIn(QuestionRows(qs))[i] == Stored(qs[i], i)
    decreases |qs|
  {
    if qs != [] {
      var n := |qs| - 1;
      var init := qs[..n];
      var a := QuestionRows(init);
      var b := [QuestionRow(Stored(qs[n], n))] + MappingRows(n, qs[n].mappings);
      assert QuestionRows(qs) == a + b;
      QuestionRowsQuestions(init);
      QuestionBlockReadBack(qs[n], n, 0);
      ReadBackAppend(a, b, 0);
      var r := QuestionsIn(a + b);
      assert r == QuestionsIn(a) + [Stored(qs[n], n)];
      forall i | 0 <= i < |qs| ensures r[i] == Stored(qs[i], i) {
        if i < n {
          assert r[i] == QuestionsIn(a)[i] && init[i] == qs[i];
        }
      }
    }
  }

  /** Read back, the rows of the questions give the question with order number `k` the mapped marks of its draft. */
  lemma {:induction false} QuestionRowsMarks(qs: seq<DraftQuestion>, k: nat)
    ensures MarksMappedTo(QuestionRows(qs), k) == if 1 <= k <= |qs| then MappedTotal(qs[k - 1].mappings) else 0.0
    decreases |qs|
  {
    if qs != [] {
      var n := |qs| - 1;
      var init := qs[..n];
      QuestionRowsMarks(init, k);
      QuestionBlockReadBack(qs[n], n, k);
      ReadBackAppend(QuestionRows(init), [QuestionRow(Stored(qs[n], n))] + MappingRows(n, qs[n].mappings), k);
      if 1 <= k <= n {
        assert init[k - 1] == qs[k - 1];
      }
    }
  }

  /** The assessment row in front of other rows adds no question and no mapped marks. */
  lemma AssessmentRowReadBack(a: Row, rows: seq<Row>, k: nat)
    requires a.AssessmentRow?
    ensures QuestionsIn([a] + rows) == QuestionsIn(rows)
    ensures MarksMappedTo([a] + rows, k) == MarksMappedTo(rows, k)
  {
    assert [a][..0] == [];
    ReadBackAppend([a], rows, k);
  }

  /**
    A completed save reads back as the form that was checked: its questions
    in list order, and each with mapping rows adding up to its maximum
    marks.
  */
  lemma CompletedSaveReadsBack(title: string, subjectId: string, teacherId: string, qs: seq<DraftQuestion>)
    requires FirstUnmapped(qs).None?
    ensures var rows := SavePlan(title, subjectId, teacherId, qs);
            && |QuestionsIn(rows)| == |qs|
            && (forall i :: 0 <= i < |qs| ==> QuestionsIn(rows)[i] == Stored(qs[i], i))
            && (forall i :: 0 <= i < |qs| ==> MarksMappedTo(rows, i + 1) == qs[i].maxMarks)
  {
    var a := AssessmentRow(title, subjectId, teacherId, SumMaxMarksOf(qs));
    var rows := QuestionRows(qs);
    assert SavePlan(title, subjectId, teacherId, qs) == [a] + rows;
    QuestionRowsQuestions(qs);
    AssessmentRowReadBack(a, rows, 0);
    forall i | 0 <= i < |qs|
      ensures MarksMappedTo([a] + rows, i + 1) == qs[i].maxMarks
    {
      QuestionRowsMarks(qs, i + 1);
      AssessmentRowReadBack(a, rows, i + 1);
      assert Mapped(qs[i]);
    }
  }

  /** A save refused after its first insert leaves the assessment row behind without all of its questions and mappings. */
  lemma FailedSaveLeavesPartialRows(title: string, subjectId: string, teacherId: string, qs: seq<DraftQuestion>, k: nat)
    requires 1 <= k < |SavePlan(title, subjectId, teacherId, qs)|
    ensures var plan := SavePlan(title, subjectId, teacherId, qs);
            plan[..k][0] == AssessmentRow(title, subjectId, teacherId, SumMaxMarksOf(qs)) && plan[..k] != plan
  {
  }

  // ---------------------------------------------------------------------------
  // What an accepted assessment guarantees to scoring

  /** The mapping rows of a stored question as scoring reads them back. */
  function AsSloMappings(ms: seq<DraftMapping>): (r: seq<SloMapping>)
    ensures |r| == |ms| && forall i :: 0 <= i < |ms| ==> r[i] == SloMapping(ms[i].sloId, ms[i].marks)
  {
    seq(|ms|, i requires 0 <= i < |ms| => SloMapping(ms[i].sloId, ms[i].marks))
  }

  lemma {:induction false} ContributionsAreMappedTotal(ms: seq<DraftMapping>)
    ensures SumContributions(AsSloMappings(ms)) == MappedTotal(ms)
  {
    if ms != [] {
      ContributionsAreMappedTotal(ms[..|ms| - 1]);
      assert AsSloMappings(ms)[..|ms| - 1] == AsSloMappings(ms[..|ms| - 1]);
    }
  }

  /** The stored questions as scoring sees them, the `i`-th under the database id `ids[i]`. */
  function ScoringQuestions(a: StoredAssessment, ids: seq<QuestionId>): (qs: seq<Question>)
    requires |ids| == |a.questions|
    ensures |qs| == |ids| && forall i :: 0 <= i < |qs| ==> qs[i] == Question(ids[i], a.questions[i].correctAnswer, a.questions[i].maxMarks)
  {
    seq(|ids|, i requires 0 <= i < |ids| => Question(ids[i], a.questions[i].correctAnswer, a.questions[i].maxMarks))
  }

  /** The mapping rows of the stored questions, keyed by database question id. */
  function ScoringMappings(a: StoredAssessment, ids: seq<QuestionId>): (db: map<QuestionId, seq<SloMapping>>)
    requires |ids| == |a.questions| && Distinct(ids)
    ensures forall i :: 0 <= i < |ids| ==> MappingsOf(db, ids[i]) == AsSloMappings(a.questions[i].mappings)
  {
    map i | 0 <= i < |ids| :: ids[i] := AsSloMappings(a.questions[i].mappings)
  }

  lemma {:induction false} SumMaxMarksMatches(a: StoredAssessment, ids: seq<QuestionId>, qs: seq<DraftQuestion>)
    requires |ids| == |a.questions| == |qs|
    requires forall i :: 0 <= i < |qs| ==> a.questions[i].maxMarks == qs[i].maxMarks
    ensures SumMaxMarks(ScoringQuestions(a, ids)) == SumMaxMarksOf(qs)
    decreases |qs|
  {
    if qs != [] {
      var n := |qs| - 1;
      var a' := a.(questions := a.questions[..n]);
      SumMaxMarksMatches(a', ids[..n], qs[..n]);
      assert ScoringQuestions(a, ids)[..n] == ScoringQuestions(a', ids[..n]);
    }
  }

  /**
    The save's check lets through a question of zero maximum marks whose
    one mapping carries zero marks, and scoring then divides by zero.
  */
  lemma ZeroMarkQuestionAccepted(slo: SloId)
    ensures var q := DraftQuestion(0, "Q", ShortAnswer, None, "A", 0.0, [DraftMapping(slo, 0.0)]);
            FirstUnmapped([q]).None? && q.mappings != [] && q.maxMarks == 0.0
  {
    var q := DraftQuestion(0, "Q", ShortAnswer, None, "A", 0.0, [DraftMapping(slo, 0.0)]);
    assert MappedTotal(q.mappings) == MappedTotal([]) + 0.0;
  }

  /**
    Every assessment the editor accepts is fully mapped, so once its
    questions are stored under distinct ids, the per-SLO breakdown of any
    attempt distributes exactly the raw score, and exactly the assessment's
    total marks as possible marks. This holds provided no question with a
    mapping has zero maximum marks (the editor lets one through).
  */
  lemma AcceptedAssessmentConserves(title: string, subjectId: string, teacherId: string,
                                    qs: seq<DraftQuestion>, a: StoredAssessment, ids: seq<QuestionId>, g: seq<real>)
    requires title != "" && subjectId != "" && qs != [] && FirstUnmapped(qs).None?
    requires a.totalMarks == SumMaxMarksOf(qs)
    requires |a.questions| == |qs| && forall i :: 0 <= i < |qs| ==> a.questions[i] == Stored(qs[i], i)
    requires |ids| == |qs| && Distinct(ids)
    requires forall i :: 0 <= i < |qs| ==> qs[i].mappings != [] ==> qs[i].maxMarks != 0.0
    requires AllOrNothing(ScoringQuestions(a, ids), g)
    ensures var sq := ScoringQuestions(a, ids);
            var db := ScoringMappings(a, ids);
            Divisible(sq, db) && TallyTotal(TallyOf(sq, g, db)) == SloScore(Total(g), a.totalMarks)
  {
    var sq := ScoringQuestions(a, ids);
    var db := ScoringMappings(a, ids);
    forall i | 0 <= i < |sq|
      ensures SumContributions(MappingsOf(db, sq[i].id)) == sq[i].maxMarks
      ensures MappingsOf(db, sq[i].id) != [] ==> sq[i].maxMarks != 0.0
    {
      ContributionsAreMappedTotal(qs[i].mappings);
      assert Mapped(qs[i]);
    }
    SumMaxMarksMatches(a, ids, qs);
    TallyConservesMarks(sq, g, db);
  }
}
