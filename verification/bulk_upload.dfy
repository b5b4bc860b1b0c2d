/**
  Bulk entry of questions from pasted text. The text is cut into lines,
  blank lines are dropped, and each remaining line is trimmed and classified
  by its prefix (`Q:`, `A:`..`D:`, `Correct:`, `Marks:`, in any letter case).
  A pending question is emitted when the next `Q:` line arrives and at the
  end of the input, provided it is complete.
*/
module BulkUpload {
  import opened Wrappers
  import opened Text
  import opened Authoring

  // ---------------------------------------------------------------------------
  // Lines and their prefixes

  /** `lines.filter(line => line.trim())`: the lines that are not blank, in order. */
  function NonBlank(ls: seq<string>): (r: seq<string>)
    ensures |r| <= |ls|
    ensures forall i :: 0 <= i < |r| ==> Trim(r[i]) != ""
  {
    if ls == [] then []
    else NonBlank(ls[..|ls| - 1]) + if Trim(ls[|ls| - 1]) != "" then [ls[|ls| - 1]] else []
  }

  lemma {:induction false} NonBlankAppend(a: seq<string>, b: seq<string>)
    ensures NonBlank(a + b) == NonBlank(a) + NonBlank(b)
  {
    if b != [] {
      NonBlankAppend(a, b[..|b| - 1]);
      assert (a + b)[..|a + b| - 1] == a + b[..|b| - 1];
    } else {
      assert a + b == a;
    }
  }

  lemma {:induction false} NonBlankOfBlank(ls: seq<string>)
    requires forall i :: 0 <= i < |ls| ==> AllWhitespace(ls[i])
    ensures NonBlank(ls) == []
  {
    if ls != [] {
      TrimEmptyIffAllWhitespace(ls[|ls| - 1]);
      NonBlankOfBlank(ls[..|ls| - 1]);
    }
  }

  lemma {:induction false} NonBlankOfUnblank(ls: seq<string>)
    requires forall i :: 0 <= i < |ls| ==> Trim(ls[i]) != ""
    ensures NonBlank(ls) == ls
  {
    if ls != [] {
      NonBlankOfUnblank(ls[..|ls| - 1]);
    }
  }

  /** The lines every parser reads: `text.split('\n').filter(line => line.trim())`. */
  function Lines(text: string): seq<string> {
    NonBlank(Split(text))
  }

  /** A blank line anywhere in the text is not seen by the parsers. */
  lemma BlankLineIgnored(x: string, w: string, y: string)
    requires AllWhitespace(w)
    ensures Lines(x + "\n" + w + "\n" + y) == Lines(x + "\n" + y)
  {
    var sx, sw, sy := Split(x), Split(w), Split(y);
    assert x + "\n" + w + "\n" + y == x + "\n" + (w + "\n" + y);
    SplitConcat(w, y);
    SplitConcat(x, w + "\n" + y);
    SplitConcat(x, y);
    SplitBlank(w);
    NonBlankOfBlank(sw);
    NonBlankAppend(sx, sw + sy);
    NonBlankAppend(sw, sy);
    NonBlankAppend(sx, sy);
    calc {
      Lines(x + "\n" + w + "\n" + y);
      NonBlank(sx + (sw + sy));
      NonBlank(sx) + (NonBlank(sw) + NonBlank(sy));
      { assert NonBlank(sw) + NonBlank(sy) == NonBlank(sy); }
      NonBlank(sx + sy);
    }
  }

  /** A text that is blank has no lines. */
  lemma BlankTextHasNoLines(text: string)
    requires Trim(text) == ""
    ensures Lines(text) == []
  {
    TrimEmptyIffAllWhitespace(text);
    SplitBlank(text);
    NonBlankOfBlank(Split(text));
  }

  /** Lines that hold no line feed and are not blank come back one for one from their join. */
  lemma JoinedLines(ls: seq<string>)
    requires forall i :: 0 <= i < |ls| ==> '\n' !in ls[i]
    requires forall i :: 0 <= i < |ls| ==> Trim(ls[i]) != ""
    ensures Lines(Join(ls)) == ls
  {
    if ls == [] {
      assert Split("") == [""];
      assert Trim("") == "";
    } else {
      SplitJoin(ls);
      NonBlankOfUnblank(ls);
    }
  }

  /** `/^Q:/i` */
  predicate IsQuestionLine(t: string) { StartsWithIgnoringCase(t, "q:") }

  /** `/^[A-D]:/i` */
  predicate IsOptionLine(t: string) { |t| >= 2 && 'a' <= LowerChar(t[0]) <= 'd' && t[1] == ':' }

  /** `/^Correct:/i` */
  predicate IsCorrectLine(t: string) { StartsWithIgnoringCase(t, "correct:") }

  /** `/^Marks:/i` */
  predicate IsMarksLine(t: string) { StartsWithIgnoringCase(t, "marks:") }

  /** `/^A:/i` */
  predicate IsAnswerLine(t: string) { StartsWithIgnoringCase(t, "a:") }

  /** `t.substring(n).trim()`: the text after an `n`-character prefix. */
  function After(t: string, n: nat): string
    requires n <= |t|
  {
    Trim(t[n..])
  }

  /** `parseInt(s) || 1`: a value that is not a number, or is 0, becomes 1; a negative value is kept. */
  function MarksValue(s: string): (m: int)
    ensures m != 0
    ensures ParseInt(s).Some? && ParseInt(s).value != 0 ==> m == ParseInt(s).value
  {
    match ParseInt(s)
    case None => 1
    case Some(n) => if n == 0 then 1 else n
  }

  /** A `Marks:` line with a positive numeral yields exactly that many marks; an empty or zero one yields 1. */
  lemma MarksDefaults(n: nat)
    ensures n >= 1 ==> MarksValue(NatToString(n)) == n
    ensures MarksValue(NatToString(0)) == 1 && MarksValue("") == 1
  {
    ParseIntNatToString(n);
    ParseIntNatToString(0);
    assert DigitRun("", 10) == 0;
  }

  // ---------------------------------------------------------------------------
  // Lines as written by hand: a prefix, a space, then a value

  /** Non-empty, without whitespace at either end: what `trim` leaves unchanged. */
  predicate Unpadded(s: string) {
    s != [] && !IsWhitespace(s[0]) && !IsWhitespace(s[|s| - 1])
  }

  /** Such a line is its own trim, and its value is what follows the prefix, trimmed. */
  lemma PrefixedLine(prefix: string, value: string)
    requires |prefix| >= 1 && !IsWhitespace(prefix[0])
    requires Unpadded(value)
    ensures var line := prefix + " " + value;
            Trim(line) == line && Trim(line[|prefix|..]) == value
  {
    TrimUnpadded(value);
    var line := prefix + " " + value;
    assert line[0] == prefix[0] && line[|line| - 1] == value[|value| - 1];
    TrimUnpadded(line);
    assert line[|prefix|..] == " " + value + "";
    TrimPadded(value, " ", "");
  }

  /** Such a line is not blank, and holds a line feed only if its parts do. */
  lemma CleanLine(prefix: string, value: string)
    requires |prefix| >= 1 && !IsWhitespace(prefix[0]) && '\n' !in prefix && '\n' !in value
    ensures Trim(prefix + value) != "" && '\n' !in prefix + value
  {
    var line := prefix + value;
    assert line[0] == prefix[0];
    TrimEmptyIffAllWhitespace(line);
    assert forall c :: c in line ==> c in prefix || c in value;
  }

  lemma NatToStringUnpadded(n: nat)
    ensures Unpadded(NatToString(n)) && '\n' !in NatToString(n)
  {
    var s := NatToString(n);
    assert IsDecimalDigit(s[0]) && IsDecimalDigit(s[|s| - 1]);
    assert forall c :: c in s ==> IsDecimalDigit(c);
  }

  /** The whole number of marks written on a `Marks:` line. */
  function WholeMarks(q: DraftQuestion): nat {
    if q.maxMarks >= 0.0 then q.maxMarks.Floor as nat else 0
  }

  /** A positive whole number of marks, which a `Marks:` line can carry. */
  predicate WholePositiveMarks(q: DraftQuestion) {
    q.maxMarks >= 1.0 && q.maxMarks == q.maxMarks.Floor as real
  }

  /** One-line text without padding, which a `Q:` or `A:` line can carry. */
  predicate LineText(s: string) {
    Unpadded(s) && '\n' !in s
  }

  // ---------------------------------------------------------------------------
  // Classifying a line

  /** What a trimmed line says, once its prefix is recognised. */
  datatype Line =
    | Question(text: string)
    | Option(text: string)
    | Correct(letters: string)
    | Answer(text: string)
    | Marks(marks: int)
    | Other

  /** The `if`/`else if` chain of `parseBulkMCQs`: `Q:` first, then an option letter, `Correct:` and `Marks:`. */
  function McqClassify(line: string): Line {
    var t := Trim(line);
    if IsQuestionLine(t) then Question(After(t, 2))
    else if IsOptionLine(t) then Option(After(t, 2))
    else if IsCorrectLine(t) then Correct(After(t, 8))
    else if IsMarksLine(t) then Marks(MarksValue(After(t, 6)))
    else Other
  }

  /** The chain of `parseBulkShortAnswer` and `parseBulkTrueFalse`: `Q:`, then `A:`, then `Marks:`. */
  function AnswerClassify(line: string): Line {
    var t := Trim(line);
    if IsQuestionLine(t) then Question(After(t, 2))
    else if IsAnswerLine(t) then Answer(After(t, 2))
    else if IsMarksLine(t) then Marks(MarksValue(After(t, 6)))
    else Other
  }

  function McqClassifyAll(ls: seq<string>): (r: seq<Line>)
    ensures |r| == |ls| && forall i :: 0 <= i < |ls| ==> r[i] == McqClassify(ls[i])
  {
    seq(|ls|, i requires 0 <= i < |ls| => McqClassify(ls[i]))
  }

  function AnswerClassifyAll(ls: seq<string>): (r: seq<Line>)
    ensures |r| == |ls| && forall i :: 0 <= i < |ls| ==> r[i] == AnswerClassify(ls[i])
  {
    seq(|ls|, i requires 0 <= i < |ls| => AnswerClassify(ls[i]))
  }

  lemma ClassifyAllAppend(a: seq<string>, b: seq<string>)
    ensures McqClassifyAll(a + b) == McqClassifyAll(a) + McqClassifyAll(b)
    ensures AnswerClassifyAll(a + b) == AnswerClassifyAll(a) + AnswerClassifyAll(b)
  {
    assert McqClassifyAll(a + b) == McqClassifyAll(a) + McqClassifyAll(b);
    assert AnswerClassifyAll(a + b) == AnswerClassifyAll(a) + AnswerClassifyAll(b);
  }

  /** `Q: text`, with the prefix in either case, is a question line for every parser. */
  lemma ClassifyQuestion(p: string, text: string)
    requires |p| == 2 && ToLower(p) == "q:" && Unpadded(text)
    ensures McqClassify(p + " " + text) == Question(text)
    ensures AnswerClassify(p + " " + text) == Question(text)
  {
    assert LowerChar(p[0]) == 'q';
    PrefixedLine(p, text);
    assert (p + " " + text)[..2] == p;
  }

  /** `A: text` to `D: text` add an option in a multiple-choice text. */
  lemma ClassifyOption(p: string, text: string)
    requires |p| == 2 && 'a' <= LowerChar(p[0]) <= 'd' && p[1] == ':' && Unpadded(text)
    ensures McqClassify(p + " " + text) == Option(text)
  {
    PrefixedLine(p, text);
    var line := p + " " + text;
    assert line[..2] == p && ToLower(line[..2])[0] == LowerChar(p[0]);
  }

  /** `A: text` gives the answer in a short-answer or true/false text. */
  lemma ClassifyAnswer(p: string, text: string)
    requires |p| == 2 && ToLower(p) == "a:" && Unpadded(text)
    ensures AnswerClassify(p + " " + text) == Answer(text)
  {
    assert LowerChar(p[0]) == 'a';
    PrefixedLine(p, text);
    var line := p + " " + text;
    assert line[..2] == p && ToLower(line[..2])[0] == 'a';
  }

  lemma ClassifyCorrect(p: string, letters: string)
    requires |p| == 8 && ToLower(p) == "correct:" && Unpadded(letters)
    ensures McqClassify(p + " " + letters) == Correct(letters)
  {
    PrefixedLine(p, letters);
    var line := p + " " + letters;
    assert line[..8] == p;
    assert LowerChar(line[0]) == 'c' by { assert ToLower(p)[0] == LowerChar(p[0]); }
    assert line[1] != ':' by { assert ToLower(p)[1] == LowerChar(p[1]); }
    FirstCharMismatch(line, "q:");
  }

  /** `Marks: n` with a positive numeral carries `n`, for every parser. */
  lemma ClassifyMarks(p: string, n: nat)
    requires |p| == 6 && ToLower(p) == "marks:" && n >= 1
    ensures McqClassify(p + " " + NatToString(n)) == Marks(n)
    ensures AnswerClassify(p + " " + NatToString(n)) == Marks(n)
  {
    NatToStringUnpadded(n);
    PrefixedLine(p, NatToString(n));
    var line := p + " " + NatToString(n);
    assert line[..6] == p;
    assert LowerChar(line[0]) == 'm' by { assert ToLower(p)[0] == LowerChar(p[0]); }
    FirstCharMismatch(line, "q:");
    FirstCharMismatch(line, "correct:");
    FirstCharMismatch(line, "a:");
    MarksDefaults(n);
  }

  // ---------------------------------------------------------------------------
  // The question being read

  /** `currentQ`: the fields read so far for the question being built. */
  datatype Pending = Pending(text: Option<string>, answer: Option<string>, marks: Option<int>)

  /** `{}` */
  const Nothing: Pending := Pending(None, None, None)

  /** `{ question_text: ... }`: a new question with only its text. */
  function Started(text: string): Pending {
    Pending(Some(text), None, None)
  }

  /** `currentQ.question_text` is present and non-empty. */
  predicate HasText(p: Pending) { p.text.Some? && p.text.value != "" }

  /** `currentQ.max_marks || 1` */
  function MarksOf(p: Pending): (m: real)
    ensures m != 0.0
  {
    if p.marks.Some? && p.marks.value != 0 then p.marks.value as real else 1.0
  }

  /** An emitted question of type `qtype` has text, non-zero marks, no mappings and the `k`-th fresh id. */
  predicate Emitted(q: DraftQuestion, qtype: QuestionType, firstId: DraftId, k: nat) {
    q.id == firstId + k && q.qtype == qtype && q.text != "" && q.maxMarks != 0.0 && q.mappings == []
  }

  // ---------------------------------------------------------------------------
  // Multiple-choice questions

  /** The parser's variables: `newQuestions`, `currentQ` and `options`. */
  datatype McqState = McqState(done: seq<DraftQuestion>, current: Pending, options: seq<string>)

  const McqStart: McqState := McqState([], Nothing, [])

  /**
    The answer chosen by `Correct: X`: the option whose position is the
    letter's distance from `A`, among the options read so far, or `""` when
    there is no letter or no such option.
  */
  function CorrectChoice(letters: string, options: seq<string>): (r: string)
    ensures r == "" || r in options
    ensures options == [] ==> r == ""
  {
    var u := ToUpper(letters);
    if u == [] then ""
    else
      var index := u[0] as int - 'A' as int;
      if 0 <= index < |options| then options[index] else ""
  }

  /** The `k`-th letter, in either case and with anything after it, picks the `k`-th option. */
  lemma CorrectLetterPicks(options: seq<string>, k: nat, lower: bool, tail: string)
    requires k < |options| && k < 26
    ensures var letter := ((if lower then 'a' else 'A') as int + k) as char;
            CorrectChoice([letter] + tail, options) == options[k]
  {
    var letter := ((if lower then 'a' else 'A') as int + k) as char;
    assert ToUpper([letter] + tail)[0] == UpperChar(letter);
  }

  /** The MCQ that would be emitted now, if the pending question is complete. */
  function McqEmit(st: McqState, firstId: DraftId): (r: seq<DraftQuestion>)
    ensures |r| <= 1
    ensures r != [] <==> HasText(st.current) && |st.options| >= 2
  {
    if HasText(st.current) && |st.options| >= 2 then
      [DraftQuestion(firstId + |st.done|, st.current.text.value, Mcq, Some(st.options),
                     st.current.answer.GetOr(""), MarksOf(st.current), [])]
    else []
  }

  /** One iteration of the `forEach` in `parseBulkMCQs`, on the classified line. */
  function McqApply(st: McqState, l: Line, firstId: DraftId): McqState {
    match l
    case Question(text) => McqState(st.done + McqEmit(st, firstId), Started(text), [])
    case Option(text) => st.(options := st.options + [text])
    case Correct(letters) => st.(current := st.current.(answer := Some(CorrectChoice(letters, st.options))))
    case Marks(m) => st.(current := st.current.(marks := Some(m)))
    case _ => st
  }

  /** The state after reading the classified lines `ls` from `st`. */
  function McqSteps(st: McqState, ls: seq<Line>, firstId: DraftId): McqState {
    if ls == [] then st
    else McqApply(McqSteps(st, ls[..|ls| - 1], firstId), ls[|ls| - 1], firstId)
  }

  lemma {:induction false} McqStepsAppend(st: McqState, a: seq<Line>, b: seq<Line>, firstId: DraftId)
    ensures McqSteps(st, a + b, firstId) == McqSteps(McqSteps(st, a, firstId), b, firstId)
  {
    if b == [] {
      assert a + b == a;
    } else {
      McqStepsAppend(st, a, b[..|b| - 1], firstId);
      assert (a + b)[..|a + b| - 1] == a + b[..|b| - 1];
    }
  }

  /** One iteration of the `forEach` in `parseBulkMCQs`, on the text line: the `if`/`else if` chain as written. */
  function McqStep(st: McqState, line: string, firstId: DraftId): McqState {
    var t := Trim(line);
    if IsQuestionLine(t) then McqState(st.done + McqEmit(st, firstId), Started(After(t, 2)), [])
    else if IsOptionLine(t) then st.(options := st.options + [After(t, 2)])
    else if IsCorrectLine(t) then st.(current := st.current.(answer := Some(CorrectChoice(After(t, 8), st.options))))
    else if IsMarksLine(t) then st.(current := st.current.(marks := Some(MarksValue(After(t, 6)))))
    else st
  }

  /** The step on a text line is the step on its classification. */
  lemma McqStepClassified(st: McqState, line: string, firstId: DraftId)
    ensures McqStep(st, line, firstId) == McqApply(st, McqClassify(line), firstId)
  {
  }

  /** The state after reading the text lines `lines` from `st`. */
  function McqRun(st: McqState, lines: seq<string>, firstId: DraftId): McqState {
    if lines == [] then st
    else McqStep(McqRun(st, lines[..|lines| - 1], firstId), lines[|lines| - 1], firstId)
  }

  lemma McqRunLast(st: McqState, lines: seq<string>, i: nat, firstId: DraftId)
    requires i < |lines|
    ensures McqRun(st, lines[..i + 1], firstId) == McqStep(McqRun(st, lines[..i], firstId), lines[i], firstId)
  {
    assert lines[..i + 1][..i] == lines[..i];
  }

  /** Reading text lines is reading their classifications. */
  lemma {:induction false} McqRunClassified(st: McqState, lines: seq<string>, firstId: DraftId)
    ensures McqRun(st, lines, firstId) == McqSteps(st, McqClassifyAll(lines), firstId)
  {
    if lines != [] {
      var n := |lines| - 1;
      McqRunClassified(st, lines[..n], firstId);
      assert McqClassifyAll(lines)[..n] == McqClassifyAll(lines[..n]);
      McqStepClassified(McqRun(st, lines[..n], firstId), lines[n], firstId);
    }
  }

  /** `parseBulkMCQs(text)`, with the fresh ids taken as `firstId`, `firstId + 1`, ... */
  function ParseMcqs(text: string, firstId: DraftId): seq<DraftQuestion> {
    var st := McqRun(McqStart, Lines(text), firstId);
    st.done + McqEmit(st, firstId)
  }

  /** The pending question pushed onto the list, if it has text and at least two options. */
  method PushMcq(done: seq<DraftQuestion>, current: Pending, options: seq<string>, firstId: DraftId)
    returns (done': seq<DraftQuestion>)
    ensures done' == done + McqEmit(McqState(done, current, options), firstId)
  {
    done' := done;
    if HasText(current) && |options| >= 2 {
      done' := done + [DraftQuestion(firstId + |done|, current.text.value, Mcq, Some(options),
                                     current.answer.GetOr(""), MarksOf(current), [])];
    }
  }

  /** The body of `parseBulkMCQs`'s loop: one line read into the parser's three variables. */
  method ReadMcqLine(done: seq<DraftQuestion>, current: Pending, options: seq<string>, line: string, firstId: DraftId)
    returns (done': seq<DraftQuestion>, current': Pending, options': seq<string>)
    ensures McqState(done', current', options') == McqStep(McqState(done, current, options), line, firstId)
  {
    done', current', options' := done, current, options;
    var trimmed := Trim(line);
    if IsQuestionLine(trimmed) {
      done' := PushMcq(done, current, options, firstId);
      current' := Started(After(trimmed, 2));
      options' := [];
    } else if IsOptionLine(trimmed) {
      options' := options + [After(trimmed, 2)];
    } else if IsCorrectLine(trimmed) {
      var correctLetter := After(trimmed, 8);
      current' := current.(answer := Some(CorrectChoice(correctLetter, options)));
    } else if IsMarksLine(trimmed) {
      current' := current.(marks := Some(MarksValue(After(trimmed, 6))));
    }
  }

  method ParseBulkMcqs(text: string, firstId: DraftId) returns (newQuestions: seq<DraftQuestion>)
    ensures newQuestions == ParseMcqs(text, firstId)
  {
    var lines := Lines(text);
    newQuestions := [];
    var currentQ := Nothing;
    var options: seq<string> := [];
    for i := 0 to |lines|
      invariant McqState(newQuestions, currentQ, options) == McqRun(McqStart, lines[..i], firstId)
    {
      McqRunLast(McqStart, lines, i, firstId);
      newQuestions, currentQ, options := ReadMcqLine(newQuestions, currentQ, options, lines[i], firstId);
    }
    assert lines[..|lines|] == lines;
    newQuestions := PushMcq(newQuestions, currentQ, options, firstId);
  }

  /** An emitted MCQ also has at least two options, and its answer is one of them or empty. */
  predicate GoodMcq(q: DraftQuestion, firstId: DraftId, k: nat) {
    && Emitted(q, Mcq, firstId, k)
    && q.options.Some? && |q.options.value| >= 2
    && (q.correctAnswer == "" || q.correctAnswer in q.options.value)
  }

  predicate GoodMcqState(st: McqState, firstId: DraftId) {
    && (forall k :: 0 <= k < |st.done| ==> GoodMcq(st.done[k], firstId, k))
    && (st.current.answer.Some? ==> st.current.answer.value == "" || st.current.answer.value in st.options)
  }

  lemma McqEmitGood(st: McqState, firstId: DraftId)
    requires GoodMcqState(st, firstId)
    ensures var r := st.done + McqEmit(st, firstId);
            forall k :: 0 <= k < |r| ==> GoodMcq(r[k], firstId, k)
  {
  }

  lemma McqApplyGood(st: McqState, l: Line, firstId: DraftId)
    requires GoodMcqState(st, firstId)
    ensures GoodMcqState(McqApply(st, l, firstId), firstId)
  {
    McqEmitGood(st, firstId);
    if l.Option? {
      var o := st.options + [l.text];
      assert forall x :: x in st.options ==> x in o;
    }
  }

  lemma {:induction false} McqStepsGood(st: McqState, ls: seq<Line>, firstId: DraftId)
    requires GoodMcqState(st, firstId)
    ensures GoodMcqState(McqSteps(st, ls, firstId), firstId)
  {
    if ls != [] {
      McqStepsGood(st, ls[..|ls| - 1], firstId);
      McqApplyGood(McqSteps(st, ls[..|ls| - 1], firstId), ls[|ls| - 1], firstId);
    }
  }

  /**
    Every question `parseBulkMCQs` emits has text, at least two options, a
    correct answer that is one of them or empty, non-zero marks, no
    mappings and its own fresh id.
  */
  lemma McqsWellFormed(text: string, firstId: DraftId)
    ensures var r := ParseMcqs(text, firstId);
            forall k :: 0 <= k < |r| ==> GoodMcq(r[k], firstId, k)
  {
    var ls := McqClassifyAll(Lines(text));
    McqRunClassified(McqStart, Lines(text), firstId);
    McqStepsGood(McqStart, ls, firstId);
    McqEmitGood(McqSteps(McqStart, ls, firstId), firstId);
  }

  /** A `Correct:` line only sees the options above it: written before them it selects nothing. */
  lemma CorrectBeforeOptions(st: McqState, text: string, letters: string, opts: seq<string>, firstId: DraftId)
    ensures var ls := [Question(text), Correct(letters)] + OptionValues(opts);
            McqSteps(st, ls, firstId).current.answer == Some("")
  {
    var head := [Question(text), Correct(letters)];
    McqStepsAppend(st, head, OptionValues(opts), firstId);
    assert head[..1] == [Question(text)] && head[..1][..0] == [];
    OptionsSteps(McqSteps(st, head, firstId), opts, firstId);
  }

  // The multiple-choice format written out: `Q:`, the options, `Correct:` and `Marks:`.

  /** The letter written before the `i`-th option: `A` to `D`, in turn. */
  function Letter(i: nat): (c: char)
    ensures 'A' <= c <= 'D'
  {
    "ABCD"[i % 4]
  }

  /** `A: ...`, `B: ...` and so on, one line per option. */
  function OptionLines(opts: seq<string>): (r: seq<string>)
    ensures |r| == |opts|
  {
    seq(|opts|, i requires 0 <= i < |opts| => [Letter(i)] + ": " + opts[i])
  }

  function OptionValues(opts: seq<string>): (r: seq<Line>)
    ensures |r| == |opts| && forall i :: 0 <= i < |opts| ==> r[i] == Option(opts[i])
  {
    seq(|opts|, i requires 0 <= i < |opts| => Option(opts[i]))
  }

  /** Option lines are read as options, in order. */
  lemma {:induction false} OptionsSteps(st: McqState, opts: seq<string>, firstId: DraftId)
    ensures McqSteps(st, OptionValues(opts), firstId) == st.(options := st.options + opts)
  {
    if opts != [] {
      var n := |opts| - 1;
      OptionsSteps(st, opts[..n], firstId);
      assert OptionValues(opts)[..n] == OptionValues(opts[..n]);
      assert st.options + opts[..n] + [opts[n]] == st.options + opts;
    }
  }

  /** The first position of `a` in `opts`, or `|opts|` when it is absent. */
  function FirstIndex(opts: seq<string>, a: string): (k: nat)
    ensures k <= |opts| && (k < |opts| ==> opts[k] == a) && (a in opts ==> k < |opts|)
  {
    if opts == [] then 0 else if opts[0] == a then 0 else 1 + FirstIndex(opts[1..], a)
  }

  /** The letter of the answer's option, for a non-empty answer. */
  function AnswerLetter(q: DraftQuestion): string {
    [Letter(FirstIndex(q.options.GetOr([]), q.correctAnswer))]
  }

  /** `Correct: X` naming the answer's option, or no such line when the answer is empty. */
  function CorrectLines(q: DraftQuestion): seq<string> {
    if q.correctAnswer == "" then [] else ["Correct: " + AnswerLetter(q)]
  }

  function CorrectValues(q: DraftQuestion): seq<Line> {
    if q.correctAnswer == "" then [] else [Correct(AnswerLetter(q))]
  }

  /** The lines that describe one multiple-choice question. */
  function McqBlock(q: DraftQuestion): seq<string> {
    ["Q: " + q.text] + OptionLines(q.options.GetOr([])) + CorrectLines(q) + ["Marks: " + NatToString(WholeMarks(q))]
  }

  function McqBlockValues(q: DraftQuestion): seq<Line> {
    [Question(q.text)] + OptionValues(q.options.GetOr([])) + CorrectValues(q) + [Marks(WholeMarks(q))]
  }

  function McqBlocks(qs: seq<DraftQuestion>): seq<string> {
    if qs == [] then [] else McqBlocks(qs[..|qs| - 1]) + McqBlock(qs[|qs| - 1])
  }

  function McqBlocksValues(qs: seq<DraftQuestion>): seq<Line> {
    if qs == [] then [] else McqBlocksValues(qs[..|qs| - 1]) + McqBlockValues(qs[|qs| - 1])
  }

  /** An MCQ the bulk format can carry: two to four one-line options, an answer among them or empty. */
  predicate McqWritable(q: DraftQuestion) {
    && LineText(q.text) && WholePositiveMarks(q)
    && q.qtype == Mcq && q.mappings == []
    && q.options.Some? && 2 <= |q.options.value| <= 4
    && (forall i :: 0 <= i < |q.options.value| ==> LineText(q.options.value[i]))
    && (q.correctAnswer == "" || q.correctAnswer in q.options.value)
  }

  /** The `i`-th option line reads back as the `i`-th option. */
  lemma OptionLineClassify(opts: seq<string>, i: nat)
    requires i < |opts| && Unpadded(opts[i])
    ensures McqClassify(OptionLines(opts)[i]) == Option(opts[i])
  {
    var p := [Letter(i)] + ":";
    assert OptionLines(opts)[i] == p + " " + opts[i];
    ClassifyOption(p, opts[i]);
  }

  lemma OptionLinesClassify(opts: seq<string>)
    requires forall i :: 0 <= i < |opts| ==> Unpadded(opts[i])
    ensures McqClassifyAll(OptionLines(opts)) == OptionValues(opts)
  {
    forall i | 0 <= i < |opts| ensures McqClassify(OptionLines(opts)[i]) == Option(opts[i]) {
      OptionLineClassify(opts, i);
    }
  }

  /** The prefixes the bulk format is written with, lower-cased. */
  lemma LowerPrefixes()
    ensures ToLower("Q:") == "q:" && ToLower("A:") == "a:"
    ensures ToLower("Correct:") == "correct:" && ToLower("Marks:") == "marks:"
  {
  }

  lemma QuestionLineClassify(text: string)
    requires Unpadded(text)
    ensures McqClassifyAll(["Q: " + text]) == [Question(text)]
    ensures AnswerClassifyAll(["Q: " + text]) == [Question(text)]
  {
    LowerPrefixes();
    ClassifyQuestion("Q:", text);
    assert "Q: " + text == "Q:" + " " + text;
  }

  lemma MarksLineClassify(n: nat)
    requires n >= 1
    ensures McqClassifyAll(["Marks: " + NatToString(n)]) == [Marks(n)]
    ensures AnswerClassifyAll(["Marks: " + NatToString(n)]) == [Marks(n)]
  {
    LowerPrefixes();
    ClassifyMarks("Marks:", n);
    assert "Marks: " + NatToString(n) == "Marks:" + " " + NatToString(n);
  }

  lemma CorrectLinesClassify(q: DraftQuestion)
    ensures McqClassifyAll(CorrectLines(q)) == CorrectValues(q)
  {
    if q.correctAnswer != "" {
      var letter := AnswerLetter(q);
      assert !IsWhitespace(letter[0]);
      LowerPrefixes();
      ClassifyCorrect("Correct:", letter);
      assert "Correct: " + letter == "Correct:" + " " + letter;
    }
  }

  lemma McqBlockClassify(q: DraftQuestion)
    requires McqWritable(q)
    ensures McqClassifyAll(McqBlock(q)) == McqBlockValues(q)
  {
    var opts := q.options.value;
    var ql, ol, cl := ["Q: " + q.text], OptionLines(opts), CorrectLines(q);
    var ml := ["Marks: " + NatToString(WholeMarks(q))];
    ClassifyAllAppend(ql, ol);
    ClassifyAllAppend(ql + ol, cl);
    ClassifyAllAppend(ql + ol + cl, ml);
    QuestionLineClassify(q.text);
    OptionLinesClassify(opts);
    CorrectLinesClassify(q);
    MarksLineClassify(WholeMarks(q));
  }

  lemma {:induction false} McqBlocksClassify(qs: seq<DraftQuestion>)
    requires forall k :: 0 <= k < |qs| ==> McqWritable(qs[k])
    ensures McqClassifyAll(McqBlocks(qs)) == McqBlocksValues(qs)
  {
    if qs != [] {
      var init := qs[..|qs| - 1];
      McqBlocksClassify(init);
      McqBlockClassify(qs[|qs| - 1]);
      ClassifyAllAppend(McqBlocks(init), McqBlock(qs[|qs| - 1]));
    }
  }

  /** What the parser holds after an MCQ's lines have been read. */
  function McqHolding(q: DraftQuestion): Pending {
    Pending(Some(q.text), if q.correctAnswer == "" then None else Some(q.correctAnswer), Some(WholeMarks(q)))
  }

  lemma McqBlockSteps(st: McqState, q: DraftQuestion, firstId: DraftId)
    requires McqWritable(q)
    ensures McqSteps(st, McqBlockValues(q), firstId)
         == McqState(st.done + McqEmit(st, firstId), McqHolding(q), q.options.value)
  {
    var opts := q.options.value;
    var ql, ol, cl := [Question(q.text)], OptionValues(opts), CorrectValues(q);
    var ml := [Marks(WholeMarks(q))];
    var s1 := McqState(st.done + McqEmit(st, firstId), Started(q.text), []);
    assert McqSteps(st, ql, firstId) == s1 by { assert ql[..0] == []; }
    var s2 := s1.(options := opts);
    assert McqSteps(s1, ol, firstId) == s2 by { OptionsSteps(s1, opts, firstId); assert s1.options + opts == opts; }
    var s3 := s2.(current := McqHolding(q).(marks := None));
    assert McqSteps(s2, cl, firstId) == s3 by { CorrectSteps(s2, q, firstId); }
    assert McqSteps(s3, ml, firstId) == McqState(s1.done, McqHolding(q), opts) by { assert ml[..0] == []; }
    McqStepsAppend(st, ql, ol, firstId);
    McqStepsAppend(st, ql + ol, cl, firstId);
    McqStepsAppend(st, ql + ol + cl, ml, firstId);
  }

  /** The `Correct:` line of a block picks the question's answer back out of its options. */
  lemma CorrectSteps(st: McqState, q: DraftQuestion, firstId: DraftId)
    requires McqWritable(q) && st.options == q.options.value && st.current == Started(q.text)
    ensures McqSteps(st, CorrectValues(q), firstId) == st.(current := McqHolding(q).(marks := None))
  {
    var opts := q.options.value;
    if q.correctAnswer != "" {
      var k := FirstIndex(opts, q.correctAnswer);
      assert Letter(k) == ('A' as int + k) as char;
      CorrectLetterPicks(opts, k, false, "");
      assert [Letter(k)] + "" == AnswerLetter(q);
      assert CorrectValues(q)[..0] == [];
    }
  }

  lemma McqHoldingEmits(done: seq<DraftQuestion>, q: DraftQuestion, firstId: DraftId)
    requires McqWritable(q) && q.id == firstId + |done|
    ensures McqEmit(McqState(done, McqHolding(q), q.options.value), firstId) == [q]
  {
    assert MarksOf(McqHolding(q)) == q.maxMarks;
  }

  /** With all but the last question emitted and the last one pending, emitting it completes the list. */
  lemma McqHeldEmits(qs: seq<DraftQuestion>, firstId: DraftId)
    requires qs != []
    requires forall k :: 0 <= k < |qs| ==> McqWritable(qs[k]) && qs[k].id == firstId + k
    ensures var n := |qs| - 1;
            var st := McqState(qs[..n], McqHolding(qs[n]), qs[n].options.GetOr([]));
            st.done + McqEmit(st, firstId) == qs
  {
    var n := |qs| - 1;
    McqHoldingEmits(qs[..n], qs[n], firstId);
    SplitLast(qs);
  }

  /** Reading the lines of `qs` leaves all but the last emitted and the last one pending. */
  lemma {:induction false} McqBlocksRun(qs: seq<DraftQuestion>, firstId: DraftId)
    requires qs != []
    requires forall k :: 0 <= k < |qs| ==> McqWritable(qs[k]) && qs[k].id == firstId + k
    ensures McqSteps(McqStart, McqBlocksValues(qs), firstId)
         == McqState(qs[..|qs| - 1], McqHolding(qs[|qs| - 1]), qs[|qs| - 1].options.GetOr([]))
  {
    var n := |qs| - 1;
    var init := qs[..n];
    var st := McqSteps(McqStart, McqBlocksValues(init), firstId);
    assert st.done + McqEmit(st, firstId) == init by {
      if init != [] {
        McqBlocksRun(init, firstId);
        McqHeldEmits(init, firstId);
      }
    }
    McqStepsAppend(McqStart, McqBlocksValues(init), McqBlockValues(qs[n]), firstId);
    McqBlockSteps(st, qs[n], firstId);
  }

  lemma OptionLinesClean(opts: seq<string>)
    requires forall i :: 0 <= i < |opts| ==> LineText(opts[i])
    ensures forall i :: 0 <= i < |OptionLines(opts)| ==> '\n' !in OptionLines(opts)[i]
    ensures forall i :: 0 <= i < |OptionLines(opts)| ==> Trim(OptionLines(opts)[i]) != ""
  {
    forall i | 0 <= i < |opts| ensures '\n' !in OptionLines(opts)[i] && Trim(OptionLines(opts)[i]) != "" {
      CleanLine([Letter(i)] + ": ", opts[i]);
      assert OptionLines(opts)[i] == ([Letter(i)] + ": ") + opts[i];
    }
  }

  lemma SplitLast<T>(s: seq<T>)
    requires s != []
    ensures s[..|s| - 1] + [s[|s| - 1]] == s
  {
  }

  /** Lines that hold no line feed and are not blank. */
  predicate CleanLines(ls: seq<string>) {
    (forall i :: 0 <= i < |ls| ==> '\n' !in ls[i]) && (forall i :: 0 <= i < |ls| ==> Trim(ls[i]) != "")
  }

  lemma CleanLinesAppend(a: seq<string>, b: seq<string>)
    requires CleanLines(a) && CleanLines(b)
    ensures CleanLines(a + b)
  {
    var ab := a + b;
    forall i | 0 <= i < |ab| ensures '\n' !in ab[i] && Trim(ab[i]) != "" {
      if i < |a| { assert ab[i] == a[i]; } else { assert ab[i] == b[i - |a|]; }
    }
  }

  lemma {:induction false} McqBlocksClean(qs: seq<DraftQuestion>)
    requires forall k :: 0 <= k < |qs| ==> McqWritable(qs[k])
    ensures CleanLines(McqBlocks(qs))
  {
    if qs != [] {
      McqBlocksClean(qs[..|qs| - 1]);
      var q := qs[|qs| - 1];
      OptionLinesClean(q.options.value);
      CleanLine("Q: ", q.text);
      NatToStringUnpadded(WholeMarks(q));
      CleanLine("Marks: ", NatToString(WholeMarks(q)));
      if q.correctAnswer != "" {
        CleanLine("Correct: ", AnswerLetter(q));
      }
      var ql, ol, cl := ["Q: " + q.text], OptionLines(q.options.value), CorrectLines(q);
      var ml := ["Marks: " + NatToString(WholeMarks(q))];
      CleanLinesAppend(ql, ol);
      CleanLinesAppend(ql + ol, cl);
      CleanLinesAppend(ql + ol + cl, ml);
      CleanLinesAppend(McqBlocks(qs[..|qs| - 1]), McqBlock(q));
    }
  }

  /**
    Writing MCQs in the bulk format and parsing the text with
    `parseBulkMCQs` gives the same questions back: options in order, the
    answer through its letter, the marks through `parseInt`.
  */
  lemma {:induction false} McqsRoundTrip(qs: seq<DraftQuestion>, firstId: DraftId)
    requires forall k :: 0 <= k < |qs| ==> McqWritable(qs[k]) && qs[k].id == firstId + k
    ensures ParseMcqs(Join(McqBlocks(qs)), firstId) == qs
  {
    var blocks := McqBlocks(qs);
    var values := McqClassifyAll(Lines(Join(blocks)));
    assert values == McqBlocksValues(qs) by {
      McqBlocksClean(qs);
      JoinedLines(blocks);
      McqBlocksClassify(qs);
    }
    var st := McqSteps(McqStart, values, firstId);
    assert ParseMcqs(Join(blocks), firstId) == st.done + McqEmit(st, firstId) by {
      McqRunClassified(McqStart, Lines(Join(blocks)), firstId);
    }
    if qs != [] {
      var n := |qs| - 1;
      McqBlocksRun(qs, firstId);
      McqHeldEmits(qs, firstId);
    }
  }

  // ---------------------------------------------------------------------------
  // Short-answer and true/false questions

  /** Which of the two `Q:`/`A:`/`Marks:` parsers runs. */
  datatype AnswerKind = Short | TrueOrFalse

  function KindType(kind: AnswerKind): QuestionType {
    if kind == Short then ShortAnswer else TrueFalse
  }

  /** `answer === "true" || answer === "t" ? "True" : "False"` on the lower-cased answer. */
  function TrueFalseAnswer(raw: string): (r: string)
    ensures r == "True" || r == "False"
  {
    var answer := ToLower(raw);
    if answer == "true" || answer == "t" then "True" else "False"
  }

  /** `True` and `False` are the answers a true/false line reads back unchanged; `t`, in either case, also means true. */
  lemma TrueFalseFixedPoints(s: string)
    ensures TrueFalseAnswer(s) == s <==> s == "True" || s == "False"
    ensures TrueFalseAnswer("t") == "True" && TrueFalseAnswer("T") == "True" && TrueFalseAnswer("TRUE") == "True"
  {
    if s == "True" {
      assert ToLower(s) == "true";
    } else if s == "False" {
      assert ToLower(s) == "false";
    }
    assert ToLower("T") == "t";
    assert ToLower("TRUE") == "true";
  }

  /** The answer recorded for an `A:` line: as written for short answers, normalised for true/false. */
  function AnswerText(kind: AnswerKind, raw: string): string {
    if kind == Short then raw else TrueFalseAnswer(raw)
  }

  /** The parser's variables: `newQuestions` and `currentQ`. */
  datatype AnswerState = AnswerState(done: seq<DraftQuestion>, current: Pending)

  const AnswerStart: AnswerState := AnswerState([], Nothing)

  /** The question that would be emitted now, if both text and answer are present and non-empty. */
  function AnswerEmit(st: AnswerState, kind: AnswerKind, firstId: DraftId): (r: seq<DraftQuestion>)
    ensures |r| <= 1
    ensures r != [] <==> HasText(st.current) && st.current.answer.Some? && st.current.answer.value != ""
  {
    if HasText(st.current) && st.current.answer.Some? && st.current.answer.value != "" then
      [DraftQuestion(firstId + |st.done|, st.current.text.value, KindType(kind), None,
                     st.current.answer.value, MarksOf(st.current), [])]
    else []
  }

  /** One iteration of the `forEach` in `parseBulkShortAnswer` or `parseBulkTrueFalse`, on the classified line. */
  function AnswerApply(st: AnswerState, l: Line, kind: AnswerKind, firstId: DraftId): AnswerState {
    match l
    case Question(text) => AnswerState(st.done + AnswerEmit(st, kind, firstId), Started(text))
    case Answer(raw) => st.(current := st.current.(answer := Some(AnswerText(kind, raw))))
    case Marks(m) => st.(current := st.current.(marks := Some(m)))
    case _ => st
  }

  /** The state after reading the classified lines `ls` from `st`. */
  function AnswerSteps(st: AnswerState, ls: seq<Line>, kind: AnswerKind, firstId: DraftId): AnswerState {
    if ls == [] then st
    else AnswerApply(AnswerSteps(st, ls[..|ls| - 1], kind, firstId), ls[|ls| - 1], kind, firstId)
  }

  lemma {:induction false} AnswerStepsAppend(st: AnswerState, a: seq<Line>, b: seq<Line>, kind: AnswerKind, firstId: DraftId)
    ensures AnswerSteps(st, a + b, kind, firstId) == AnswerSteps(AnswerSteps(st, a, kind, firstId), b, kind, firstId)
  {
    if b == [] {
      assert a + b == a;
    } else {
      AnswerStepsAppend(st, a, b[..|b| - 1], kind, firstId);
      assert (a + b)[..|a + b| - 1] == a + b[..|b| - 1];
    }
  }

  /** One iteration of the `forEach`, on the text line: the `if`/`else if` chain as the parsers write it. */
  function AnswerStep(st: AnswerState, line: string, kind: AnswerKind, firstId: DraftId): AnswerState {
    var t := Trim(line);
    if IsQuestionLine(t) then AnswerState(st.done + AnswerEmit(st, kind, firstId), Started(After(t, 2)))
    else if IsAnswerLine(t) then st.(current := st.current.(answer := Some(AnswerText(kind, After(t, 2)))))
    else if IsMarksLine(t) then st.(current := st.current.(marks := Some(MarksValue(After(t, 6)))))
    else st
  }

  /** The step on a text line is the step on its classification. */
  lemma AnswerStepClassified(st: AnswerState, line: string, kind: AnswerKind, firstId: DraftId)
    ensures AnswerStep(st, line, kind, firstId) == AnswerApply(st, AnswerClassify(line), kind, firstId)
  {
  }

  /** The state after reading the text lines `lines` from `st`. */
  function AnswerRun(st: AnswerState, lines: seq<string>, kind: AnswerKind, firstId: DraftId): AnswerState {
    if lines == [] then st
    else AnswerStep(AnswerRun(st, lines[..|lines| - 1], kind, firstId), lines[|lines| - 1], kind, firstId)
  }

  lemma AnswerRunLast(st: AnswerState, lines: seq<string>, i: nat, kind: AnswerKind, firstId: DraftId)
    requires i < |lines|
    ensures AnswerRun(st, lines[..i + 1], kind, firstId)
         == AnswerStep(AnswerRun(st, lines[..i], kind, firstId), lines[i], kind, firstId)
  {
    assert lines[..i + 1][..i] == lines[..i];
  }

  /** Reading text lines is reading their classifications. */
  lemma {:induction false} AnswerRunClassified(st: AnswerState, lines: seq<string>, kind: AnswerKind, firstId: DraftId)
    ensures AnswerRun(st, lines, kind, firstId) == AnswerSteps(st, AnswerClassifyAll(lines), kind, firstId)
  {
    if lines != [] {
      var n := |lines| - 1;
      AnswerRunClassified(st, lines[..n], kind, firstId);
      assert AnswerClassifyAll(lines)[..n] == AnswerClassifyAll(lines[..n]);
      AnswerStepClassified(AnswerRun(st, lines[..n], kind, firstId), lines[n], kind, firstId);
    }
  }

  /** `parseBulkShortAnswer(text)` for `Short`, `parseBulkTrueFalse(text)` for `TrueOrFalse`. */
  function ParseAnswers(text: string, kind: AnswerKind, firstId: DraftId): seq<DraftQuestion> {
    var st := AnswerRun(AnswerStart, Lines(text), kind, firstId);
    st.done + AnswerEmit(st, kind, firstId)
  }

  /** The pending question pushed onto the list, if it has text and a non-empty answer. */
  method PushAnswerQuestion(done: seq<DraftQuestion>, current: Pending, kind: AnswerKind, firstId: DraftId)
    returns (done': seq<DraftQuestion>)
    ensures done' == done + AnswerEmit(AnswerState(done, current), kind, firstId)
  {
    done' := done;
    if HasText(current) && current.answer.Some? && current.answer.value != "" {
      done' := done + [DraftQuestion(firstId + |done|, current.text.value, KindType(kind), None,
                                     current.answer.value, MarksOf(current), [])];
    }
  }

  /** The body of the short-answer and true/false parsers' loop: one line read into their two variables. */
  method ReadAnswerLine(done: seq<DraftQuestion>, current: Pending, line: string, kind: AnswerKind, firstId: DraftId)
    returns (done': seq<DraftQuestion>, current': Pending)
    ensures AnswerState(done', current') == AnswerStep(AnswerState(done, current), line, kind, firstId)
  {
    done', current' := done, current;
    var trimmed := Trim(line);
    if IsQuestionLine(trimmed) {
      done' := PushAnswerQuestion(done, current, kind, firstId);
      current' := Started(After(trimmed, 2));
    } else if IsAnswerLine(trimmed) {
      var answer := After(trimmed, 2);
      if kind == TrueOrFalse {
        answer := TrueFalseAnswer(answer);
      }
      current' := current.(answer := Some(answer));
    } else if IsMarksLine(trimmed) {
      current' := current.(marks := Some(MarksValue(After(trimmed, 6))));
    }
  }

  method ParseBulkAnswers(text: string, kind: AnswerKind, firstId: DraftId) returns (newQuestions: seq<DraftQuestion>)
    ensures newQuestions == ParseAnswers(text, kind, firstId)
  {
    var lines := Lines(text);
    newQuestions := [];
    var currentQ := Nothing;
    for i := 0 to |lines|
      invariant AnswerState(newQuestions, currentQ) == AnswerRun(AnswerStart, lines[..i], kind, firstId)
    {
      AnswerRunLast(AnswerStart, lines, i, kind, firstId);
      newQuestions, currentQ := ReadAnswerLine(newQuestions, currentQ, lines[i], kind, firstId);
    }
    assert lines[..|lines|] == lines;
    newQuestions := PushAnswerQuestion(newQuestions, currentQ, kind, firstId);
  }

  /** An emitted short-answer or true/false question has a non-empty answer and no options; a true/false answer is `True` or `False`. */
  predicate GoodAnswer(q: DraftQuestion, kind: AnswerKind, firstId: DraftId, k: nat) {
    && Emitted(q, KindType(kind), firstId, k)
    && q.options.None? && q.correctAnswer != ""
    && (kind == TrueOrFalse ==> q.correctAnswer == "True" || q.correctAnswer == "False")
  }

  predicate GoodAnswerState(st: AnswerState, kind: AnswerKind, firstId: DraftId) {
    && (forall k :: 0 <= k < |st.done| ==> GoodAnswer(st.done[k], kind, firstId, k))
    && (kind == TrueOrFalse && st.current.answer.Some? ==> st.current.answer.value == "True" || st.current.answer.value == "False")
  }

  lemma AnswerEmitGood(st: AnswerState, kind: AnswerKind, firstId: DraftId)
    requires GoodAnswerState(st, kind, firstId)
    ensures var r := st.done + AnswerEmit(st, kind, firstId);
            forall k :: 0 <= k < |r| ==> GoodAnswer(r[k], kind, firstId, k)
  {
  }

  lemma AnswerApplyGood(st: AnswerState, l: Line, kind: AnswerKind, firstId: DraftId)
    requires GoodAnswerState(st, kind, firstId)
    ensures GoodAnswerState(AnswerApply(st, l, kind, firstId), kind, firstId)
  {
    AnswerEmitGood(st, kind, firstId);
    if l.Answer? && kind == TrueOrFalse {
      assert AnswerText(kind, l.text) == TrueFalseAnswer(l.text);
    }
  }

  lemma {:induction false} AnswerStepsGood(st: AnswerState, ls: seq<Line>, kind: AnswerKind, firstId: DraftId)
    requires GoodAnswerState(st, kind, firstId)
    ensures GoodAnswerState(AnswerSteps(st, ls, kind, firstId), kind, firstId)
  {
    if ls != [] {
      AnswerStepsGood(st, ls[..|ls| - 1], kind, firstId);
      AnswerApplyGood(AnswerSteps(st, ls[..|ls| - 1], kind, firstId), ls[|ls| - 1], kind, firstId);
    }
  }

  /**
    Every question the short-answer and true/false parsers emit has text, a
    non-empty answer (`True` or `False` for true/false), non-zero marks, no
    options, no mappings and its own fresh id.
  */
  lemma AnswersWellFormed(text: string, kind: AnswerKind, firstId: DraftId)
    ensures var r := ParseAnswers(text, kind, firstId);
            forall k :: 0 <= k < |r| ==> GoodAnswer(r[k], kind, firstId, k)
  {
    var ls := AnswerClassifyAll(Lines(text));
    AnswerRunClassified(AnswerStart, Lines(text), kind, firstId);
    AnswerStepsGood(AnswerStart, ls, kind, firstId);
    AnswerEmitGood(AnswerSteps(AnswerStart, ls, kind, firstId), kind, firstId);
  }

  // The short-answer and true/false format written out: `Q:`, `A:` and `Marks:`.

  /** A question the `Q:`/`A:`/`Marks:` format can carry: one-line text and answer, a positive whole number of marks. */
  predicate AnswerWritable(q: DraftQuestion, kind: AnswerKind) {
    && LineText(q.text) && LineText(q.correctAnswer) && WholePositiveMarks(q)
    && AnswerText(kind, q.correctAnswer) == q.correctAnswer
    && q.qtype == KindType(kind) && q.options.None? && q.mappings == []
  }

  /** The three lines that describe one short-answer or true/false question. */
  function AnswerBlock(q: DraftQuestion): seq<string> {
    ["Q: " + q.text, "A: " + q.correctAnswer, "Marks: " + NatToString(WholeMarks(q))]
  }

  function AnswerBlockValues(q: DraftQuestion): seq<Line> {
    [Question(q.text), Answer(q.correctAnswer), Marks(WholeMarks(q))]
  }

  function AnswerBlocks(qs: seq<DraftQuestion>): seq<string> {
    if qs == [] then [] else AnswerBlocks(qs[..|qs| - 1]) + AnswerBlock(qs[|qs| - 1])
  }

  function AnswerBlocksValues(qs: seq<DraftQuestion>): seq<Line> {
    if qs == [] then [] else AnswerBlocksValues(qs[..|qs| - 1]) + AnswerBlockValues(qs[|qs| - 1])
  }

  lemma AnswerLineClassify(text: string)
    requires Unpadded(text)
    ensures AnswerClassifyAll(["A: " + text]) == [Answer(text)]
  {
    LowerPrefixes();
    ClassifyAnswer("A:", text);
    assert "A: " + text == "A:" + " " + text;
  }

  lemma AnswerBlockClassify(q: DraftQuestion, kind: AnswerKind)
    requires AnswerWritable(q, kind)
    ensures AnswerClassifyAll(AnswerBlock(q)) == AnswerBlockValues(q)
  {
    var ql, al := ["Q: " + q.text], ["A: " + q.correctAnswer];
    var ml := ["Marks: " + NatToString(WholeMarks(q))];
    assert AnswerBlock(q) == ql + al + ml;
    ClassifyAllAppend(ql, al);
    ClassifyAllAppend(ql + al, ml);
    QuestionLineClassify(q.text);
    AnswerLineClassify(q.correctAnswer);
    MarksLineClassify(WholeMarks(q));
  }

  lemma {:induction false} AnswerBlocksClassify(qs: seq<DraftQuestion>, kind: AnswerKind)
    requires forall k :: 0 <= k < |qs| ==> AnswerWritable(qs[k], kind)
    ensures AnswerClassifyAll(AnswerBlocks(qs)) == AnswerBlocksValues(qs)
  {
    if qs != [] {
      var init := qs[..|qs| - 1];
      AnswerBlocksClassify(init, kind);
      AnswerBlockClassify(qs[|qs| - 1], kind);
      ClassifyAllAppend(AnswerBlocks(init), AnswerBlock(qs[|qs| - 1]));
    }
  }

  /** What the parser holds after a question's lines have been read. */
  function AnswerHolding(q: DraftQuestion): Pending {
    Pending(Some(q.text), Some(q.correctAnswer), Some(WholeMarks(q)))
  }

  lemma AnswerBlockSteps(st: AnswerState, q: DraftQuestion, kind: AnswerKind, firstId: DraftId)
    requires AnswerWritable(q, kind)
    ensures AnswerSteps(st, AnswerBlockValues(q), kind, firstId)
         == AnswerState(st.done + AnswerEmit(st, kind, firstId), AnswerHolding(q))
  {
    var b := AnswerBlockValues(q);
    var s1 := AnswerState(st.done + AnswerEmit(st, kind, firstId), Started(q.text));
    var s2 := s1.(current := s1.current.(answer := Some(q.correctAnswer)));
    assert b[..1][..0] == [] && b[..2][..1] == b[..1] && b[..3] == b && b[..3][..2] == b[..2];
    assert AnswerSteps(st, b[..1], kind, firstId) == s1;
    assert AnswerSteps(st, b[..2], kind, firstId) == AnswerApply(s1, Answer(q.correctAnswer), kind, firstId) == s2;
    assert AnswerSteps(st, b, kind, firstId) == AnswerApply(s2, Marks(WholeMarks(q)), kind, firstId);
  }

  lemma AnswerHoldingEmits(done: seq<DraftQuestion>, q: DraftQuestion, kind: AnswerKind, firstId: DraftId)
    requires AnswerWritable(q, kind) && q.id == firstId + |done|
    ensures AnswerEmit(AnswerState(done, AnswerHolding(q)), kind, firstId) == [q]
  {
    assert MarksOf(AnswerHolding(q)) == q.maxMarks;
  }

  /** Reading the lines of `qs` leaves all but the last emitted and the last one pending. */
  lemma {:induction false} AnswerBlocksRun(qs: seq<DraftQuestion>, kind: AnswerKind, firstId: DraftId)
    requires qs != []
    requires forall k :: 0 <= k < |qs| ==> AnswerWritable(qs[k], kind) && qs[k].id == firstId + k
    ensures AnswerSteps(AnswerStart, AnswerBlocksValues(qs), kind, firstId) == AnswerState(qs[..|qs| - 1], AnswerHolding(qs[|qs| - 1]))
  {
    var n := |qs| - 1;
    var init := qs[..n];
    var st := AnswerSteps(AnswerStart, AnswerBlocksValues(init), kind, firstId);
    if init == [] {
      assert st == AnswerStart;
      assert st.done + AnswerEmit(st, kind, firstId) == init;
    } else {
      AnswerBlocksRun(init, kind, firstId);
      assert init[..n - 1] == qs[..n - 1];
      AnswerHoldingEmits(qs[..n - 1], qs[n - 1], kind, firstId);
      assert qs[..n - 1] + [qs[n - 1]] == init;
    }
    AnswerStepsAppend(AnswerStart, AnswerBlocksValues(init), AnswerBlockValues(qs[n]), kind, firstId);
    AnswerBlockSteps(st, qs[n], kind, firstId);
  }

  lemma {:induction false} AnswerBlocksClean(qs: seq<DraftQuestion>)
    requires forall k :: 0 <= k < |qs| ==> '\n' !in qs[k].text && '\n' !in qs[k].correctAnswer
    ensures CleanLines(AnswerBlocks(qs))
  {
    if qs != [] {
      AnswerBlocksClean(qs[..|qs| - 1]);
      var q := qs[|qs| - 1];
      CleanLine("Q: ", q.text);
      CleanLine("A: ", q.correctAnswer);
      NatToStringUnpadded(WholeMarks(q));
      CleanLine("Marks: ", NatToString(WholeMarks(q)));
      assert CleanLines(AnswerBlock(q));
      CleanLinesAppend(AnswerBlocks(qs[..|qs| - 1]), AnswerBlock(q));
    }
  }

  /**
    Writing questions in the bulk format and parsing the text gives the same
    questions back, for both the short-answer and the true/false parser:
    each `Q:` line flushes the question before it and the end of the input
    flushes the last one.
  */
  lemma {:induction false} AnswersRoundTrip(qs: seq<DraftQuestion>, kind: AnswerKind, firstId: DraftId)
    requires forall k :: 0 <= k < |qs| ==> AnswerWritable(qs[k], kind) && qs[k].id == firstId + k
    ensures ParseAnswers(Join(AnswerBlocks(qs)), kind, firstId) == qs
  {
    var blocks := AnswerBlocks(qs);
    var values := AnswerClassifyAll(Lines(Join(blocks)));
    assert values == AnswerBlocksValues(qs) by {
      AnswerBlocksClean(qs);
      JoinedLines(blocks);
      AnswerBlocksClassify(qs, kind);
    }
    var st := AnswerSteps(AnswerStart, values, kind, firstId);
    AnswerRunClassified(AnswerStart, Lines(Join(blocks)), kind, firstId);
    assert ParseAnswers(Join(blocks), kind, firstId) == st.done + AnswerEmit(st, kind, firstId);
    if qs != [] {
      var n := |qs| - 1;
      assert st == AnswerState(qs[..n], AnswerHolding(qs[n])) by {
        AnswerBlocksRun(qs, kind, firstId);
      }
      AnswerHoldingEmits(qs[..n], qs[n], kind, firstId);
      SplitLast(qs);
    }
  }

  // ---------------------------------------------------------------------------
  // Adding the parsed questions

  datatype UploadError = EmptyText | NoQuestions

  /** The parser `handleBulkUpload` picks for the chosen question type. */
  function Parsed(qtype: QuestionType, text: string, firstId: DraftId): seq<DraftQuestion> {
    match qtype
    case Mcq => ParseMcqs(text, firstId)
    case ShortAnswer => ParseAnswers(text, Short, firstId)
    case TrueFalse => ParseAnswers(text, TrueOrFalse, firstId)
  }

  /** A blank text would parse to no questions anyway: the first check only chooses the message. */
  lemma BlankTextParsesToNothing(qtype: QuestionType, text: string, firstId: DraftId)
    requires Trim(text) == ""
    ensures Parsed(qtype, text, firstId) == []
  {
    BlankTextHasNoLines(text);
  }

  /** Whichever parser runs, the questions it returns are emitted in order, with the fresh ids in turn. */
  lemma ParsedEmitted(qtype: QuestionType, text: string, firstId: DraftId)
    ensures var r := Parsed(qtype, text, firstId);
            forall k :: 0 <= k < |r| ==> Emitted(r[k], qtype, firstId, k)
  {
    match qtype {
      case Mcq => McqsWellFormed(text, firstId);
      case ShortAnswer => AnswersWellFormed(text, Short, firstId);
      case TrueFalse => AnswersWellFormed(text, TrueOrFalse, firstId);
    }
  }

  /** The `if`/`else if` choice of parser by question type. */
  method ParseFor(qtype: QuestionType, text: string, firstId: DraftId) returns (parsed: seq<DraftQuestion>)
    ensures parsed == Parsed(qtype, text, firstId)
  {
    match qtype {
      case Mcq => parsed := ParseBulkMcqs(text, firstId);
      case ShortAnswer => parsed := ParseBulkAnswers(text, Short, firstId);
      case TrueFalse => parsed := ParseBulkAnswers(text, TrueOrFalse, firstId);
    }
  }

  /**
    `handleBulkUpload`: refuses a blank text and a text in which no complete
    question is found; otherwise appends the parsed questions, each with
    text, non-zero marks and no mappings, after the existing ones.
  */
  method HandleBulkUpload(qs: seq<DraftQuestion>, qtype: QuestionType, text: string, firstId: DraftId)
    returns (r: Result<seq<DraftQuestion>, UploadError>)
    ensures Trim(text) == "" <==> r == Err(EmptyText)
    ensures r == Err(NoQuestions) <==> Trim(text) != "" && Parsed(qtype, text, firstId) == []
    ensures r.Ok? ==> r.value == qs + Parsed(qtype, text, firstId)
    ensures r.Ok? ==> |r.value| > |qs| && forall k :: |qs| <= k < |r.value| ==>
      Emitted(r.value[k], qtype, firstId, k - |qs|)
  {
    if Trim(text) == "" {
      return Err(EmptyText);
    }
    var parsed := ParseFor(qtype, text, firstId);
    if |parsed| == 0 {
      return Err(NoQuestions);
    }
    ParsedEmitted(qtype, text, firstId);
    r := Ok(qs + parsed);
    assert forall k :: |qs| <= k < |r.value| ==> r.value[k] == parsed[k - |qs|];
  }
}
