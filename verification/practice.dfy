/**
  The practice quiz of the AI tutor: one question at a time, an option is
  picked, feedback is shown, and Next moves on until the last question
  completes the round.
*/
module Practice {
  import opened Wrappers

  /** A generated practice question; `correctAnswer` is the option letter. */
  datatype PracticeQuestion = PracticeQuestion(
    question: string,
    options: seq<string>,
    correctAnswer: string,
    explanation: string,
    wrongAnswerFeedback: map<string, string>)

  /** `option.charAt(0)`: the first character, or the empty string for an empty option. */
  function FirstChar(option: string): (r: string)
    ensures |r| <= 1 && r <= option
    ensures option != [] ==> |r| == 1
  {
    if option == [] then "" else option[..1]
  }

  /** `selectedAnswer === currentQuestion.correctAnswer`. */
  predicate IsCorrect(q: PracticeQuestion, selected: Option<string>) {
    selected == Some(q.correctAnswer)
  }

  /**
    The text under the verdict: the explanation for a right answer; for a
    wrong one the feedback written for the chosen letter, unless there is none
    (an absent or empty entry, or an empty selection), then the explanation.
  */
  function FeedbackText(q: PracticeQuestion, selected: Option<string>): (r: string)
    ensures IsCorrect(q, selected) ==> r == q.explanation
    ensures r != q.explanation ==>
      && !IsCorrect(q, selected) && selected.Some? && selected.value in q.wrongAnswerFeedback
      && r == q.wrongAnswerFeedback[selected.value]
    ensures !IsCorrect(q, selected) && selected.Some? && selected.value != ""
            && selected.value in q.wrongAnswerFeedback && q.wrongAnswerFeedback[selected.value] != ""
            ==> r == q.wrongAnswerFeedback[selected.value]
  {
    if IsCorrect(q, selected) then q.explanation
    else
      var specific := if selected.Some? && selected.value != "" && selected.value in q.wrongAnswerFeedback
                      then q.wrongAnswerFeedback[selected.value] else "";
      if specific != "" then specific else q.explanation
  }

  /** The number of the chosen letters that match their question's answer, question by question. */
  function CorrectCount(qs: seq<PracticeQuestion>, letters: seq<string>): (n: nat)
    requires |letters| <= |qs|
    ensures n <= |letters|
    ensures n == |letters| <==> forall i :: 0 <= i < |letters| ==> letters[i] == qs[i].correctAnswer
  {
    if letters == [] then 0
    else
      var k := |letters| - 1;
      CorrectCount(qs, letters[..k]) + if letters[k] == qs[k].correctAnswer then 1 else 0
  }

  lemma CorrectCountAppend(qs: seq<PracticeQuestion>, letters: seq<string>, letter: string)
    requires |letters| < |qs|
    ensures CorrectCount(qs, letters + [letter])
         == CorrectCount(qs, letters) + if letter == qs[|letters|].correctAnswer then 1 else 0
  {
    assert (letters + [letter])[..|letters|] == letters;
  }

  /**
    The modal's quiz state. `answered` is the letters chosen so far, one per
    question up to the current one, and explains `score`.
  */
  class PracticeSession {
    const questions: seq<PracticeQuestion>
    var currentIndex: nat
    var selectedAnswer: Option<string>
    var showFeedback: bool
    var score: nat
    var completed: bool
    /** The number of times the parent's `onClose` was called. */
    var closeRequests: nat
    ghost var answered: seq<string>

    ghost predicate Valid()
      reads this
    {
      && currentIndex < |questions|
      && |answered| == currentIndex + (if showFeedback then 1 else 0)
      && score == CorrectCount(questions, answered)
      && (showFeedback <==> selectedAnswer.Some?)
      && (showFeedback ==> selectedAnswer == Some(answered[currentIndex]))
      && (completed ==> showFeedback && currentIndex == |questions| - 1)
    }

    /** The state the modal opens in, and that reset and close return to. */
    ghost predicate Initial()
      reads this
    {
      currentIndex == 0 && selectedAnswer == None && !showFeedback && score == 0 && !completed && answered == []
    }

    /** The denominator of the running `Score: x/y` line. */
    function Attempted(): nat
      reads this
    {
      currentIndex + if showFeedback then 1 else 0
    }

    /** The running score never exceeds the questions answered, nor those answered the round. */
    lemma ScoreWithinAttempted()
      requires Valid()
      ensures score <= Attempted() <= |questions|
    {
    }

    /** A question list with no entries has no current question to show, so at least one is required. */
    constructor (questions: seq<PracticeQuestion>)
      requires |questions| >= 1
      ensures Valid() && Initial() && this.questions == questions && closeRequests == 0
    {
      this.questions := questions;
      currentIndex := 0;
      selectedAnswer := None;
      showFeedback := false;
      score := 0;
      completed := false;
      closeRequests := 0;
      answered := [];
    }

    /**
      `handleAnswerSelect`: ignored while feedback shows; otherwise the
      option's first character is recorded, feedback turns on, and the score
      goes up by one exactly when that letter is the answer.
    */
    method HandleAnswerSelect(option: string)
      requires Valid()
      modifies this
      ensures Valid()
      ensures old(showFeedback) ==>
        && currentIndex == old(currentIndex) && selectedAnswer == old(selectedAnswer) && showFeedback
        && score == old(score) && completed == old(completed) && answered == old(answered)
      ensures !old(showFeedback) ==>
        && selectedAnswer == Some(FirstChar(option)) && showFeedback
        && score == old(score) + (if FirstChar(option) == questions[currentIndex].correctAnswer then 1 else 0)
        && currentIndex == old(currentIndex) && completed == old(completed)
        && answered == old(answered) + [FirstChar(option)]
      ensures closeRequests == old(closeRequests)
    {
      if showFeedback {
        return;
      }
      var letter := FirstChar(option);
      CorrectCountAppend(questions, answered, letter);
      selectedAnswer := Some(letter);
      showFeedback := true;
      answered := answered + [letter];
      if letter == questions[currentIndex].correctAnswer {
        score := score + 1;
      }
    }

    /**
      `handleNext`, reachable only once feedback shows (the button is
      disabled before): the next question with the selection cleared, or on
      the last question the round completed with the index left alone.
    */
    method HandleNext()
      requires Valid() && showFeedback
      modifies this
      ensures Valid()
      ensures old(currentIndex) < |questions| - 1 ==>
        && currentIndex == old(currentIndex) + 1 && selectedAnswer == None && !showFeedback
        && completed == old(completed)
      ensures old(currentIndex) == |questions| - 1 ==>
        && completed && currentIndex == old(currentIndex)
        && selectedAnswer == old(selectedAnswer) && showFeedback
      ensures score == old(score) && answered == old(answered) && closeRequests == old(closeRequests)
    {
      if currentIndex < |questions| - 1 {
        currentIndex := currentIndex + 1;
        selectedAnswer := None;
        showFeedback := false;
      } else {
        completed := true;
      }
    }

    /** `handleReset`: back to the first question with nothing answered. */
    method HandleReset()
      requires Valid()
      modifies this
      ensures Valid()
      ensures Initial() && closeRequests == old(closeRequests)
    {
      currentIndex := 0;
      selectedAnswer := None;
      showFeedback := false;
      score := 0;
      completed := false;
      answered := [];
    }

    /** `handleClose`: the reset, then the parent's `onClose`. */
    method HandleClose()
      requires Valid()
      modifies this
      ensures Valid()
      ensures Initial() && closeRequests == old(closeRequests) + 1
    {
      HandleReset();
      closeRequests := closeRequests + 1;
    }
  }
}
