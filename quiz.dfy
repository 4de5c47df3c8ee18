/** The quiz runner: one question at a time, an answer per question (-1 for
    unanswered), an explanation shown once a question is answered, and a
    score reported when the last question is passed. */
module QuizRunner {
  import opened Types

  const UNANSWERED: int := -1

  /** How many positions hold the question's correct option, counted left to
      right as the reduce over the answers does. */
  function CorrectCount(questions: seq<QuizQuestion>, answers: seq<int>): (c: nat)
    requires |answers| == |questions|
    ensures c <= |questions|
    decreases |answers|
  {
    if answers == [] then 0
    else
      var last := |answers| - 1;
      CorrectCount(questions[..last], answers[..last]) + (if answers[last] == questions[last].correctIndex then 1 else 0)
  }

  predicate AllCorrect(questions: seq<QuizQuestion>, answers: seq<int>)
    requires |answers| == |questions|
  {
    forall i :: 0 <= i < |answers| ==> answers[i] == questions[i].correctIndex
  }

  predicate NoneCorrect(questions: seq<QuizQuestion>, answers: seq<int>)
    requires |answers| == |questions|
  {
    forall i :: 0 <= i < |answers| ==> answers[i] != questions[i].correctIndex
  }

  /** Every question is counted exactly when every answer is correct. */
  lemma {:induction false} CorrectCountFull(questions: seq<QuizQuestion>, answers: seq<int>)
    requires |answers| == |questions|
    ensures CorrectCount(questions, answers) == |questions| <==> AllCorrect(questions, answers)
    decreases |answers|
  {
    if answers != [] {
      var last := |answers| - 1;
      CorrectCountFull(questions[..last], answers[..last]);
      if AllCorrect(questions, answers) {
        assert AllCorrect(questions[..last], answers[..last]);
      }
      if AllCorrect(questions[..last], answers[..last]) && answers[last] == questions[last].correctIndex {
        forall i | 0 <= i < |answers|
          ensures answers[i] == questions[i].correctIndex
        {
          if i < last {
            assert answers[..last][i] == answers[i];
            assert questions[..last][i] == questions[i];
          }
        }
      }
    }
  }

  /** Nothing is counted exactly when no answer is correct. */
  lemma {:induction false} CorrectCountZero(questions: seq<QuizQuestion>, answers: seq<int>)
    requires |answers| == |questions|
    ensures CorrectCount(questions, answers) == 0 <==> NoneCorrect(questions, answers)
    decreases |answers|
  {
    if answers != [] {
      var last := |answers| - 1;
      CorrectCountZero(questions[..last], answers[..last]);
      if NoneCorrect(questions, answers) {
        assert NoneCorrect(questions[..last], answers[..last]);
      }
      if NoneCorrect(questions[..last], answers[..last]) && answers[last] != questions[last].correctIndex {
        forall i | 0 <= i < |answers|
          ensures answers[i] != questions[i].correctIndex
        {
          if i < last {
            assert answers[..last][i] == answers[i];
            assert questions[..last][i] == questions[i];
          }
        }
      }
    }
  }

  /** The percentage `correct` of `n` rounded half up, in integers. */
  function Score(correct: nat, n: nat): (r: int)
    requires 1 <= n && correct <= n
    ensures 0 <= r <= 100
    ensures 2 * n * r <= 200 * correct + n < 2 * n * (r + 1)
  {
    var x, d := 200 * correct + n, 2 * n;
    DivBounds(x, d);
    assert x < d * 101;
    MulCancelLt(d, x / d, 101);
    x / d
  }

  /** Integer division is the floor of the quotient. */
  lemma DivBounds(x: nat, d: nat)
    requires d >= 1
    ensures 0 <= x / d
    ensures d * (x / d) <= x < d * (x / d + 1)
  {
    assert d * (x / d + 1) == d * (x / d) + d;
  }

  lemma {:induction false} MulMono(d: nat, a: int, b: int)
    requires a <= b
    ensures d * a <= d * b
    decreases d
  {
    if d > 0 {
      MulMono(d - 1, a, b);
      assert d * a == (d - 1) * a + a;
      assert d * b == (d - 1) * b + b;
    }
  }

  lemma MulCancelLt(d: nat, a: int, b: int)
    requires d * a < d * b
    ensures a < b
  {
    if a >= b {
      MulMono(d, b, a);
    }
  }

  /** All correct scores 100; none correct scores 0. */
  lemma ScoreExtremes(n: nat)
    requires n >= 1
    ensures Score(n, n) == 100
    ensures Score(0, n) == 0
  {
    var d := 2 * n;
    var top, bottom := Score(n, n), Score(0, n);
    assert d * 100 < d * (top + 1);
    MulCancelLt(d, 100, top + 1);
    assert d * bottom < d * 1;
    MulCancelLt(d, bottom, 1);
  }

  /** More correct answers never lower the score. */
  lemma ScoreMonotone(c1: nat, c2: nat, n: nat)
    requires 1 <= n && c1 <= c2 <= n
    ensures Score(c1, n) <= Score(c2, n)
  {
    var d := 2 * n;
    var r1, r2 := Score(c1, n), Score(c2, n);
    assert d * r1 < d * (r2 + 1);
    MulCancelLt(d, r1, r2 + 1);
  }

  /** A quiz answered entirely correctly scores 100, one with no correct
      answer scores 0, and scores lie in between otherwise. */
  lemma QuizScoreExtremes(questions: seq<QuizQuestion>, answers: seq<int>)
    requires |questions| >= 1 && |answers| == |questions|
    ensures AllCorrect(questions, answers) ==> Score(CorrectCount(questions, answers), |questions|) == 100
    ensures NoneCorrect(questions, answers) ==> Score(CorrectCount(questions, answers), |questions|) == 0
  {
    CorrectCountFull(questions, answers);
    CorrectCountZero(questions, answers);
    ScoreExtremes(|questions|);
  }

  /** The component's state for one quiz block. */
  class Runner {
    const questions: seq<QuizQuestion>
    var currentIndex: int
    var answers: seq<int>
    var showExplanation: bool
    var isFinished: bool

    ghost predicate Valid()
      reads this
    {
      |questions| >= 1 && |answers| == |questions| && 0 <= currentIndex < |questions|
    }

    /** Index 0, every answer unanswered, explanation hidden, not finished. */
    ghost predicate Initial()
      reads this
    {
      && currentIndex == 0
      && answers == seq(|questions|, _ => UNANSWERED)
      && !showExplanation
      && !isFinished
    }

    /** The "Next" button is on screen: the current question holds an answer
        and the quiz is not finished (the finished screen replaces the
        question). */
    predicate NextOffered()
      reads this
    {
      0 <= currentIndex < |answers| && answers[currentIndex] != UNANSWERED && !isFinished
    }

    /** The score the finished screen shows, recomputed from the answers. */
    function ShownScore(): (r: int)
      reads this
      requires Valid()
      ensures 0 <= r <= 100
      ensures AllCorrect(questions, answers) ==> r == 100
      ensures NoneCorrect(questions, answers) ==> r == 0
    {
      QuizScoreExtremes(questions, answers);
      Score(CorrectCount(questions, answers), |questions|)
    }

    constructor(qs: seq<QuizQuestion>)
      requires |qs| >= 1
      ensures questions == qs
      ensures Valid() && Initial()
    {
      questions := qs;
      currentIndex := 0;
      answers := seq(|qs|, _ => UNANSWERED);
      showExplanation := false;
      isFinished := false;
    }

    /** Chooses option `option` for the current question, unless the
        explanation is already showing or the quiz is finished. */
    method Select(option: int)
      requires Valid()
      modifies this
      ensures Valid()
      ensures old(showExplanation) || old(isFinished) ==>
        answers == old(answers) && showExplanation == old(showExplanation)
      ensures !(old(showExplanation) || old(isFinished)) ==>
        answers == old(answers)[old(currentIndex) := option] && showExplanation
      ensures currentIndex == old(currentIndex) && isFinished == old(isFinished)
      ensures !(old(showExplanation) || old(isFinished)) && option != UNANSWERED ==> NextOffered()
    {
      if showExplanation || isFinished {
        return;
      }
      answers := answers[currentIndex := option];
      showExplanation := true;
    }

    /** Moves to the next question, or on the last one finishes the quiz and
        reports the score, which is the score the finished screen shows. */
    method Next() returns (reported: Option<int>)
      requires Valid()
      modifies this
      ensures Valid()
      ensures answers == old(answers)
      ensures old(currentIndex) < |questions| - 1 ==>
        currentIndex == old(currentIndex) + 1 && !showExplanation && isFinished == old(isFinished) && reported == None
      ensures old(currentIndex) == |questions| - 1 ==>
        currentIndex == old(currentIndex) && showExplanation == old(showExplanation) && isFinished
        && reported == Some(ShownScore()) && !NextOffered()
    {
      if currentIndex < |questions| - 1 {
        currentIndex := currentIndex + 1;
        showExplanation := false;
        reported := None;
      } else {
        var score := Finish();
        reported := Some(score);
      }
    }

    /** Marks the quiz finished and computes the score from the answers. */
    method Finish() returns (score: int)
      requires Valid()
      modifies this
      ensures Valid()
      ensures isFinished
      ensures currentIndex == old(currentIndex) && answers == old(answers) && showExplanation == old(showExplanation)
      ensures score == ShownScore() && 0 <= score <= 100
    {
      isFinished := true;
      var correctCount := CorrectCount(questions, answers);
      score := Score(correctCount, |questions|);
    }

    /** Starts the quiz over; nothing is reported. */
    method Reset()
      requires Valid()
      modifies this
      ensures Valid() && Initial()
    {
      currentIndex := 0;
      answers := seq(|questions|, _ => UNANSWERED);
      showExplanation := false;
      isFinished := false;
    }
  }
}
