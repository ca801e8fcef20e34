/** QuizSystem.cs: a cursor over a level's questions that scores answers and reports the
    final percentage. */
module Quiz {
  import opened Wrappers
  import opened QuizData
  import opened Core

  /** What SubmitAnswer does: nothing, an OnAnswerResult(wasCorrect, explanation)
      notification, or the IndexOutOfRangeException of reading past the last question. */
  datatype AnswerOutcome = Ignored | Answered(wasCorrect: bool, explanation: string) | IndexOutOfRange

  /** What Advance does: an OnQuestionReady(question, number) notification, an
      OnQuizComplete(scorePercent) notification, or the NullReferenceException of advancing a
      quiz that was never initialised. */
  datatype AdvanceOutcome =
    | QuestionReady(question: QuizQuestion, number: int)
    | QuizComplete(scorePercent: real)
    | NullReference

  /** correctCount / total * 100, and 0 for an empty quiz. */
  function ScorePercent(correctCount: int, total: int): real {
    if total > 0 then correctCount as real / total as real * 100.0 else 0.0
  }

  /** A score of correct answers out of `total` lies in [0, 100]. */
  lemma ScorePercentBounds(correctCount: int, total: int)
    requires 0 <= correctCount <= total
    ensures 0.0 <= ScorePercent(correctCount, total) <= 100.0
  {
    if total > 0 {
      var q := correctCount as real / total as real;
      assert q <= 1.0 by {
        assert correctCount as real <= total as real;
      }
    }
  }

  /** The score is exactly 100 precisely when every question was answered correctly. */
  lemma PerfectScore(correctCount: int, total: int)
    requires 0 < total
    ensures ScorePercent(correctCount, total) == 100.0 <==> correctCount == total
  {
    var t := total as real;
    if ScorePercent(correctCount, total) == 100.0 {
      assert correctCount as real / t == 1.0;
      assert correctCount as real == t;
    }
  }

  class QuizSystem {
    /** The question array; None until Initialise first succeeds. */
    var questions: Option<seq<QuizQuestion>>
    var currentIndex: int
    var correctCount: int
    var awaitingAnswer: bool

    /** The counters stay in range: at most one correct answer per question reached, never
        more correct answers than questions, and an answer is awaited only once there are
        questions. */
    ghost predicate Valid()
      reads this
    {
      && 0 <= currentIndex
      && 0 <= correctCount
      && correctCount <= currentIndex + (if awaitingAnswer then 0 else 1)
      && (questions.None? ==> !awaitingAnswer && correctCount == 0)
      && (questions.Some? ==> 0 < |questions.value| && correctCount <= |questions.value|)
    }

    /** An awaited answer is for a question that exists, so reading it is in bounds. */
    ghost predicate AnswerInBounds()
      reads this
    {
      awaitingAnswer ==> questions.Some? && currentIndex < |questions.value|
    }

    constructor ()
      ensures Valid() && AnswerInBounds()
      ensures questions == None && currentIndex == 0 && correctCount == 0 && !awaitingAnswer
    {
      questions := None;
      currentIndex := 0;
      correctCount := 0;
      awaitingAnswer := false;
    }

    /** The effect of Initialise(levelData): no change at all for a missing level or one
        without questions; otherwise a fresh start at the first question. */
    twostate predicate InitialisedWith(new levelData: Option<LevelData>)
      reads this
    {
      if |QuestionsOf(levelData)| == 0 then
        && questions == old(questions) && currentIndex == old(currentIndex)
        && correctCount == old(correctCount) && awaitingAnswer == old(awaitingAnswer)
      else
        && questions == Some(QuestionsOf(levelData))
        && currentIndex == 0 && correctCount == 0 && awaitingAnswer
    }

    /** Initialise: a missing or empty question set is ignored and signals nothing; a
        non-empty one restarts the quiz and shows question number 1. */
    method Initialise(levelData: Option<LevelData>) returns (ready: Option<AdvanceOutcome>)
      requires Valid()
      modifies this
      ensures Valid()
      ensures InitialisedWith(levelData)
      ensures old(AnswerInBounds()) ==> AnswerInBounds()
      ensures |QuestionsOf(levelData)| == 0 ==> ready == None
      ensures |QuestionsOf(levelData)| > 0 ==>
        ready == Some(QuestionReady(QuestionsOf(levelData)[0], 1))
    {
      if levelData.None? || |levelData.value.questions| == 0 {
        return None;
      }
      questions := Some(levelData.value.questions);
      currentIndex := 0;
      correctCount := 0;
      awaitingAnswer := true;
      var shown := ShowCurrentQuestion();
      ready := Some(shown);
    }

    /** SubmitAnswer: ignored unless an answer is awaited; otherwise it stops awaiting, and a
        correct choice adds one to the count and the question's gem reward (of whatever sign)
        to the game manager's profile. Reading past the last question throws. */
    method SubmitAnswer(selectedIndex: int, instance: GameManager?) returns (outcome: AnswerOutcome)
      requires Valid()
      requires instance != null ==> instance.Ready()
      modifies this, GemProfiles(instance)`gems
      ensures Valid()
      ensures instance != null ==> instance.Ready()
      ensures questions == old(questions) && currentIndex == old(currentIndex)
      ensures !old(awaitingAnswer) || old(questions).None? ==>
        && outcome == Ignored
        && awaitingAnswer == old(awaitingAnswer) && correctCount == old(correctCount)
        && GemTotal(instance) == old(GemTotal(instance))
      ensures old(awaitingAnswer) && old(questions).Some? ==> !awaitingAnswer
      ensures old(awaitingAnswer) && old(questions).Some? && old(currentIndex) < |old(questions).value| ==>
        var question := old(questions).value[old(currentIndex)];
        var correct := selectedIndex == question.correctAnswerIndex;
        && outcome == Answered(correct, question.explanation)
        && correctCount == old(correctCount) + (if correct then 1 else 0)
        && GemTotal(instance) == old(GemTotal(instance)) + (if correct && instance != null then question.gemsReward else 0)
      ensures old(awaitingAnswer) && old(questions).Some? && old(currentIndex) >= |old(questions).value| ==>
        && outcome == IndexOutOfRange
        && correctCount == old(correctCount)
        && GemTotal(instance) == old(GemTotal(instance))
      ensures old(AnswerInBounds()) ==> outcome != IndexOutOfRange && AnswerInBounds()
    {
      if !awaitingAnswer || questions.None? {
        return Ignored;
      }
      awaitingAnswer := false;
      if currentIndex >= |questions.value| {
        return IndexOutOfRange;
      }
      var question := questions.value[currentIndex];
      var correct := selectedIndex == question.correctAnswerIndex;
      if correct {
        correctCount := correctCount + 1;
        if instance != null {
          instance.AddGems(question.gemsReward);
        }
      }
      outcome := Answered(correct, question.explanation);
    }

    /** Advance, as written: step to the next question, or past the last one report the score
        percentage, which lies in [0, 100]. Finishing leaves the awaiting flag as it was, so
        an answer is awaited past the end when the last question was skipped. */
    method Advance() returns (outcome: AdvanceOutcome)
      requires Valid()
      modifies this
      ensures Valid()
      ensures questions == old(questions) && correctCount == old(correctCount)
      ensures currentIndex == old(currentIndex) + 1
      ensures questions.None? ==> outcome == NullReference && awaitingAnswer == old(awaitingAnswer)
      ensures questions.Some? && currentIndex >= |questions.value| ==>
        && outcome == QuizComplete(ScorePercent(correctCount, |questions.value|))
        && awaitingAnswer == old(awaitingAnswer)
      ensures questions.Some? && currentIndex < |questions.value| ==>
        && outcome == QuestionReady(questions.value[currentIndex], CurrentQuestionNumber())
        && awaitingAnswer
      ensures outcome.QuizComplete? ==> 0.0 <= outcome.scorePercent <= 100.0
      ensures old(AnswerInBounds()) && !old(awaitingAnswer) ==> AnswerInBounds()
    {
      currentIndex := currentIndex + 1;
      if questions.None? {
        return NullReference;
      }
      if currentIndex >= |questions.value| {
        var scorePercent := if |questions.value| > 0
          then correctCount as real / |questions.value| as real * 100.0
          else 0.0;
        ScorePercentBounds(correctCount, |questions.value|);
        outcome := QuizComplete(scorePercent);
      } else {
        awaitingAnswer := true;
        outcome := ShowCurrentQuestion();
      }
    }

    /** Advance as evidently intended: the same, except that finishing also stops awaiting an
        answer, so an answer is never awaited past the last question. */
    method AdvanceCorrected() returns (outcome: AdvanceOutcome)
      requires Valid()
      modifies this
      ensures Valid()
      ensures AnswerInBounds()
      ensures questions == old(questions) && correctCount == old(correctCount)
      ensures currentIndex == old(currentIndex) + 1
      ensures questions.None? ==> outcome == NullReference
      ensures questions.Some? && currentIndex >= |questions.value| ==>
        && outcome == QuizComplete(ScorePercent(correctCount, |questions.value|))
        && !awaitingAnswer
      ensures questions.Some? && currentIndex < |questions.value| ==>
        && outcome == QuestionReady(questions.value[currentIndex], CurrentQuestionNumber())
        && awaitingAnswer
      ensures outcome.QuizComplete? ==> 0.0 <= outcome.scorePercent <= 100.0
    {
      currentIndex := currentIndex + 1;
      if questions.None? {
        return NullReference;
      }
      if currentIndex >= |questions.value| {
        awaitingAnswer := false;
        ScorePercentBounds(correctCount, |questions.value|);
        outcome := QuizComplete(ScorePercent(correctCount, |questions.value|));
      } else {
        awaitingAnswer := true;
        outcome := ShowCurrentQuestion();
      }
    }

    /** TotalQuestions: the length of the question array, 0 before any questions are set. */
    function TotalQuestions(): (total: int)
      reads this
      ensures questions.None? ==> total == 0
      ensures questions.Some? ==> total == |questions.value|
      ensures Valid() ==> correctCount <= total
    {
      if questions.None? then 0 else |questions.value|
    }

    /** CurrentQuestionNumber: the 1-based number of the current question, the number that
        OnQuestionReady reports. */
    function CurrentQuestionNumber(): (number: int)
      reads this
      ensures number == currentIndex + 1
      ensures Valid() ==> 1 <= number
    {
      currentIndex + 1
    }

    /** ShowCurrentQuestion: the OnQuestionReady notification for the current question. */
    method ShowCurrentQuestion() returns (ready: AdvanceOutcome)
      requires questions.Some? && 0 <= currentIndex < |questions.value|
      ensures ready == QuestionReady(questions.value[currentIndex], CurrentQuestionNumber())
    {
      ready := QuestionReady(questions.value[currentIndex], currentIndex + 1);
    }
  }

  /** A single-question quiz whose question is skipped with Advance and then answered: the
      quiz as written reads past its last question. */
  method SkipLastQuestionThenAnswer(question: QuizQuestion) returns (outcome: AnswerOutcome)
    ensures outcome == IndexOutOfRange
  {
    var quiz := new QuizSystem();
    var level := LevelData("level", "Level", "", [question], 20, 60);
    var ready := quiz.Initialise(Some(level));
    var finished := quiz.Advance();
    outcome := quiz.SubmitAnswer(question.correctAnswerIndex, null);
  }

  /** The same steps with the corrected Advance: the late answer is ignored, as a submission
      with no active question should be. */
  method SkipLastQuestionThenAnswerCorrected(question: QuizQuestion) returns (outcome: AnswerOutcome)
    ensures outcome == Ignored
  {
    var quiz := new QuizSystem();
    var level := LevelData("level", "Level", "", [question], 20, 60);
    var ready := quiz.Initialise(Some(level));
    var finished := quiz.AdvanceCorrected();
    outcome := quiz.SubmitAnswer(question.correctAnswerIndex, null);
  }
}
