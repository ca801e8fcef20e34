/** The static level configuration: QuizQuestion.cs and LevelData.cs. Plain data, no behaviour. */
module QuizData {
  import opened Wrappers

  /** A percentage threshold as the inspector's [Range(0, 100)] allows it. */
  type Percent = x: int | 0 <= x <= 100

  /** One multiple-choice question; `correctAnswerIndex` is zero-based into `options`. */
  datatype QuizQuestion = QuizQuestion(
    questionText: string,
    options: seq<string>,
    correctAnswerIndex: int,
    explanation: string,
    gemsReward: int)

  /** One level's configuration asset. A null question array is modelled as an empty one:
      every reader of it treats the two alike. The thumbnail sprite is not modelled. */
  datatype LevelData = LevelData(
    levelId: string,
    levelName: string,
    description: string,
    questions: seq<QuizQuestion>,
    completionBonusGems: int,
    passThreshold: Percent)

  /** `levelData?.Questions`, with a missing level read as having no questions. */
  function QuestionsOf(levelData: Option<LevelData>): seq<QuizQuestion>
  {
    if levelData.None? then [] else levelData.value.questions
  }
}
