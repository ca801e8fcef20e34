/** The level state machine and its three states: BaseLevelState.cs, WarmupLevelState.cs,
    MiqatLevelState.cs, TawafLevelState.cs and LevelStateMachine.cs. They share a module because
    the states report to the machine and the machine drives the states. Each state class holds
    its BaseLevelState part as `base`; the machine dispatches on the state's kind. */
module LevelStates {
  import opened Wrappers
  import opened QuizData
  import opened Core
  import opened Rewards
  import opened Quiz
  import LevelStateIds
  import opened LevelRules

  /** The three concrete states; `Id` is each class's StateId. */
  datatype StateKind = WarmupState | MiqatState | TawafState {
    function Id(): (id: string)
      ensures LevelStateIds.IsValid(id)
      ensures this == WarmupState ==> id == LevelStateIds.Warmup
      ensures this == MiqatState ==> id == LevelStateIds.Miqat
      ensures this == TawafState ==> id == LevelStateIds.Tawaf
    {
      match this
      case WarmupState => "warmup"
      case MiqatState => "miqat"
      case TawafState => "tawaf"
    }
  }

  /** Different states have different ids, so a map keyed by id holds each state once. */
  lemma IdInjective(k1: StateKind, k2: StateKind)
    requires k1.Id() == k2.Id()
    ensures k1 == k2
  {
    assert k1.Id()[0] == k2.Id()[0];
  }

  /** The lifecycle methods the machine calls on a state. */
  datatype Call = EnterCall | UpdateCall | ExitCall | PauseCall | ResumeCall

  /** A lifecycle call the machine made on a state. */
  datatype Hook = Hook(call: Call, kind: StateKind)

  /** The OnLevelCompleted notification: the current state's id and the score. */
  datatype LevelCompleted = LevelCompleted(stateId: string, scorePercent: real)

  /** The hooks a call on the current state adds to the log, when there is a current state. */
  function HookOn(current: Option<StateKind>, call: Call): seq<Hook> {
    if current.Some? then [Hook(call, current.value)] else []
  }

  /** The state's link to its machine and the level it plays. */
  class BaseLevelState {
    const kind: StateKind
    var stateMachine: LevelStateMachine?
    var levelData: Option<LevelData>

    constructor (kind: StateKind)
      ensures this.kind == kind && stateMachine == null && levelData == None
    {
      this.kind := kind;
      stateMachine := null;
      levelData := None;
    }

    /** Every field: the machine link and the level data. */
    ghost function Fields(): (LevelStateMachine?, Option<LevelData>)
      reads this
    {
      (stateMachine, levelData)
    }

    /** Initialize: remember the machine and the level data. */
    method Initialize(stateMachine: LevelStateMachine?, levelData: Option<LevelData>)
      modifies this
      ensures this.stateMachine == stateMachine && this.levelData == levelData
    {
      this.stateMachine := stateMachine;
      this.levelData := levelData;
    }
  }

  /** `_stateMachine?.CompleteLevel(scorePercent)`: a completion is reported exactly when a
      machine is linked and has a current state, and it names that state with the score. */
  function ReportCompletion(stateMachine: LevelStateMachine?, scorePercent: real): (completed: Option<LevelCompleted>)
    reads stateMachine
    ensures completed.Some? <==> stateMachine != null && stateMachine.current.Some?
    ensures completed.Some? ==>
      && completed.value == LevelCompleted(stateMachine.current.value.Id(), scorePercent)
      && LevelStateIds.IsValid(completed.value.stateId)
  {
    if stateMachine == null then None else stateMachine.CompleteLevel(scorePercent)
  }

  /** The first level: counts answers and reports completion, with no bonuses. */
  class WarmupLevelState {
    const base: BaseLevelState
    var quizSystem: QuizSystem?
    var questionsAnswered: int
    var totalQuestions: int
    /** The quiz systems whose events this state's handlers are attached to, once per `+=`. */
    ghost var subscriptions: multiset<QuizSystem>

    ghost predicate Valid()
      reads this`questionsAnswered, this`totalQuestions
    {
      base.kind == WarmupState && 0 <= questionsAnswered && 0 <= totalQuestions
    }

    /** As constructed: no quiz system, no handlers attached, and the counters at zero. */
    ghost predicate Idle()
      reads this
    {
      && quizSystem == null && subscriptions == multiset{}
      && questionsAnswered == 0 && totalQuestions == 0
    }

    constructor ()
      ensures Valid() && fresh(base)
      ensures base.stateMachine == null && base.levelData == None
      ensures Idle()
    {
      base := new BaseLevelState(WarmupState);
      quizSystem := null;
      questionsAnswered := 0;
      totalQuestions := 0;
      subscriptions := multiset{};
    }

    /** The effect of Enter, with the handlers attached before it given as `before`: the quiz
        system found is remembered; without one nothing else changes; otherwise the handlers
        are attached to it, its quiz starts on this level's questions, the counter is reset
        and the total is the level's question count. */
    twostate predicate EnterApplied(before: multiset<QuizSystem>, foundQuiz: QuizSystem?)
      reads this, base, foundQuiz
    {
      && quizSystem == foundQuiz
      && (foundQuiz == null ==>
        && subscriptions == before
        && questionsAnswered == old(questionsAnswered) && totalQuestions == old(totalQuestions))
      && (foundQuiz != null ==>
        && subscriptions == before + multiset{foundQuiz}
        && foundQuiz.Valid() && foundQuiz.InitialisedWith(base.levelData)
        && questionsAnswered == 0 && totalQuestions == |QuestionsOf(base.levelData)|)
    }

    /** Enter: without a quiz system in the scene nothing starts; otherwise subscribe to it,
        start the quiz on this level's questions and reset the counter. */
    method Enter(foundQuiz: QuizSystem?) returns (ready: Option<AdvanceOutcome>)
      requires Valid()
      requires foundQuiz != null ==> foundQuiz.Valid()
      modifies this, foundQuiz
      ensures Valid()
      ensures EnterApplied(old(subscriptions), foundQuiz)
      ensures var questions := QuestionsOf(base.levelData);
        ready == (if foundQuiz == null || |questions| == 0 then None else Some(QuestionReady(questions[0], 1)))
    {
      quizSystem := foundQuiz;
      if foundQuiz == null {
        return None;
      }
      subscriptions := subscriptions + multiset{foundQuiz};
      ready := foundQuiz.Initialise(base.levelData);
      questionsAnswered := 0;
      totalQuestions := |QuestionsOf(base.levelData)|;
    }

    /** Every field of the state and of its base. */
    ghost function Fields(): (QuizSystem?, int, int, multiset<QuizSystem>, (LevelStateMachine?, Option<LevelData>))
      reads this, base
    {
      (quizSystem, questionsAnswered, totalQuestions, subscriptions, base.Fields())
    }

    /** The handlers that remain once Exit has detached those on the quiz system found on
        entry, if any. */
    ghost function Detached(): multiset<QuizSystem>
      reads this
    {
      if quizSystem == null then subscriptions else subscriptions - multiset{quizSystem}
    }

    /** The effect of Exit: the handlers come off the quiz system found on entry, if any, and
        nothing else changes. */
    twostate predicate ExitApplied()
      reads this
    {
      && quizSystem == old(quizSystem)
      && questionsAnswered == old(questionsAnswered) && totalQuestions == old(totalQuestions)
      && subscriptions == old(Detached())
    }

    method Exit()
      requires Valid()
      modifies this`subscriptions
      ensures Valid()
      ensures ExitApplied()
    {
      if quizSystem != null {
        subscriptions := subscriptions - multiset{quizSystem};
      }
    }

    /** OnAnswerResult: one more answer counted, right or wrong. */
    method OnAnswerResult(wasCorrect: bool, explanation: string)
      requires Valid()
      modifies this`questionsAnswered
      ensures Valid()
      ensures questionsAnswered == old(questionsAnswered) + 1
    {
      questionsAnswered := questionsAnswered + 1;
    }

    /** OnQuizComplete: no reward in the warmup; the score goes to the machine. */
    method OnQuizComplete(scorePercent: real) returns (completed: Option<LevelCompleted>)
      ensures completed.Some? <==> base.stateMachine != null && base.stateMachine.current.Some?
      ensures completed.Some? ==> completed.value.scorePercent == scorePercent
      ensures completed.Some? ==> completed.value.stateId == base.stateMachine.current.value.Id()
    {
      completed := ReportCompletion(base.stateMachine, scorePercent);
    }
  }

  /** The second level: a speed bonus for correct answers in the first three minutes and an
      excellence bonus for a passing score of at least 90. */
  class MiqatLevelState {
    const base: BaseLevelState
    var quizSystem: QuizSystem?
    var rewardSystem: RewardSystem?
    var questionsAnswered: int
    var correctAnswers: int
    var totalQuestions: int
    /** Time.time when the level started, shifted forward by the time spent paused. */
    var startTime: real
    ghost var subscriptions: multiset<QuizSystem>

    ghost predicate Valid()
      reads this`questionsAnswered, this`correctAnswers, this`totalQuestions
    {
      base.kind == MiqatState && 0 <= correctAnswers <= questionsAnswered && 0 <= totalQuestions
    }

    /** As constructed: no scene systems, no handlers attached, the counters and the clock at
        zero. */
    ghost predicate Idle()
      reads this
    {
      && quizSystem == null && rewardSystem == null && subscriptions == multiset{}
      && questionsAnswered == 0 && correctAnswers == 0 && totalQuestions == 0 && startTime == 0.0
    }

    constructor ()
      ensures Valid() && fresh(base)
      ensures base.stateMachine == null && base.levelData == None
      ensures Idle()
    {
      base := new BaseLevelState(MiqatState);
      quizSystem := null;
      rewardSystem := null;
      questionsAnswered := 0;
      correctAnswers := 0;
      totalQuestions := 0;
      startTime := 0.0;
      subscriptions := multiset{};
    }

    /** The effect of Enter, with the handlers attached before it given as `before`: the
        scene's systems are remembered; without a quiz system nothing else changes; otherwise
        the handlers are attached to it, its quiz starts on this level's questions, the
        counters are reset, the total is the level's question count and the clock starts now. */
    twostate predicate EnterApplied(before: multiset<QuizSystem>, foundQuiz: QuizSystem?,
                                    foundReward: RewardSystem?, now: real)
      reads this, base, foundQuiz
    {
      && quizSystem == foundQuiz && rewardSystem == foundReward
      && (foundQuiz == null ==>
        && subscriptions == before
        && questionsAnswered == old(questionsAnswered) && correctAnswers == old(correctAnswers)
        && totalQuestions == old(totalQuestions) && startTime == old(startTime))
      && (foundQuiz != null ==>
        && subscriptions == before + multiset{foundQuiz}
        && foundQuiz.Valid() && foundQuiz.InitialisedWith(base.levelData)
        && questionsAnswered == 0 && correctAnswers == 0
        && totalQuestions == |QuestionsOf(base.levelData)| && startTime == now)
    }

    /** Enter: remember the scene's reward system; without a quiz system nothing starts,
        otherwise subscribe, start the quiz, reset the counters and the clock. */
    method Enter(foundQuiz: QuizSystem?, foundReward: RewardSystem?, now: real) returns (ready: Option<AdvanceOutcome>)
      requires Valid()
      requires foundQuiz != null ==> foundQuiz.Valid()
      modifies this, foundQuiz
      ensures Valid()
      ensures EnterApplied(old(subscriptions), foundQuiz, foundReward, now)
      ensures var questions := QuestionsOf(base.levelData);
        ready == (if foundQuiz == null || |questions| == 0 then None else Some(QuestionReady(questions[0], 1)))
    {
      quizSystem := foundQuiz;
      rewardSystem := foundReward;
      if foundQuiz == null {
        return None;
      }
      subscriptions := subscriptions + multiset{foundQuiz};
      ready := foundQuiz.Initialise(base.levelData);
      questionsAnswered := 0;
      correctAnswers := 0;
      totalQuestions := |QuestionsOf(base.levelData)|;
      startTime := now;
    }

    /** Every field of the state and of its base. */
    ghost function Fields(): (QuizSystem?, RewardSystem?, (int, int, int), real, multiset<QuizSystem>,
                              (LevelStateMachine?, Option<LevelData>))
      reads this, base
    {
      (quizSystem, rewardSystem, (questionsAnswered, correctAnswers, totalQuestions), startTime, subscriptions,
       base.Fields())
    }

    /** The handlers that remain once Exit has detached those on the quiz system found on
        entry, if any. */
    ghost function Detached(): multiset<QuizSystem>
      reads this
    {
      if quizSystem == null then subscriptions else subscriptions - multiset{quizSystem}
    }

    /** The effect of Exit: the handlers come off the quiz system found on entry, if any, and
        nothing else changes. */
    twostate predicate ExitApplied()
      reads this
    {
      && quizSystem == old(quizSystem) && rewardSystem == old(rewardSystem)
      && questionsAnswered == old(questionsAnswered) && correctAnswers == old(correctAnswers)
      && totalQuestions == old(totalQuestions) && startTime == old(startTime)
      && subscriptions == old(Detached())
    }

    method Exit()
      requires Valid()
      modifies this`subscriptions
      ensures Valid()
      ensures ExitApplied()
    {
      if quizSystem != null {
        subscriptions := subscriptions - multiset{quizSystem};
      }
    }

    /** OnResume: the clock moves forward by the last frame's unscaled time. */
    method OnResume(unscaledDeltaTime: real)
      modifies this`startTime
      ensures startTime == old(startTime) + unscaledDeltaTime
    {
      startTime := startTime + unscaledDeltaTime;
    }

    /** OnAnswerResult: count the answer; a correct one within 180 seconds of the start earns
        a 2-gem speed bonus through the reward system, if the scene has one. */
    method OnAnswerResult(wasCorrect: bool, explanation: string, now: real, instance: GameManager?)
      returns (bonus: Option<GemsEarned>)
      requires Valid()
      requires instance != null ==> instance.Ready()
      modifies this`questionsAnswered, this`correctAnswers, GemProfiles(instance)`gems
      ensures Valid()
      ensures instance != null ==> instance.Ready()
      ensures questionsAnswered == old(questionsAnswered) + 1
      ensures correctAnswers == old(correctAnswers) + (if wasCorrect then 1 else 0)
      ensures bonus.Some? <==> wasCorrect && now - startTime < 180.0 && rewardSystem != null
      ensures bonus.Some? ==> bonus.value.amount == 2 && bonus.value.newTotal == GemTotal(instance)
      ensures GemTotal(instance) == old(GemTotal(instance)) + (if bonus.Some? && instance != null then 2 else 0)
    {
      questionsAnswered := questionsAnswered + 1;
      bonus := None;
      if wasCorrect {
        correctAnswers := correctAnswers + 1;
        var elapsedTime := now - startTime;
        if elapsedTime < 180.0 && rewardSystem != null {
          bonus := rewardSystem.AwardGems(2, instance);
        }
      }
    }

    /** OnQuizComplete: with a game manager and a level, a score at or above the pass threshold
        and at least 90 earns half the completion bonus (rounded toward zero, and only when
        that is positive); the score goes to the machine either way. */
    method OnQuizComplete(scorePercent: real, instance: GameManager?)
      returns (bonus: Option<GemsEarned>, completed: Option<LevelCompleted>)
      requires instance != null ==> instance.Ready()
      modifies GemProfiles(instance)`gems
      ensures instance != null ==> instance.Ready()
      ensures bonus.Some? <==>
        && instance != null && base.levelData.Some? && rewardSystem != null
        && scorePercent >= base.levelData.value.passThreshold as real && scorePercent >= 90.0
        && TruncDiv(base.levelData.value.completionBonusGems, 2) > 0
      ensures bonus.Some? ==> bonus.value.amount == TruncDiv(base.levelData.value.completionBonusGems, 2)
      ensures bonus.Some? ==> bonus.value.newTotal == GemTotal(instance)
      ensures GemTotal(instance) == old(GemTotal(instance)) + (if bonus.Some? then bonus.value.amount else 0)
      ensures completed.Some? <==> base.stateMachine != null && base.stateMachine.current.Some?
      ensures completed.Some? ==> completed.value.scorePercent == scorePercent
      ensures completed.Some? ==> completed.value.stateId == base.stateMachine.current.value.Id()
    {
      bonus := None;
      if instance != null && instance.progressService != null && base.levelData.Some? {
        var level := base.levelData.value;
        if scorePercent >= level.passThreshold as real && scorePercent >= 90.0 && rewardSystem != null {
          bonus := rewardSystem.AwardGems(TruncDiv(level.completionBonusGems, 2), instance);
        }
      }
      completed := ReportCompletion(base.stateMachine, scorePercent);
    }
  }

  /** The third level: streak bonuses for correct answers in a row, 20 more for a flawless
      seven-question circle, and 50 for a perfect score. */
  class TawafLevelState {
    const base: BaseLevelState
    var quizSystem: QuizSystem?
    var rewardSystem: RewardSystem?
    var questionsAnswered: int
    var correctAnswers: int
    var totalQuestions: int
    /** The current run of correct answers in a row. */
    var consecutiveCorrect: int
    var startTime: real
    ghost var subscriptions: multiset<QuizSystem>

    /** A run of correct answers is made of correct answers, which are answers. */
    ghost predicate Valid()
      reads this`questionsAnswered, this`correctAnswers, this`consecutiveCorrect, this`totalQuestions
    {
      && base.kind == TawafState
      && 0 <= consecutiveCorrect <= correctAnswers <= questionsAnswered
      && 0 <= totalQuestions
    }

    /** As constructed: as for Miqat, and no streak. */
    ghost predicate Idle()
      reads this
    {
      && quizSystem == null && rewardSystem == null && subscriptions == multiset{}
      && questionsAnswered == 0 && correctAnswers == 0 && consecutiveCorrect == 0
      && totalQuestions == 0 && startTime == 0.0
    }

    constructor ()
      ensures Valid() && fresh(base)
      ensures base.stateMachine == null && base.levelData == None
      ensures Idle()
    {
      base := new BaseLevelState(TawafState);
      quizSystem := null;
      rewardSystem := null;
      questionsAnswered := 0;
      correctAnswers := 0;
      totalQuestions := 0;
      consecutiveCorrect := 0;
      startTime := 0.0;
      subscriptions := multiset{};
    }

    /** The effect of Enter: as for Miqat, and the streak starts at zero. */
    twostate predicate EnterApplied(before: multiset<QuizSystem>, foundQuiz: QuizSystem?,
                                    foundReward: RewardSystem?, now: real)
      reads this, base, foundQuiz
    {
      && quizSystem == foundQuiz && rewardSystem == foundReward
      && (foundQuiz == null ==>
        && subscriptions == before
        && questionsAnswered == old(questionsAnswered) && correctAnswers == old(correctAnswers)
        && consecutiveCorrect == old(consecutiveCorrect)
        && totalQuestions == old(totalQuestions) && startTime == old(startTime))
      && (foundQuiz != null ==>
        && subscriptions == before + multiset{foundQuiz}
        && foundQuiz.Valid() && foundQuiz.InitialisedWith(base.levelData)
        && questionsAnswered == 0 && correctAnswers == 0 && consecutiveCorrect == 0
        && totalQuestions == |QuestionsOf(base.levelData)| && startTime == now)
    }

    /** Enter: as for Miqat, and the streak starts at zero. */
    method Enter(foundQuiz: QuizSystem?, foundReward: RewardSystem?, now: real) returns (ready: Option<AdvanceOutcome>)
      requires Valid()
      requires foundQuiz != null ==> foundQuiz.Valid()
      modifies this, foundQuiz
      ensures Valid()
      ensures EnterApplied(old(subscriptions), foundQuiz, foundReward, now)
      ensures var questions := QuestionsOf(base.levelData);
        ready == (if foundQuiz == null || |questions| == 0 then None else Some(QuestionReady(questions[0], 1)))
    {
      quizSystem := foundQuiz;
      rewardSystem := foundReward;
      if foundQuiz == null {
        return None;
      }
      subscriptions := subscriptions + multiset{foundQuiz};
      ready := foundQuiz.Initialise(base.levelData);
      questionsAnswered := 0;
      correctAnswers := 0;
      totalQuestions := |QuestionsOf(base.levelData)|;
      consecutiveCorrect := 0;
      startTime := now;
    }

    /** Every field of the state and of its base. */
    ghost function Fields(): (QuizSystem?, RewardSystem?, (int, int, int, int), real, multiset<QuizSystem>,
                              (LevelStateMachine?, Option<LevelData>))
      reads this, base
    {
      (quizSystem, rewardSystem, (questionsAnswered, correctAnswers, consecutiveCorrect, totalQuestions), startTime,
       subscriptions, base.Fields())
    }

    /** The handlers that remain once Exit has detached those on the quiz system found on
        entry, if any. */
    ghost function Detached(): multiset<QuizSystem>
      reads this
    {
      if quizSystem == null then subscriptions else subscriptions - multiset{quizSystem}
    }

    /** The effect of Exit: the handlers come off the quiz system found on entry, if any, and
        nothing else changes. */
    twostate predicate ExitApplied()
      reads this
    {
      && quizSystem == old(quizSystem) && rewardSystem == old(rewardSystem)
      && questionsAnswered == old(questionsAnswered) && correctAnswers == old(correctAnswers)
      && consecutiveCorrect == old(consecutiveCorrect)
      && totalQuestions == old(totalQuestions) && startTime == old(startTime)
      && subscriptions == old(Detached())
    }

    method Exit()
      requires Valid()
      modifies this`subscriptions
      ensures Valid()
      ensures ExitApplied()
    {
      if quizSystem != null {
        subscriptions := subscriptions - multiset{quizSystem};
      }
    }

    method OnResume(unscaledDeltaTime: real)
      modifies this`startTime
      ensures startTime == old(startTime) + unscaledDeltaTime
    {
      startTime := startTime + unscaledDeltaTime;
    }

    /** OnAnswerResult: a correct answer lengthens the streak and, through the reward system
        when the scene has one, pays the awards StreakAwards lists for the new length; a wrong
        one resets the streak. `awarded` lists the amounts passed to AwardGems. */
    method OnAnswerResult(wasCorrect: bool, explanation: string, instance: GameManager?)
      returns (awarded: seq<int>)
      requires Valid()
      requires instance != null ==> instance.Ready()
      modifies this`questionsAnswered, this`correctAnswers, this`consecutiveCorrect, GemProfiles(instance)`gems
      ensures Valid()
      ensures instance != null ==> instance.Ready()
      ensures questionsAnswered == old(questionsAnswered) + 1
      ensures correctAnswers == old(correctAnswers) + (if wasCorrect then 1 else 0)
      ensures consecutiveCorrect == (if wasCorrect then old(consecutiveCorrect) + 1 else 0)
      ensures awarded == (if wasCorrect && rewardSystem != null then StreakAwards(consecutiveCorrect) else [])
      ensures GemTotal(instance) == old(GemTotal(instance)) + (if instance != null then SumInts(awarded) else 0)
    {
      questionsAnswered := questionsAnswered + 1;
      awarded := [];
      if wasCorrect {
        correctAnswers := correctAnswers + 1;
        consecutiveCorrect := consecutiveCorrect + 1;
        if consecutiveCorrect >= 3 {
          var bonusGems := consecutiveCorrect * 2;
          if rewardSystem != null {
            var earned := rewardSystem.AwardGems(bonusGems, instance);
            awarded := awarded + [bonusGems];
            assert SumInts(awarded) == bonusGems;
          }
        }
        if consecutiveCorrect == 7 {
          if rewardSystem != null {
            var earned := rewardSystem.AwardGems(20, instance);
            awarded := awarded + [20];
            assert awarded == [14, 20] && awarded[1..] == [20] && SumInts([20]) == 20;
          }
        }
      } else {
        consecutiveCorrect := 0;
      }
    }

    /** OnQuizComplete: with a game manager and a level, a score of exactly 100 earns 50
        gems; the score goes to the machine either way. */
    method OnQuizComplete(scorePercent: real, instance: GameManager?)
      returns (bonus: Option<GemsEarned>, completed: Option<LevelCompleted>)
      requires instance != null ==> instance.Ready()
      modifies GemProfiles(instance)`gems
      ensures instance != null ==> instance.Ready()
      ensures bonus.Some? <==>
        instance != null && base.levelData.Some? && rewardSystem != null && scorePercent == 100.0
      ensures bonus.Some? ==> bonus.value.amount == 50 && bonus.value.newTotal == GemTotal(instance)
      ensures GemTotal(instance) == old(GemTotal(instance)) + (if bonus.Some? then 50 else 0)
      ensures completed.Some? <==> base.stateMachine != null && base.stateMachine.current.Some?
      ensures completed.Some? ==> completed.value.scorePercent == scorePercent
      ensures completed.Some? ==> completed.value.stateId == base.stateMachine.current.value.Id()
    {
      bonus := None;
      if instance != null && instance.progressService != null && base.levelData.Some? {
        if scorePercent == 100.0 && rewardSystem != null {
          bonus := rewardSystem.AwardGems(50, instance);
        }
      }
      completed := ReportCompletion(base.stateMachine, scorePercent);
    }
  }

  /** The states Awake registers, keyed by their ids. */
  function Registered(): map<string, StateKind> {
    map[WarmupState.Id() := WarmupState, MiqatState.Id() := MiqatState, TawafState.Id() := TawafState]
  }

  /** The registry holds exactly the three valid ids, each mapped to the state with that id. */
  lemma RegisteredStates()
    ensures forall id :: id in Registered() <==> LevelStateIds.IsValid(id)
    ensures forall id | id in Registered() :: Registered()[id].Id() == id
  {
  }

  /** Drives the current level state through its lifecycle and relays its completion. */
  class LevelStateMachine {
    var states: map<string, StateKind>
    var current: Option<StateKind>
    var isPaused: bool
    /** Unity's global Time.timeScale, which Pause and Resume set. */
    var timeScale: real
    const warmup: WarmupLevelState
    const miqat: MiqatLevelState
    const tawaf: TawafLevelState
    /** The lifecycle calls made on the states, in order. */
    ghost var log: seq<Hook>

    ghost function Objects(): set<object> {
      {warmup, warmup.base, miqat, miqat.base, tawaf, tawaf.base}
    }

    function BaseOf(kind: StateKind): BaseLevelState {
      match kind
      case WarmupState => warmup.base
      case MiqatState => miqat.base
      case TawafState => tawaf.base
    }

    /** Every state is registered under its id and linked to this machine, and the current
        state is one of them. */
    ghost predicate Valid()
      reads this, warmup, miqat, tawaf, warmup.base, miqat.base, tawaf.base
    {
      Linked() && warmup.Valid() && miqat.Valid() && tawaf.Valid()
    }

    /** The part of Valid that the states' own fields do not touch. */
    ghost predicate Linked()
      reads this, warmup.base, miqat.base, tawaf.base
    {
      && warmup.base != miqat.base && miqat.base != tawaf.base && warmup.base != tawaf.base
      && states == Registered()
      && warmup.base.stateMachine == this
      && miqat.base.stateMachine == this
      && tawaf.base.stateMachine == this
    }

    /** Awake: register the three states, each linked to this machine with no level yet. */
    constructor ()
      ensures Valid()
      ensures current == None && !isPaused && timeScale == 1.0 && log == []
      ensures forall k :: BaseOf(k).levelData == None
      ensures warmup.Idle() && miqat.Idle() && tawaf.Idle()
      ensures fresh(Objects())
    {
      warmup := new WarmupLevelState();
      miqat := new MiqatLevelState();
      tawaf := new TawafLevelState();
      states := map[];
      current := None;
      isPaused := false;
      timeScale := 1.0;
      log := [];
      new;
      RegisterState(WarmupState);
      RegisterState(MiqatState);
      RegisterState(TawafState);
    }

    /** RegisterState: a state whose id is already present is ignored; otherwise it is linked
        to this machine with no level and added under its id. */
    method RegisterState(kind: StateKind)
      modifies this`states, BaseOf(kind)
      ensures kind.Id() in old(states) ==> states == old(states) && unchanged(BaseOf(kind))
      ensures kind.Id() !in old(states) ==>
        && states == old(states)[kind.Id() := kind]
        && BaseOf(kind).stateMachine == this && BaseOf(kind).levelData == None
    {
      if kind.Id() !in states {
        BaseOf(kind).Initialize(this, None);
        states := states[kind.Id() := kind];
      }
    }

    /** `kind`'s Exit took effect and its base is as it was. */
    twostate predicate Exited(kind: StateKind)
      reads this, warmup, miqat, tawaf, warmup.base, miqat.base, tawaf.base
    {
      match kind
      case WarmupState => warmup.ExitApplied() && warmup.base.Fields() == old(warmup.base.Fields())
      case MiqatState => miqat.ExitApplied() && miqat.base.Fields() == old(miqat.base.Fields())
      case TawafState => tawaf.ExitApplied() && tawaf.base.Fields() == old(tawaf.base.Fields())
    }

    /** `kind`'s Enter took effect, with the handlers attached before it being those it had
        at the start, or those left by its own Exit when it is `reentered`. */
    twostate predicate Entered(kind: StateKind, reentered: bool, foundQuiz: QuizSystem?,
                               foundReward: RewardSystem?, now: real)
      reads this, warmup, miqat, tawaf, warmup.base, miqat.base, tawaf.base, foundQuiz
    {
      match kind
      case WarmupState =>
        warmup.EnterApplied(if reentered then old(warmup.Detached()) else old(warmup.subscriptions), foundQuiz)
      case MiqatState =>
        miqat.EnterApplied(if reentered then old(miqat.Detached()) else old(miqat.subscriptions),
                           foundQuiz, foundReward, now)
      case TawafState =>
        tawaf.EnterApplied(if reentered then old(tawaf.Detached()) else old(tawaf.subscriptions),
                           foundQuiz, foundReward, now)
    }

    /** Neither `kind` nor its base changed. */
    twostate predicate Untouched(kind: StateKind)
      reads this, warmup, miqat, tawaf, warmup.base, miqat.base, tawaf.base
    {
      match kind
      case WarmupState => warmup.Fields() == old(warmup.Fields())
      case MiqatState => miqat.Fields() == old(miqat.Fields())
      case TawafState => tawaf.Fields() == old(tawaf.Fields())
    }

    /** Every state other than `except`'s is untouched. */
    twostate predicate UntouchedExcept(except: Option<StateKind>)
      reads this, warmup, miqat, tawaf, warmup.base, miqat.base, tawaf.base
    {
      && (except != Some(WarmupState) ==> Untouched(WarmupState))
      && (except != Some(MiqatState) ==> Untouched(MiqatState))
      && (except != Some(TawafState) ==> Untouched(TawafState))
    }

    /** What a change to `kind` does to another state `k`: it exited if it was current, and
        is untouched otherwise. */
    twostate predicate Bystander(k: StateKind, kind: StateKind)
      reads this, warmup, miqat, tawaf, warmup.base, miqat.base, tawaf.base
    {
      k != kind ==> if old(current) == Some(k) then Exited(k) else Untouched(k)
    }

    /** The effect of a change to `kind`: it is current and plays `levelData`; the old current
        state exited and then `kind` entered, and the log shows those hooks in that order; any
        other state is untouched unless it was the one that exited. */
    twostate predicate Switched(kind: StateKind, levelData: Option<LevelData>, foundQuiz: QuizSystem?,
                                foundReward: RewardSystem?, now: real)
      reads this, warmup, miqat, tawaf, warmup.base, miqat.base, tawaf.base, foundQuiz
    {
      && current == Some(kind)
      && BaseOf(kind).levelData == levelData
      && log == old(log) + HookOn(old(current), ExitCall) + [Hook(EnterCall, kind)]
      && Entered(kind, old(current) == Some(kind), foundQuiz, foundReward, now)
      && Bystander(WarmupState, kind) && Bystander(MiqatState, kind) && Bystander(TawafState, kind)
    }

    /** Calls `kind`'s Exit and logs it; the other states are untouched. */
    method ExitState(kind: StateKind)
      requires Valid()
      modifies this`log, warmup`subscriptions, miqat`subscriptions, tawaf`subscriptions
      ensures Valid()
      ensures log == old(log) + [Hook(ExitCall, kind)]
      ensures Exited(kind)
      ensures UntouchedExcept(Some(kind))
    {
      log := log + [Hook(ExitCall, kind)];
      match kind {
        case WarmupState => warmup.Exit(); return;
        case MiqatState => miqat.Exit(); return;
        case TawafState => tawaf.Exit(); return;
      }
    }

    /** Calls `kind`'s Enter with the scene's systems and logs it; the other states are untouched. */
    method EnterState(kind: StateKind, foundQuiz: QuizSystem?, foundReward: RewardSystem?, now: real)
      returns (ready: Option<AdvanceOutcome>)
      requires Valid()
      requires foundQuiz != null ==> foundQuiz.Valid()
      modifies this`log, warmup, miqat, tawaf, foundQuiz
      ensures Valid()
      ensures log == old(log) + [Hook(EnterCall, kind)]
      ensures Entered(kind, false, foundQuiz, foundReward, now)
      ensures UntouchedExcept(Some(kind))
      ensures var questions := QuestionsOf(BaseOf(kind).levelData);
        ready == (if foundQuiz == null || |questions| == 0 then None else Some(QuestionReady(questions[0], 1)))
    {
      match kind {
        case WarmupState => ready := warmup.Enter(foundQuiz);
        case MiqatState => ready := miqat.Enter(foundQuiz, foundReward, now);
        case TawafState => ready := tawaf.Enter(foundQuiz, foundReward, now);
      }
      log := log + [Hook(EnterCall, kind)];
    }

    /** ChangeState: an unregistered id changes nothing; otherwise the current state exits,
        the new one is initialised with the level and entered, and becomes current. */
    method ChangeState(stateId: string, levelData: Option<LevelData>, foundQuiz: QuizSystem?,
                       foundReward: RewardSystem?, now: real)
      returns (ready: Option<AdvanceOutcome>)
      requires Valid()
      requires foundQuiz != null ==> foundQuiz.Valid()
      modifies this`current, this`log, Objects(), foundQuiz
      ensures Valid()
      ensures stateId !in states ==>
        && ready == None && current == old(current) && log == old(log)
        && unchanged(Objects()) && (foundQuiz != null ==> unchanged(foundQuiz))
      ensures stateId in states ==>
        var kind := states[stateId];
        var questions := QuestionsOf(levelData);
        && kind.Id() == stateId
        && Switched(kind, levelData, foundQuiz, foundReward, now)
        && ready == (if foundQuiz == null || |questions| == 0 then None else Some(QuestionReady(questions[0], 1)))
    {
      RegisteredStates();
      if stateId !in states {
        return None;
      }
      var kind := states[stateId];
      if current.None? {
        ready := SwitchTo(kind, levelData, foundQuiz, foundReward, now);
      } else if current.value == kind {
        ready := Reenter(kind, levelData, foundQuiz, foundReward, now);
      } else {
        ready := ExitThenSwitch(kind, levelData, foundQuiz, foundReward, now);
      }
    }

    /** The branch of a change to the state that is already current: it is exited, then entered again. */
    method Reenter(kind: StateKind, levelData: Option<LevelData>, foundQuiz: QuizSystem?,
                   foundReward: RewardSystem?, now: real)
      returns (ready: Option<AdvanceOutcome>)
      requires Valid() && current == Some(kind)
      requires foundQuiz != null ==> foundQuiz.Valid()
      modifies this`current, this`log, Objects(), foundQuiz
      ensures Valid()
      ensures Switched(kind, levelData, foundQuiz, foundReward, now)
      ensures var questions := QuestionsOf(levelData);
        ready == (if foundQuiz == null || |questions| == 0 then None else Some(QuestionReady(questions[0], 1)))
    {
      ExitState(kind);
      ready := SwitchTo(kind, levelData, foundQuiz, foundReward, now);
    }

    /** The branch of a change away from another current state: that state is exited first. */
    method ExitThenSwitch(kind: StateKind, levelData: Option<LevelData>, foundQuiz: QuizSystem?,
                   foundReward: RewardSystem?, now: real)
      returns (ready: Option<AdvanceOutcome>)
      requires Valid() && current.Some? && current.value != kind
      requires foundQuiz != null ==> foundQuiz.Valid()
      modifies this`current, this`log, Objects(), foundQuiz
      ensures Valid()
      ensures Switched(kind, levelData, foundQuiz, foundReward, now)
      ensures var questions := QuestionsOf(levelData);
        ready == (if foundQuiz == null || |questions| == 0 then None else Some(QuestionReady(questions[0], 1)))
    {
      ExitState(current.value);
      ready := SwitchTo(kind, levelData, foundQuiz, foundReward, now);
    }

    /** The second half of ChangeState: the new state becomes current, is initialised with
        the level and is entered; the other states are untouched. */
    method SwitchTo(kind: StateKind, levelData: Option<LevelData>, foundQuiz: QuizSystem?,
                    foundReward: RewardSystem?, now: real)
      returns (ready: Option<AdvanceOutcome>)
      requires Valid()
      requires foundQuiz != null ==> foundQuiz.Valid()
      modifies this`current, this`log, Objects(), foundQuiz
      ensures Valid()
      ensures current == Some(kind) && BaseOf(kind).levelData == levelData
      ensures log == old(log) + [Hook(EnterCall, kind)]
      ensures Entered(kind, false, foundQuiz, foundReward, now)
      ensures UntouchedExcept(Some(kind))
      ensures var questions := QuestionsOf(levelData);
        ready == (if foundQuiz == null || |questions| == 0 then None else Some(QuestionReady(questions[0], 1)))
    {
      current := Some(kind);
      BaseOf(kind).Initialize(this, levelData);
      ready := EnterState(kind, foundQuiz, foundReward, now);
    }

    /** StartLevel: refused without level data; otherwise ChangeState. */
    method StartLevel(stateId: string, levelData: Option<LevelData>, foundQuiz: QuizSystem?,
                      foundReward: RewardSystem?, now: real)
      returns (ready: Option<AdvanceOutcome>)
      requires Valid()
      requires foundQuiz != null ==> foundQuiz.Valid()
      modifies this`current, this`log, Objects(), foundQuiz
      ensures Valid()
      ensures levelData.None? || stateId !in states ==>
        && ready == None && current == old(current) && log == old(log)
        && unchanged(Objects()) && (foundQuiz != null ==> unchanged(foundQuiz))
      ensures levelData.Some? && stateId in states ==>
        var kind := states[stateId];
        && kind.Id() == stateId
        && Switched(kind, levelData, foundQuiz, foundReward, now)
        && ready == (if foundQuiz == null || |levelData.value.questions| == 0 then None
                     else Some(QuestionReady(levelData.value.questions[0], 1)))
    {
      if levelData.None? {
        return None;
      }
      ready := ChangeState(stateId, levelData, foundQuiz, foundReward, now);
    }

    /** Update: the current state's Update runs each frame unless paused. The states' Update
        overrides have no effect beyond logging, so only the call is recorded. */
    method Update()
      modifies this`log
      ensures log == old(log) + (if isPaused then [] else HookOn(current, UpdateCall))
    {
      if isPaused || current.None? {
        return;
      }
      log := log + [Hook(UpdateCall, current.value)];
    }

    /** Pause: once only; notifies the current state and stops game time. */
    method Pause()
      modifies this`isPaused, this`timeScale, this`log
      ensures isPaused
      ensures old(isPaused) ==> timeScale == old(timeScale) && log == old(log)
      ensures !old(isPaused) ==> timeScale == 0.0 && log == old(log) + HookOn(current, PauseCall)
    {
      if isPaused {
        return;
      }
      isPaused := true;
      if current.Some? {
        log := log + [Hook(PauseCall, current.value)];
      }
      timeScale := 0.0;
    }

    /** Resume: only when paused; notifies the current state, whose clock (in Miqat and
        Tawaf) moves forward by the last frame's unscaled time, and restarts game time. */
    method Resume(unscaledDeltaTime: real)
      modifies this`isPaused, this`timeScale, this`log, miqat`startTime, tawaf`startTime
      ensures !isPaused
      ensures !old(isPaused) ==>
        timeScale == old(timeScale) && log == old(log)
        && miqat.startTime == old(miqat.startTime) && tawaf.startTime == old(tawaf.startTime)
      ensures old(isPaused) ==>
        && timeScale == 1.0 && log == old(log) + HookOn(current, ResumeCall)
        && miqat.startTime == old(miqat.startTime) + (if current == Some(MiqatState) then unscaledDeltaTime else 0.0)
        && tawaf.startTime == old(tawaf.startTime) + (if current == Some(TawafState) then unscaledDeltaTime else 0.0)
    {
      if !isPaused {
        return;
      }
      isPaused := false;
      if current.Some? {
        match current.value {
          case WarmupState =>
          case MiqatState => miqat.OnResume(unscaledDeltaTime);
          case TawafState => tawaf.OnResume(unscaledDeltaTime);
        }
        log := log + [Hook(ResumeCall, current.value)];
      }
      timeScale := 1.0;
    }

    /** CompleteLevel: nothing without a current state; otherwise OnLevelCompleted carries
        the current state's id, a valid id, and the score unchanged. */
    function CompleteLevel(scorePercent: real): (completed: Option<LevelCompleted>)
      reads this
      ensures completed.Some? <==> current.Some?
      ensures completed.Some? ==>
        && LevelStateIds.IsValid(completed.value.stateId)
        && completed.value.stateId == current.value.Id()
        && completed.value.scorePercent == scorePercent
    {
      if current.None? then None else Some(LevelCompleted(current.value.Id(), scorePercent))
    }

    /** OnDestroy: the current state exits and there is no current state any more; the
        other states, the registry, the paused flag and the time scale are left alone. */
    method OnDestroy()
      requires Valid()
      modifies this`current, this`log, warmup`subscriptions, miqat`subscriptions, tawaf`subscriptions
      ensures Valid()
      ensures current == None
      ensures log == old(log) + HookOn(old(current), ExitCall)
      ensures old(current).Some? ==> Exited(old(current).value)
      ensures UntouchedExcept(old(current))
    {
      if current.Some? {
        ExitState(current.value);
      }
      current := None;
    }
  }
}
