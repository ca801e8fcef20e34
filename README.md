# HajjFlow quiz and progress engine in Dafny

This project models the logic behind the HajjFlow Unity quiz game. There are three levels, played in the fixed order warmup → miqat → tawaf. Each level is a quiz of multiple-choice questions. Correct answers earn gems. Each level state adds its own bonus rules. The player's profile keeps per-level percentages, the list of completed levels and an overall progress figure.

The model has one Dafny module per part of the source:

- `Wrappers`, `Collections`, `Text`: `Option`, `List.IndexOf`/`Contains`, and the .NET string operations the source uses (`Trim`, `ToLower`, ordinal `Contains`).
- `QuizData`: the `QuizQuestion` and `LevelData` records.
- `Profiles`: the parallel-list `SerializableDictionary` and `UserProfile`.
- `Services`: `UserProfileService`, kept in memory, and `ProgressService`.
- `Core`: the `GameManager` singleton, its service wiring and `AddGems`.
- `Rewards`: `RewardSystem`.
- `Quiz`: `QuizSystem`.
- `LevelStateIds`: the state-id constants and their order.
- `LevelRules`: the arithmetic of the level bonuses and the Tawaf circle counter.
- `LevelStates`: `BaseLevelState`, the three level states and `LevelStateMachine`. They share one module because the states report to the machine and the machine drives the states.
- `LevelSelection`: `DetermineStateId`.

Objects that the source updates in place are Dafny classes. Each method's `modifies` clause names what it may change, down to single fields where only some change. Its `ensures` give the new value of each of those fields, or relate it to the old one, as for the event subscriptions. Pure lookups are functions. C# events become values that the methods return. The order of lifecycle calls is kept in a ghost log in the machine. Each state records its event subscriptions in a ghost multiset.

Unity services become parameters:
- `GameManager.Instance` becomes `instance: GameManager?`. In `Awake` it is an `InstanceSlot` object.
- `FindObjectOfType` becomes `foundQuiz` and `foundReward`.
- `Time.time` becomes `now`.
- `Time.unscaledDeltaTime` becomes a parameter of `Resume`.
- `Time.timeScale` becomes a field of the machine.

Two other modelling choices:
- Percentages are `real`.
- C#'s truncating integer division is written out as `LevelRules.TruncDiv`.

Three behaviours of the code worth noting:
- `Initialise` with no questions does nothing. It does not finish the quiz with a zero score.
- Gems can go negative, because `AddGems` has no sign check and a question's `GemsReward` is passed through unguarded.
- A question is not required to have exactly four options.

## Model

| member | source | states |
|---|---|---|
| Collections.IndexOf | Assets/Scripts/Data/UserProfile.cs:44 | `List.IndexOf`: -1 exactly when the key is absent, otherwise the position of its first occurrence |
| Profiles.SerializableDictionary.constructor | Assets/Scripts/Data/UserProfile.cs:39-40 | a new dictionary has empty parallel lists and is well formed |
| Profiles.SerializableDictionary.Set | Assets/Scripts/Data/UserProfile.cs:42-52 | an existing key has its value overwritten at its index with the list lengths unchanged; a new key is appended with its value; the lists stay equal in length and the keys stay duplicate-free; afterwards `TryGetValue(key)` is `(true, value)`, every other key reads as before, and the dictionary's contents are the old map updated at `key` |
| Profiles.SerializableDictionary.TryGetValue | Assets/Scripts/Data/UserProfile.cs:54-64 | found exactly when the key is in the dictionary's contents, with the stored value; an absent key gives `false` and the default value |
| Profiles.SerializableDictionary.ContainsKey | Assets/Scripts/Data/UserProfile.cs:66 | membership of the key list, which agrees with `TryGetValue` finding the key |
| Profiles.UserProfile.constructor | Assets/Scripts/Data/UserProfile.cs:13-27 | a new profile is "Player" with an empty last name, 0 gems, 0 total progress, no completed levels and no level progress |
| Profiles.UserProfile.FullName | Assets/Scripts/Data/UserProfile.cs:29 | for any names, the result is first + " " + last with white space cut from both ends (a slice of it with no white space at either end, dropping only white space); for trimmed non-empty names it is exactly first + " " + last; with an empty last name it is the trimmed first name |
| Profiles.DefaultFullName | Assets/Scripts/Data/UserProfile.cs:13-29 | the default profile's full name is "Player" |
| Text.Trim | Assets/Scripts/Data/UserProfile.cs:29 | `String.Trim`: the result is a slice of the input with no white space at either end, and only white space is removed |
| Text.TrimDropsTrailingSpace | Assets/Scripts/Data/UserProfile.cs:29 | trimming `s + " "` gives the same as trimming `s`, which is why an empty last name leaves no trailing blank |
| Services.UserProfileService.constructor | Assets/Scripts/Services/UserProfileService.cs:75-77 | the service holds a fresh default profile, as on first run |
| Services.SumBounds | Assets/Scripts/Services/ProgressService.cs:63-64 | a sum of values in [lo, hi] lies between n·lo and n·hi |
| Services.MeanIsPercentage | Assets/Scripts/Services/ProgressService.cs:58-66 | the mean of percentages in [0, 100] is itself in [0, 100] |
| Services.MeanOfTwoLevels | Assets/Scripts/Services/ProgressService.cs:58-66 | levels at 100 and 50 give a total progress of 75 |
| Services.MarkCompleted | Assets/Scripts/Services/ProgressService.cs:29-33 | the completed list keeps every earlier entry in place, stays duplicate-free, and gains exactly the level id, and only when the score reaches the threshold, so completion is monotone |
| Services.MarkCompletedIdempotent | Assets/Scripts/Services/ProgressService.cs:29-33 | recording the same result again leaves the completed list unchanged |
| Services.ProgressService.constructor | Assets/Scripts/Services/ProgressService.cs:14-17 | the tracker works on the profile service it is given |
| Services.ProgressService.RecordLevelProgress | Assets/Scripts/Services/ProgressService.cs:23-37 | the level's progress becomes exactly the new percentage, overwriting a higher one too; other levels keep theirs; the completed list is `MarkCompleted` of the old one; total progress is the mean of the stored percentages; name and gems are unchanged |
| Services.ProgressService.GetLevelProgress | Assets/Scripts/Services/ProgressService.cs:40-44 | the stored percentage, or 0 for a level never recorded |
| Services.ProgressService.IsLevelCompleted | Assets/Scripts/Services/ProgressService.cs:47-50 | true exactly when `IndexOf` finds the id in the completed list; a read that changes nothing |
| Services.ProgressService.CalculateTotalProgress | Assets/Scripts/Services/ProgressService.cs:58-66 | the accumulating loop returns the mean of the stored percentages, and 0 when there are none |
| Core.GameManager.Awake | Assets/Scripts/Core/GameManager.cs:16-27 | a second manager, while another is the Instance, destroys itself and leaves the Instance unchanged; otherwise it becomes the Instance and builds fresh services over a default profile |
| Core.GameManager.InitialiseServices | Assets/Scripts/Core/GameManager.cs:36-41 | the progress service is built on the same profile service whose profile `AddGems` changes; that profile is a fresh default one: "Player", empty last name, 0 gems, 0 total progress, no completed levels and no level progress |
| Core.GameManager.AddGems | Assets/Scripts/Core/GameManager.cs:49-53 | gems change by exactly `amount`, with no sign check, and no other profile field changes |
| Rewards.RewardSystem.AwardGems | Assets/Scripts/Gameplay/RewardSystem.cs:23-32 | a non-positive amount changes nothing and notifies nobody; a positive amount adds exactly that much when there is a game manager, and the notification carries the amount and the new total; gems never decrease on this path; only the gem count of the game manager's profile can change |
| Rewards.RewardSystem.GrantCompletionBonus | Assets/Scripts/Gameplay/RewardSystem.cs:38-42 | a missing level does nothing; otherwise exactly the level's completion bonus is awarded, under the same positivity guard; only the profile's gem count can change |
| Quiz.ScorePercentBounds | Assets/Scripts/Gameplay/QuizSystem.cs:86-88 | the final score `ScorePercent`, correct / total · 100 as the source's float expression computes it, lies in [0, 100] |
| Quiz.PerfectScore | Assets/Scripts/Core/States/TawafLevelState.cs:154 | a score of exactly 100 means every answer was correct, and conversely, so the perfect-score test is `correct == total` |
| Quiz.QuizSystem.constructor | Assets/Scripts/Gameplay/QuizSystem.cs:33-36 | a new quiz has no questions, index 0, no correct answers and awaits no answer |
| Quiz.QuizSystem.Initialise | Assets/Scripts/Gameplay/QuizSystem.cs:41-55 | a missing level or one with no questions changes nothing and signals nothing; otherwise index 0, no correct answers, awaiting an answer, and question number 1 is shown |
| Quiz.QuizSystem.SubmitAnswer | Assets/Scripts/Gameplay/QuizSystem.cs:61-77 | ignored unless an answer is awaited, so a second submission scores nothing; otherwise it stops awaiting, and only a correct choice adds one to the count and the question's gem reward to the profile; the outcome carries correctness and explanation; an index past the last question throws; when the awaited answer is in bounds no exception occurs; of the profile only the gem count can change |
| Quiz.QuizSystem.Advance | Assets/Scripts/Gameplay/QuizSystem.cs:80-98 | the index moves on; before the end an answer is awaited and the next question is shown with number index + 1; past the end the score `correct / total * 100`, in [0, 100], is reported; an uninitialised quiz throws |
| Quiz.QuizSystem.AdvanceCorrected | Assets/Scripts/Gameplay/QuizSystem.cs:80-98 | as `Advance`, but finishing also stops awaiting an answer, so an awaited answer is always in bounds |
| Quiz.QuizSystem.TotalQuestions | Assets/Scripts/Gameplay/QuizSystem.cs:101 | the number of questions, 0 before any are set, and never below the correct count |
| Quiz.QuizSystem.CurrentQuestionNumber | Assets/Scripts/Gameplay/QuizSystem.cs:104 | the 1-based number of the current question, at least 1 |
| Quiz.QuizSystem.ShowCurrentQuestion | Assets/Scripts/Gameplay/QuizSystem.cs:108-111 | the question-ready notification carries the current question and its 1-based number |
| Quiz.SkipLastQuestionThenAnswer | Assets/Scripts/Gameplay/QuizSystem.cs:57-98 | one question, skipped with `Advance` and then answered, reads past the end of the questions |
| Quiz.SkipLastQuestionThenAnswerCorrected | Assets/Scripts/Gameplay/QuizSystem.cs:57-98 | with the corrected advance the same late answer is ignored |
| LevelStateIds.AllStatesDistinct | Assets/Scripts/Core/States/LevelStateIds.cs:16-21 | the order lists each of warmup, miqat and tawaf once |
| LevelStateIds.PositionsInOrder | Assets/Scripts/Core/States/LevelStateIds.cs:16-21 | warmup, miqat and tawaf sit at positions 0, 1 and 2 |
| LevelStateIds.GetNextState | Assets/Scripts/Core/States/LevelStateIds.cs:27-34 | there is a next id exactly for a valid id other than tawaf; it is valid and one position further on |
| LevelStateIds.GetPreviousState | Assets/Scripts/Core/States/LevelStateIds.cs:40-47 | there is a previous id exactly for a valid id other than warmup; it is valid and one position back |
| LevelStateIds.IsValid | Assets/Scripts/Core/States/LevelStateIds.cs:52-55 | valid exactly for "warmup", "miqat" and "tawaf" |
| LevelStateIds.NextStateTable | Assets/Scripts/Core/States/LevelStateIds.cs:27-47 | warmup → miqat → tawaf → none forward, and tawaf → miqat → warmup → none backward |
| LevelStateIds.NextThenPrevious | Assets/Scripts/Core/States/LevelStateIds.cs:27-47 | going forward and then back returns to the start |
| LevelStateIds.PreviousThenNext | Assets/Scripts/Core/States/LevelStateIds.cs:27-47 | going back and then forward returns to the start |
| LevelRules.TruncDiv | Assets/Scripts/Core/States/MiqatLevelState.cs:148 | C# integer division: the quotient rounds toward zero and keeps the sign of the dividend |
| LevelRules.TruncDivOfNegative | Assets/Scripts/Core/States/MiqatLevelState.cs:148 | -3 / 2 is -1 in C#, not the floor -2 |
| LevelRules.CircleOf | Assets/Scripts/Core/States/TawafLevelState.cs:101-108 | question q lies in circle c exactly when 7(c-1) < q ≤ 7c |
| LevelRules.FirstCircles | Assets/Scripts/Core/States/TawafLevelState.cs:106 | questions 1 to 7 are circle 1 and questions 8 to 14 are circle 2 |
| LevelRules.StreakAwards | Assets/Scripts/Core/States/TawafLevelState.cs:122-134 | no award below a streak of 3; every award is positive; a streak of 7 pays 14 and then 20 |
| LevelRules.StreakAwardsSum | Assets/Scripts/Core/States/TawafLevelState.cs:122-134 | one answer at streak s pays 2s from s = 3 on, plus a flat 20 exactly at s = 7 |
| LevelRules.StreakRunGemsClosedForm | Assets/Scripts/Core/States/TawafLevelState.cs:114-134 | n correct answers in a row from a fresh start pay 2·3 + … + 2·n = n(n+1) - 6 from n = 3 on, plus 20 once n reaches 7 |
| LevelRules.PerfectCircleGems | Assets/Scripts/Core/States/TawafLevelState.cs:114-134 | a flawless seven-question circle pays 70 gems of streak bonus |
| LevelStates.StateKind.Id | Assets/Scripts/Core/States/BaseLevelState.cs:16 | each state's id is its fixed constant, and a valid state id |
| LevelStates.IdInjective | Assets/Scripts/Core/States/LevelStateMachine.cs:54-62 | different states have different ids, so the id-keyed registry holds each state once |
| LevelStates.BaseLevelState.Initialize | Assets/Scripts/Core/States/BaseLevelState.cs:21-25 | the machine link and the level data are overwritten, and nothing else |
| LevelStates.ReportCompletion | Assets/Scripts/Core/States/WarmupLevelState.cs:107 | a completion is reported exactly when a machine is linked and has a current state; it carries that state's id, a valid state id, and the unchanged score |
| LevelStates.WarmupLevelState.Enter | Assets/Scripts/Core/States/WarmupLevelState.cs:19-42 | the quiz system found is remembered; without one nothing is subscribed or reset; otherwise the state subscribes to it once more, the quiz is initialised with the level (or left alone when the level has no questions), the answer counter is 0 and the total is the question count, 0 when there is no level; question 1 is shown when there is one |
| LevelStates.WarmupLevelState.Exit | Assets/Scripts/Core/States/WarmupLevelState.cs:51-64 | one subscription to the quiz system found on entry, if any, is removed; every other field keeps its value |
| LevelStates.WarmupLevelState.OnAnswerResult | Assets/Scripts/Core/States/WarmupLevelState.cs:74-88 | every answer, right or wrong, adds one to the answer counter, and no gems are awarded |
| LevelStates.WarmupLevelState.OnQuizComplete | Assets/Scripts/Core/States/WarmupLevelState.cs:90-108 | a completion is reported exactly when the linked machine has a current state; it carries the current state's id and the unchanged score |
| LevelStates.MiqatLevelState.Enter | Assets/Scripts/Core/States/MiqatLevelState.cs:22-49 | the quiz and reward systems found are remembered; without a quiz system nothing else changes; otherwise one more subscription, the quiz initialised with the level, counters 0, total the question count, and start time now |
| LevelStates.MiqatLevelState.Exit | Assets/Scripts/Core/States/MiqatLevelState.cs:66-79 | one subscription to the quiz system found on entry, if any, is removed; every other field keeps its value |
| LevelStates.MiqatLevelState.OnResume | Assets/Scripts/Core/States/MiqatLevelState.cs:87-93 | the start time moves forward by the unscaled frame time |
| LevelStates.MiqatLevelState.OnAnswerResult | Assets/Scripts/Core/States/MiqatLevelState.cs:105-126 | every answer counts and only correct ones count as correct, keeping correct ≤ answered; a correct answer less than 180 seconds after the start awards exactly 2 gems when the scene has a reward system, and the notification carries the new gem total; nothing else awards gems |
| LevelStates.MiqatLevelState.OnQuizComplete | Assets/Scripts/Core/States/MiqatLevelState.cs:128-156 | with a game manager and a level, a score at or above both the pass threshold and 90 awards half the completion bonus, rounded toward zero, if that is positive, and the notification carries the new gem total; a completion carrying the current state's id and the unchanged score is reported exactly when the linked machine has a current state |
| LevelStates.TawafLevelState.Enter | Assets/Scripts/Core/States/TawafLevelState.cs:23-51 | as Miqat's Enter, and the streak is reset to 0 too |
| LevelStates.TawafLevelState.Exit | Assets/Scripts/Core/States/TawafLevelState.cs:70-83 | one subscription to the quiz system found on entry, if any, is removed; every other field keeps its value |
| LevelStates.TawafLevelState.OnResume | Assets/Scripts/Core/States/TawafLevelState.cs:91-97 | the start time moves forward by the unscaled frame time |
| LevelStates.TawafLevelState.OnAnswerResult | Assets/Scripts/Core/States/TawafLevelState.cs:110-141 | a correct answer raises the correct count and the streak; a wrong one resets the streak to 0; streak ≤ correct ≤ answered is kept; the gems paid are exactly `StreakAwards` of the new streak, through the reward system when the scene has one |
| LevelStates.TawafLevelState.OnQuizComplete | Assets/Scripts/Core/States/TawafLevelState.cs:143-171 | with a game manager and a level, a score of exactly 100 awards 50 gems, and the notification carries the new gem total; a completion carrying the current state's id and the unchanged score is reported exactly when the linked machine has a current state |
| LevelStates.RegisteredStates | Assets/Scripts/Core/States/LevelStateMachine.cs:44-49 | the registry holds exactly the three valid ids, each mapped to the state with that id |
| LevelStates.LevelStateMachine.constructor | Assets/Scripts/Core/States/LevelStateMachine.cs:35-39 | after Awake the three states are registered and linked to the machine with no level, each as constructed (no scene systems, no handlers attached, counters, streak and clock at 0); none is current and the machine is not paused |
| LevelStates.LevelStateMachine.RegisterState | Assets/Scripts/Core/States/LevelStateMachine.cs:54-62 | an id already present is ignored; otherwise the state is linked with no level and added under its id |
| LevelStates.LevelStateMachine.ExitState | Assets/Scripts/Core/States/LevelStateMachine.cs:78-81 | the state's Exit takes effect and is logged; its base and the other states are untouched |
| LevelStates.LevelStateMachine.EnterState | Assets/Scripts/Core/States/LevelStateMachine.cs:86 | the state's Enter takes effect with the scene's systems and is logged; the other states are untouched; question 1 is shown when the quiz has questions |
| LevelStates.LevelStateMachine.SwitchTo | Assets/Scripts/Core/States/LevelStateMachine.cs:84-86 | the target becomes current, plays the new level and is entered, with that Enter's full effect; the other states are untouched |
| LevelStates.LevelStateMachine.ChangeState | Assets/Scripts/Core/States/LevelStateMachine.cs:69-90 | an invalid id changes nothing and calls no hook; otherwise the old current state exits, then the target is initialised with the level and entered, even when it was already current (its Enter then sees the subscriptions its Exit left); the log shows exit then enter; the target becomes current; a third state is untouched; the paused flag, the time scale and the registry keep their values |
| LevelStates.LevelStateMachine.Reenter | Assets/Scripts/Core/States/LevelStateMachine.cs:78-86 | changing to the state that is already current exits it, then enters it again on the new level, with the log showing both hooks and the other states untouched |
| LevelStates.LevelStateMachine.ExitThenSwitch | Assets/Scripts/Core/States/LevelStateMachine.cs:78-86 | changing away from another current state exits that one first, then enters the target on the new level; a third state is untouched |
| LevelStates.LevelStateMachine.StartLevel | Assets/Scripts/Core/States/LevelStateMachine.cs:95-105 | a missing level changes nothing; otherwise it has exactly `ChangeState`'s effect on the states, the log and the current state, and returns the level's first question as number 1 when a quiz system is found and the level has questions; the paused flag, the time scale and the registry keep their values |
| LevelStates.LevelStateMachine.Update | Assets/Scripts/Core/States/LevelStateMachine.cs:109-113 | the current state's Update is called only when not paused and a state is current |
| LevelStates.LevelStateMachine.Pause | Assets/Scripts/Core/States/LevelStateMachine.cs:118-125 | a repeated pause changes nothing and calls no hook; a first pause notifies the current state and sets the time scale to 0 |
| LevelStates.LevelStateMachine.Resume | Assets/Scripts/Core/States/LevelStateMachine.cs:128-135 | resuming when not paused changes nothing; otherwise the current state is notified, its clock shifts by the frame time in Miqat and Tawaf, and the time scale is 1 |
| LevelStates.LevelStateMachine.CompleteLevel | Assets/Scripts/Core/States/LevelStateMachine.cs:142-148 | nothing without a current state; otherwise the current state's valid id with the unchanged score |
| LevelStates.LevelStateMachine.OnDestroy | Assets/Scripts/Core/States/LevelStateMachine.cs:152-156 | the current state's Exit takes effect and is logged, and none is current afterwards; the other states, the registry, the paused flag and the time scale keep their values |
| Text.ToLower | Assets/Scripts/UI/LevelSelectionUI.cs:85 | same length, each ASCII capital replaced by its small letter |
| Text.Contains | Assets/Scripts/UI/LevelSelectionUI.cs:87-92 | true exactly when the needle occurs at some position |
| LevelSelection.DetermineStateId | Assets/Scripts/UI/LevelSelectionUI.cs:82-97 | always a valid state id; the first match in the order warm/1, miqat/2, tawaf/3 on the lowered id decides: warmup when the id has "warm" or "1"; otherwise miqat when it has "miqat" or "2"; otherwise tawaf when it has "tawaf" or "3"; warmup when it has none of them; and miqat or tawaf only with their own markers |
| LevelSelection.WarmupMarkerSubsumed | Assets/Scripts/UI/LevelSelectionUI.cs:87 | an id containing "warmup" contains "warm", so the first search never decides the result |
| LevelSelection.CaseInsensitive | Assets/Scripts/UI/LevelSelectionUI.cs:85 | lowering the id first changes nothing about the result |
| LevelSelection.StateIdsClassifyAsThemselves | Assets/Scripts/UI/LevelSelectionUI.cs:82-97 | each state id used as a level id maps to its own state |
| LevelSelection.DigitOutranksName | Assets/Scripts/UI/LevelSelectionUI.cs:87-88 | "tawaf_1" maps to warmup, because the warmup test runs first |

## Left out

- Profile persistence: `GetProfile`'s lazy load, `Save`, `UpdateProfile`'s save after each change, and the JSON file format are file I/O. The profile service holds a profile created with the defaults, as on first run. `UpdateProfile(mutator)` is the mutation written in place.
- Debug logging everywhere, including the elapsed-time messages in the Miqat and Tawaf `Update` methods. The `Update` overrides and the base `Update`, `OnPause` and `OnResume` have no other effect. So the machine only records that it called them.
- The base `Enter` and `Exit` only log. They are folded into the three states' `Enter` and `Exit`.
- The question-ready handlers of Warmup and Miqat only log. Tawaf's handler computes the circle number, which is `LevelRules.CircleOf`.
- Event dispatch: the subscriber lists of the quiz's events are not modelled. Each state records its `+=`/`-=` pairs as a ghost multiset of quiz systems. Its handlers are methods that a caller invokes with the event's arguments. The composition quiz event → state handler → machine is not modelled as one step. The machine's `OnStateChanged` event is the new current state that `ChangeState` establishes.
- `Destroy(gameObject)` and `DontDestroyOnLoad` are Unity object lifetime. The duplicate game manager only sets a `destroyed` flag.
- Core.GameManager.AddGems: does not model 32-bit overflow of the gem counter, because gems are unbounded integers. The same holds for the quiz and level counters.
- Floating point: scores, percentages, times and the progress mean are exact `real` values without IEEE rounding. So the Tawaf test `scorePercent == 100f` holds exactly when every answer was correct.
- Culture rules: `ToLower` is modelled on ASCII letters only, while .NET lowers by the current culture. `Contains` is ordinal.
- The progress-saving and level-unlocking calls in the states' completion handlers are commented out in the source, so they have no effect here either.
- The states read `GameManager.Instance?.ProgressService != null`. The model requires any game manager it is given to be wired, so this test reduces to "there is a game manager".
- Presentation and scene code is outside this model: the UI screens, `BuildLevelGrid` and the button wiring, LevelManager.cs and GameplaySceneInitializer.cs.
- The level thumbnail sprite is not modelled.

## Findings

| source | as written | input that shows it | evidently intended | confidence | as-written member | corrected member |
|---|---|---|---|---|---|---|
| Assets/Scripts/Gameplay/QuizSystem.cs:80-98 | advancing past the last question leaves the awaiting-answer flag set when that question was never answered | a level with one question: `Initialise`, `Advance` without answering, then `SubmitAnswer(0)` reads `_questions[1]` and throws IndexOutOfRangeException | the quiz stops awaiting an answer once it is complete, so a late submission has no effect, as the comment on `SubmitAnswer` (lines 57-59) promises | medium, not executed | Quiz.SkipLastQuestionThenAnswer | Quiz.QuizSystem.AdvanceCorrected |
