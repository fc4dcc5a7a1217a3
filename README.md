# Iron Unicorn — a Dafny model of the progression core

Iron Unicorn is a single-user strength-training web client. The user keeps one `UserStats` record, which holds:

- level and xp;
- streak and workout counters;
- the four lifts;
- the cosmetic "evolution" percentages of a unicorn avatar;
- a short list of challenges.

The record changes through four transitions:

- onboarding;
- completing a challenge;
- finishing a workout;
- merging a partial update.

Avatar images are static files, one per level. A sparse table maps level thresholds to evolution stages. A workout view keeps a checklist of the day's exercises. A dashboard shows the next milestone, refreshes the avatar behind a loading flag, and guards challenge clicks. A configuration module reads the backend URL and key from three environment sources.

The model has one Dafny module per source file:

| module | file | what it holds |
|---|---|---|
| `Types` | types.dfy | the records and enumerations, and JavaScript truthiness of optional strings and flags |
| `Constants` | constants.dfy | the evolution table and the mock training plans |
| `Gemini` | gemini.dfy | the per-level image path with a decimal rendering of the level, the stage lookup, and the avatar generator |
| `Progression` | progression.dfy | the level formula, capped evolution bumps, challenge lookup and marking, the default profile and the four transitions |
| `WorkoutChecklist` | workout.dfy | the checklist functions and the `WorkoutSession` class |
| `DashboardLogic` | dashboard.dfy | the milestone step function, the click guard, the mount condition and the `AvatarPanel` class |
| `EnvConfig` | env_config.dfy | the environment filter, the three-source lookup, client creation and the `SupabaseModule` class |

In `Progression`, each transition is a function on the record. `StatsStore` holds the record and carries out each transition step by step, as the App component does, and its methods are proved equal to those functions. `AvatarPanel` writes to a `StatsStore` only through its update handler.

JavaScript semantics are written out wherever they matter:

- `Math.floor(xp / 100)` is Dafny's `/`, because the divisor is positive.
- `Math.min(100, v + d)` is an explicit `if`.
- `!undefined` is `true`.
- `find` returns the first match, while the `map` by id rewrites every match.
- `if (url)` is truthiness: `undefined` and `""` are falsy.

Numbers are integers. The onboarding inputs use the HTML default step of 1, and every other constant is an integer.

## Model

| member | source | states |
|---|---|---|
| Types.DifficultyValue | types.ts:11 | an exercise difficulty is one of `too_easy`, `just_right`, `too_hard` |
| Types.DifficultyValuesDistinct | types.ts:11 | the three difficulty strings are pairwise distinct |
| Types.ChallengeTypeValue | types.ts:49 | a challenge type is one of `streak`, `lift`, `consistency` |
| Types.ChallengeTypeValuesDistinct | types.ts:49 | the three challenge-type strings are pairwise distinct |
| Types.RoutesAreSixDistinctValues | types.ts:66-73 | the route enum has exactly six members, all listed, with pairwise distinct string values |
| Constants.EvolutionStageKeysAreStageKeys | constants.tsx:21-72 | every key of the evolution table is one of 1, 11, …, 91 |
| Constants.StageKeysAreEvolutionStageKeys | constants.tsx:21-72 | each of 1, 11, …, 91 is a key, so the fallback stage 1 exists |
| Constants.EvolutionStageCount | constants.tsx:21-72 | the table has exactly ten thresholds |
| Constants.EvolutionStagesNonEmpty | constants.tsx:21-72 | every stage has a non-empty url, name and description |
| Constants.MockExercisesWellFormed | constants.tsx:74-78 | three mock exercises with distinct ids, positive set counts and no completion or difficulty |
| Constants.MockPlansWellFormed | constants.tsx:80-103 | two plans with distinct ids, one Strength and one Hypertrophy, each with days 1 and 2 over the mock exercises |
| Gemini.NatToString | services/geminiService.ts:13 | the rendering of a level is a non-empty digit string without a leading zero |
| Gemini.DecimalRoundTrip | services/geminiService.ts:13 | reading back the rendered numeral gives the number |
| Gemini.NatToStringInjective | services/geminiService.ts:13 | distinct numbers render as distinct numerals |
| Gemini.ClampLevel | services/geminiService.ts:12 | the safe level lies in [1, 100]: the level itself inside, 1 below, 100 above |
| Gemini.StaticEvolutionImage | services/geminiService.ts:10-14 | the path is the storage prefix `…/level_`, then the clamped level's numeral with no leading zero (so `level_7.png`, never `level_07.png`), then `.png` |
| Gemini.StaticImageClampIdempotent | services/geminiService.ts:10-14 | clamping before the call changes nothing |
| Gemini.StaticImageSaturates | services/geminiService.ts:12 | every level up to 1 gets image 1, and every level from 100 on gets image 100 |
| Gemini.StaticImageInjective | services/geminiService.ts:10-14 | within [1, 100] distinct levels get distinct paths |
| Gemini.ThresholdLevelsAreSortedKeys | services/geminiService.ts:20 | the sorted threshold list holds exactly the table's keys, strictly descending, ten apart |
| Gemini.FirstReached | services/geminiService.ts:21-23 | the loop returns the greatest threshold at most the level, and nothing exactly when every threshold exceeds the level |
| Gemini.EvolutionThreshold | services/geminiService.ts:19-25 | the chosen key is in the table, is the greatest key at most the level, and is 1 below level 1 |
| Gemini.GetEvolutionInfo | services/geminiService.ts:19-25 | the stage is the table entry of that key; below level 1 it is stage 1 |
| Gemini.EvolutionThresholdClosedForm | services/geminiService.ts:19-25 | for level ≥ 1 the key is 10·⌊(level−1)/10⌋+1, capped at 91 |
| Gemini.StageKeyBracket | constants.tsx:21-72 | for a level L ≥ 1, 10·⌊(L−1)/10⌋+1 capped at 91 is a stage key at most L, and no stage key at most L exceeds it |
| Gemini.EvolutionThresholdMonotone | services/geminiService.ts:19-25 | a higher level never maps to a lower stage |
| Gemini.GenerateUnicornAvatar | services/geminiService.ts:30-33 | the generator always yields a truthy value: the level's static path |
| Progression.LevelFor | App.tsx:97 | for xp ≥ 0 the level is at least the offset (10 for a strong start, else 1), and it equals the offset below 100 xp |
| Progression.LevelForMonotone | App.tsx:107 | the level formula is non-decreasing in xp and gains exactly one level per 100 xp |
| Progression.LevelForAtZero | App.tsx:59 | at zero xp the formula gives the onboarding level |
| Progression.AddCapped | App.tsx:89-92 | `min(100, v+d)` never exceeds 100, is v+d or 100, and does not lower an in-range part |
| Progression.BumpEvolution | App.tsx:109-114 | a capped bump keeps every part in [0, 100] and lowers none |
| Progression.AddCappedTimesSaturates | App.tsx:109-114 | n bumps of d give v + n·d, saturating at 100 |
| Progression.FirstIndexOf | App.tsx:77 | `find` by id gives the first index holding the id, and nothing exactly when no entry has it |
| Progression.FindChallenge | App.tsx:77 | the challenge `find` returns: the entry at FirstIndexOf's index, whose contract states it; FindAfterMark and CompleteChallengeNoOp state how completion reads it |
| Progression.MarkCompleted | App.tsx:80-82 | the `map` marks every entry with the id completed and leaves the others unchanged |
| Progression.FirstIndexOfSameIds | App.tsx:77 | the lookup depends only on ids, so an id-preserving rewrite keeps its result |
| Progression.FindAfterMark | App.tsx:77-82 | after marking, the lookup finds the same challenge, now completed |
| Progression.MarkCompletedKeeps | App.tsx:80-82 | marking keeps ids and rewards, never re-opens a challenge, and keeps rewards non-negative |
| Progression.DefaultStatsWellformed | App.tsx:21-35 | the default profile is well formed, its level matches the formula, it has three distinct open challenges, and it has no gender, no avatar and no onboarding |
| Progression.DefaultStats | App.tsx:21-35 | the profile used when nothing is saved; DefaultStatsWellformed states its contract |
| Progression.AvatarAfter | App.tsx:65 | only a truthy generator result replaces the avatar |
| Progression.Onboarded | App.tsx:51-70 | the record after onboarding; OnboardedEffect states every field and OnboardedWellformed the invariant |
| Progression.AvatarAfterGenerate | App.tsx:99-100 | with the actual generator, the avatar becomes the level's static path |
| Progression.OnboardedEffect | App.tsx:51-70 | onboarding sets strong start iff squat ≥ bodyweight, level 10 or 1, the matching evolution, the lifts, the completed flag and the level's avatar, and keeps xp, counters, challenges and gender |
| Progression.OnboardedWellformed | App.tsx:51-70 | onboarding yields a well-formed record whose level matches the formula at zero xp |
| Progression.Merge | App.tsx:72-74 | `{...prev, ...patch}`; MergeLaws states identity, idempotence and composition, AvatarPatchKeepsRest the avatar patch |
| Progression.MergeLaws | App.tsx:72-74 | the shallow merge is the identity on an empty patch, is idempotent, and two merges equal one merge of the combined patch |
| Progression.AvatarPatchKeepsRest | App.tsx:72-74 | an avatar patch changes only the avatar and keeps the record well formed |
| Progression.CompleteChallengeNoOp | App.tsx:77-78 | completing a missing or already completed challenge changes nothing |
| Progression.CompletedChallenge | App.tsx:76-103 | the record after a completion; CompleteChallengeNoOp, CompleteChallengeEffect, CompleteChallengeIdempotent and CompleteChallengeWellformed state its contract |
| Progression.CompleteChallengeEffect | App.tsx:76-103 | completing an open challenge marks it, adds its reward, recomputes the level, bumps the evolution, sets the level's avatar and keeps the rest, the gender included |
| Progression.CompleteChallengeIdempotent | App.tsx:76-103 | completing the same id twice is the same as once, so the reward is paid once |
| Progression.CompleteChallengeWellformed | App.tsx:76-103 | completion keeps the record well formed, lowers neither xp nor level nor any evolution part, and re-opens nothing |
| Progression.WorkoutCounted | App.tsx:106-123 | the record before the bonus; StatsStore.CountWorkout is proved equal to it and FinishWorkoutEffect states the fields it sets |
| Progression.WithFirstWorkoutBonus | App.tsx:125-132 | the first-workout bonus; FirstWorkoutBonusWellformed and FinishWorkoutChallenges state its contract |
| Progression.WorkoutRefreshesAvatar | App.tsx:134 | the refresh condition, a level rise or every third workout; FinishWorkoutEffect states the avatar it gives |
| Progression.FinishedWorkout | App.tsx:105-140 | the record after a workout; FinishWorkoutEffect, FinishWorkoutChallenges and FinishWorkoutWellformed state its contract |
| Progression.FinishWorkoutEffect | App.tsx:105-140 | a workout adds its xp plus the first-workout bonus, sets the level from the workout's xp, increments both counters, bumps the evolution, keeps the lifts, the flags and the gender, and refreshes the avatar exactly when the level rises or the workout count becomes a multiple of 3 |
| Progression.FinishWorkoutChallenges | App.tsx:125-132 | on the first workout an open c1 is marked completed; otherwise the challenges are untouched |
| Progression.FinishWorkoutWellformed | App.tsx:105-140 | a workout with non-negative xp keeps the record well formed, lowers neither xp nor level nor any evolution part, and re-opens nothing |
| Progression.FirstWorkoutBonusWellformed | App.tsx:125-132 | the first-workout bonus keeps the record well formed, adds xp without changing level or evolution, and re-opens nothing |
| Progression.FirstWorkoutLevelLags | App.tsx:105-132 | from a fresh profile, a 75-xp first workout leaves 125 xp at level 1, while the formula gives 2 |
| Progression.RunMonotone | App.tsx:72-140 | over any run of workouts, challenge completions and avatar updates, the record stays well formed, xp, level and evolution never fall, and no challenge re-opens |
| Progression.StatsStore.constructor | App.tsx:17-36 | with nothing saved, the state is the default profile |
| Progression.StatsStore.OnboardingComplete | App.tsx:51-70 | the new state is the onboarded record |
| Progression.StatsStore.UpdateStats | App.tsx:72-74 | the new state is the old one merged with the patch |
| Progression.StatsStore.CompleteChallenge | App.tsx:76-103 | the new state is the record with the challenge completed |
| Progression.StatsStore.PayChallenge | App.tsx:80-94 | the challenge is marked completed, its reward added to xp and the challenge bump applied; nothing else changes |
| Progression.StatsStore.RecalculateLevel | App.tsx:97 | the level becomes the formula's value for the current xp |
| Progression.StatsStore.FinishWorkout | App.tsx:105-140 | the new state is the record after the workout |
| Progression.StatsStore.CountWorkout | App.tsx:106-123 | xp, level, both counters and evolution take their post-workout values, and the new level is returned |
| Progression.StatsStore.GrantFirstWorkoutBonus | App.tsx:125-132 | on the first workout an open c1 is marked completed and paid; otherwise nothing changes |
| Progression.StatsStore.RefreshAvatarIfDue | App.tsx:134-137 | when due, a truthy generator result for the current level becomes the avatar; otherwise nothing changes |
| WorkoutChecklist.CurrentDay | components/WorkoutView.tsx:14 | a given day is used; otherwise day 1 of the first plan, holding the mock exercises |
| WorkoutChecklist.InitialExercises | components/WorkoutView.tsx:15-17 | the checklist has the day's exercises in order, each with `completed` false |
| WorkoutChecklist.Toggled | components/WorkoutView.tsx:22 | one exercise's flag flipped, `!undefined` being true; ToggledTwice states its contract |
| WorkoutChecklist.InitialExercisesNothingDone | components/WorkoutView.tsx:15-17 | a fresh checklist has every flag present and false and a count of 0, and can be finished only when it is empty |
| WorkoutChecklist.Toggle | components/WorkoutView.tsx:20-24 | entries with the id get `completed` flipped, an absent flag becoming true; every other entry is unchanged |
| WorkoutChecklist.ToggledTwice | components/WorkoutView.tsx:22 | flipping one exercise twice restores its done flag, and the exercise itself when the flag was present |
| WorkoutChecklist.ToggleTwice | components/WorkoutView.tsx:20-24 | toggling an id twice restores every done flag, and the whole list when every flag was present |
| WorkoutChecklist.ToggleMovesCountByOne | components/WorkoutView.tsx:20-40 | with distinct ids, toggling one exercise moves the completed count by exactly one in the right direction |
| WorkoutChecklist.SetDifficulty | components/WorkoutView.tsx:26-30 | only entries with the id get the difficulty; every other entry is unchanged |
| WorkoutChecklist.DifficultyKeepsProgress | components/WorkoutView.tsx:26-40 | rating changes no `completed` flag and so not the completed count |
| WorkoutChecklist.CompletedCount | components/WorkoutView.tsx:40 | the count is at most the length, equals it iff every entry is done, and is 0 iff none is |
| WorkoutChecklist.CanFinish | components/WorkoutView.tsx:150 | the finish button's enabled state; CanFinishIffAllDone states its contract |
| WorkoutChecklist.CanFinishIffAllDone | components/WorkoutView.tsx:150 | finish is enabled iff the count equals the length, i.e. iff every exercise is done |
| WorkoutChecklist.WorkoutSession.constructor | components/WorkoutView.tsx:14-18 | the session starts on the current day with the fresh checklist, not finishing |
| WorkoutChecklist.WorkoutSession.ToggleExercise | components/WorkoutView.tsx:20-24 | the checklist becomes its toggle |
| WorkoutChecklist.WorkoutSession.HandleDifficulty | components/WorkoutView.tsx:26-30 | the checklist becomes its rating update |
| WorkoutChecklist.WorkoutSession.PressFinish | components/WorkoutView.tsx:32-38 | an enabled button starts finishing and awards exactly 75 xp; a disabled one changes nothing and awards nothing |
| DashboardLogic.NextEvolutionLevel | components/Dashboard.tsx:70 | the milestone is one of 10, 25, 50, 75, 100, exceeds any level below 100, and is 100 above 50 |
| DashboardLogic.NextEvolutionLevelByBracket | components/Dashboard.tsx:70 | the milestone is the k-th of 10, 25, 50, 75, 100, where k counts how many of 1, 10, 25, 50 lie below the level |
| DashboardLogic.NextEvolutionLevelMonotone | components/Dashboard.tsx:70 | the milestone is non-decreasing in the level |
| DashboardLogic.ChallengeClick | components/Dashboard.tsx:170 | a click fires completion, with the challenge's id, iff the challenge is open |
| DashboardLogic.ClickAgreesWithHandler | components/Dashboard.tsx:170 | with distinct ids, clicking a listed challenge does what the completion handler alone would do, and clicking a completed one changes nothing |
| DashboardLogic.RefreshOnMount | components/Dashboard.tsx:65 | the mount condition; MountRefreshNotNeeded and AvatarPanel.Mount state its contract |
| DashboardLogic.MountRefreshNotNeeded | components/Dashboard.tsx:65-66 | neither the default profile nor any onboarded profile meets the mount-refresh condition |
| DashboardLogic.AvatarPanel.constructor | components/Dashboard.tsx:25 | a new panel is not loading |
| DashboardLogic.AvatarPanel.BeginRefresh | components/Dashboard.tsx:46-47 | a refresh starts iff none is under way; afterwards the flag is set |
| DashboardLogic.AvatarPanel.EndRefresh | components/Dashboard.tsx:48-60 | a truthy url is merged into the profile as an avatar patch, a falsy one triggers a key check, a throw changes nothing, and the flag is cleared in every case |
| DashboardLogic.AvatarPanel.RefreshAvatar | components/Dashboard.tsx:45-61 | a refresh under way makes this one a no-op; otherwise the avatar becomes the level's static path, nothing else in the profile changes, and the flag ends cleared |
| DashboardLogic.AvatarPanel.Mount | components/Dashboard.tsx:63-68 | the key status is looked up once; the refresh runs iff the profile is onboarded without a truthy avatar and none is under way, and then only the avatar changes, to the level's static path, and the flag ends cleared; otherwise the profile and the flag are unchanged |
| EnvConfig.IsValidEnv | services/supabaseClient.ts:8-14 | the environment filter; IsValidEnvMeaning states its contract |
| EnvConfig.IsValidEnvMeaning | services/supabaseClient.ts:8-14 | a value is valid iff it is a non-empty string other than `undefined`, `null` and `[object Object]`; a valid value is truthy |
| EnvConfig.FirstValid | services/supabaseClient.ts:16-39 | the result is valid and comes from the first source that supplies a valid value, with no earlier source throwing; there is no result iff every supplying source comes after a throw |
| EnvConfig.FirstSupplierWins | services/supabaseClient.ts:18-33 | the first supplying source wins when no earlier source throws |
| EnvConfig.NothingAfterThrow | services/supabaseClient.ts:35-38 | a throw before any supplier leaves the lookup empty |
| EnvConfig.NothingWithoutSupplier | services/supabaseClient.ts:38 | with no valid source, the lookup is empty |
| EnvConfig.GetEnvVar | services/supabaseClient.ts:16-39 | the lookup consults `import.meta.env`, `process.env` and `window._env_` in that order and returns the first valid value; a throw in the first gives nothing |
| EnvConfig.InitClient | services/supabaseClient.ts:46-53 | a client exists iff the url and the key are both truthy and creation does not throw, and it is built from those two values |
| EnvConfig.SupabaseModule.constructor | services/supabaseClient.ts:41-55 | both variables are looked up through the three sources, and the client exists iff both were found and creation did not throw |

## Left out

- The model does not capture reading and writing `localStorage` (App.tsx:17-19, 38-40), which is browser I/O. The saved record is passed to `JSON.parse` without error handling, so a corrupt entry would throw at start-up. `StatsStore.constructor` models only the case where nothing is saved.
- Gemini.GenerateUnicornAvatar: it is modelled as a synchronous call on a level. The `await` and the resulting interleavings are not modelled. The call sites pass the whole `UserStats` record, not a number (App.tsx:64, 99, 135; components/Dashboard.tsx:49). In JavaScript that makes the clamp yield `NaN` and the path `level_NaN.png`. The model passes the record's level instead.
- DashboardLogic.AvatarPanel.EndRefresh: the generator outcome is a parameter. With the actual generator, the falsy and throwing branches cannot occur; `RefreshAvatar` uses the actual generator.
- The calls to the backend and to the key selector are not modelled: `createClient` (services/supabaseClient.ts:49), and `checkKeyStatus` and `handleOpenKeySelector` on `window.aistudio` (components/Dashboard.tsx:29-43). The key check is only counted, in `keyStatusChecks`: once on every mount and once after each refresh that yields no picture.
- WorkoutChecklist.WorkoutSession.PressFinish: the two-second `setTimeout`, the splash screen and the route change that follow the press are not modelled. The awarded xp is returned at once.
- The floating-point percentages `progressToNextEvo` (components/Dashboard.tsx:71) and `progressPercent` (components/WorkoutView.tsx:41) are not modelled.
- Routing, including `handleStartJourney` and the route and login flags (App.tsx:42-49, 67-69, 142-201), is not modelled. Neither is the presentation: the landing page, the navigation, the workout preview modal, the onboarding form apart from its input bounds, and index.tsx.
- The onboarding form's HTML bounds are the precondition of onboarding: body weight 30 to 300, each lift 0 to 500 (components/Onboarding.tsx:69-70, 89-90). The gender it selects is passed to the handler and ignored there (components/Onboarding.tsx:22).
- `gender` is declared required in types.ts:53, but the default profile omits it and nothing ever sets it, so the model makes it optional.
- The code follows these rules, and so does the model:
  - strong start is decided by squat ≥ bodyweight, with no 1.2 factor;
  - a strong start begins at level 10;
  - the level has no cap at 100;
  - the streak simply counts workouts, with no calendar dates;
  - only c1 completes automatically; c2 and c3 never do;
  - plans have no strength requirement, and no strength score is computed;
  - the level is not always the formula's value for the current xp: the first-workout bonus is added after the level is computed (App.tsx:107, 130). `Progression.Wellformed` therefore bounds the level by the formula rather than equating them, and `Progression.FirstWorkoutLevelLags` exhibits the gap.
