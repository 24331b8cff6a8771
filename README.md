# Workout logger core, modelled in Dafny

This project models the workout-data core of a small React and Supabase workout logger.

- **Workouts.** A workout is a list of exercises. Each exercise has a list of sets, and each set has target values, logged values, a completed flag and notes.
- **Normaliser.** It coerces loosely typed records, such as those loaded from local storage or the database, into canonical shape.
- **Templates.** Template rows from the database are grouped into exercises. A finished workout is flattened into one history row per completed set.
- **Page.** The page reconciles a day's template with the logged history. It keeps a one-shot flag that decides whether a change of day fetches a template.
- **Editor and history view.** The editor changes one field, set or exercise at a time. The history view groups flat history rows into sessions, newest first.
- **Local storage.** A single local-storage slot holds a snapshot of the app state and the offline queue.
- **Input fields.** Three input components turn typed text into weeks, days and repetitions.

JavaScript values are modelled by `Js.Value`: undefined, null, booleans, integers, NaN and strings. This module also gives the parts of `Number`, `parseInt`, `String`, truthiness, `||` and `JSON.parse(JSON.stringify(...))` that the core relies on. Records keep every field as a `Value`, because the normaliser must cope with whatever a stored record holds.

`crypto.randomUUID()` is an oracle passed in as a parameter:
- `IdSite -> Uuid` in pure code, where the call site names the exercise or set;
- `nat -> Uuid` indexed by a call counter in imperative code.

Database and storage results are also parameters: the query outcome, the insert outcome, and whether storage is full.

The day-change effect depends on the template fetcher, and the fetcher depends on the workout history (src/app/page.tsx:130-133, 147). So a change of history runs the effect again, just like a change of day. A successful log refreshes the history (src/app/page.tsx:192). The day's template is then fetched again and replaces the logged workout. By `Page.LoggedRowsNeverPrefill`, the rows just logged prefill nothing in it. In the model this is `HandleLogWorkout` followed by `DayChangeEffect`.

The model is split into one module per source file:

| module | file | form |
|---|---|---|
| `Js` | (JavaScript semantics) | functions, round-trip lemmas |
| `Fitness` | src/types/fitness.ts | datatypes, field access, JSON copy |
| `Utils` | src/lib/utils.ts | functions and lemmas |
| `Actions` | src/lib/actions.ts | methods with loops, proved against fold functions |
| `Page` | src/app/page.tsx | functions for the pure parts, class `FitnessFocusPage` for the state cells and flags |
| `WorkoutLogger` | src/components/fitness/WorkoutLogger.tsx | class `WorkoutEditor`, new state specified by functions |
| `ProgressDisplay` | src/components/fitness/ProgressDisplay.tsx | methods with loops, proved against fold and sort functions |
| `LocalStorage` | src/lib/local-storage.ts | class `LocalStore` over a `Slot`, specified by functions |
| `SetRow` | src/components/fitness/SetRow.tsx | functions |
| `DateSelector` | src/components/fitness/DateSelector.tsx | functions |
| `LoadWeekDayDialog` | src/components/fitness/LoadWeekDayDialog.tsx | class `Dialog` |

## Model

| member | source | states |
|---|---|---|
| Fitness.WithSetFieldFrame | src/components/fitness/WorkoutLogger.tsx:57-58 | writing one set field changes that field to the value and no other field |
| Fitness.WithExerciseFieldFrame | src/components/fitness/WorkoutLogger.tsx:47-48 | writing one exercise field changes that field and no other field, and never the sets |
| Fitness.JsonWorkoutCopy | src/app/page.tsx:117 | the JSON deep copy keeps every length, leaves no NaN, and is the identity on a workout without NaN |
| Fitness.JsonWorkoutIdempotent | src/app/page.tsx:170 | copying a JSON copy again changes nothing |
| Utils.LoggedRepsValue | src/lib/utils.ts:30 | `loggedReps` is "" exactly when the value is nullish or blank, otherwise the number its trimmed text denotes (possibly NaN) |
| Utils.NormaliseSet | src/lib/utils.ts:25-33 | the coerced set is canonical and keeps its set number; the id, notes and completed flag are kept when truthy and otherwise become the fresh id, "" and false; a nullish target or logged weight becomes "" and any other becomes its text; a nullish target reps becomes undefined and any other its `Number`; logged reps follow `LoggedRepsValue` |
| Utils.NormaliseExercise | src/lib/utils.ts:19-24 | the coerced exercise is canonical and keeps its name and number of sets; id, tool and target muscle group are kept when truthy and otherwise become the fresh id of that exercise, "" and ""; each set is coerced in order with its own fresh id |
| Utils.NormaliseExercises | src/lib/utils.ts:19-34 | the same number of exercises, each coerced in place, and the result is canonical |
| Utils.ProcessLoadedWorkout | src/lib/utils.ts:17-35 | a non-array gives []; otherwise exercise `i` is the exercise coercion of input `i` with a non-array `sets` read as [], so there is one canonical exercise per input with names, truthy ids and set numbers kept |
| Utils.ProcessWorkoutForPersistence | src/lib/utils.ts:42-59 | the result has no NaN, keeps every length, and has truthy ids on every exercise and set |
| Utils.LoggedRepsFixed | src/lib/utils.ts:30 | the `loggedReps` coercion leaves "", a number and NaN as they are |
| Utils.CanonicalSetFixed | src/lib/utils.ts:25-33 | a canonical set is left unchanged by the set coercion |
| Utils.CanonicalExerciseFixed | src/lib/utils.ts:19-24 | a canonical exercise is left unchanged by the exercise coercion |
| Utils.CanonicalFixedPoint | src/lib/utils.ts:19-34 | a canonical workout is a fixed point of the normaliser |
| Utils.ProcessLoadedIdempotent | src/lib/utils.ts:17-35 | processing the output again, with any fresh ids, gives the same workout |
| Utils.LoosenTightens | src/lib/utils.ts:18-24 | on a well-typed workout the array guards pass and the loader is the plain coercion |
| Utils.PersistenceIsLoadedThenCopied | src/lib/utils.ts:42-59 | persistence is the same coercion followed by a JSON copy |
| Utils.UnparsableRepsPersistAsNull | src/lib/utils.ts:30-56 | logged reps come out as NaN exactly when they are present and their trimmed text is no number, and then they are stored as null |
| Utils.LettersPersistAsNull | src/lib/utils.ts:30 | reps typed as "abc" are stored as null |
| Actions.DistinctKeysUnique | src/lib/actions.ts:37-48 | the exercise keys, in order of first appearance, hold no duplicate |
| Actions.DistinctKeysMembers | src/lib/actions.ts:37-48 | a key is listed exactly when some row has it |
| Actions.FirstWith | src/lib/actions.ts:39-47 | the row that opens an exercise carries that exercise's key |
| Actions.FirstWithIsFirst | src/lib/actions.ts:39-47 | no earlier row carries that key |
| Actions.NewTemplateSet | src/lib/actions.ts:50-59 | a pushed set has a truthy id, the given number, blank logged values, no target reps, and is not completed |
| Actions.OpenIfNew | src/lib/actions.ts:39-48 | after the `has` check the row's key is in the map |
| Actions.GroupRowsKeys | src/lib/actions.ts:33-60 | the map's insertion order is the distinct keys, and each key gets two fresh ids the first time and one id after |
| Actions.GroupRowsAt | src/lib/actions.ts:33-60 | each key's exercise is named after its first row, has `tool \|\| ""`, and has one set per row numbered 1..k |
| Actions.PushSetSize | src/lib/actions.ts:49-60 | each row adds exactly one set to the exercises held under the map's keys |
| Actions.GroupRowsSize | src/lib/actions.ts:49-60 | the sets of all exercises add up to the number of rows |
| Actions.GroupTemplateRow | src/lib/actions.ts:33-60 | one call of the callback: a new key opens an exercise with a fresh id and no sets, then the key's exercise receives the next blank set with one more fresh id |
| Actions.GroupTemplateRows | src/lib/actions.ts:33-60 | the `forEach` over the rows ends in the grouping whose keys, exercises and set counts the lemmas above describe |
| Actions.GroupedValues | src/lib/actions.ts:66 | `Array.from(exercisesMap.values())` lists the grouped exercises in key order, and their sets add up to the row count |
| Actions.LoadWorkoutTemplate | src/lib/actions.ts:13-68 | null exactly on a query error or zero rows; otherwise the id, name and day, one exercise per distinct key, each grouped from its rows, and total sets equal to the row count |
| Actions.CountAbsent | src/lib/actions.ts:37-39 | a key no row carries counts no rows |
| Actions.NumberOrNull | src/lib/actions.ts:78-87 | Weight and Reps are null exactly when the trimmed text is NaN under `Number`, and otherwise that number |
| Actions.SetRows | src/lib/actions.ts:76-92 | one row per completed set of the exercise, with the week, day, name and `tool \|\| null`, and Completed true |
| Actions.LogRows | src/lib/actions.ts:75-94 | one row per completed set of the workout, in exercise-then-set order |
| Actions.LogWorkout | src/lib/actions.ts:70-111 | zero completed sets give success with count 0 and no insert; otherwise the rows are sent, and an error gives failure with count 0 while success reports the completed count |
| Actions.StoredNumbers | src/lib/actions.ts:78-87 | a number, and its decimal text, are stored as that number |
| Actions.StoredBlank | src/lib/actions.ts:78-87 | text made only of whitespace, the empty text included, is stored as 0 |
| Actions.StoredText | src/lib/actions.ts:78-87 | "" and blank text are stored as 0; undefined and "50kg" are stored as null |
| Page.DefaultWorkout | src/app/page.tsx:38-53 | one canonical "New Exercise" with tool "" and one blank, uncompleted set numbered 1 |
| Page.DefaultWorkoutStable | src/app/page.tsx:122-124 | the default workout survives the JSON copy and the normaliser unchanged |
| Page.PrepareSet | src/app/page.tsx:70-79 | a template set is canonical, keeps its number, starts with blank logged values; the id, notes and completed flag are kept when truthy and otherwise become the fresh id, "" and false; the targets are coerced as when loading |
| Page.PrepareExercise | src/app/page.tsx:65-80 | a template exercise keeps its name; id, tool and target muscle group are kept when truthy and otherwise become the fresh id, "" and ""; each set is prepared in place |
| Page.PrepareTemplate | src/app/page.tsx:65-80 | each template exercise is prepared in place |
| Page.PrepareIsNormaliseOfBlank | src/app/page.tsx:65-80 | preparing a template is the loader's coercion applied after blanking the logged values; the result is canonical with names and set numbers kept |
| Page.FindMatch | src/app/page.tsx:95-100 | the first history entry with the same name, the same `tool \|\| ""` and the same set number, or none exactly when no entry matches |
| Page.PrefillSet | src/app/page.tsx:102-109 | only the logged weight and reps change, to `String(Weight)` or "" and `Number(Reps)` or "" from the first match, and an unmatched set is kept |
| Page.Prefill | src/app/page.tsx:90-114 | empty history changes nothing; otherwise every set is prefilled in place and nothing else changes |
| Page.PrefillCanonical | src/app/page.tsx:90-114 | prefilling keeps a workout canonical |
| Page.PrefillIgnoresUnnumberedHistory | src/app/page.tsx:99 | history rows without a set number never match a numbered set |
| Page.LoggedRowsNeverPrefill | src/lib/actions.ts:81-90 | rows written by `logWorkout` carry no set number, so they never prefill anything |
| Page.FetchOutcome | src/app/page.tsx:55-134 | a failed fetch gives the default workout named "Day N (Error Loading)"; no template gives the prefilled default named "Day N (Default Blank)"; a template gives its prepared, prefilled exercises and its name; the initial copy is always the JSON copy of the current workout |
| Page.ResetWorkouts | src/app/page.tsx:168-178 | with a non-empty initial workout, current becomes its copy; otherwise both become the default workout |
| Page.ResetIdempotent | src/app/page.tsx:168-178 | resetting twice is resetting once |
| Page.ResetAfterFetch | src/app/page.tsx:116-117 | right after a fetch with exercises, reset gives back the fetched workout |
| Page.CompletedInPositive | src/lib/actions.ts:76-77 | an exercise contributes completed sets exactly when one of its sets is completed |
| Page.CompletedCountPositive | src/lib/actions.ts:75-92 | the completed count is positive exactly when some set is completed |
| Page.PrecheckMatchesLogWorkout | src/app/page.tsx:181-188 | the page goes on to log exactly when `logWorkout` would insert rows; a refused workout has no rows |
| Page.BusyNeverFetches | src/app/page.tsx:138-140 | while loading week and day or populating, the effect does nothing |
| Page.SkipsAtMostOnce | src/app/page.tsx:141-147 | when idle the one-shot flag skips one fetch at most, and the next run fetches |
| Page.PopulateSuppressesOneFetch | src/app/page.tsx:283 | a successful populate suppresses exactly one template fetch |
| Page.FailedPopulateFetches | src/app/page.tsx:328-336 | a populate with no saved workout, or one that fails, lets the next change of day fetch |
| Page.LoadWeekDayFetches | src/app/page.tsx:262 | loading week and day clears the flag, so the change of day fetches once loading ends |
| Page.FitnessFocusPage.constructor | src/app/page.tsx:20-35 | initial state: week 1, day 1, empty workouts and history, no template name, template loading, every modelled flag clear |
| Page.FitnessFocusPage.FetchTemplateForDay | src/app/page.tsx:55-134 | current, initial and name become the fetch outcome for the current history; loading ends; flags, week, day and history are kept |
| Page.FitnessFocusPage.DayChangeEffect | src/app/page.tsx:137-148 | flags and fetch follow the guard; a fetch installs the selected day's outcome and ends with the template not loading; otherwise the workouts and the template-loading flag are kept |
| Page.FitnessFocusPage.BeginLoadWeekAndDay | src/app/page.tsx:261-262 | sets the loading flag and clears the one-shot flag; week, day, both workouts, the template name, the history and the template-loading flag are kept |
| Page.FitnessFocusPage.FinishLoadWeekAndDay | src/app/page.tsx:263-278 | a stored state sets week and day; otherwise both are kept; loading ends; the workouts, the template name, the history and the template-loading flag are kept |
| Page.FitnessFocusPage.BeginPopulateLoggedInfo | src/app/page.tsx:282-283 | sets the populating flag and the one-shot flag; week, day, both workouts, the template name, the history and the template-loading flag are kept |
| Page.FitnessFocusPage.FinishPopulateLoggedInfo | src/app/page.tsx:284-338 | a stored workout is JSON-copied, coerced and installed together with the saved initial workout and name; otherwise the workouts are kept and the one-shot flag is cleared; populating ends; week, day, history and the template-loading flag are kept |
| Page.FitnessFocusPage.ResetToTemplate | src/app/page.tsx:168-178 | the workouts become `ResetWorkouts` of the old ones; flags, template name, week, day, history and the template-loading flag are kept |
| Page.FitnessFocusPage.HandleLogWorkout | src/app/page.tsx:180-204 | a refused precheck sends nothing; otherwise the result is `logWorkout`'s, and history is refreshed only on success; flags, week, day, template name and the template-loading flag are kept |
| Page.PopulateRestoresSaved | src/app/page.tsx:287-305 | a canonical workout without NaN that is saved and populated comes back unchanged |
| WorkoutLogger.Without | src/components/fitness/WorkoutLogger.tsx:87 | `filter` by index drops exactly that element and keeps the order |
| WorkoutLogger.Renumbered | src/components/fitness/WorkoutLogger.tsx:126-127 | every set keeps its contents and gets number position + 1 |
| WorkoutLogger.WorkoutEditor.constructor | src/components/fitness/WorkoutLogger.tsx:29-31 | the editor works on the workout the page passes in |
| WorkoutLogger.WorkoutEditor.HandleExerciseDetailChange | src/components/fitness/WorkoutLogger.tsx:45-51 | the workout becomes `ExerciseChanged` of the old one |
| WorkoutLogger.WorkoutEditor.HandleSetChange | src/components/fitness/WorkoutLogger.tsx:53-63 | the workout becomes `SetChanged` of the old one |
| WorkoutLogger.WorkoutEditor.HandleAddExercise | src/components/fitness/WorkoutLogger.tsx:65-80 | one "New Exercise" with a blank set numbered 1 is appended |
| WorkoutLogger.WorkoutEditor.HandleRemoveExercise | src/components/fitness/WorkoutLogger.tsx:82-92 | refused exactly by the guard; otherwise the workout is `ExerciseRemoved`, refilled from the captured workout |
| WorkoutLogger.WorkoutEditor.HandleAddSet | src/components/fitness/WorkoutLogger.tsx:94-111 | the workout becomes `SetAdded` of the old one |
| WorkoutLogger.WorkoutEditor.HandleRemoveSet | src/components/fitness/WorkoutLogger.tsx:113-131 | refused exactly by the guard; otherwise the workout becomes `SetRemoved` of the old one |
| WorkoutLogger.SetChangeFrame | src/components/fitness/WorkoutLogger.tsx:53-63 | exactly one field of one set changes; every other exercise, set and field is unchanged |
| WorkoutLogger.ExerciseChangeFrame | src/components/fitness/WorkoutLogger.tsx:45-51 | exactly one field of one exercise changes; the sets and other exercises are unchanged |
| WorkoutLogger.AddSetAppends | src/components/fitness/WorkoutLogger.tsx:94-111 | one blank, uncompleted set numbered old length + 1 is appended; nothing else changes |
| WorkoutLogger.RemoveSetRenumbers | src/components/fitness/WorkoutLogger.tsx:126-130 | with two or more sets, that set is dropped and the rest keep their order, renumbered 1..N-1 |
| WorkoutLogger.RemoveLastSetRules | src/components/fitness/WorkoutLogger.tsx:117-124 | removing an exercise's only set is refused in a one-exercise workout, and otherwise removes the exercise |
| WorkoutLogger.RemoveExerciseRules | src/components/fitness/WorkoutLogger.tsx:83-88 | refused exactly when one exercise with at most one set is left; with two or more exercises exactly that index is filtered out; the result is never empty |
| WorkoutLogger.RemovalNeverEmpties | src/components/fitness/WorkoutLogger.tsx:113-131 | removing a set never leaves the workout empty |
| WorkoutLogger.AddThenRemoveExercise | src/components/fitness/WorkoutLogger.tsx:65-92 | removing the exercise just added gives back the workout |
| WorkoutLogger.AddThenRemoveSet | src/components/fitness/WorkoutLogger.tsx:94-131 | on sets numbered 1..N, removing the set just added gives back the workout |
| WorkoutLogger.NewExerciseNormalisesToDefault | src/components/fitness/WorkoutLogger.tsx:66-78 | the editor's new exercise, once coerced, is the page's default workout |
| WorkoutLogger.RemoveOnlyExerciseKeepsIt | src/components/fitness/WorkoutLogger.tsx:79-90 | as written, removing the only exercise when it has two or more sets leaves it in place, followed by a new exercise |
| WorkoutLogger.IntendedRemovalRemoves | src/components/fitness/WorkoutLogger.tsx:83-91 | corrected removal: refused by the same guard; an emptied workout becomes a single new exercise; otherwise it agrees with the code |
| ProgressDisplay.SessionIdInjective | src/components/fitness/ProgressDisplay.tsx:24 | two rows get the same session id only when their week and day are equal |
| ProgressDisplay.NewSession | src/components/fitness/ProgressDisplay.tsx:26-35 | a new session has id `W{week}-D{day}`, that week and day, and no sets |
| ProgressDisplay.ToLoggedSet | src/components/fitness/ProgressDisplay.tsx:38-46 | name kept and notes ""; weight and reps are "" for null, "undefined" for undefined and the decimal text of a number; a falsy set number becomes 0; tool and target group are kept when truthy and otherwise become undefined |
| ProgressDisplay.DistinctIdsUnique | src/components/fitness/ProgressDisplay.tsx:26-35 | the map's insertion order has no duplicate id |
| ProgressDisplay.DistinctIdsMembers | src/components/fitness/ProgressDisplay.tsx:23-35 | an id is a key exactly when some row has it |
| ProgressDisplay.LoggedOfAbsent | src/components/fitness/ProgressDisplay.tsx:37-46 | a session no row belongs to collects no sets |
| ProgressDisplay.CollectKeys | src/components/fitness/ProgressDisplay.tsx:23-47 | after the `forEach` the map's keys are the distinct ids in first-appearance order |
| ProgressDisplay.CollectAt | src/components/fitness/ProgressDisplay.tsx:23-47 | each row's session holds that row's week and day and every row of that session, in input order |
| ProgressDisplay.CollectSize | src/components/fitness/ProgressDisplay.tsx:37-46 | every row adds exactly one set |
| ProgressDisplay.SessionValues | src/components/fitness/ProgressDisplay.tsx:49 | `Array.from(sessionsMap.values())` lists the sessions in key order |
| ProgressDisplay.SumLoggedIsTotal | src/components/fitness/ProgressDisplay.tsx:49 | the listed sessions hold all the sets the map holds |
| ProgressDisplay.InsertDescSorted | src/components/fitness/ProgressDisplay.tsx:51-54 | inserting into a list sorted by the comparator keeps it sorted and only adds the element |
| ProgressDisplay.SortDescSorted | src/components/fitness/ProgressDisplay.tsx:51-54 | the sort gives week descending, then day descending, and a permutation of the sessions |
| ProgressDisplay.SortDescStrict | src/components/fitness/ProgressDisplay.tsx:51-54 | sessions with distinct (week, day) come out strictly newest first |
| ProgressDisplay.InsertStrict | src/components/fitness/ProgressDisplay.tsx:51-54 | inserting a session with a new (week, day) keeps the order strict |
| ProgressDisplay.GroupedSessions | src/components/fitness/ProgressDisplay.tsx:21-49 | one session per distinct (week, day), each holding exactly its rows, and all rows counted once |
| ProgressDisplay.SortDescSameElements | src/components/fitness/ProgressDisplay.tsx:51-54 | the sort keeps exactly the sessions it is given |
| ProgressDisplay.SortedSessions | src/components/fitness/ProgressDisplay.tsx:49-56 | the sorted sessions are one per (week, day), strictly newest first, and hold every row once |
| ProgressDisplay.GroupHistoryBySession | src/components/fitness/ProgressDisplay.tsx:18-57 | [] for no rows; one session per distinct (week, day) holding its rows in input order; strictly descending by week then day; total sets equal to the number of rows |
| ProgressDisplay.Runs | src/components/fitness/ProgressDisplay.tsx:109-129 | there are groups exactly when there are sets |
| ProgressDisplay.RunsUpToLast | src/components/fitness/ProgressDisplay.tsx:110-113 | after any prefix of the sets, the last group ends with the last set of that prefix |
| ProgressDisplay.OpenRun | src/components/fitness/ProgressDisplay.tsx:110-113 | a set that breaks the run opens a new group, and the groups stay maximal runs |
| ProgressDisplay.JoinRun | src/components/fitness/ProgressDisplay.tsx:113 | a set that continues the run joins the last group, and the groups stay maximal runs |
| ProgressDisplay.ExtendGroups | src/components/fitness/ProgressDisplay.tsx:110-113 | a set opens a group exactly when it does not continue the last group's last set; the groups then stay maximal runs and concatenate to one set more |
| ProgressDisplay.RunsUpToMaximal | src/components/fitness/ProgressDisplay.tsx:109-129 | after every prefix of the sets the groups are maximal runs that concatenate to that prefix |
| ProgressDisplay.RunsAreMaximal | src/components/fitness/ProgressDisplay.tsx:109-129 | the groups are non-empty maximal runs of equal name and tool, and their concatenation is the session's sets |
| ProgressDisplay.GroupRuns | src/components/fitness/ProgressDisplay.tsx:109-129 | the `reduce` builds exactly those runs |
| LocalStorage.Whole | src/types/fitness.ts:73-80 | a full snapshot has week, day and both workouts |
| LocalStorage.SaveWholeLoads | src/lib/local-storage.ts:13-41 | saving a full snapshot and loading gives back its JSON copy key by key; an undefined template name is dropped, and with no queue in the snapshot the stored queue is kept |
| LocalStorage.JsonQueueIdempotent | src/lib/local-storage.ts:18 | copying the queue through JSON twice is copying it once |
| LocalStorage.StringifyStable | src/lib/local-storage.ts:18 | a stored snapshot is already a JSON fixed point |
| LocalStorage.Loaded | src/lib/local-storage.ts:29-41 | load returns a state exactly when a parsable state is stored |
| LocalStorage.AfterLoad | src/lib/local-storage.ts:34-40 | load clears a corrupt slot and leaves any other slot alone |
| LocalStorage.SyncQueue | src/lib/local-storage.ts:47-50 | the stored queue, or [] with no state or no queue |
| LocalStorage.SaveMerges | src/lib/local-storage.ts:13-19 | every key of the partial overwrites the stored one through a JSON copy (a template name of undefined excepted), and every other stored key is kept |
| LocalStorage.SaveUndefinedNameDropsKey | src/lib/local-storage.ts:17-18 | an undefined template name in the partial removes the stored name |
| LocalStorage.SaveOverCorrupt | src/lib/local-storage.ts:16-19 | saving over a corrupt slot stores exactly the partial, or leaves the slot empty when the write fails |
| LocalStorage.FailedSaveKeepsSlot | src/lib/local-storage.ts:20-22 | a failed write leaves a readable slot unchanged |
| LocalStorage.SaveIdempotent | src/lib/local-storage.ts:13-23 | saving the same partial twice is saving it once |
| LocalStorage.SaveWellFormed | src/lib/local-storage.ts:13-23 | save keeps every stored snapshot a JSON fixed point |
| LocalStorage.ClearEmptiesQueue | src/lib/local-storage.ts:55-60 | with state, the queue becomes [] and every other field is kept; without state nothing is written |
| LocalStorage.LocalStore.constructor | src/lib/local-storage.ts:5 | the store is the one slot under the app-state key, starting from what it holds |
| LocalStorage.LocalStore.Load | src/lib/local-storage.ts:29-41 | returns `Loaded` and heals the slot |
| LocalStorage.LocalStore.Save | src/lib/local-storage.ts:13-23 | the slot becomes `AfterSave` |
| LocalStorage.LocalStore.GetSyncQueue | src/lib/local-storage.ts:47-50 | returns `SyncQueue` and heals the slot |
| LocalStorage.LocalStore.ClearSyncQueue | src/lib/local-storage.ts:55-60 | the slot becomes `AfterClearQueue` |
| SetRow.HandleInputChange | src/components/fitness/SetRow.tsx:28-34 | weight and notes are forwarded as typed; reps that are not empty and are read as a number are forwarded as that number, and any other text as typed; the indices are kept; the forwarded value always denotes the typed number |
| SetRow.HandleCheckedChange | src/components/fitness/SetRow.tsx:78 | the checkbox forwards `isCompleted` as the boolean `!!checked`, with the same indices |
| SetRow.RepsTextRoundTrip | src/components/fitness/SetRow.tsx:29-30 | reps typed as a number's text are forwarded as that number |
| SetRow.BlankRepsForwardZero | src/components/fitness/SetRow.tsx:29-30 | reps that are blank but not empty are forwarded as 0 |
| SetRow.UnparsableRepsForwardedRaw | src/components/fitness/SetRow.tsx:31-32 | reps text that is no number is forwarded as typed |
| SetRow.ForwardedRepsSurviveLoad | src/components/fitness/SetRow.tsx:29-30 | a forwarded reps number survives the loader's `loggedReps` coercion |
| DateSelector.Days | src/components/fitness/DateSelector.tsx:20-30 | there are five choices, numbered from 1 |
| DateSelector.DaysAreOneToFive | src/components/fitness/DateSelector.tsx:20-30 | the choices are exactly the days 1 to 5 |
| DateSelector.WeekChangeClamps | src/components/fitness/DateSelector.tsx:32-44 | every change sets a week: the parsed week when it is 1 or more, and 1 for empty, unparsable or lower text |
| DateSelector.WeekTextRoundTrip | src/components/fitness/DateSelector.tsx:36-40 | a week of 1 or more typed as its text is taken as is |
| DateSelector.WeekAfterBlur | src/components/fitness/DateSelector.tsx:46-50 | blur sets 1 or keeps the week, and a week of at least 1 stays at least 1 |
| DateSelector.BlurResetsOnlyEmptyOrLow | src/components/fitness/DateSelector.tsx:46-50 | blur resets exactly empty text and text that parses below 1; unparsable text keeps the week |
| DateSelector.BlurAfterChange | src/components/fitness/DateSelector.tsx:32-50 | a blur after a change of the same text changes nothing more |
| DateSelector.DayAfterSelect | src/components/fitness/DateSelector.tsx:80 | the chosen text is read with `Number`, giving a number or NaN |
| DateSelector.SelectDayRoundTrip | src/components/fitness/DateSelector.tsx:79-88 | choosing an item sets exactly the day it shows |
| LoadWeekDayDialog.WeekFromInput | src/components/fitness/LoadWeekDayDialog.tsx:34-37 | the parsed week when it is 1 or more, else 1 |
| LoadWeekDayDialog.DayFromInput | src/components/fitness/LoadWeekDayDialog.tsx:39-47 | a parsed day in 1..5 is taken; empty text gives 1; the result is the old day or a day of the cycle |
| LoadWeekDayDialog.DayOutsideCycleKept | src/components/fitness/LoadWeekDayDialog.tsx:42-46 | non-empty text outside 1..5, or no number at all, keeps the day |
| LoadWeekDayDialog.DayTextRoundTrip | src/components/fitness/LoadWeekDayDialog.tsx:40-43 | a day of the cycle typed as its text is taken |
| LoadWeekDayDialog.Dialog.constructor | src/components/fitness/LoadWeekDayDialog.tsx:25-27 | closed, with week 1 and day 1 |
| LoadWeekDayDialog.Dialog.SetOpen | src/components/fitness/LoadWeekDayDialog.tsx:50 | opening or closing changes only `isOpen` |
| LoadWeekDayDialog.Dialog.HandleWeekChange | src/components/fitness/LoadWeekDayDialog.tsx:34-37 | the week becomes `WeekFromInput`, the rest is kept, and week ≥ 1 holds |
| LoadWeekDayDialog.Dialog.HandleDayChange | src/components/fitness/LoadWeekDayDialog.tsx:39-47 | the day becomes `DayFromInput` of the old day, the rest is kept, and the day stays in 1..5 |
| LoadWeekDayDialog.Dialog.HandleConfirm | src/components/fitness/LoadWeekDayDialog.tsx:29-32 | the current week (≥ 1) and day (in 1..5) are passed on, and the dialog closes |
| LoadWeekDayDialog.ConfirmAfterEdits | src/components/fitness/LoadWeekDayDialog.tsx:25-47 | whatever is typed into a fresh dialog, it confirms a week of at least 1 and a day of the cycle |

## Left out

- Supabase queries and inserts are left out: the template query, the insert, and `getWorkoutHistory`. Their outcomes are parameters (`TemplateQuery`, `InsertOutcome`, `FetchResult`, `StateLoad`, and the refreshed history). `saveCurrentState`, `loadCurrentState` and the client configuration are not part of this model.
- The AI exercise suggester, the service worker, the layout shell and all rendering markup are left out. `GroupRuns` stands each rendered element for the set it renders.
- Numbers are integers. JavaScript floats, exponents, hexadecimal text and Infinity are not modelled. NaN is a value of its own, and `Number`/`parseInt` read decimal integers only.
- JSON is modelled at the value level: NaN becomes null, and an undefined field is dropped and reads back as undefined. Byte-level text and its parse errors are not modelled. Instead a `Corrupt` slot stands for unparsable stored text.
- `typeof window === 'undefined'` (server rendering) is not modelled in `LocalStorage`. A full or failing `setItem` is the `storageFull` parameter.
- React scheduling, toasts and console logging are left out. Each async handler on the page is a `Begin…`/`Finish…` pair of transitions, so the day-change effect can be run between them. In `DayChangeEffect` a fetch completes at once. `isLoadingHistory`, `isLoggingWorkout` and `isSavingState` are not modelled.
- `handleSaveCurrentState` in src/app/page.tsx is left out: it only calls Supabase and storage with the persisted workout. Its coercion is `Utils.ProcessWorkoutForPersistence`.
- The offline sync drain is left out. Only the queue accessors exist in the modelled files.
- Mismatches between revisions are left out. The page imports the storage helpers from the wrong module, and passes props the editor does not declare. Each file is modelled as written.
- Page.FitnessFocusPage.FinishLoadWeekAndDay: keeps the old week or day when the stored state lacks one. The source would store `undefined` in that case.
- WorkoutLogger.WorkoutEditor.HandleExerciseDetailChange: the field is one of id, name, tool and target muscle group. Writing a value to `sets` through this handler is not modelled.
- ProgressDisplay.GroupHistoryBySession: a `null` input is not representable (a sequence is never null). The empty input covers the `!flatHistory` guard otherwise.
- ProgressDisplay.SortDesc: `Array.prototype.sort` is modelled as a stable insertion sort. Any stable sort gives the same result for this comparator.
- Paths that throw on malformed data are not representable, because records are typed and sequences are never null. These are: a null exercise or set element in `processLoadedWorkout` (src/lib/utils.ts:19-26); a stored exercise without a `sets` array in the populate handler (src/app/page.tsx:295, 312), which the handler catches at src/app/page.tsx:333-336; and a rejected `logWorkout` promise (src/app/page.tsx:198-200). The populate and log handlers leave the workouts unchanged on those paths, except for the flags.
- Actions.LoadWorkoutTemplate: the key `name-(tool || "notool")` is a string, so two different (name, tool) pairs can share a key, as in the source. No property is stated about such collisions.

## Findings

| source | as written | input that shows it | evidently intended | confidence | as-written member | corrected member |
|---|---|---|---|---|---|---|
| src/components/fitness/WorkoutLogger.tsx:79-90 | when removing an exercise empties the workout, the refill `handleAddExercise()` appends to the `currentWorkout` captured before the removal, and its state write replaces the filtered list | a workout with one exercise that has two sets; remove exercise 0 | the workout becomes a single new exercise | not executed | WorkoutLogger.RemoveOnlyExerciseKeepsIt | WorkoutLogger.IntendedRemovalRemoves |
