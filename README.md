# Lap timer: a verified Dafny model

This project models the core of a browser task timer. A user keeps a library of tasks, each with
a base duration, a lap interval, a growth factor and an occurrence cap. The user lists some of
them in a lap playlist and runs a session over a number of laps.

At session start, `buildVirtualPlaylist` expands the lap list into a flat sequence of timed
entries:

- a task recurs every `lapInterval` laps, counted from the lap it last ran on;
- it stops once it has run `maxOccurrences` times;
- its duration grows geometrically by `growthFactor` percent per occurrence, clamped to 1 .. 86399 seconds;
- the expansion also produces prefix-sum tables: per-lap durations, lap start offsets, per-entry
  cumulative offsets, and the session total;
- it numbers the laps that have entries.

A runner then walks that sequence. It has three states, STOPPED, RUNNING and PAUSED, and moves
under play/pause, a one-second tick, next, previous, skip-to-lap, stop and restart. It keeps two
maps: the completed occurrences per task and the credited seconds per task. The timer display
turns the runner's position into elapsed, remaining and percentage figures for the task, the lap
and the session.

Around that core the model covers:

- the task form's validation and clamping;
- the library and lap-list actions: add, remove, delete, duplicate, sort;
- the lap-list reordering handlers: move to top/bottom and drag and drop;
- the number stepper;
- the bulk buttons: delete all, add all, clear, reset;
- `clamp`, `escapeHTML` and `formatTime`.

## Layout

| file | module | contents |
|---|---|---|
| wrappers.dfy | `Wrappers` | `Option` |
| utils.dfy | `Utils` | `Clamp`, `EscapeHTML` and its inverse |
| seqs.dfy | `Seqs` | `IndexOf`, `splice`-style insert and remove, "all copies removed" (`Without`), `NoDup` |
| tasks.dfy | `Tasks` | the task record, the duration bounds, the category names, the demo data, `getTaskMap` |
| duration.dfy | `Duration` | the growth rule: `Math.round` and `Math.pow` on exact rationals, then the clamp |
| playlist.dfy | `Playlist` | the expansion written as recursive specification functions (`Expand`), and `buildVirtualPlaylist` as loops proved equal to it |
| playlist_log.dfy, playlist_shape.dfy | `PlaylistLog`, `PlaylistShape` | proof helpers: the firing log of the first pass, and where each bucket lands in the flat playlist |
| playlist_props.dfy | `PlaylistProps` | what the expansion promises, stated on `Expand` |
| playlist_examples.dfy | `PlaylistExamples` | a worked interval-2 expansion |
| sorting.dfy | `Sorting` | the comparator of `sortTasks` and a stable sort |
| ui.dfy | `Ui` | `formatTime` and its read-back, the timer display figures, the lap-list total, the maxed-out mark, the task summary |
| runner.dfy | `Runner` | class `State`, the shared `state` object; the runner operations are its methods |
| actions.dfy | `Actions` | form normalisation and the library and lap-list actions, as methods on a `State` |
| events.dfy | `Events` | the lap-list, drag-and-drop, stepper and bulk-button handlers |
| as_written.dfy | `AsWritten` | the three throwing calls as written, the runner operations they cut short, and concrete states contrasting them with the intended model |

`Runner.State` carries the fields of the application's `state` object and of its `sessionCache`.
These are the tasks, lap list, `lastId`, sort state, run state, current index, time left, the
cached playlist data, the frozen task map and lap count, and the two completion maps.

The invariant `State.Valid()` has three parts:

- the run state agrees with the timer and with the index;
- the completed-occurrence map is always the recount of the entries before the current index;
- the current entry's time left lies within its duration, and every playlist entry's task is in
  the frozen task map.

Every runner method keeps `Valid()`. Each method's postcondition says which fields change and to
what. The main clause is the two-state predicate `Loaded(v)`, which gives the effect of
`loadTaskToRunner(v)`.

`setInterval` is the boolean field `timerActive` together with the method `Tick()`, which does
what one firing of the interval does. Alerts and modal dialogs are appended to a `notices` log.
For confirmation dialogs, the user's answer is a parameter.

Three calls in the code throw a TypeError as they are written (see "## Findings"):

- `UI.renderLapList(dom, state)` passes no task map (runner.js:118, 297), so ui.js:159-160 throws
  whenever the lap list is non-empty;
- the finished-session dialog is shown on the runner's DOM (runner.js:280), which has no
  `modalTitle` (script.js:158-190), so ui.js:409 throws;
- `Runner.isSessionActive`, which ten guards call (actions.js:120-179 and events.js:83-159), is
  not exported by runner.js, so every guard throws.

The modules `Runner`, `Actions` and `Events` model the evident intent of these calls: the lap
list rendered with the task map, the dialog shown on the modal DOM, and `isSessionActive` read as
"the runner is not STOPPED". The repository's tests expect this behaviour
(test/playPauseSession.test.js:73, test/skipToLap.test.js:23), although with the code as written
those calls throw before the expected state is reached. The module `AsWritten` models the
three calls as written, with a `Completion` saying whether the call threw, and shows on concrete
states where the two differ.

## Modelling decisions

- `isSessionActive` is called by actions.js and events.js but not defined by runner.js. The
  main model reads it as "the runner is not STOPPED"; as written every guard throws
  (`AsWritten.DeleteTaskAsWritten`).
- Intended, `restartSession` loads entry 0, sets RUNNING and then calls `playPauseSession`,
  whose RUNNING branch pauses. So restart ends PAUSED, and the model does that
  (runner.js:310-313). A test of the repository (test/restartSession.test.js:29) expects
  RUNNING. As written, the load of entry 0 throws (runner.js:118) and lines 311-313 never run:
  a non-empty rebuild is left PAUSED at index 0 without a timer, and an empty rebuild goes
  through the finished stop, which throws at runner.js:280 and leaves STOPPED at index 0.
- Restart rebuilds the playlist from the frozen task map and lap count but from the live lap
  list (runner.js:135, 306-309). `Restart` states exactly that.
- `removeTaskFromLap` refers, while a session is active, to a `DOM` name the module never
  defines (actions.js:170). With the guard read as intended, the call throws before the alert.
  The model changes nothing and shows nothing.
- Four operations have no session guard in the code and have none in the model:
  - form submit;
  - `duplicateTask`;
  - the dragend handler;
  - "reset app", which stops the session itself.
- `Math.round` rounds halves up, so it is `Floor(x + 1/2)`. This reproduces 100, 110, 121 for
  base 100 and growth 10.
- The drop handler calls `splice(indexOf(after), 0, id)`. When the "after" id is not in the
  list, `indexOf` gives -1 and `splice(-1, 0, id)` inserts before the last element; the model
  keeps that behaviour (`SplicePosition`).
- The expansion takes the lap list as a parameter. The code reads it from the shared state,
  which is the current lap list in both callers.

## Model

| member | source | states |
|---|---|---|
| Utils.Clamp | utils.js:8 | When a ≤ b the result lies in [a, b]. It is v inside the range, a below it and b above it. With b < a it is a, as `Math.max(a, Math.min(b, v))` gives. |
| Utils.EscapeChar | utils.js:29-35 | A character other than `& < > " '` is kept as it is. |
| Utils.EscapeHTML | utils.js:29-35 | The output contains no `<`, `>`, `"` or `'`, and it is never shorter than the input. |
| Utils.UnescapeEscape | utils.js:29-35 | Decoding the five entities gives back exactly the input, so each special character went to its own entity and nothing else changed. |
| Utils.EscapeConcat | utils.js:29 | Escaping distributes over concatenation, because the replacement is global and per character. |
| Utils.EscapeIdentity | utils.js:29-35 | A string without the five special characters is left unchanged. |
| Seqs.IndexOf | events.js:89 | `indexOf`: -1 exactly when the element is absent, otherwise the position of its first copy. |
| Seqs.RemoveAt | events.js:91 | `splice(k, 1)`: one element shorter, the element at k taken out of the multiset, the rest shifted. |
| Seqs.InsertAt | events.js:141 | `splice(k, 0, x)`: x at k, the elements before kept, the ones after shifted, x added to the multiset. |
| Seqs.Without | actions.js:173 | `filter(x => x !== id)`: no copy of the id is left, and every other element is kept. |
| Seqs.WithoutNoDup | actions.js:173 | Filtering keeps a duplicate-free list duplicate-free. |
| Tasks.TaskMapOf | actions.js:9 | `new Map(tasks.map(t => [t.id, t]))`: every task's id is a key, each value is a task under its own id, and a later task with a repeated id wins. |
| Tasks.FindTask | actions.js:91 | The position of `find` by id: -1 exactly when no task has the id, otherwise the first such task. |
| Tasks.MaxId | events.js:231-234 | The maximum id, starting from 0: no task's id exceeds it, and it is 0 or some task's id. |
| Tasks.CategoryName | actions.js:21-22 | Definition without a contract of its own: the name `categoryMap.get(id)?.name \|\| ""` gives over the ten categories of constants.js:3-14. `Sorting.SortTasksCorrect` sorts by it. |
| Duration.Round | runner.js:153-156 | `Math.round`: the nearest integer, with halves rounded up. |
| Duration.Calculated | runner.js:150-162 | With growth factor 0 the duration is the base, unclamped. Otherwise it lies in [1, 86399]. |
| Duration.FirstOccurrenceKeepsBase | runner.js:150-162 | The first occurrence of a valid base duration keeps the base, whatever the growth factor. |
| Duration.UnclampedStep | runner.js:155 | Each further occurrence multiplies the unrounded duration by 1 + g/100. |
| Duration.Pow | runner.js:155 | Definition without a contract of its own: `Math.pow` for a natural exponent, exact. `Duration.UnclampedStep` and `Duration.PowNonNegative` state its use. |
| Duration.Factor | runner.js:155 | `1 + growthFactor / 100` is 1 exactly for growth 0, above 1 for positive growth, and strictly between 0 and 1 for growth in (-100, 0). |
| Duration.Unclamped | runner.js:153-156 | Definition without a contract of its own: the unrounded duration. `Duration.UnclampedStep` states that each occurrence multiplies it by the factor. |
| Duration.RoundMonotone | runner.js:153 | Rounding preserves order. |
| Duration.GrowthNonDecreasing | runner.js:150-162 | With a positive growth factor, durations never shrink from one occurrence to the next. |
| Duration.DecayNonIncreasing | runner.js:150-162 | With a growth factor in [-99, 0), durations never grow from one occurrence to the next. |
| Duration.GrowthExample | test/runner.test.js:30-32 | Base 100 with growth 10 gives 100, 110, 121. |
| Playlist.Interval | runner.js:138 | `lapInterval \|\| 1` is never 0. |
| Playlist.BuildVirtualPlaylist | runner.js:122-216 | The loops compute exactly `Expand(taskMap, lapList, totalLaps)`, the specification that the PlaylistProps lemmas describe. |
| Playlist.Expand | runner.js:122-216 | Definition without a contract of its own: the expansion as recursive functions. `Playlist.BuildVirtualPlaylist` proves the loops equal to it, and the PlaylistProps lemmas state what it promises. |
| Playlist.ScanOneLap | runner.js:135-171 | The lap-list loop of one lap yields that lap's bucket and the updated last-run and occurrence maps, as the specification `ScanLap` defines them. |
| Playlist.BucketLaps | runner.js:133-180 | The first pass yields the specification's buckets and maps, the per-lap durations, the lap start offsets and the active-lap numbering. |
| Playlist.CloseLap | runner.js:172-179 | Closing a lap extends the lap durations, the active-lap map and counter, and the running total by that lap. |
| Playlist.SumBucket | runner.js:175-178 | A lap's duration is the sum of its bucket's calculated durations. |
| Playlist.Flatten | runner.js:181-204 | The second pass yields the specification's flat playlist, each entry's cumulative offset and the session total. |
| Playlist.AppendLap | runner.js:186-203 | One lap's entries are appended with their cumulative offsets, and the running total grows by them. |
| Playlist.MakeEntry | runner.js:187-200 | An entry is its firing plus its lap, the lap's size, its 1-based position and its total occurrence count. |
| PlaylistProps.EntryDurations | runner.js:136-162 | Every entry's task is in the map. Its base duration is the task's, and its calculated duration is the growth rule at its occurrence number: the base itself for growth 0, otherwise within [1, 86399]. |
| PlaylistProps.EntriesKnown | runner.js:136-137 | Ids missing from the task map produce no entries. |
| PlaylistProps.OccurrenceCap | runner.js:139-144 | A task with a positive cap has at most that many entries. |
| PlaylistProps.OccurrenceNumbering | runner.js:148-149 | A task's `occurrences` values are 1, 2, 3… in playlist order: each entry's value is the count of that task's entries up to and including it. |
| PlaylistProps.TotalOccurrencesRule | runner.js:188-192 | `totalOccurrences` is the cap when there is one, else the task's number of entries. The occurrence map returned holds each task's number of entries. |
| PlaylistProps.RecurrenceRule | runner.js:146-147 | Every entry is on lap 0, or on a later lap than the task's previous entry by a whole number of intervals. |
| PlaylistProps.StartOfLap | runner.js:140-146 | When a lap begins, the first pass's maps hold the number of the task's earlier entries and the lap of its latest one. |
| PlaylistProps.FiresIff | runner.js:135-147 | With a duplicate-free lap list, a task has an entry on a lap exactly when four things hold: it is listed, it is in the map, its cap is not used up by the earlier laps, and the lap is 0 or a whole number of intervals after its last earlier lap. Both directions are proved. |
| PlaylistProps.LapZeroRunsAll | runner.js:147 | Every listed task that the map knows runs on lap 0. |
| PlaylistProps.LapOrder | runner.js:133-204 | Entries are in non-decreasing lap order, every lap below the lap count. |
| PlaylistProps.LapListOrder | runner.js:135-171 | Entries come from lap-list ids, and within a lap they follow the lap list's order. |
| PlaylistProps.LapPositions | runner.js:184-198 | `taskIndexInLap` runs 1..`totalTasksInLap`, and `totalTasksInLap` is the number of entries of that lap. Each entry sits at its stated position among them. |
| PlaylistProps.PrefixSums | runner.js:124-211 | Four prefix-sum tables, each the sum it is named after: `cumulativeSessionDurations[i]` sums the entries before i, `totalSessionDuration` sums all entries, `lapDurations[L]` sums lap L, and `lapStartCumulativeDurations[L]` sums the laps before L. |
| PlaylistProps.ActiveLapNumbers | runner.js:172-213 | `activeLapMap` has exactly the laps with entries as keys. It numbers them 1..`totalActiveLaps` in increasing lap order and uses every number once. |
| PlaylistProps.BucketsNonNegative | runner.js:150-162 | Non-negative base durations give non-negative calculated durations. |
| PlaylistProps.EntryWithinLap | runner.js:176-202 | Each entry's time span lies inside its lap's span and inside the session. |
| PlaylistProps.CumulativeNonDecreasing | runner.js:201-202 | `cumulativeSessionDurations` never decreases. |
| PlaylistExamples.IntervalTwo | test/buildVirtualPlaylist.extra.test.js:5-10 | A task with interval 2 over four laps runs on laps 0 and 2, as occurrences 1 and 2 of 2. |
| Sorting.SortCorrect | actions.js:13 | The stable sort gives a permutation of its input, sorted by key, with equal keys kept in input order. |
| Sorting.FieldOf | actions.js:14-31 | Definition without a contract of its own: the comparator's field named by a sort header, an unknown name falling to the default branch, which compares ids. |
| Sorting.Key | actions.js:14-31 | Definition without a contract of its own: the quantity each comparator branch subtracts, with `lapInterval \|\| 1` and the text fields through the collation key. |
| Sorting.SignedKey | actions.js:11-34 | Definition without a contract of its own: the key negated for "desc". `Sorting.DescendingOrder` states the resulting order. |
| Sorting.Sort | actions.js:13 | Definition without a contract of its own: a stable insertion sort. `Sorting.SortCorrect` proves it a stable, sorted permutation. |
| Sorting.SortTasks | actions.js:11-35 | Definition without a contract of its own: the sort by the signed key. `Sorting.SortTasksCorrect` states its order, permutation and stability. |
| Sorting.SortTasksCorrect | actions.js:11-35 | `sortTasks` returns the same number of tasks, as a permutation. They are ordered by the signed comparator key, and ties stay in list order. |
| Sorting.DescendingOrder | actions.js:12 | In "desc" order the keys run from largest to smallest. |
| Ui.Digits | ui.js:19-21 | A natural number is written with at least one digit, using digits only. |
| Ui.FormatTime | ui.js:9-24 | Definition without a contract of its own: `formatTime` on integer seconds. `Ui.FormatTimeRoundTrip`, `Ui.FormatTimeInjective`, `Ui.FormatTimeNegative` and `Ui.FormatTimeExamples` state what it produces. |
| Ui.ParseTime | ui.js:9-24 | Definition without a contract of its own: an independent reader of `formatTime` output (not part of the code), the partner `Ui.FormatTimeRoundTrip` inverts `FormatTime` with. |
| Ui.DigitsRoundTrip | ui.js:19-21 | The decimal digits read back as the number. |
| Ui.FormatTimeRoundTrip | ui.js:9-24 | For every integer, the output reads back as the input: the optional sign first, then the space-separated "Nh", "Nm", "Ns" parts summed. |
| Ui.FormatTimeExamples | test/ui.test.js:9-26 | 0 → "0s", 5 → "5s", 65 → "1m 5s", 3600 → "1h", 3661 → "1h 1m 1s", and -3661 → "-1h 1m 1s". |
| Ui.FormatTimeNegative | ui.js:13-23 | For n > 0, `formatTime(-n)` is "-" followed by `formatTime(n)`. |
| Ui.FormatTimeInjective | ui.js:9-24 | Different durations never format the same. |
| Ui.SplitJoin | ui.js:22 | Splitting the joined, space-free parts on spaces gives the parts back. |
| Ui.ReadPartsOf | ui.js:15-21 | The parts read back as the magnitude. There is always at least one part, and no part contains a space. |
| Ui.Decompose | ui.js:15-17 | Hours, minutes and seconds recompose the magnitude. |
| Ui.Percent | ui.js:349-391 | A part in [0, whole] gives 0..100, the whole gives 100, and a non-positive whole gives 0. |
| Ui.Display | ui.js:339-399 | Nothing is drawn when the index is -1 or the entry is missing. Otherwise: elapsed + time left is the entry's duration; lap elapsed + lap remaining is the lap's duration; session elapsed + session remaining is the session total; and the per-task total is the credited seconds plus elapsed. |
| Ui.DisplayBounds | ui.js:339-399 | On a built playlist, with time left inside the entry's duration, all of these hold: <br>• every percentage is in 0..100; <br>• no elapsed or remaining figure is negative; <br>• session elapsed is the entries before plus elapsed; <br>• the lap label names an active lap in 1..`totalActiveLaps`; <br>• the task label is in 1..`totalTasksInLap`. |
| Ui.TaskSummaryConcat | ui.js:51 | The task-summary total is additive over concatenation. |
| Ui.TaskSummaryDuration | ui.js:51 | Definition without a contract of its own: the `reduce` summing all base durations. `Ui.TaskSummaryConcat` states it is additive. |
| Ui.LapListIsFirstLap | ui.js:158-162 | The lap-list total, in which unknown ids count 0, equals the expansion's duration of lap 0, given valid base durations and no repeats. |
| Ui.LapListDuration | ui.js:158-162 | Definition without a contract of its own: the lap-list total, an unknown id counting 0. `Ui.LapListIsFirstLap` equates it with lap 0's duration. |
| Ui.MaxedOut | ui.js:191-196 | Definition without a contract of its own: the maxed-out mark, shown in a session for a capped task whose completed count reached its cap. `Runner.MaxedOutIsFinal` states that no later entry is of that task. |
| Runner.LapsOf | runner.js:219 | `parseInt(...) \|\| 1` is at least 1, and equals a positive input. |
| Runner.FindLap | runner.js:334-336 | `findIndex` by lap: the first entry of that lap, or -1 when the lap has none. |
| Runner.Seek | runner.js:334-347 | The search result is the first entry of the nearest lap with entries, in the given direction. -1 means no lap between the target and the end of the session (or lap 0) has entries. |
| Runner.SeekLap | runner.js:334-347 | The search loop computes `Seek`. |
| Runner.CountCompleted | runner.js:48-53 | The counting loop gives each task's number of entries before the index. |
| Runner.CountMapCounts | runner.js:48-67 | The rebuilt map holds exactly each task's count. |
| Runner.CountMap | runner.js:48-53 | Definition without a contract of its own: the recount of `loadTaskToRunner`. `Runner.CountMapCounts` states it holds exactly each task's count, `Runner.CountCompleted` that the loop computes it. |
| Runner.Credit | runner.js:25-31 | The finished entry's task gains its calculated duration on top of its credited total (0 when absent). Every other task's credit is unchanged, and no other key is added. |
| Runner.ChangePercentage | runner.js:89-91 | Positive only for a grown duration, negative only for a shrunk one, and 0 when the duration is unchanged. |
| Runner.ChangeFollowsGrowth | runner.js:89-91 | For a valid base, the shown change is 0 on a first occurrence, never negative under growth, and never positive under a growth factor in [-99, 0), so the colour of runner.js:104-109 follows the growth factor. |
| Runner.FromStorage | state.js:6-11 | A stored task reads back with a non-zero lap interval. A task that already had one is unchanged. |
| Runner.MaxedOutIsFinal | ui.js:191-196 | Once a capped task is maxed out at index i, no later entry is of that task. |
| Runner.State.constructor | state.js:5-23 | The initial state: the stored data with lap intervals defaulted, sort by "id" descending, STOPPED at index -1 without a timer, and empty caches. |
| Runner.State.IsSessionActive | actions.js:120 | Definition without a contract of its own: the guard read as "not STOPPED". The guarded actions' contracts use it, and `AsWritten.DeleteTaskAsWritten` gives the guard as written. |
| Runner.State.Stop | runner.js:269-298 | STOPPED, timer off, index -1. The completion notice is shown only when the session finished. |
| Runner.State.LoadTask | runner.js:45-87 | `Loaded(v)`: occurrences are recounted for the entries before v (all entries when v is past the end). An in-range v with a known task becomes current with its full duration left. Any other v ends the session as finished, with the time left as it was. |
| Runner.State.HandleTaskCompletion | runner.js:19-34 | The current entry's full duration is credited to its task, then the next index is loaded (`Loaded`), the time left kept if that ends the session. |
| Runner.State.Tick | runner.js:38-42 | Without a timer nothing changes. Otherwise the time left drops by one, and only when it drops below 0 is the entry credited and the next one loaded. So an entry of duration d advances on its (d+1)-th tick. A tick that ends the session leaves the time left where its decrement put it. |
| Runner.State.StartSession | runner.js:218-241 | An empty expansion is refused with the alert and changes nothing. Otherwise the cache is the expansion of the library over the lap list, with fresh maps, and entry 0 is loaded. |
| Runner.State.Begin | runner.js:228-236 | The new session cache, and its first entry loaded. |
| Runner.State.Pause | runner.js:244-249 | PAUSED, with the timer off. |
| Runner.State.Resume | runner.js:263-266 | RUNNING, with the timer on. |
| Runner.State.PlayPause | runner.js:243-267 | RUNNING → PAUSED. An empty lap list is refused with the alert. PAUSED → RUNNING. From STOPPED, when the expansion has entries, a RUNNING session starts at entry 0; when it has none, the runner stays STOPPED with the alert. |
| Runner.State.Launch | runner.js:255-266 | Start from STOPPED: `Launched`. |
| Runner.State.Restart | runner.js:300-314 | The playlist is rebuilt from the frozen task map and lap count over the live lap list. Both maps are cleared, entry 0 is loaded, and the runner ends PAUSED. |
| Runner.State.Reload | runner.js:300-313 | The steps of restart around the rebuild. |
| Runner.State.SkipToLap | runner.js:316-357 | Four cases: <br>• stepping past the last lap ends the session; <br>• stepping below lap 0 is a no-op; <br>• otherwise it lands on the first entry of the nearest lap with entries in that direction, keeping RUNNING/PAUSED; <br>• failing that, a forward skip ends the session and a backward one does nothing. |
| Runner.State.JumpTo | runner.js:349-353 | A found lap's entry is loaded, and the run state is kept. |
| Runner.State.NextTask | runner.js:359-361 | Outside STOPPED, the current entry is completed early with its full duration credited and the next index loaded (`Loaded`). |
| Runner.State.PrevTask | runner.js:363-366 | Outside STOPPED with index > 0, the previous entry is loaded and nothing is credited. Otherwise nothing changes. |
| Actions.Trim | actions.js:63 | `trim()` removes exactly the leading and trailing white space. The result is empty exactly when the input is all white space. |
| Actions.TrimIdempotent | actions.js:63 | Trimming twice is trimming once. |
| Actions.Rejection | actions.js:63-89 | The form is refused exactly when the trimmed title is empty or minutes·60 + seconds ≤ 0, with the message for the first failing check. |
| Actions.OrDefault | actions.js:68-69 | `parseInt(value, 10) \|\| d`: a parsed non-zero number is kept, and an unreadable or zero input gives the default. |
| Actions.FormDuration | actions.js:68-70 | Definition without a contract of its own: minutes·60 + seconds, each defaulting to 0. `Actions.Rejection` states the form is refused exactly when it is not positive. |
| Actions.FromForm | actions.js:68-113 | The fields are normalised: lapInterval is clamped to [1, 99] (missing or 0 gives 1), growthFactor to [-99, 99] (default 0), maxOccurrences to [0, 999] (default 0). The title and description are trimmed. |
| Actions.TaskMapFindsAll | actions.js:9 | With fresh ids, `getTaskMap` finds every task under its own id. |
| Actions.DropId | actions.js:136 | The filter keeps exactly the tasks with another id. |
| Actions.DropIdFresh | actions.js:136 | Filtering keeps the ids fresh. |
| Actions.CopyOf | actions.js:147-150 | The duplicate has the new id, and the lap interval is defaulted to 1. |
| Actions.Added | actions.js:161-162 | The id is appended only when absent, so the lap list stays duplicate-free. |
| Actions.NextOrder | actions.js:45-48 | The order is "desc" exactly when the same field is clicked while "asc". |
| Actions.ClicksAlternate | actions.js:45-48 | Repeated clicks on one header alternate, starting from "asc". |
| Actions.SubmitTaskForm | actions.js:62-117 | A refused form shows its dialog and changes nothing. Create appends a normalised task under `lastId + 1` and increments `lastId`. Edit replaces the edited task's fields and keeps its id. Fresh ids stay fresh. |
| Actions.LoadTaskIntoForm | actions.js:119-130 | Refused in a session. Otherwise a known task becomes the one being edited, with its category selected. |
| Actions.DeleteTask | actions.js:132-141 | Refused in a session. Otherwise the id leaves both the tasks and the lap list. Fresh ids and a duplicate-free lap list are kept. |
| Actions.DuplicateTask | actions.js:143-154 | A copy of the first task with the id is appended under `lastId + 1`. An unknown id changes nothing. |
| Actions.AddTaskToLap | actions.js:156-166 | Refused in a session. Otherwise the lap list becomes `Added`. |
| Actions.RemoveTaskFromLap | actions.js:168-176 | Outside a session, every copy of the id leaves the lap list. Inside one, nothing changes. |
| Actions.IsModificationAllowed | actions.js:178-184 | It returns true exactly outside a session. Inside one it shows the information dialog. |
| Actions.UpdateSort | actions.js:44-53 | The field is set, and the order follows `NextOrder`. |
| Actions.SortedTasks | actions.js:11-38 | What `renderAll` lists: a permutation of the library, ordered by the signed comparator key. |
| Events.MoveCorrect | events.js:87-94 | "top" puts the id first and "bottom" puts it last. The result is a permutation of the lap list, the other ids keep their order, and there are still no repeats. An unlisted id changes nothing. |
| Events.Lifted | events.js:89-91 | Definition without a contract of its own: `indexOf` then `splice(idx, 1)`. `Events.MoveCorrect` and `Events.DropCorrect` state what it leaves. |
| Events.Moved | events.js:87-96 | Definition without a contract of its own: the move handler's change. `Events.MoveCorrect` states its result. |
| Events.LapListClick | events.js:81-97 | Nothing changes in a session or without a button. Remove filters the id out, and move applies `Moved`. |
| Events.DropCorrect | events.js:134-142 | A drop keeps the ids (adding the dragged id if it was unlisted) and keeps the other ids' order. It creates no repeat, and puts the dragged id right before the target, or last when there is none. |
| Events.SplicePosition | events.js:141 | The position `splice(indexOf(after), 0, x)` inserts at lies within the list, -1 meaning before the last element. |
| Events.Dropped | events.js:134-142 | Definition without a contract of its own: the drop handler's change. `Events.DropCorrect` states its result. |
| Events.Drop | events.js:128-145 | Nothing changes in a session or without a dragged id. Otherwise the lap list becomes `Dropped`. |
| Events.DragStart | events.js:99-105 | The dragged id is remembered, outside a session only. |
| Events.DragEnd | events.js:107-111 | The dragged id is cleared. |
| Events.Stepper | events.js:279-284 | The value (0 if unreadable) plus the step, kept at least the minimum (0 if missing) and at most the maximum when one is set. Exact inside the bounds. |
| Events.HeldClimbs | events.js:263-292 | Holding an up-step from inside the range climbs one step per repeat and stops at the maximum, for any minimum (the growth stepper's is -99, the others' 0) and any maximum other than 0, which the stepper reads as none. |
| Events.Held | events.js:286-289 | Definition without a contract of its own: `update` repeated while the button is held. `Events.HeldClimbs` states where it goes. |
| Events.AddedAllCorrect | events.js:197-201 | "Add all" keeps the lap list in front and adds every task's id and nothing else, without creating a repeat. |
| Events.AddedAll | events.js:197-201 | Definition without a contract of its own: `Added` for every task in library order. `Events.AddedAllCorrect` states its result. |
| Events.DeleteAll | events.js:177-195 | Refused in a session. Once confirmed, the tasks and the lap list are empty and `lastId` is 0. |
| Events.AddAll | events.js:197-201 | Refused in a session. Otherwise the lap list becomes `AddedAll`. |
| Events.ClearLapList | events.js:203-219 | Refused in a session. Once confirmed, the lap list is empty. |
| Events.ResetApp | events.js:221-239 | Once confirmed: the session is stopped, the demo tasks and lap list are loaded, and `lastId` is the largest demo id, 4. Ids are fresh and the lap list has no repeats. |
| Events.RestartClicked | events.js:158-167 | Outside a session or unconfirmed, nothing changes. Otherwise the session restarts. |
| AsWritten.StopAsWritten | runner.js:269-298 | STOPPED with the timer off. A finished stop throws at the dialog and keeps the index. Any other stop sets -1 and throws, exactly when the lap list is non-empty, at the lap-list render. |
| AsWritten.LoadTaskAsWritten | runner.js:45-120 | The recount and the index are set. An in-range known entry is loaded with its full duration, with the run state and timer kept, and the call throws exactly when the lap list is non-empty. Any other index stops the session, keeps the time left and always throws. |
| AsWritten.StartSessionAsWritten | runner.js:218-241 | An empty expansion shows the alert and changes nothing else. Otherwise the cache is the expansion with fresh maps, and entry 0 is loaded as written, leaving the run state and timer as they were. |
| AsWritten.BeginAsWritten | runner.js:228-236 | The new session cache with fresh maps, and entry 0 loaded as written. |
| AsWritten.PlayPauseAsWritten | runner.js:243-267 | RUNNING → PAUSED; an empty lap list shows the alert; PAUSED → RUNNING. From STOPPED with a lap list the runner stays STOPPED without a timer: with an empty expansion it shows the alert, otherwise the call throws after the cache and entry 0 are set. |
| AsWritten.DeleteTaskAsWritten | actions.js:132-141 | The guard's call of the missing `isSessionActive` throws, and nothing changes. |
| AsWritten.PlayFromStoppedAsWritten | runner.js:117-118 | Play on a one-task library over one lap throws and leaves the runner STOPPED. |
| AsWritten.PlayFromStopped | runner.js:243-267 | The same Play, as intended, starts a RUNNING session at entry 0 with the timer on. |
| AsWritten.FinishAsWritten | runner.js:280-287 | Skipping that session past its last lap, loaded as written, throws at the dialog: STOPPED, the index past the end, and no notice. |
| AsWritten.Finish | runner.js:269-298 | The same skip, as intended, stops at -1 with the completion notice for one lap. |
| AsWritten.DeleteStoppedAsWritten | actions.js:133 | Deleting the one task while STOPPED throws at the guard and leaves the library as it was. |
| AsWritten.DeleteStopped | actions.js:132-141 | The same delete, as intended, empties the library and the lap list. |

## Left out

- DOM writes, rendering and styling: category buttons, task cards, lap-list nodes, progress-bar
  widths, the popout window, themes, panel collapse, the guide. These are rendering side effects.
  The figures they draw are modelled (`Ui.Display`, `Ui.LapListDuration`, `Ui.MaxedOut`).
- localStorage loading and saving (`saveState`, `safeParseJSON`) are storage I/O. The constructor
  takes the stored values as parameters.
- Real time: `setInterval` and `clearInterval` become the `timerActive` flag and `Tick`. There is
  no clock and no concurrency.
- Floating point: `Math.pow`, `Math.round` and the percentage divisions are done on exact
  rationals and integer floor division. Results can differ from JavaScript at float rounding
  edges only.
- `localeCompare` for title and category sorting is a locale-dependent foreign call. The sort
  takes a caller-supplied collation key (`rank`).
- `getDragAfterElement` (actions.js:186-200) is DOM geometry. The id of the element the drop
  lands above is an input of `Drop`.
- The dragover handler (events.js:113-126) only moves DOM nodes for visual feedback and changes
  no state.
- Category clicks, preset buttons, sort-header wiring, collapse/theme/guide handlers and the
  script.js bootstrap are wiring with no state logic beyond what is modelled.
- Modal dialogs: the user's answer to a confirmation is a `confirmed` parameter.
- JavaScript dynamic values: `undefined`, `NaN` and non-numeric strings are not modelled.
  - The form's numeric inputs are `Option<int>`, with None for anything `parseInt` cannot read.
  - formatTime's non-finite branch (ui.js:11) is left out.
  - A negative lap count, which makes `Array(n)` throw, is not modelled: the laps input is a
    natural number.
- `Actions.CopyOf`: the copy keeps the original's growth factor and cap as they are. A stored
  task always has both, so the `|| 0` defaults of duplicateTask never apply.
- Aliasing: the code's frozen session task map holds the same objects as the library, so a form
  submit during a session, editing a task loaded before the session began, also changes the
  running session's task. The model keeps the frozen map as a value and does not capture this.
- `Runner.State.Restart`: its precondition that a session is active reflects its only caller,
  the restart button (events.js:158-167).
- The expansion's lemmas about lap order and recurrence in both directions (`FiresIff`,
  `LapListOrder`, `LapZeroRunsAll`) assume a duplicate-free lap list. Every action that adds
  to the list keeps it so (actions.js:161). With a repeated id, lap 0 would run the task twice.
- Test expectations that disagree with the intended code are not modelled:
  - test/renderTasks.test.js:23-34 expects an in-place update;
  - test/ui.modal.test.js:58-65 expects a console warning;
  - test/restartSession.test.js:29 expects RUNNING after a restart.

The runner operations below are stated for the intended code, with the lap list rendered with
the task map (runner.js:118, 297) and the finished-session dialog shown on the modal DOM
(runner.js:280). As written, Play from STOPPED throws before RUNNING is set, so the runner never
leaves STOPPED, and the operations that need a running session are never reached. Module
`AsWritten` states the as-written half of the first four; each line gives what the code as
written does instead.

- Runner.State.Stop: a finished stop throws at runner.js:280, keeping the index and showing no
  dialog; any other stop throws at runner.js:297 after setting -1 when the lap list is
  non-empty (`AsWritten.StopAsWritten`).
- Runner.State.LoadTask: the in-range load throws at runner.js:118 after setting its state
  when the lap list is non-empty, and the session-ending load throws through runner.js:280
  with the index left at v (`AsWritten.LoadTaskAsWritten`). Its precondition v ≤ the playlist
  length reflects its callers, which pass indices up to the length; beyond it, the counting
  loop would read past the end.
- Runner.State.PlayPause: from STOPPED with a non-empty expansion it throws inside
  `startSession` and stays STOPPED without a timer (`AsWritten.PlayPauseAsWritten`).
- Runner.State.Launch: as written it is never reached, for the same throw inside
  `startSession` (`AsWritten.StartSessionAsWritten`).
- Runner.State.HandleTaskCompletion: when the session ends, the stop throws at runner.js:280
  and the index stays past the end, with no completion notice.
- Runner.State.Tick: the finishing tick ends as `HandleTaskCompletion` does as written.
- Runner.State.NextTask: the last entry's completion ends as `HandleTaskCompletion` does as
  written.
- Runner.State.SkipToLap: the session-ending skip throws at runner.js:280, leaving the index
  past the end; a skip in RUNNING throws at runner.js:118, so runner.js:353 never restarts the
  timer.
- Runner.State.JumpTo: in RUNNING the load throws at runner.js:118, so the runner is left
  RUNNING with its interval cleared.
- Runner.State.Restart: as written the load of entry 0 throws (runner.js:310, via 118), so
  runner.js:311-313 never run: a non-empty rebuild stays PAUSED at index 0 without a timer, and
  an empty one stops through runner.js:280 and is left STOPPED at index 0.
- Runner.State.Reload: the rebuild's load of entry 0 throws as in `Runner.State.Restart`.
- Events.ResetApp: with a non-empty lap list, `stopSession()` throws at runner.js:297
  (events.js:228), so the demo tasks and lap list are never loaded.

The guarded handlers below read `isSessionActive` as "not STOPPED". As written, runner.js
exports no `isSessionActive`, so each guard's call throws a TypeError and the handler changes
nothing (`AsWritten.DeleteTaskAsWritten` shows this for `deleteTask`):

- Actions.LoadTaskIntoForm: the guard at actions.js:120 throws.
- Actions.DeleteTask: the guard at actions.js:133 throws.
- Actions.AddTaskToLap: the guard at actions.js:157 throws.
- Actions.RemoveTaskFromLap: the guard at actions.js:169 throws.
- Actions.IsModificationAllowed: the guard at actions.js:179 throws.
- Events.LapListClick: the guard at events.js:83 throws when a button was clicked.
- Events.DragStart: the guard at events.js:100 throws.
- Events.Drop: the guard at events.js:129 throws.
- Events.DeleteAll: the guard of `isModificationAllowed` (actions.js:179) throws.
- Events.AddAll: the guard of `isModificationAllowed` (actions.js:179) throws.
- Events.ClearLapList: the guard of `isModificationAllowed` (actions.js:179) throws.
- Events.RestartClicked: the guard at events.js:159 throws.


## Findings

| source | as written | input that shows it | evidently intended | confidence | as-written member | corrected member |
|---|---|---|---|---|---|---|
| runner.js:117-118 | `loadTaskToRunner` renders the lap list with no task map, so ui.js:159-160 throws whenever the lap list is non-empty. Play from STOPPED throws inside `startSession` before RUNNING is set, so no session ever runs. | a library holding one 60-second task on every lap, listed in the lap list, one lap, Play | render with the session's task map; Play starts a RUNNING session at entry 0 with its timer | not executed | AsWritten.PlayFromStoppedAsWritten | AsWritten.PlayFromStopped |
| runner.js:280-287 | The finished-session dialog is given the runner's DOM, which has no `modalTitle` (script.js:158-190), so ui.js:409 throws: the index stays past the end and no dialog is shown. | the same session, started as intended and skipped past its last lap | show the dialog on the modal DOM; the runner stops at index -1 with the completion notice | not executed | AsWritten.FinishAsWritten | AsWritten.Finish |
| actions.js:133 | The guards call `Runner.isSessionActive`, which runner.js does not export, so each guard throws and its handler changes nothing. | the same library, STOPPED, delete the task | "the runner is not STOPPED"; delete removes the task from the library and the lap list | not executed | AsWritten.DeleteStoppedAsWritten | AsWritten.DeleteStopped |
