# Pomofuoco, modelled in Dafny

Pomofuoco is a Chrome extension that combines a Pomodoro timer with a kanban
board. A background service worker keeps the state, and the board, popup and
dashboard pages read it through runtime messages.

- **Timer.** It runs focus sessions (25 minutes) and short (5) or long (15)
  breaks. It suggests a long break after every fourth focus session and
  counts a streak of consecutive days with a completed focus session.
- **Focus blocker.** During a focus session it redirects the tabs and
  navigations of blocked domains to its own "blocked" page, and restores
  them afterwards.
- **Trackers.** It records how long each task spent in the "doing" column
  during focus sessions. During breaks it records which web domains were
  visited.
- **Dashboard.** It aggregates all of this per session type, per tag and
  per domain.

The project models the core of this behaviour:

- `Storage` is the keyed store with its defaults. It is a class holding a
  `map` that every other part reads and writes.
- `TimerCore` is the session state machine: one timer state and an
  append-only session ledger.
- `TaskUtils` holds the kanban operations. The ones that update tasks in
  place work on an `array`.
- `DashboardUtils` holds the aggregations. The accumulating loops are
  methods, each proved equal to a reference definition.
- `Blocking` holds the blocker's policy: URL matching, the redirect rules,
  the tab sweep and the restore list.
- `Tracking` holds the task-time and domain-visit trackers' transitions and
  the invariant they keep.
- `Background` is a `Worker` class. Its fields are the worker's module state
  (`blockedTabUrls`, `currentVisit`, `isWindowFocused`) and an abstract
  `Chrome` record. That record stands for the browser APIs the worker
  drives:
  - the installed redirect rules;
  - the rule updates and tab updates it asked for;
  - the pending alarm;
  - whether the tracking listeners are registered.

  Its methods are the listeners and the message handler.

Timestamps are whole seconds (`int`) and a calendar day is a day number
(`t / 86400`). The current time, today's day number, the fresh record ids,
the open tabs and the active tab are parameters of each handler. Every
handler runs as one atomic step.

`handleStartSession` on a running timer is modelled as written. The
implicit stop inside `startSession` completes the old ledger row, but none
of `handleStopSession`'s teardown runs:

- the alarm is replaced;
- open task-time entries, the blocker and the domain tracker are left
  untouched.

## Model

| member | source | states |
|---|---|---|
| Prelude.JsRem | shared/timer-core.js:91-95 | JavaScript's truncating `%`: equal to the Euclidean remainder for a non-negative dividend, in (-b, 0] for a negative one |
| Prelude.Filter | shared/dashboard-utils.js:77-82 | `Array.filter`: every kept element satisfies the predicate and comes from the input, and every input element satisfying it is kept; how many copies are kept is stated by FilterCounts |
| Prelude.FilterCounts | shared/dashboard-utils.js:77-82 | a filter keeps every copy of each element that passes and none of one that does not |
| Prelude.FilterAppend | shared/dashboard-utils.js:77-82 | filtering distributes over concatenation |
| Prelude.FilterIsSubsequence | shared/dashboard-utils.js:77-82 | a filter keeps the original relative order (it is a subsequence of its input) |
| Prelude.FirstIndex | background.js:271 | `Array.find` as an index: the element found satisfies the predicate and no earlier one does; absent exactly when no element does |
| Storage.Lookup | shared/storage.js:2-5 | `get`: None exactly when the key is absent, otherwise the stored value |
| Storage.MergeTimerState | shared/storage.js:60-71 | a stored timer state with every field present reads back as itself, and only such a one does; a missing status, position or alarm flag reads as idle, 1 and false |
| Storage.MergeSettings | shared/storage.js:47-54 | stored settings with both fields present read back as themselves, and only such ones do; a missing blocklist or tag map reads as the default blocklist or no tags |
| Storage.Store.Get | shared/storage.js:2-5 | `get` on the store's map: None exactly for a missing key |
| Storage.Store.Set | shared/storage.js:7-9 | `set` writes one key; a following `get` of that key returns the value and every other key is unchanged |
| Storage.Store.SaveTasks | shared/storage.js:19-21 | overwrites only the tasks key; the tasks getter then returns what was saved |
| Storage.Store.SaveSessions | shared/storage.js:27-29 | overwrites only the sessions key; the sessions getter then returns what was saved |
| Storage.Store.SaveTaskTimeEntries | shared/storage.js:35-37 | overwrites only the entries key; the entries getter then returns what was saved |
| Storage.Store.SaveDomainVisits | shared/storage.js:43-45 | overwrites only the visits key; the visits getter then returns what was saved |
| Storage.Store.SaveSettings | shared/storage.js:56-58 | stores the (possibly partial) settings object; the settings getter then merges it over the defaults |
| Storage.Store.SaveTimerState | shared/storage.js:73-75 | stores every field of the state; the timer-state getter then returns it |
| Storage.SetThenGet | shared/storage.js:2-9 | set-then-get returns the value written, and other keys read as before |
| Storage.EmptyCollectionsByDefault | shared/storage.js:15-45 | with nothing stored, the tasks, sessions, entries and visits getters return the empty sequence |
| Storage.CollectionsRoundTrip | shared/storage.js:15-45 | each collection saver followed by its getter returns exactly what was saved |
| Storage.SettingsDefaults | shared/storage.js:47-54 | with nothing stored, the three default blocked domains and no tags; otherwise each stored field overrides its default field by field |
| Storage.TimerStateDefaults | shared/storage.js:60-71 | with nothing stored, idle with no type, no session and cycle position 1; stored fields override the defaults; save then get round-trips |
| Storage.OnlyChangedViews | shared/storage.js:15-75 | a write confined to some keys leaves every typed view of the other keys unchanged |
| TimerCore.GetDuration | shared/timer-core.js:6-13 | 1500 s for focus, 300 for a short break, 900 for a long break, 0 for any other type (and only then) |
| TimerCore.GetRemaining | shared/timer-core.js:16-20 | 0 when not running; otherwise `max(0, duration - elapsed)`, hence within [0, duration] once started |
| TimerCore.IsOvertime | shared/timer-core.js:23-26 | overtime exactly when running and the elapsed time has reached the duration (remaining is 0) |
| TimerCore.FindSession | shared/timer-core.js:84-89 | `sessions.find` by id: the first row with the id, or None when no row has it |
| TimerCore.NextCyclePosition | shared/timer-core.js:91-95 | after a focus session the position advances 1→2→3→4→1; after any other session it is unchanged; it stays in 1..4 |
| TimerCore.Stopped | shared/timer-core.js:76-110 | not running: nothing changes and nothing is returned; running: the matching row alone is completed with `endedAt = now` and returned, and the state becomes idle with no type, session, start or duration |
| TimerCore.Started | shared/timer-core.js:29-73 | after the implicit stop, the ledger grows by exactly one ongoing row with the new id, and the state is running that type with the nominal duration, no alarm and that session id; the state keeps the position left by the stop (0 reads as 1), and the row records it, the raw stored position for a non-focus type |
| TimerCore.AlarmFired | shared/timer-core.js:113-120 | None when not running; otherwise the same state with only the overtime flag set |
| TimerCore.DefaultIsConsistent | shared/storage.js:60-71 | the default timer state with an empty ledger satisfies the state machine's invariant |
| TimerCore.StopKeepsConsistent | shared/timer-core.js:76-110 | stopping keeps the invariant (idle means no type and no session, position in 1..4, the only ongoing row is the current session) and leaves no ongoing row |
| TimerCore.StartKeepsConsistent | shared/timer-core.js:29-73 | starting with a fresh id keeps the invariant; the ledger grows by one and its only ongoing row is the new one |
| TimerCore.FindAfterFresh | shared/timer-core.js:29-73 | a row appended with a fresh id is the one the next stop finds |
| TimerCore.AlarmKeepsConsistent | shared/timer-core.js:113-120 | setting the overtime flag keeps the invariant |
| TimerCore.StartThenRemaining | shared/timer-core.js:16-73 | right after a start the remaining time is the full duration, and the session is overtime only for an unknown type |
| TimerCore.FocusRoundAdvances | shared/timer-core.js:29-110 | one focus start/stop pair advances the position by one (4 wraps to 1) and records the position it ran at in the new row |
| TimerCore.BreakRoundKeepsPosition | shared/timer-core.js:29-110 | a start/stop pair of any non-focus type leaves the cycle position where it was and records that position in its row |
| TimerCore.FourFocusRounds | shared/timer-core.js:29-148 | four focus start/stop pairs bring the position back where it was; from 1 the suggestion is then a long break |
| TimerCore.SuggestedNext | shared/timer-core.js:123-148 | long break exactly when idle at position 1 after a focus row recorded at position 4; else, idle: focus iff the ledger is empty or the last row is not focus, short break otherwise; running: focus |
| TimerCore.DaysOf | shared/timer-core.js:158-162 | the set of days on which the given sessions started, no more and no less |
| TimerCore.RunLength | shared/timer-core.js:179-189 | the number of consecutive days in the set counting back from a day, at most the scan bound, stopping at the first gap |
| TimerCore.StreakFrom | shared/timer-core.js:164-189 | 0 exactly when neither today nor yesterday is in the set; otherwise the run of consecutive days back from today (or yesterday), never above the bound |
| TimerCore.Streak | shared/timer-core.js:151-192 | the streak over the ledger's focus days never exceeds the 365-day scan; its full meaning is stated by StreakMeaning |
| TimerCore.StreakMeaning | shared/timer-core.js:151-192 | the streak is at most 365; it is 0 exactly when neither today nor yesterday has a completed focus session; otherwise every counted day has one and (below the cap) the day before the run has none |
| TimerCore.FocusDaysMembers | shared/timer-core.js:153-162 | a day is in the streak's day set exactly when a completed focus session started on it |
| TimerCore.StartSession | shared/timer-core.js:29-73 | the store's timer state and ledger become what `Started` says; only those two keys are written |
| TimerCore.StopSession | shared/timer-core.js:76-110 | the store's timer state and ledger become what `Stopped` says, and nothing is written when not running |
| TimerCore.OnAlarmFired | shared/timer-core.js:113-120 | returns `AlarmFired` of the stored state, stores it when running and writes nothing otherwise |
| TimerCore.GetStreak | shared/timer-core.js:151-192 | the loop's result equals the streak over the stored ledger |
| TimerCore.CollectDays | shared/timer-core.js:158-162 | the day set built by the loop is the set of days of the given sessions |
| TimerCore.CountBack | shared/timer-core.js:179-189 | the backward scan counts the run of consecutive days, at most 365 |
| TaskUtils.ToLower | shared/task-utils.js:4-7 | ASCII lower-casing, character by character |
| TaskUtils.WordRun | shared/task-utils.js:4-7 | the longest prefix of `\w` characters |
| TaskUtils.FirstTagAt | shared/task-utils.js:4-7 | the first position of `#` followed by a word character |
| TaskUtils.ExtractTag | shared/task-utils.js:4-7 | None exactly when the title has no `#word`; otherwise the first `#word`'s whole word, lower-cased |
| TaskUtils.LeadingSpace | shared/task-utils.js:10 | the length of the leading white space |
| TaskUtils.TrailingSpace | shared/task-utils.js:10 | the length of the trailing white space |
| TaskUtils.Trim | shared/task-utils.js:10 | `String.trim`: empty exactly for an all-white-space string; otherwise the middle slice without white space at either end |
| TaskUtils.CountIn | shared/task-utils.js:19 | the number of tasks in a column, at most the number of tasks |
| TaskUtils.CountOthersIn | shared/task-utils.js:42-43 | the number of other tasks in a column, at most the column's count |
| TaskUtils.CountsOnlyReadColumns | shared/task-utils.js:42-43 | column counts depend only on the tasks' columns and ids |
| TaskUtils.CreateTask | shared/task-utils.js:9-23 | None exactly for an empty or white-space title; otherwise a todo task with the trimmed title, its tag, `order` = the todo count, no completion time, and the given id and time |
| TaskUtils.FindTask | shared/task-utils.js:26 | `findIndex` by id: the first task with the id, or None when no task has it |
| TaskUtils.FindOtherDoing | shared/task-utils.js:33-34 | the first task other than the moved one in "doing", if any |
| TaskUtils.CountInUpdate | shared/task-utils.js:33-43 | replacing one task changes a column's count by its column change only |
| TaskUtils.Displace | shared/task-utils.js:35-38 | the previous doing task alone goes back to todo, at the end of the todo orders |
| TaskUtils.Place | shared/task-utils.js:41-50 | the moved task alone takes the target column, the order after the other tasks there and its new completion time |
| TaskUtils.Move | shared/task-utils.js:25-53 | unknown id: nothing changes and nothing is reported; otherwise the previous column is reported, the task takes the target column and the next order, completion is set on done (kept if already set) and cleared elsewhere, and a displaced doing task goes to todo and is reported |
| TaskUtils.MoveKeepsSingleDoing | shared/task-utils.js:25-53 | with unique ids, a move keeps "at most one task in doing", and a task moved to doing is then the only one there |
| TaskUtils.MoveTask | shared/task-utils.js:25-53 | the in-place move leaves the array equal to `Move` of its old contents and returns its reports |
| TaskUtils.ClearTaskIn | shared/task-utils.js:55-60 | only the named task becomes cleared; an unknown id changes nothing |
| TaskUtils.ClearTask | shared/task-utils.js:55-60 | the in-place clear leaves the array equal to `ClearTaskIn` of its old contents |
| TaskUtils.AllDoneCleared | shared/task-utils.js:62-69 | every done task becomes cleared, every other task is unchanged, and no done task remains |
| TaskUtils.ClearAllDone | shared/task-utils.js:62-69 | the in-place loop leaves the array equal to `AllDoneCleared` of its old contents |
| TaskUtils.InsertByOrder | shared/task-utils.js:74 | insertion keeps the sequence sorted by order, adds exactly the one task, and places it after every task of the same order (each tie group is the old one followed by the new task) |
| TaskUtils.SortByOrder | shared/task-utils.js:74 | the result is sorted by order, a permutation of the input, and stable: the tasks of each order keep their input sequence, as `Array.prototype.sort` guarantees |
| TaskUtils.SortedSameTiesEqual | shared/task-utils.js:74 | two sequences that are both sorted by order and have the same tasks, in the same sequence, for every order are equal, so sorted-and-stable determines the sort's result |
| TaskUtils.GetColumnTasks | shared/task-utils.js:71-75 | exactly the tasks of the column (a permutation of the filter), sorted by order, with tasks of equal order in their original sequence |
| TaskUtils.GetVisibleTasks | shared/task-utils.js:77-79 | exactly the tasks that are not cleared, each as many times as in the input, in their original relative order |
| TaskUtils.AvailableColors | shared/task-utils.js:85-86 | the palette colours no tag uses yet, in palette order |
| TaskUtils.ChooseColor | shared/task-utils.js:85-88 | a palette colour; when some colour is unused, the first unused one |
| TaskUtils.AssignTagColorFrom | shared/task-utils.js:81-91 | a missing, empty or known tag leaves the settings unchanged; a new tag is added with its own name as display name and the chosen colour, and nothing else changes |
| TaskUtils.FirstOfFilter | shared/task-utils.js:86-87 | the first element a filter keeps is preceded only by rejected ones |
| DashboardUtils.FilterByDateRange | shared/dashboard-utils.js:77-82 | exactly the items whose start lies in the closed range, each as many times as in the input, in their original order |
| DashboardUtils.SumDurationAppend | shared/dashboard-utils.js:85-90 | the duration sum adds up over concatenation |
| DashboardUtils.SumDurationOnlyClosed | shared/dashboard-utils.js:85-90 | items without an end contribute nothing: the sum equals the sum over the closed items |
| DashboardUtils.SumDurationNonNegative | shared/dashboard-utils.js:85-90 | with every interval well ordered, the sum is non-negative |
| DashboardUtils.SumDuration | shared/dashboard-utils.js:85-90 | the sum of end minus start over the items that have an end; its properties are stated by SumDurationAppend, SumDurationOnlyClosed and SumDurationNonNegative |
| DashboardUtils.GroupKey | shared/dashboard-utils.js:95 | a missing or empty field falls under `untagged` |
| DashboardUtils.GroupIsFilter | shared/dashboard-utils.js:92-100 | each key's group is the filter of the items with that key, and a group exists exactly when some item has the key |
| DashboardUtils.GroupsPartition | shared/dashboard-utils.js:92-100 | every item lands in its own key's group; every group is non-empty, holds exactly its key's items and keeps their order |
| DashboardUtils.GroupByField | shared/dashboard-utils.js:92-100 | the grouping loop builds exactly the reference grouping |
| DashboardUtils.SummarizeSnoc | shared/dashboard-utils.js:92-156 | adding one item to a group changes only that group's summary |
| DashboardUtils.GroupsBySnoc | shared/dashboard-utils.js:92-100 | one more item is appended to its own key's group only |
| DashboardUtils.TypeStatSnoc | shared/dashboard-utils.js:103-120 | one more session adds to its own type's stat when completed, to nothing otherwise |
| DashboardUtils.SessionTallyIsStats | shared/dashboard-utils.js:103-120 | the in-order fold of sessions equals the reference per-type stats |
| DashboardUtils.ComputeSessionStats | shared/dashboard-utils.js:103-120 | per type, the number of completed sessions of that type and the sum of their intervals |
| DashboardUtils.SessionStatsIgnore | shared/dashboard-utils.js:103-120 | an uncompleted session or one of an unknown type changes no stat |
| DashboardUtils.TagMapKeys | shared/dashboard-utils.js:124-125 | the task-to-tag map has a key exactly for each task id |
| DashboardUtils.TagMapLastWins | shared/dashboard-utils.js:124-125 | the map gives a task's tag (or `untagged`), the last task with an id winning |
| DashboardUtils.TaskIdsMembers | shared/dashboard-utils.js:130-132 | the distinct task ids of the entries, no more and no less |
| DashboardUtils.TagAccsSnoc | shared/dashboard-utils.js:128-133 | one more entry adds its interval and its task to its tag's accumulator only |
| DashboardUtils.FinishAccs | shared/dashboard-utils.js:136-139 | the final conversion counts the distinct tasks per tag |
| DashboardUtils.BuildTagMap | shared/dashboard-utils.js:124-125 | the loop builds the reference task-to-tag map |
| DashboardUtils.TagTallyIsAccs | shared/dashboard-utils.js:128-133 | the in-order fold of entries equals the reference per-tag accumulators |
| DashboardUtils.ComputeTagStats | shared/dashboard-utils.js:123-142 | per tag, the number of distinct tasks among its entries and the sum of their intervals |
| DashboardUtils.UnknownTaskIsUntagged | shared/dashboard-utils.js:129 | an entry whose task is unknown is counted under `untagged` |
| DashboardUtils.DomainStatsSnoc | shared/dashboard-utils.js:145-156 | one more visit adds one to its domain's count and its interval to that domain's time |
| DashboardUtils.DomainTallyIsStats | shared/dashboard-utils.js:145-156 | the in-order fold of visits equals the reference per-domain stats |
| DashboardUtils.ComputeDomainStats | shared/dashboard-utils.js:145-156 | per domain, the number of visits and the sum of their intervals |
| DashboardUtils.DomainStatsKeys | shared/dashboard-utils.js:147-149 | a domain has stats exactly when at least one visit is to that domain |
| DashboardUtils.DomainStatsMeaning | shared/dashboard-utils.js:145-156 | for a domain some visit is to: it has stats, its count includes the open visits, and its time is the sum over the closed visits only |
| DashboardUtils.WorkingTimeAppend | shared/dashboard-utils.js:189-192 | a task's working time adds up over concatenation and ignores other tasks' entries |
| DashboardUtils.GetTaskWorkingTime | shared/dashboard-utils.js:189-192 | a task none of whose entries is given has no working time; additivity is stated by WorkingTimeAppend |
| DashboardUtils.WithWorkingTimes | shared/dashboard-utils.js:201-208 | each task paired with its own working time, in order |
| DashboardUtils.CompletedTasksByTag | shared/dashboard-utils.js:195-211 | each tag's group is exactly the done and cleared tasks with that tag, in their order in the task list and once per occurrence, each paired with its working time; only finished tasks appear and every one of them appears |
| DashboardUtils.CompletedTasksGroups | shared/dashboard-utils.js:195-211 | each tag's group is exactly the done and cleared tasks with that tag, in their order in the task list and once per occurrence, each paired with its working time |
| DashboardUtils.GetCompletedTasksByTag | shared/dashboard-utils.js:195-211 | with no done or cleared task there are no groups; that each group is its tag's finished tasks in order with their working times is stated by CompletedTasksByTag |
| DashboardUtils.GetTimeRange | shared/dashboard-utils.js:169-186 | 9 to 17 without sessions; otherwise the earliest start hour and one past the latest rounded-up end hour (an open session ends now), capped at 24 |
| DashboardUtils.GetWeekStart | shared/dashboard-utils.js:5-13 | the Monday on or before the day, less than a week earlier |
| Blocking.AnyDomain | background.js:91-94 | some blocked domain equals the hostname or is a suffix after a dot |
| Blocking.IsBlockedUrl | background.js:88-95 | blocked exactly when the URL parses and its hostname is a blocked domain or a subdomain of one; an unparseable URL is not blocked |
| Blocking.BlockingRules | background.js:125-136 | one rule per blocked domain with pairwise distinct ids; the numbering from 1 and the redirect target are stated by BlockingRulesShape, what the rules block by RulesAgreeWithIsBlockedUrl |
| Blocking.ApplyUpdate | background.js:141-144 | after an update every rule is either one of the added rules or an installed rule whose id was not removed, and every added rule is installed; full replacement is stated by ReplaceAllRules |
| Blocking.SweepRedirects | background.js:147-155 | the redirect requests of the activation sweep, in tab order; stated by SweepRedirectsBlockedTabs |
| Blocking.SweepSaved | background.js:147-150 | what the activation sweep records per tab; stated by SweepSavedRecords |
| Blocking.FallbackRedirects | background.js:100-115 | when the top-level onUpdated listener redirects a tab; stated by FallbackAgreesWithSweep and BlockedPageIsNotRedirected |
| Blocking.BlockingRulesShape | background.js:125-136 | the rules are numbered 1..n, one domain each, priority 1, redirecting only main-frame requests to the blocked page |
| Blocking.RulesAgreeWithIsBlockedUrl | background.js:125-136 | some rule matches a top-level navigation exactly when `isBlockedUrl` holds; no rule matches another resource type |
| Blocking.RuleIds | background.js:138-139 | the ids of the installed rules, in order |
| Blocking.ReplaceAllRules | background.js:138-144 | one update that removes every installed id and adds the new rules leaves exactly the new rules |
| Blocking.SweepRedirectsBlockedTabs | background.js:147-155 | the sweep redirects exactly the open tabs with a blocked URL, in order, and no other |
| Blocking.IndexOfTab | background.js:86 | the first record for a tab id, if any |
| Blocking.SameIdsSameIndex | background.js:86 | the record lookup depends only on the tab ids |
| Blocking.Remember | background.js:150 | `Map.set`: the tab's original URL is recorded and every other tab's record is unchanged |
| Blocking.AppendOtherIndex | background.js:150 | appending a record does not move any existing tab's record |
| Blocking.SweepSavedRecords | background.js:147-155 | after the sweep a tab has a record exactly when it had one or was swept; unswept tabs keep their record; a swept tab's record is the URL its last sweep saw |
| Blocking.RestoreUpdates | background.js:169-176 | one restore request per recorded tab, to its original URL, in record order |
| Blocking.ContainsSuffix | background.js:102-103 | a URL ending in the blocked page's path contains it |
| Blocking.BlockedPageIsNotRedirected | background.js:100-116 | the listener never redirects the blocked page itself |
| Blocking.FallbackAgreesWithSweep | background.js:100-116 | during focus, the listener redirects a changed URL exactly when the sweep would redirect a tab at that URL |
| Tracking.ClosedEntries | background.js:299-331 | a close keeps the list's length, ids and task ids |
| Tracking.CloseEntries | background.js:299-331 | the stamping loop yields `ClosedEntries`, and its `changed` flag holds exactly when some entry was stamped |
| Tracking.CloseAllLeavesNoneOpen | background.js:316-331 | closing all stamps every open entry with the current time, leaves no open entry and does not touch an entry that was already closed |
| Tracking.CloseTaskClosesOnlyItsEntries | background.js:299-314 | closing one task's entries stamps each of its open entries with the current time, leaves none of them open, and every other entry unchanged |
| Tracking.OpenVisitOn | background.js:241-264 | a web URL while running: one open visit to its hostname, with the current session id, is appended and becomes current; anything else changes nothing |
| Tracking.StartTracking | background.js:184-195 | for an active web tab while the timer runs a new current visit to its host is appended; otherwise nothing changes |
| Tracking.SwitchTo | background.js:205-226 | the current visit is closed; with the window focused, a web URL and a running timer a new current visit is appended after the closed ones, otherwise the tracker is just the closed one |
| Tracking.TabActivated | background.js:205-213 | a tab without a URL changes nothing; otherwise the current visit is closed, and when the window is focused on a web URL while the timer runs exactly one visit, to the tab's host with this session, start time and no end, is appended and becomes current; otherwise the tracker is just the closed one |
| Tracking.TabUpdated | background.js:215-226 | only an address change of the active tab counts; it closes the current visit, and when focused on a web URL while the timer runs appends exactly one visit to the new URL's host, which becomes current; otherwise the tracker is just the closed one |
| Tracking.FindVisit | background.js:271 | the first stored visit with the current visit's id, if any |
| Tracking.CloseVisitOn | background.js:266-277 | no current visit: nothing changes; otherwise only that visit is stamped with `endedAt` and the pointer is cleared |
| Tracking.FocusChanged | background.js:228-239 | losing focus clears the flag and closes the current visit; gaining focus sets the flag and, for an active web tab while the timer runs, appends a new current visit with every earlier visit (the old current one included) left as it was; otherwise only the flag changes |
| Tracking.FocusChangedClosingFirst | background.js:228-239 | the corrected handler: identical on losing focus; on gaining focus with an active tab that has a URL it first closes the current visit, then appends the new visit for a web URL while the timer runs |
| Tracking.CloseLeavesNoneOpen | background.js:266-277 | closing the current visit keeps the tracker's invariant and leaves no open visit at all |
| Tracking.OpenKeepsTracked | background.js:241-264 | with no current visit and a fresh id, opening keeps "every open visit is the current one" |
| Tracking.SwitchKeepsTracked | background.js:205-226 | close-then-open keeps the invariant |
| Tracking.StartKeepsTracked | background.js:184-195 | starting the tracker keeps the invariant |
| Tracking.TabEventsKeepTracked | background.js:205-226 | tab activation and tab address changes keep the invariant |
| Tracking.FocusChangedClosingFirstKeepsTracked | background.js:228-239 | the corrected focus handler keeps the invariant and, on losing focus, leaves no open visit |
| Tracking.FocusSwitchLeaksVisit | background.js:228-239 | a concrete run of the handler as written: focus returns during a break with a visit open, and the old visit stays open forever while a new one becomes current |
| Background.FirstDoing | background.js:347 | `tasks.find` on the doing column: the first doing task, if any |
| Background.ReplaceTask | background.js:437-444 | the first task with the message task's id is replaced; an unknown id changes nothing |
| Background.DoingEntry | background.js:346-351 | no entry exactly when no task is in Doing; otherwise one open entry with the given id, session and time for the first task in Doing |
| Background.Worker.constructor | background.js:86-182 | an empty record map, no current visit, focused window, no alarm, listeners not registered |
| Background.Worker.OnUrlChanged | background.js:100-116 | a tab redirect request is issued exactly when the fallback conditions hold; nothing else changes |
| Background.Worker.ActivateBlocking | background.js:118-156 | no blocked domain: nothing changes; otherwise the installed rules become the blocking rules and the sweep's redirects and records are added |
| Background.Worker.SweepTabs | background.js:147-155 | the sweep over the open tabs issues `SweepRedirects` and records `SweepSaved` |
| Background.Worker.DeactivateBlocking | background.js:158-178 | no rules remain, no update is issued when none were installed, one restore request per recorded tab, and the record map ends empty |
| Background.Worker.RestoreTabs | background.js:170-176 | the loop sends each recorded tab back to its saved URL, in record order, and changes nothing else |
| Background.Worker.OpenVisit | background.js:241-264 | the tracker becomes `OpenVisitOn` of its old value; only the visits key is written |
| Background.Worker.CloseCurrentVisit | background.js:266-277 | the tracker becomes `CloseVisitOn` of its old value; only the visits key is written |
| Background.Worker.StartDomainTracking | background.js:184-195 | registers the listeners and opens a visit for the active tab |
| Background.Worker.StopDomainTracking | background.js:197-203 | unregisters the listeners and closes the current visit |
| Background.Worker.Switch | background.js:205-226 | close the current visit, then open one if the window is focused |
| Background.Worker.OnTabActivated | background.js:205-213 | the tracker becomes `TabActivated` of its old value |
| Background.Worker.OnTabUpdated | background.js:215-226 | the tracker becomes `TabUpdated` of its old value |
| Background.Worker.OnWindowFocusChanged | background.js:228-239 | the tracker becomes `FocusChanged` of its old value (as written) |
| Background.Worker.OnWindowFocusChangedClosingFirst | background.js:228-239 | the tracker becomes `FocusChangedClosingFirst` of its old value (corrected) |
| Background.Worker.OpenTaskTimeEntry | background.js:280-297 | outside a running focus session nothing is written; otherwise exactly one open entry for the task and the current session is appended |
| Background.Worker.CloseTaskTimeEntries | background.js:299-331 | the entries become `ClosedEntries`; nothing is written when no entry was stamped |
| Background.Worker.BeginFocus | background.js:342-351 | turns the blocker on, then opens an entry for the first doing task, if any |
| Background.Worker.HandleStartSession | background.js:334-358 | `StartEffect`: the timer and ledger become `Started` and the alarm is set to the duration; only the timer, ledger, entry and visit keys are written, so tasks and settings stay; focus with a non-empty blocklist installs its rules in one update, sweeps the open tabs and records them, with an empty blocklist sends nothing, and opens the doing task's entry; any other type changes only the alarm and the listeners in the browser state and starts the domain tracker |
| Background.Worker.HandleStopSession | background.js:360-383 | `StopEffect`: idle changes nothing; otherwise the timer and ledger become `Stopped` and the alarm is cleared; only the timer, ledger, entry and visit keys are written; focus closes every open entry, removes the rules in one update (none when none was installed) and restores the recorded tabs; any other type stops the tracker and sends no rule or tab update |
| Background.Worker.OnAlarm | background.js:29-53 | the timer's alarm marks a running session overtime; any other alarm writes nothing |
| Background.Worker.OnIdleStateChanged | background.js:76-83 | locking the screen has the whole `StopEffect` of `handleStopSession` (nothing when idle); any other state changes nothing |
| Background.Worker.OnInstalled | background.js:464-469 | the merged settings are written back in full and read as before |
| Background.Worker.Query | background.js:394-435 | each read-only action answers with the stored value (or `SuggestedNext`, or the streak) and changes nothing |
| Background.Worker.Write | background.js:403-444 | the entry, task and settings actions write what they say and answer `ok` |
| Background.Worker.Dispatch | background.js:386-451 | startSession and stopSession have the whole `StartEffect`/`StopEffect` of their handlers and answer with the new state and session or the closed session; each query answers the stored view and changes nothing; each write action has the effect of `Write`; an unknown action answers "Unknown action" and changes nothing |

## Left out

- `formatTime`, `formatDuration` and the date-formatting and range helpers of the dashboard (`getWeekEnd`, `getMonthStart`, `formatDate`, `getWeekDays` and the rest): presentation on `Date` objects.
- TimerCore.StreakFrom, TimerCore.GetStreak: days are UTC day numbers (`t / 86400`) rather than local-calendar date keys; a time zone is not modelled.
- DashboardUtils.GetTimeRange, DashboardUtils.GetWeekStart: hours and weekdays are UTC, and timestamps are whole seconds, so the millisecond `/ 1000` division and `Math.max`/`Math.min` over `Date` objects become integer arithmetic.
- Notifications, the alarm sound, the badge and its one-second alarm (background.js:7-26, 29-74): presentation only; the timer alarm's effect on the state is `Background.Worker.OnAlarm`.
- Asynchronous interleaving between listeners and service-worker restarts (which lose `blockedTabUrls` and `currentVisit`): each handler is one atomic step.
- URL parsing (`new URL`): a URL is given with its parsed location, or none when it does not parse.
- `chrome.runtime.getURL` is abstracted as the `BlockedPage` redirect target; the prefix of the blocked page's address is any origin.
- Background.Worker.DeactivateBlocking: a `tabs.update` that fails is still recorded as a request; failures are not modelled, which matches the handler continuing past them.
- The delay between installing a redirect rule and its taking effect is not modelled.
- TaskUtils.AssignTagColorFrom: when every palette colour is used the source picks one at random; the model takes the pick as a parameter and states only that it is a palette colour. The palette is a parameter; `TaskUtils.AssignTagColor` fixes it to the sixteen pastel colours.
- Fresh ids (`crypto.randomUUID`) and the current time are parameters.
- A value of the wrong shape under a known store key reads as absent; JavaScript would return it as it is.
- `assignTagColor` mutates `settings.tags` in place; the model returns the new settings value instead.
- The message handler's `catch` path (an exception turned into `{ error }`) is not modelled; no modelled handler fails.
- `createTask` and `moveTask` store the given time as a number of seconds rather than an ISO string.
- DashboardUtils.GroupByField: the source keeps its groups in a plain object, so the keys `constructor` and `__proto__` find a value inherited from `Object.prototype` and the `push` at shared/dashboard-utils.js:96-97 throws a `TypeError`; the model groups them like any other key. Result objects become maps, so the insertion order of their keys is not modelled either.
- DashboardUtils.ComputeTagStats: a task tagged `#constructor` (or `__proto__`) makes `stats[tag]` an inherited value at shared/dashboard-utils.js:129-132, and `taskIds.add` throws; the model counts the tag like any other. The order of the result's keys is not modelled.
- DashboardUtils.GetCompletedTasksByTag: a finished task tagged `constructor` or `__proto__` makes the `push` at shared/dashboard-utils.js:203-204 throw on the inherited value; the model groups it like any other tag. The order of the result's keys is not modelled.
- DashboardUtils.CompletedTasksByTag: states the grouping for every tag, including `constructor` and `__proto__`, for which the source throws (shared/dashboard-utils.js:203-204).
- DashboardUtils.ComputeDomainStats: a visit to the host `constructor` or `__proto__` finds a truthy value inherited through `Object.prototype` at shared/dashboard-utils.js:147-148 (the `Object` function, or `Object.prototype` itself), so the source increments `visits` on that shared object, which becomes `NaN`, and the domain is missing from the result; the model counts both like any other domain. The order of the result's keys is not modelled.
- TaskUtils.AssignTagColorFrom: `settings.tags[tag]` at shared/task-utils.js:82 is truthy for `constructor` and `__proto__` through `Object.prototype`, so the source returns the settings unchanged; the model treats them as new tags and gives them a colour.

## Findings

| source | as written | input that shows it | evidently intended | confidence | as-written member | corrected member |
|---|---|---|---|---|---|---|
| background.js:228-239 | when the window regains focus, `onWindowFocusChanged` opens a visit for the active tab without closing `currentVisit` | during a break with a visit open (for example focus moved to a tab in another window), focus arrives at window 2 whose active tab is `https://example.com/`: the old visit keeps `endedAt = null` for ever and a second visit becomes current | close the current visit before opening the next, as `onTabActivated` and `onTabUpdated` do | medium, not executed | Tracking.FocusSwitchLeaksVisit | Tracking.FocusChangedClosingFirstKeepsTracked |
