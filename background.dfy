/** The background service worker (`background.js`): the session handlers
    that start and stop the timer together with the blocker and the
    trackers, the blocker's activation and deactivation, the tracker's event
    handlers, and the message dispatcher. The browser is abstract state: the
    installed rules, the requests sent to it, the alarm and the tracking
    listeners. The current time, fresh ids and what a tab query returns are
    parameters. */
module Background {
  import opened Prelude
  import opened Records
  import opened Storage
  import opened Blocking
  import opened Tracking
  import TimerCore
  import TaskUtils
  import C = Constants

  /** What the browser holds for the worker: the installed dynamic rules, the
      rule updates and tab updates requested so far, the timer alarm (its
      delay in seconds) and whether the tracking listeners are registered. */
  datatype Chrome = Chrome(
    rules: seq<Rule>,
    ruleUpdates: seq<RuleUpdate>,
    tabUpdates: seq<TabUpdate>,
    alarm: Option<int>,
    listening: bool)

  /** `tasks.find((t) => t.column === 'doing')`, as an index. */
  function FirstDoing(tasks: seq<Task>): (r: Option<nat>)
    ensures r.Some? ==> r.value < |tasks| && tasks[r.value].column == Doing
    ensures r.Some? ==> forall j :: 0 <= j < r.value ==> tasks[j].column != Doing
    ensures r.None? ==> forall j :: 0 <= j < |tasks| ==> tasks[j].column != Doing
  {
    FirstIndex(tasks, (t: Task) => t.column == Doing)
  }

  /** The entry `openTaskTimeEntry` appends for the doing task when a focus
      session starts, if there is a doing task. */
  function DoingEntry(tasks: seq<Task>, sessionId: Option<Id>, entryId: Id, now: Timestamp): (r: seq<TaskTimeEntry>)
    ensures r == [] <==> forall j :: 0 <= j < |tasks| ==> tasks[j].column != Doing
    ensures r != [] ==>
      && |r| == 1 && r[0].id == entryId && r[0].sessionId == sessionId
      && r[0].startedAt == now && r[0].endedAt.None?
      && exists j :: 0 <= j < |tasks| && tasks[j].column == Doing && r[0].taskId == tasks[j].id
           && forall k :: 0 <= k < j ==> tasks[k].column != Doing
  {
    match FirstDoing(tasks)
    case None => []
    case Some(j) => [TaskTimeEntry(entryId, tasks[j].id, sessionId, now, None)]
  }

  /** The runtime messages the worker answers. */
  datatype Message =
    | StartSession(sessionType: SessionType)
    | StopSession
    | GetTimerState
    | GetSuggestedNext
    | GetStreak
    | TaskMovedToDoing(taskId: Id)
    | TaskMovedFromDoing(taskId: Id)
    | GetTasks
    | SaveTasks(tasks: seq<Task>)
    | GetSettings
    | SaveSettings(settings: StoredSettings)
    | GetSessions
    | GetTaskTimeEntries
    | GetDomainVisits
    | UpdateTask(task: Task)
    | Unknown(action: string)

  /** The actions that only read the store. */
  predicate IsQuery(msg: Message) {
    || msg.GetTimerState? || msg.GetSuggestedNext? || msg.GetStreak? || msg.GetTasks?
    || msg.GetSettings? || msg.GetSessions? || msg.GetTaskTimeEntries? || msg.GetDomainVisits?
  }

  /** The actions that write tasks, task-time entries or settings. */
  predicate IsStoreWrite(msg: Message) {
    msg.TaskMovedToDoing? || msg.TaskMovedFromDoing? || msg.SaveTasks? || msg.SaveSettings? || msg.UpdateTask?
  }

  datatype Response =
    | SessionStarted(state: TimerState, session: Session)
    | SessionStopped(closed: Option<Session>)
    | TimerStateIs(timerState: TimerState)
    | Suggestion(next: SessionType)
    | StreakIs(days: nat)
    | TaskList(tasks: seq<Task>)
    | SettingsAre(settings: Settings)
    | SessionList(sessions: seq<Session>)
    | EntryList(entries: seq<TaskTimeEntry>)
    | VisitList(visits: seq<DomainVisit>)
    | Ok
    | Error(message: string)

  /** What a handler learns from outside: the time, today's day number, fresh
      ids, the open tabs and the active tab. */
  datatype Env = Env(
    now: Timestamp,
    today: int,
    sessionId: Id,
    entryId: Id,
    visitId: Id,
    openTabs: seq<Tab>,
    activeTab: Option<Tab>)

  /** `updateTask`: the first task with the same id is replaced. */
  function ReplaceTask(tasks: seq<Task>, task: Task): (r: seq<Task>)
    ensures |r| == |tasks|
    ensures TaskUtils.FindTask(tasks, task.id).None? ==> r == tasks
    ensures TaskUtils.FindTask(tasks, task.id).Some? ==>
      r[TaskUtils.FindTask(tasks, task.id).value] == task
      && forall j :: 0 <= j < |tasks| && j != TaskUtils.FindTask(tasks, task.id).value ==> r[j] == tasks[j]
  {
    match TaskUtils.FindTask(tasks, task.id)
    case None => tasks
    case Some(i) => tasks[i := task]
  }

  class Worker {
    const store: Store
    var chrome: Chrome
    /** Tab id to the URL it had before the blocker redirected it, in the
        order the entries were first set. */
    var blockedTabUrls: seq<SavedTab>
    var currentVisit: Option<DomainVisit>
    var isWindowFocused: bool

    constructor (store: Store, rules: seq<Rule>)
      ensures this.store == store
      ensures chrome == Chrome(rules, [], [], None, false)
      ensures blockedTabUrls == [] && currentVisit.None? && isWindowFocused
    {
      this.store := store;
      chrome := Chrome(rules, [], [], None, false);
      blockedTabUrls := [];
      currentVisit := None;
      isWindowFocused := true;
    }

    /** The domain tracker's state. */
    function Tracked(): Tracker
      reads this, store
    {
      Tracker(store.DomainVisits(), currentVisit, isWindowFocused)
    }

    // --- Blocking ---

    /** The top-level `tabs.onUpdated` listener: redirect a tab that
        navigated to a blocked address during a focus session. */
    method OnUrlChanged(tabId: TabId, changedUrl: Option<Url>)
      modifies this
      ensures chrome == old(chrome).(tabUpdates := old(chrome.tabUpdates)
        + if FallbackRedirects(changedUrl, store.TimerState(), store.Settings().blockedDomains)
          then [TabUpdate(tabId, BlockedPage)] else [])
      ensures blockedTabUrls == old(blockedTabUrls)
      ensures currentVisit == old(currentVisit) && isWindowFocused == old(isWindowFocused)
    {
      if changedUrl.None? {
        return;
      }
      if Contains(changedUrl.value.href, BlockedPageSuffix) {
        return;
      }
      var ts := store.TimerState();
      if ts.status != Running || ts.sessionType != Some(Focus) {
        return;
      }
      var settings := store.Settings();
      if IsBlockedUrl(changedUrl.value, settings.blockedDomains) {
        chrome := chrome.(tabUpdates := chrome.tabUpdates + [TabUpdate(tabId, BlockedPage)]);
      }
    }

    /** `activateBlocking(openTabs)`: with an empty blocklist nothing
        happens; otherwise one update replaces every installed rule by the
        blocklist's rules, and the sweep records and redirects the open tabs
        whose URL is blocked. */
    method ActivateBlocking(openTabs: seq<Tab>)
      modifies this
      ensures var domains := store.Settings().blockedDomains;
        if |domains| == 0 then chrome == old(chrome) && blockedTabUrls == old(blockedTabUrls)
        else
          && chrome.rules == BlockingRules(domains)
          && chrome.ruleUpdates == old(chrome.ruleUpdates) + [RuleUpdate(RuleIds(old(chrome.rules)), BlockingRules(domains))]
          && chrome.tabUpdates == old(chrome.tabUpdates) + SweepRedirects(openTabs, domains)
          && chrome.alarm == old(chrome.alarm) && chrome.listening == old(chrome.listening)
          && blockedTabUrls == SweepSaved(old(blockedTabUrls), openTabs, domains)
      ensures currentVisit == old(currentVisit) && isWindowFocused == old(isWindowFocused)
    {
      var settings := store.Settings();
      var domains := settings.blockedDomains;
      if |domains| == 0 {
        return;
      }
      var rules := BlockingRules(domains);
      var update := RuleUpdate(RuleIds(chrome.rules), rules);
      ReplaceAllRules(chrome.rules, rules);
      chrome := chrome.(rules := ApplyUpdate(chrome.rules, update), ruleUpdates := chrome.ruleUpdates + [update]);
      SweepTabs(openTabs, domains);
    }

    /** The second half of `activateBlocking`: every open tab whose URL is
        blocked is recorded with that URL and sent to the blocked page;
        other tabs are not touched. */
    method SweepTabs(openTabs: seq<Tab>, domains: seq<string>)
      modifies this
      ensures chrome == old(chrome).(tabUpdates := old(chrome.tabUpdates) + SweepRedirects(openTabs, domains))
      ensures blockedTabUrls == SweepSaved(old(blockedTabUrls), openTabs, domains)
      ensures currentVisit == old(currentVisit) && isWindowFocused == old(isWindowFocused)
    {
      for i := 0 to |openTabs|
        invariant chrome == old(chrome).(tabUpdates := old(chrome.tabUpdates) + SweepRedirects(openTabs[..i], domains))
        invariant blockedTabUrls == SweepSaved(old(blockedTabUrls), openTabs[..i], domains)
        invariant currentVisit == old(currentVisit) && isWindowFocused == old(isWindowFocused)
      {
        assert openTabs[..i + 1][..i] == openTabs[..i];
        var tab := openTabs[i];
        if tab.url.Some? && IsBlockedUrl(tab.url.value, domains) {
          blockedTabUrls := Remember(blockedTabUrls, tab.id, tab.url.value.href);
          chrome := chrome.(tabUpdates := chrome.tabUpdates + [TabUpdate(tab.id, BlockedPage)]);
        }
      }
      assert openTabs[..|openTabs|] == openTabs;
    }

    /** `deactivateBlocking()`: no rule stays installed (and no update is
        sent when there was none), every recorded tab is sent back to its
        original URL, and the record is emptied. */
    method DeactivateBlocking()
      modifies this
      ensures chrome.rules == []
      ensures chrome.ruleUpdates == old(chrome.ruleUpdates)
        + if |old(chrome.rules)| > 0 then [RuleUpdate(RuleIds(old(chrome.rules)), [])] else []
      ensures chrome.tabUpdates == old(chrome.tabUpdates) + RestoreUpdates(old(blockedTabUrls))
      ensures chrome.alarm == old(chrome.alarm) && chrome.listening == old(chrome.listening)
      ensures blockedTabUrls == []
      ensures currentVisit == old(currentVisit) && isWindowFocused == old(isWindowFocused)
    {
      var removeRuleIds := RuleIds(chrome.rules);
      if |removeRuleIds| > 0 {
        var update := RuleUpdate(removeRuleIds, []);
        ReplaceAllRules(chrome.rules, []);
        chrome := chrome.(rules := ApplyUpdate(chrome.rules, update), ruleUpdates := chrome.ruleUpdates + [update]);
      }
      RestoreTabs();
      blockedTabUrls := [];
    }

    /** The `for (const [tabId, url] of blockedTabUrls.entries())` loop of
        `deactivateBlocking()`: one restore request per record, in order. */
    method RestoreTabs()
      modifies this
      ensures chrome == old(chrome).(tabUpdates := old(chrome.tabUpdates) + RestoreUpdates(old(blockedTabUrls)))
      ensures blockedTabUrls == old(blockedTabUrls)
      ensures currentVisit == old(currentVisit) && isWindowFocused == old(isWindowFocused)
    {
      for i := 0 to |blockedTabUrls|
        invariant blockedTabUrls == old(blockedTabUrls)
        invariant currentVisit == old(currentVisit) && isWindowFocused == old(isWindowFocused)
        invariant chrome == old(chrome).(tabUpdates := old(chrome.tabUpdates) + RestoreUpdates(blockedTabUrls[..i]))
      {
        var saved := blockedTabUrls[i];
        assert RestoreUpdates(blockedTabUrls[..i + 1])
          == RestoreUpdates(blockedTabUrls[..i]) + [TabUpdate(saved.tabId, Address(saved.href))];
        chrome := chrome.(tabUpdates := chrome.tabUpdates + [TabUpdate(saved.tabId, Address(saved.href))]);
      }
      assert blockedTabUrls[..|blockedTabUrls|] == blockedTabUrls;
    }

    // --- Domain visits ---

    /** `openVisit(url)`. */
    method OpenVisit(url: Url, id: Id, now: Timestamp)
      modifies this, store
      ensures Tracked() == OpenVisitOn(old(Tracked()), url, old(store.TimerState()), id, now)
      ensures OnlyChanged(old(store.data), store.data, {C.DomainVisitsKey})
      ensures store.TimerState() == old(store.TimerState()) && store.Tasks() == old(store.Tasks())
      ensures store.TaskTimeEntries() == old(store.TaskTimeEntries())
      ensures chrome == old(chrome) && blockedTabUrls == old(blockedTabUrls)
    {
      if !IsWebUrl(url) {
        return;
      }
      var ts := store.TimerState();
      if ts.status != Running {
        return;
      }
      var visit := DomainVisit(id, ts.sessionId, url.location.value.hostname, now, None);
      currentVisit := Some(visit);
      var visits := store.DomainVisits();
      store.SaveDomainVisits(visits + [visit]);
      OnlyChangedViews(old(store.data), store.data, {C.DomainVisitsKey});
    }

    /** `closeCurrentVisit()`. */
    method CloseCurrentVisit(now: Timestamp)
      modifies this, store
      ensures Tracked() == CloseVisitOn(old(Tracked()), now)
      ensures old(currentVisit).None? ==> store.data == old(store.data)
      ensures OnlyChanged(old(store.data), store.data, {C.DomainVisitsKey})
      ensures store.TimerState() == old(store.TimerState()) && store.Tasks() == old(store.Tasks())
      ensures store.TaskTimeEntries() == old(store.TaskTimeEntries())
      ensures chrome == old(chrome) && blockedTabUrls == old(blockedTabUrls)
    {
      if currentVisit.None? {
        return;
      }
      var visits := store.DomainVisits();
      var found := FindVisit(visits, currentVisit.value.id);
      if found.Some? {
        var i := found.value;
        visits := visits[i := visits[i].(endedAt := Some(now))];
        store.SaveDomainVisits(visits);
        OnlyChangedViews(old(store.data), store.data, {C.DomainVisitsKey});
      }
      currentVisit := None;
    }

    /** `startDomainTracking()`: register the listeners, then open a visit
        for the active tab if it has a URL. */
    method StartDomainTracking(activeTab: Option<Tab>, id: Id, now: Timestamp)
      modifies this, store
      ensures chrome == old(chrome).(listening := true)
      ensures Tracked() == StartTracking(old(Tracked()), activeTab, old(store.TimerState()), id, now)
      ensures OnlyChanged(old(store.data), store.data, {C.DomainVisitsKey})
      ensures store.TimerState() == old(store.TimerState()) && store.TaskTimeEntries() == old(store.TaskTimeEntries())
      ensures blockedTabUrls == old(blockedTabUrls)
    {
      chrome := chrome.(listening := true);
      if activeTab.Some? && activeTab.value.url.Some? {
        OpenVisit(activeTab.value.url.value, id, now);
      }
    }

    /** `stopDomainTracking()`: unregister the listeners and close the
        current visit. */
    method StopDomainTracking(now: Timestamp)
      modifies this, store
      ensures chrome == old(chrome).(listening := false)
      ensures Tracked() == CloseVisitOn(old(Tracked()), now)
      ensures OnlyChanged(old(store.data), store.data, {C.DomainVisitsKey})
      ensures store.TimerState() == old(store.TimerState()) && store.TaskTimeEntries() == old(store.TaskTimeEntries())
      ensures blockedTabUrls == old(blockedTabUrls)
    {
      chrome := chrome.(listening := false);
      CloseCurrentVisit(now);
    }

    /** Close the current visit, then open one for `url` if the window has
        focus: the common body of the tab handlers. */
    method Switch(url: Url, id: Id, now: Timestamp)
      modifies this, store
      ensures Tracked() == SwitchTo(old(Tracked()), url, old(store.TimerState()), id, now)
      ensures OnlyChanged(old(store.data), store.data, {C.DomainVisitsKey})
      ensures store.TimerState() == old(store.TimerState())
      ensures chrome == old(chrome) && blockedTabUrls == old(blockedTabUrls)
    {
      CloseCurrentVisit(now);
      if isWindowFocused {
        OpenVisit(url, id, now);
      }
    }

    /** `onTabActivated`, given the activated tab. */
    method OnTabActivated(tab: Tab, id: Id, now: Timestamp)
      modifies this, store
      ensures Tracked() == TabActivated(old(Tracked()), tab, old(store.TimerState()), id, now)
      ensures OnlyChanged(old(store.data), store.data, {C.DomainVisitsKey})
      ensures chrome == old(chrome) && blockedTabUrls == old(blockedTabUrls)
    {
      if tab.url.Some? {
        Switch(tab.url.value, id, now);
      }
    }

    /** `onTabUpdated`, given the active tab. */
    method OnTabUpdated(tabId: TabId, changedUrl: Option<Url>, activeTab: Option<Tab>, id: Id, now: Timestamp)
      modifies this, store
      ensures Tracked() == TabUpdated(old(Tracked()), tabId, changedUrl, activeTab, old(store.TimerState()), id, now)
      ensures OnlyChanged(old(store.data), store.data, {C.DomainVisitsKey})
      ensures chrome == old(chrome) && blockedTabUrls == old(blockedTabUrls)
    {
      if changedUrl.Some? && activeTab.Some? && activeTab.value.id == tabId {
        Switch(changedUrl.value, id, now);
      }
    }

    /** `onWindowFocusChanged` as written. */
    method OnWindowFocusChanged(window: WindowId, activeTab: Option<Tab>, id: Id, now: Timestamp)
      modifies this, store
      ensures Tracked() == FocusChanged(old(Tracked()), window, activeTab, old(store.TimerState()), id, now)
      ensures OnlyChanged(old(store.data), store.data, {C.DomainVisitsKey})
      ensures chrome == old(chrome) && blockedTabUrls == old(blockedTabUrls)
    {
      if window == NoWindow {
        isWindowFocused := false;
        CloseCurrentVisit(now);
      } else {
        isWindowFocused := true;
        if activeTab.Some? && activeTab.value.url.Some? {
          OpenVisit(activeTab.value.url.value, id, now);
        }
      }
    }

    /** `onWindowFocusChanged` closing the current visit before opening the
        next one; it keeps every open visit tracked. */
    method OnWindowFocusChangedClosingFirst(window: WindowId, activeTab: Option<Tab>, id: Id, now: Timestamp)
      modifies this, store
      ensures Tracked() == FocusChangedClosingFirst(old(Tracked()), window, activeTab, old(store.TimerState()), id, now)
      ensures OnlyChanged(old(store.data), store.data, {C.DomainVisitsKey})
      ensures chrome == old(chrome) && blockedTabUrls == old(blockedTabUrls)
    {
      if window == NoWindow {
        isWindowFocused := false;
        CloseCurrentVisit(now);
      } else {
        isWindowFocused := true;
        if activeTab.Some? && activeTab.value.url.Some? {
          Switch(activeTab.value.url.value, id, now);
        }
      }
    }

    // --- Task-time entries ---

    /** `openTaskTimeEntry(taskId)`: only during a running focus session,
        one open entry for the task and the current session is appended. */
    method OpenTaskTimeEntry(taskId: Id, id: Id, now: Timestamp) returns (entry: Option<TaskTimeEntry>)
      modifies store
      ensures var ts := old(store.TimerState());
        if ts.status == Running && ts.sessionType == Some(Focus) then
          && entry == Some(TaskTimeEntry(id, taskId, ts.sessionId, now, None))
          && store.TaskTimeEntries() == old(store.TaskTimeEntries()) + [entry.value]
        else entry.None? && store.data == old(store.data)
      ensures OnlyChanged(old(store.data), store.data, {C.TaskTimeEntriesKey})
      ensures store.TimerState() == old(store.TimerState()) && store.Settings() == old(store.Settings())
      ensures store.DomainVisits() == old(store.DomainVisits())
    {
      var ts := store.TimerState();
      if ts.status != Running || ts.sessionType != Some(Focus) {
        return None;
      }
      var e := TaskTimeEntry(id, taskId, ts.sessionId, now, None);
      var entries := store.TaskTimeEntries();
      store.SaveTaskTimeEntries(entries + [e]);
      OnlyChangedViews(old(store.data), store.data, {C.TaskTimeEntriesKey});
      entry := Some(e);
    }

    /** `closeTaskTimeEntry(taskId)` (`taskId` given) and
        `closeAllOpenTaskEntries()` (`taskId` None): the store is written
        only when some entry was stamped. */
    method CloseTaskTimeEntries(taskId: Option<Id>, now: Timestamp)
      modifies store
      ensures store.TaskTimeEntries() == ClosedEntries(old(store.TaskTimeEntries()), taskId, now)
      ensures (forall i :: 0 <= i < |old(store.TaskTimeEntries())| ==> !Closes(old(store.TaskTimeEntries())[i], taskId))
        ==> store.data == old(store.data)
      ensures OnlyChanged(old(store.data), store.data, {C.TaskTimeEntriesKey})
      ensures store.TimerState() == old(store.TimerState()) && store.Settings() == old(store.Settings())
      ensures store.DomainVisits() == old(store.DomainVisits())
    {
      var entries := store.TaskTimeEntries();
      var closed, changed := CloseEntries(entries, taskId, now);
      if changed {
        store.SaveTaskTimeEntries(closed);
        OnlyChangedViews(old(store.data), store.data, {C.TaskTimeEntriesKey});
      } else {
        assert closed == entries;
      }
    }

    // --- Session lifecycle ---

    /** The focus branch of `handleStartSession`: turn the blocker on, then
        open an entry for the first doing task, if any. */
    method BeginFocus(env: Env)
      modifies this, store
      ensures var domains := store.Settings().blockedDomains;
        (&& (|domains| > 0 ==>
              (&& chrome.rules == BlockingRules(domains)
               && chrome.ruleUpdates == old(chrome.ruleUpdates) + [RuleUpdate(RuleIds(old(chrome.rules)), BlockingRules(domains))]
               && chrome.tabUpdates == old(chrome.tabUpdates) + SweepRedirects(env.openTabs, domains)
               && blockedTabUrls == SweepSaved(old(blockedTabUrls), env.openTabs, domains)))
         && (|domains| == 0 ==> chrome == old(chrome) && blockedTabUrls == old(blockedTabUrls)))
      ensures chrome.alarm == old(chrome.alarm) && chrome.listening == old(chrome.listening)
      ensures var ts := old(store.TimerState());
        store.TaskTimeEntries() == old(store.TaskTimeEntries())
          + if ts.status == Running && ts.sessionType == Some(Focus)
            then DoingEntry(old(store.Tasks()), ts.sessionId, env.entryId, env.now) else []
      ensures OnlyChanged(old(store.data), store.data, {C.TaskTimeEntriesKey})
      ensures store.TimerState() == old(store.TimerState()) && store.Settings() == old(store.Settings())
      ensures Tracked() == old(Tracked())
    {
      ActivateBlocking(env.openTabs);
      var tasks := store.Tasks();
      var doing := FirstDoing(tasks);
      if doing.Some? {
        var _ := OpenTaskTimeEntry(tasks[doing.value].id, env.entryId, env.now);
      }
    }

    /** The keys a session handler may write. */
    function SessionKeys(): set<string> {
      {C.TimerStateKey, C.SessionsKey, C.TaskTimeEntriesKey, C.DomainVisitsKey}
    }

    /** Everything `handleStartSession(type)` leaves behind: the timer started
        as `startSession` does and the alarm set; for a focus session the
        blocker on (nothing sent for an empty blocklist) and an entry for the
        doing task; for any other type the domain tracker started. Tasks and
        settings are not written. */
    twostate predicate StartEffect(sessionType: SessionType, env: Env, state: TimerState, session: Session)
      reads this, store
    {
      var r := TimerCore.Started(old(store.TimerState()), old(store.Sessions()), sessionType, env.now, env.sessionId);
      var domains := old(store.Settings()).blockedDomains;
      && state == r.state && session == r.session
      && store.TimerState() == r.state && store.Sessions() == r.ledger
      && OnlyChanged(old(store.data), store.data, SessionKeys())
      && store.Tasks() == old(store.Tasks()) && store.Settings() == old(store.Settings())
      && chrome.alarm == Some(TimerCore.GetDuration(sessionType))
      && (sessionType == Focus ==>
            && (|domains| > 0 ==>
                  && chrome.rules == BlockingRules(domains)
                  && chrome.ruleUpdates == old(chrome.ruleUpdates) + [RuleUpdate(RuleIds(old(chrome.rules)), BlockingRules(domains))]
                  && chrome.tabUpdates == old(chrome.tabUpdates) + SweepRedirects(env.openTabs, domains)
                  && blockedTabUrls == SweepSaved(old(blockedTabUrls), env.openTabs, domains))
            && (|domains| == 0 ==>
                  && chrome.rules == old(chrome.rules) && chrome.ruleUpdates == old(chrome.ruleUpdates)
                  && chrome.tabUpdates == old(chrome.tabUpdates) && blockedTabUrls == old(blockedTabUrls))
            && store.TaskTimeEntries() == old(store.TaskTimeEntries())
                 + DoingEntry(old(store.Tasks()), Some(env.sessionId), env.entryId, env.now)
            && chrome.listening == old(chrome.listening)
            && Tracked() == old(Tracked()))
      && (sessionType != Focus ==>
            && chrome == old(chrome).(alarm := chrome.alarm, listening := true)
            && blockedTabUrls == old(blockedTabUrls)
            && store.TaskTimeEntries() == old(store.TaskTimeEntries())
            && Tracked() == StartTracking(old(Tracked()), env.activeTab, state, env.visitId, env.now))
    }

    /** Everything `handleStopSession()` leaves behind: nothing changes while
        idle; otherwise the timer stopped as `stopSession` does and the alarm
        cleared; after a focus session every open entry closed and the
        blocker off (no rule update when no rule was installed); after any
        other session the domain tracker stopped. Tasks and settings are not
        written. */
    twostate predicate StopEffect(now: Timestamp)
      reads this, store
    {
      var ts := old(store.TimerState());
      var r := TimerCore.Stopped(ts, old(store.Sessions()), now);
      && store.TimerState() == r.state && store.Sessions() == r.ledger
      && OnlyChanged(old(store.data), store.data, SessionKeys())
      && store.Tasks() == old(store.Tasks()) && store.Settings() == old(store.Settings())
      && (ts.status != Running ==>
            && store.data == old(store.data) && chrome == old(chrome)
            && blockedTabUrls == old(blockedTabUrls) && Tracked() == old(Tracked()))
      && (ts.status == Running ==> chrome.alarm.None?)
      && (ts.status == Running && ts.sessionType == Some(Focus) ==>
            && store.TaskTimeEntries() == ClosedEntries(old(store.TaskTimeEntries()), None, now)
            && chrome.rules == []
            && chrome.ruleUpdates == old(chrome.ruleUpdates)
                 + (if |old(chrome.rules)| > 0 then [RuleUpdate(RuleIds(old(chrome.rules)), [])] else [])
            && chrome.tabUpdates == old(chrome.tabUpdates) + RestoreUpdates(old(blockedTabUrls))
            && blockedTabUrls == []
            && chrome.listening == old(chrome.listening)
            && Tracked() == old(Tracked()))
      && (ts.status == Running && ts.sessionType != Some(Focus) ==>
            && !chrome.listening
            && chrome.rules == old(chrome.rules) && chrome.ruleUpdates == old(chrome.ruleUpdates)
            && chrome.tabUpdates == old(chrome.tabUpdates)
            && blockedTabUrls == old(blockedTabUrls)
            && store.TaskTimeEntries() == old(store.TaskTimeEntries())
            && Tracked() == CloseVisitOn(old(Tracked()), now))
    }

    /** `handleStartSession(type)`: start the timer and set the alarm; a
        focus session turns the blocker on and opens an entry for the doing
        task, a break starts the domain tracker. */
    method HandleStartSession(sessionType: SessionType, env: Env) returns (state: TimerState, session: Session)
      modifies this, store
      ensures StartEffect(sessionType, env, state, session)
    {
      state, session := TimerCore.StartSession(store, sessionType, env.now, env.sessionId);
      OnlyChangedViews(old(store.data), store.data, {C.TimerStateKey, C.SessionsKey});
      chrome := chrome.(alarm := Some(state.duration.value));
      label Started:
      if sessionType == Focus {
        BeginFocus(env);
        OnlyChangedViews(old@Started(store.data), store.data, {C.TaskTimeEntriesKey});
        OnlyChangedThen(old(store.data), old@Started(store.data), store.data,
          {C.TimerStateKey, C.SessionsKey}, {C.TaskTimeEntriesKey}, SessionKeys());
      } else {
        StartDomainTracking(env.activeTab, env.visitId, env.now);
        OnlyChangedViews(old@Started(store.data), store.data, {C.DomainVisitsKey});
        OnlyChangedThen(old(store.data), old@Started(store.data), store.data,
          {C.TimerStateKey, C.SessionsKey}, {C.DomainVisitsKey}, SessionKeys());
      }
    }

    /** `handleStopSession()`: nothing when idle; otherwise clear the alarm,
        close every open entry and turn the blocker off after a focus
        session, or stop the domain tracker after a break, then stop the
        timer. */
    method HandleStopSession(now: Timestamp) returns (closed: Option<Session>)
      modifies this, store
      ensures closed == TimerCore.Stopped(old(store.TimerState()), old(store.Sessions()), now).closed
      ensures StopEffect(now)
    {
      var ts := store.TimerState();
      if ts.status != Running {
        return None;
      }
      chrome := chrome.(alarm := None);
      if ts.sessionType == Some(Focus) {
        CloseTaskTimeEntries(None, now);
        DeactivateBlocking();
      } else {
        StopDomainTracking(now);
      }
      assert OnlyChanged(old(store.data), store.data, {C.DomainVisitsKey, C.TaskTimeEntriesKey});
      OnlyChangedViews(old(store.data), store.data, {C.DomainVisitsKey, C.TaskTimeEntriesKey});
      label BeforeStop:
      closed := TimerCore.StopSession(store, now);
      OnlyChangedViews(old@BeforeStop(store.data), store.data, {C.TimerStateKey, C.SessionsKey});
    }

    // --- Other listeners ---

    /** The timer's `alarms.onAlarm` listener, without the notification, the
        sound and the badge: the timer's own alarm marks the session overtime;
        any other alarm leaves the store alone. */
    method OnAlarm(name: string) returns (state: Option<TimerState>)
      modifies store
      ensures name == C.AlarmName ==>
        && state == TimerCore.AlarmFired(old(store.TimerState()))
        && (state.Some? ==> store.TimerState() == state.value)
        && OnlyChanged(old(store.data), store.data, {C.TimerStateKey})
      ensures name == C.AlarmName && state.None? ==> store.data == old(store.data)
      ensures name != C.AlarmName ==> state.None? && store.data == old(store.data)
    {
      state := None;
      if name == C.AlarmName {
        state := TimerCore.OnAlarmFired(store);
      }
    }

    /** The `idle.onStateChanged` listener: locking the screen stops a
        running session as the stop button would; anything else does nothing. */
    method OnIdleStateChanged(idleState: string, now: Timestamp)
      modifies this, store
      ensures idleState != "locked" ==>
        store.data == old(store.data) && chrome == old(chrome) && blockedTabUrls == old(blockedTabUrls)
        && Tracked() == old(Tracked())
      ensures idleState == "locked" ==> StopEffect(now)
    {
      if idleState == "locked" {
        var ts := store.TimerState();
        if ts.status == Running {
          var _ := HandleStopSession(now);
        }
      }
    }

    /** The `runtime.onInstalled` listener: the merged settings are written
        back, so every field is stored and reads as before. */
    method OnInstalled()
      modifies store
      ensures store.Settings() == old(store.Settings())
      ensures Lookup(store.data, C.SettingsKey) == Some(SettingsValue(StoreSettings(old(store.Settings()))))
      ensures OnlyChanged(old(store.data), store.data, {C.SettingsKey})
    {
      var settings := store.Settings();
      store.SaveSettings(StoreSettings(settings));
    }

    // --- Message handler ---

    /** The read-only actions of the `runtime.onMessage` handler: each
        answers with what the store holds and changes nothing. */
    method Query(msg: Message, today: int) returns (resp: Response)
      requires IsQuery(msg)
      ensures msg.GetTimerState? ==> resp == TimerStateIs(store.TimerState())
      ensures msg.GetSuggestedNext? ==>
        resp == Suggestion(TimerCore.SuggestedNext(store.TimerState(), store.Sessions()))
      ensures msg.GetStreak? ==> resp == StreakIs(TimerCore.Streak(store.Sessions(), today))
      ensures msg.GetTasks? ==> resp == TaskList(store.Tasks())
      ensures msg.GetSettings? ==> resp == SettingsAre(store.Settings())
      ensures msg.GetSessions? ==> resp == SessionList(store.Sessions())
      ensures msg.GetTaskTimeEntries? ==> resp == EntryList(store.TaskTimeEntries())
      ensures msg.GetDomainVisits? ==> resp == VisitList(store.DomainVisits())
    {
      match msg
      case GetTimerState =>
        resp := TimerStateIs(store.TimerState());
      case GetSuggestedNext =>
        resp := Suggestion(TimerCore.SuggestedNext(store.TimerState(), store.Sessions()));
      case GetStreak =>
        var streak := TimerCore.GetStreak(store, today);
        resp := StreakIs(streak);
      case GetTasks =>
        resp := TaskList(store.Tasks());
      case GetSettings =>
        resp := SettingsAre(store.Settings());
      case GetSessions =>
        resp := SessionList(store.Sessions());
      case GetTaskTimeEntries =>
        resp := EntryList(store.TaskTimeEntries());
      case GetDomainVisits =>
        resp := VisitList(store.DomainVisits());
      case _ =>
        assert false;
    }

    /** The actions of the `runtime.onMessage` handler that write tasks,
        task-time entries or settings; each answers `Ok`. */
    method Write(msg: Message, env: Env) returns (resp: Response)
      requires IsStoreWrite(msg)
      modifies store
      ensures msg.TaskMovedToDoing? ==>
        var ts := old(store.TimerState());
        (&& resp == Ok
         && OnlyChanged(old(store.data), store.data, {C.TaskTimeEntriesKey})
         && store.TaskTimeEntries() == old(store.TaskTimeEntries())
              + if ts.status == Running && ts.sessionType == Some(Focus)
                then [TaskTimeEntry(env.entryId, msg.taskId, ts.sessionId, env.now, None)] else [])
      ensures msg.TaskMovedFromDoing? ==>
        && resp == Ok
        && OnlyChanged(old(store.data), store.data, {C.TaskTimeEntriesKey})
        && store.TaskTimeEntries() == ClosedEntries(old(store.TaskTimeEntries()), Some(msg.taskId), env.now)
      ensures msg.SaveTasks? ==>
        && resp == Ok
        && store.data == old(store.data)[C.TasksKey := TasksValue(msg.tasks)]
        && store.Tasks() == msg.tasks
      ensures msg.SaveSettings? ==>
        && resp == Ok
        && store.data == old(store.data)[C.SettingsKey := SettingsValue(msg.settings)]
        && store.Settings() == MergeSettings(msg.settings)
      ensures msg.UpdateTask? ==>
        && resp == Ok
        && (TaskUtils.FindTask(old(store.Tasks()), msg.task.id).None? ==> store.data == old(store.data))
        && (TaskUtils.FindTask(old(store.Tasks()), msg.task.id).Some? ==>
              store.data == old(store.data)[C.TasksKey := TasksValue(ReplaceTask(old(store.Tasks()), msg.task))])
        && store.Tasks() == ReplaceTask(old(store.Tasks()), msg.task)
    {
      match msg
      case TaskMovedToDoing(taskId) =>
        var ts := store.TimerState();
        if ts.status == Running && ts.sessionType == Some(Focus) {
          var _ := OpenTaskTimeEntry(taskId, env.entryId, env.now);
        }
        resp := Ok;
      case TaskMovedFromDoing(taskId) =>
        CloseTaskTimeEntries(Some(taskId), env.now);
        resp := Ok;
      case SaveTasks(tasks) =>
        store.SaveTasks(tasks);
        resp := Ok;
      case SaveSettings(settings) =>
        store.SaveSettings(settings);
        resp := Ok;
      case UpdateTask(task) =>
        var tasks := store.Tasks();
        var idx := TaskUtils.FindTask(tasks, task.id);
        if idx.Some? {
          store.SaveTasks(tasks[idx.value := task]);
        }
        resp := Ok;
      case _ =>
        assert false;
    }

    /** The `runtime.onMessage` handler: one branch per action; an action it
        does not know is answered with an error and changes nothing. */
    method Dispatch(msg: Message, env: Env) returns (resp: Response)
      modifies this, store
      ensures msg.StartSession? ==> resp.SessionStarted? && StartEffect(msg.sessionType, env, resp.state, resp.session)
      ensures msg.StopSession? ==>
        && resp == SessionStopped(TimerCore.Stopped(old(store.TimerState()), old(store.Sessions()), env.now).closed)
        && StopEffect(env.now)
      ensures msg.GetTimerState? ==> resp == TimerStateIs(old(store.TimerState()))
      ensures msg.GetSuggestedNext? ==>
        resp == Suggestion(TimerCore.SuggestedNext(old(store.TimerState()), old(store.Sessions())))
      ensures msg.GetStreak? ==> resp == StreakIs(TimerCore.Streak(old(store.Sessions()), env.today))
      ensures msg.GetTasks? ==> resp == TaskList(old(store.Tasks()))
      ensures msg.GetSettings? ==> resp == SettingsAre(old(store.Settings()))
      ensures msg.GetSessions? ==> resp == SessionList(old(store.Sessions()))
      ensures msg.GetTaskTimeEntries? ==> resp == EntryList(old(store.TaskTimeEntries()))
      ensures msg.GetDomainVisits? ==> resp == VisitList(old(store.DomainVisits()))
      ensures msg.Unknown? ==> resp == Error("Unknown action")
      ensures IsQuery(msg) || msg.Unknown? ==> store.data == old(store.data) && unchanged(this)
      ensures msg.TaskMovedToDoing? ==>
        var ts := old(store.TimerState());
        (&& resp == Ok
         && OnlyChanged(old(store.data), store.data, {C.TaskTimeEntriesKey})
         && store.TaskTimeEntries() == old(store.TaskTimeEntries())
              + if ts.status == Running && ts.sessionType == Some(Focus)
                then [TaskTimeEntry(env.entryId, msg.taskId, ts.sessionId, env.now, None)] else [])
      ensures msg.TaskMovedFromDoing? ==>
        && resp == Ok
        && OnlyChanged(old(store.data), store.data, {C.TaskTimeEntriesKey})
        && store.TaskTimeEntries() == ClosedEntries(old(store.TaskTimeEntries()), Some(msg.taskId), env.now)
      ensures msg.SaveTasks? ==>
        && resp == Ok
        && store.data == old(store.data)[C.TasksKey := TasksValue(msg.tasks)]
        && store.Tasks() == msg.tasks
      ensures msg.SaveSettings? ==>
        && resp == Ok
        && store.data == old(store.data)[C.SettingsKey := SettingsValue(msg.settings)]
        && store.Settings() == MergeSettings(msg.settings)
      ensures msg.UpdateTask? ==>
        && resp == Ok
        && (TaskUtils.FindTask(old(store.Tasks()), msg.task.id).None? ==> store.data == old(store.data))
        && (TaskUtils.FindTask(old(store.Tasks()), msg.task.id).Some? ==>
              store.data == old(store.data)[C.TasksKey := TasksValue(ReplaceTask(old(store.Tasks()), msg.task))])
        && store.Tasks() == ReplaceTask(old(store.Tasks()), msg.task)
      ensures IsStoreWrite(msg) ==> unchanged(this)
    {
      if IsQuery(msg) {
        resp := Query(msg, env.today);
      } else if IsStoreWrite(msg) {
        resp := Write(msg, env);
      } else {
        match msg
        case StartSession(sessionType) =>
          var state, session := HandleStartSession(sessionType, env);
          resp := SessionStarted(state, session);
        case StopSession =>
          var closed := HandleStopSession(env.now);
          resp := SessionStopped(closed);
        case Unknown(_) =>
          resp := Error("Unknown action");
        case _ =>
          assert false;
      }
    }
  }
}
