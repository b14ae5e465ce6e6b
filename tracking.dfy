/** The activity trackers in `background.js`: closing task-time entries, and
    the domain-visit tracker's transitions (open a visit, close the current
    one, and the tab and window events that do both). Each transition is a
    function on a `Tracker` value; module Background performs them on the
    store. */
module Tracking {
  import opened Prelude
  import opened Records
  import opened Blocking

  // --- Task-time entries ---

  /** Whether a close stamps this entry: it is open, and it belongs to the
      named task when there is one (`closeTaskTimeEntry`) or to any task when
      there is none (`closeAllOpenTaskEntries`). */
  predicate Closes(e: TaskTimeEntry, taskId: Option<Id>) {
    e.endedAt.None? && (taskId.None? || e.taskId == taskId.value)
  }

  function CloseEntry(e: TaskTimeEntry, taskId: Option<Id>, now: Timestamp): TaskTimeEntry {
    if Closes(e, taskId) then e.(endedAt := Some(now)) else e
  }

  /** The entries after a close: the stamped ones in place, the rest as they
      were. */
  function ClosedEntries(entries: seq<TaskTimeEntry>, taskId: Option<Id>, now: Timestamp): (r: seq<TaskTimeEntry>)
    ensures |r| == |entries|
    ensures forall i :: 0 <= i < |entries| ==> r[i].id == entries[i].id && r[i].taskId == entries[i].taskId
  {
    seq(|entries|, i requires 0 <= i < |entries| => CloseEntry(entries[i], taskId, now))
  }

  /** The loop shared by `closeTaskTimeEntry` and `closeAllOpenTaskEntries`:
      stamp every entry the close applies to, and report whether any was. */
  method CloseEntries(entries: seq<TaskTimeEntry>, taskId: Option<Id>, now: Timestamp)
    returns (closed: seq<TaskTimeEntry>, changed: bool)
    ensures closed == ClosedEntries(entries, taskId, now)
    ensures changed <==> exists i :: 0 <= i < |entries| && Closes(entries[i], taskId)
  {
    closed := entries;
    changed := false;
    for i := 0 to |entries|
      invariant |closed| == |entries|
      invariant forall j :: 0 <= j < i ==> closed[j] == CloseEntry(entries[j], taskId, now)
      invariant forall j :: i <= j < |entries| ==> closed[j] == entries[j]
      invariant changed <==> exists j :: 0 <= j < i && Closes(entries[j], taskId)
    {
      if Closes(closed[i], taskId) {
        closed := closed[i := closed[i].(endedAt := Some(now))];
        changed := true;
      }
    }
  }

  /** `closeAllOpenTaskEntries` leaves no open entry, keeps the length, and
      does not touch an entry that was already closed. */
  lemma CloseAllLeavesNoneOpen(entries: seq<TaskTimeEntry>, now: Timestamp)
    ensures var r := ClosedEntries(entries, None, now);
      && |r| == |entries|
      && (forall i :: 0 <= i < |r| ==> r[i].endedAt.Some?)
      && (forall i :: 0 <= i < |r| && entries[i].endedAt.None? ==> r[i] == entries[i].(endedAt := Some(now)))
      && (forall i :: 0 <= i < |r| && entries[i].endedAt.Some? ==> r[i] == entries[i])
  {
  }

  /** `closeTaskTimeEntry(taskId)` closes the open entries of that task only:
      none of its entries stays open, and every entry of another task or
      already closed is unchanged. */
  lemma CloseTaskClosesOnlyItsEntries(entries: seq<TaskTimeEntry>, taskId: Id, now: Timestamp)
    ensures var r := ClosedEntries(entries, Some(taskId), now);
      && |r| == |entries|
      && (forall i :: 0 <= i < |r| && r[i].taskId == taskId ==> r[i].endedAt.Some?)
      && (forall i :: 0 <= i < |r| && entries[i].taskId == taskId && entries[i].endedAt.None? ==>
            r[i] == entries[i].(endedAt := Some(now)))
      && (forall i :: 0 <= i < |r| && (entries[i].taskId != taskId || entries[i].endedAt.Some?) ==> r[i] == entries[i])
  {
  }

  // --- Domain visits ---

  /** Which window has focus: `WINDOW_ID_NONE` or a real window. */
  datatype WindowId = NoWindow | Window(id: int)

  /** The tracker's state: the stored visits, `currentVisit` and
      `isWindowFocused`. */
  datatype Tracker = Tracker(visits: seq<DomainVisit>, current: Option<DomainVisit>, focused: bool)

  /** A URL `openVisit` tracks: it parses and its protocol is http or https. */
  predicate IsWebUrl(url: Url) {
    url.location.Some? && (url.location.value.protocol == "http:" || url.location.value.protocol == "https:")
  }

  /** `openVisit(url)`: for a web URL while the timer runs, a new open visit
      to its hostname is appended and becomes the current one; otherwise
      nothing changes (a current visit included). */
  function OpenVisitOn(t: Tracker, url: Url, ts: TimerState, id: Id, now: Timestamp): (r: Tracker)
    ensures r.focused == t.focused
    ensures !(IsWebUrl(url) && ts.status == Running) ==> r == t
    ensures IsWebUrl(url) && ts.status == Running ==>
      && r.current.Some?
      && r.visits == t.visits + [r.current.value]
      && r.current.value.id == id && r.current.value.domain == url.location.value.hostname
      && r.current.value.sessionId == ts.sessionId
      && r.current.value.startedAt == now && r.current.value.endedAt.None?
  {
    if !IsWebUrl(url) || ts.status != Running then t
    else
      var visit := DomainVisit(id, ts.sessionId, url.location.value.hostname, now, None);
      t.(visits := t.visits + [visit], current := Some(visit))
  }

  /** `visits.find((v) => v.id === id)`, as an index. */
  function FindVisit(visits: seq<DomainVisit>, id: Id): (r: Option<nat>)
    ensures r.Some? ==> r.value < |visits| && visits[r.value].id == id
    ensures r.Some? ==> forall j :: 0 <= j < r.value ==> visits[j].id != id
    ensures r.None? ==> forall j :: 0 <= j < |visits| ==> visits[j].id != id
  {
    FirstIndex(visits, (v: DomainVisit) => v.id == id)
  }

  /** `closeCurrentVisit()`: with no current visit nothing changes; otherwise
      the first stored visit with its id gets `endedAt = now`, every other
      visit stays as it was, and there is no current visit any more. */
  function CloseVisitOn(t: Tracker, now: Timestamp): (r: Tracker)
    ensures r.focused == t.focused && r.current.None? && |r.visits| == |t.visits|
    ensures t.current.None? ==> r == t
    ensures t.current.Some? ==>
      match FindVisit(t.visits, t.current.value.id)
      case None => r.visits == t.visits
      case Some(i) =>
        && r.visits[i] == t.visits[i].(endedAt := Some(now))
        && forall j :: 0 <= j < |t.visits| && j != i ==> r.visits[j] == t.visits[j]
  {
    if t.current.None? then t
    else match FindVisit(t.visits, t.current.value.id)
      case None => t.(current := None)
      case Some(i) => t.(visits := t.visits[i := t.visits[i].(endedAt := Some(now))], current := None)
  }

  /** The visit `openVisit` appends for `url`. */
  function NewVisit(url: Url, ts: TimerState, id: Id, now: Timestamp): DomainVisit
    requires url.location.Some?
  {
    DomainVisit(id, ts.sessionId, url.location.value.hostname, now, None)
  }

  /** The active tab has a web URL and the timer runs, so a visit is opened for it. */
  predicate TracksTab(activeTab: Option<Tab>, ts: TimerState) {
    activeTab.Some? && activeTab.value.url.Some? && IsWebUrl(activeTab.value.url.value) && ts.status == Running
  }

  /** `startDomainTracking`: a visit for the active tab, when it has a URL. */
  function StartTracking(t: Tracker, activeTab: Option<Tab>, ts: TimerState, id: Id, now: Timestamp): (r: Tracker)
    ensures !TracksTab(activeTab, ts) ==> r == t
    ensures TracksTab(activeTab, ts) ==>
      && r.focused == t.focused
      && r.current == Some(NewVisit(activeTab.value.url.value, ts, id, now))
      && r.visits == t.visits + [r.current.value]
  {
    if activeTab.Some? && activeTab.value.url.Some? then OpenVisitOn(t, activeTab.value.url.value, ts, id, now)
    else t
  }

  /** Close the current visit, then open one for `url` if the window has focus. */
  function SwitchTo(t: Tracker, url: Url, ts: TimerState, id: Id, now: Timestamp): (r: Tracker)
    ensures r.focused == t.focused
    ensures !(t.focused && IsWebUrl(url) && ts.status == Running) ==> r == CloseVisitOn(t, now)
    ensures t.focused && IsWebUrl(url) && ts.status == Running ==>
      && r.current == Some(NewVisit(url, ts, id, now))
      && r.visits == CloseVisitOn(t, now).visits + [r.current.value]
  {
    var c := CloseVisitOn(t, now);
    if c.focused then OpenVisitOn(c, url, ts, id, now) else c
  }

  /** `onTabActivated`, given the activated tab. */
  function TabActivated(t: Tracker, tab: Tab, ts: TimerState, id: Id, now: Timestamp): (r: Tracker)
    ensures tab.url.None? ==> r == t
    ensures tab.url.Some? && !(t.focused && IsWebUrl(tab.url.value) && ts.status == Running) ==>
      r == CloseVisitOn(t, now)
    ensures tab.url.Some? && t.focused && IsWebUrl(tab.url.value) && ts.status == Running ==>
      && r.focused == t.focused
      && r.current == Some(NewVisit(tab.url.value, ts, id, now))
      && r.visits == CloseVisitOn(t, now).visits + [r.current.value]
  {
    if tab.url.Some? then SwitchTo(t, tab.url.value, ts, id, now) else t
  }

  /** `onTabUpdated`: only an address change of the active tab counts. */
  function TabUpdated(t: Tracker, tabId: TabId, changedUrl: Option<Url>, activeTab: Option<Tab>,
                      ts: TimerState, id: Id, now: Timestamp): (r: Tracker)
    ensures !(changedUrl.Some? && activeTab.Some? && activeTab.value.id == tabId) ==> r == t
    ensures (changedUrl.Some? && activeTab.Some? && activeTab.value.id == tabId
             && !(t.focused && IsWebUrl(changedUrl.value) && ts.status == Running)) ==>
      r == CloseVisitOn(t, now)
    ensures (changedUrl.Some? && activeTab.Some? && activeTab.value.id == tabId
             && t.focused && IsWebUrl(changedUrl.value) && ts.status == Running) ==>
      && r.focused == t.focused
      && r.current == Some(NewVisit(changedUrl.value, ts, id, now))
      && r.visits == CloseVisitOn(t, now).visits + [r.current.value]
  {
    if changedUrl.Some? && activeTab.Some? && activeTab.value.id == tabId
    then SwitchTo(t, changedUrl.value, ts, id, now)
    else t
  }

  /** `onWindowFocusChanged` as written: losing focus closes the current
      visit; gaining it opens a visit for the active tab without closing the
      current one. */
  function FocusChanged(t: Tracker, window: WindowId, activeTab: Option<Tab>,
                        ts: TimerState, id: Id, now: Timestamp): (r: Tracker)
    ensures window == NoWindow ==> r == CloseVisitOn(t, now).(focused := false)
    ensures window != NoWindow && !TracksTab(activeTab, ts) ==> r == t.(focused := true)
    ensures window != NoWindow && TracksTab(activeTab, ts) ==>
      && r.focused
      && r.current == Some(NewVisit(activeTab.value.url.value, ts, id, now))
      && r.visits == t.visits + [r.current.value]
  {
    if window == NoWindow then CloseVisitOn(t.(focused := false), now)
    else
      var f := t.(focused := true);
      if activeTab.Some? && activeTab.value.url.Some? then OpenVisitOn(f, activeTab.value.url.value, ts, id, now)
      else f
  }

  /** `onWindowFocusChanged` with the current visit closed before a new one
      is opened on gaining focus, as the tab handlers do. */
  function FocusChangedClosingFirst(t: Tracker, window: WindowId, activeTab: Option<Tab>,
                                    ts: TimerState, id: Id, now: Timestamp): (r: Tracker)
    ensures window == NoWindow ==> r == FocusChanged(t, window, activeTab, ts, id, now)
    ensures window != NoWindow && (activeTab.None? || activeTab.value.url.None?) ==> r == t.(focused := true)
    ensures window != NoWindow && activeTab.Some? && activeTab.value.url.Some? && !TracksTab(activeTab, ts) ==>
      r == CloseVisitOn(t, now).(focused := true)
    ensures window != NoWindow && TracksTab(activeTab, ts) ==>
      && r.focused
      && r.current == Some(NewVisit(activeTab.value.url.value, ts, id, now))
      && r.visits == CloseVisitOn(t, now).visits + [r.current.value]
  {
    if window == NoWindow then CloseVisitOn(t.(focused := false), now)
    else
      var f := t.(focused := true);
      if activeTab.Some? && activeTab.value.url.Some? then SwitchTo(f, activeTab.value.url.value, ts, id, now)
      else f
  }

  // --- The tracker's invariant ---

  ghost predicate UniqueVisitIds(visits: seq<DomainVisit>) {
    forall i, j :: 0 <= i < j < |visits| ==> visits[i].id != visits[j].id
  }

  /** No visit is left open behind the tracker's back: every open stored
      visit is the current one. */
  ghost predicate VisitsTracked(t: Tracker) {
    && UniqueVisitIds(t.visits)
    && forall i :: 0 <= i < |t.visits| && t.visits[i].endedAt.None? ==>
         t.current.Some? && t.visits[i].id == t.current.value.id
  }

  ghost predicate Fresh(t: Tracker, id: Id) {
    forall i :: 0 <= i < |t.visits| ==> t.visits[i].id != id
  }

  /** Closing the current visit leaves no open visit at all. */
  lemma CloseLeavesNoneOpen(t: Tracker, now: Timestamp)
    requires VisitsTracked(t)
    ensures VisitsTracked(CloseVisitOn(t, now))
    ensures forall i :: 0 <= i < |CloseVisitOn(t, now).visits| ==> CloseVisitOn(t, now).visits[i].endedAt.Some?
  {
    var r := CloseVisitOn(t, now);
    if t.current.Some? {
      match FindVisit(t.visits, t.current.value.id)
      case None =>
      case Some(k) =>
        forall i | 0 <= i < |r.visits|
          ensures r.visits[i].endedAt.Some?
        {
          if i != k {
            assert r.visits[i] == t.visits[i];
            assert t.visits[i].id != t.visits[k].id by {
              if i < k {
              } else {
              }
            }
          }
        }
    }
  }

  /** Opening a visit with a fresh id while none is current keeps the
      invariant. */
  lemma OpenKeepsTracked(t: Tracker, url: Url, ts: TimerState, id: Id, now: Timestamp)
    requires VisitsTracked(t) && t.current.None? && Fresh(t, id)
    ensures VisitsTracked(OpenVisitOn(t, url, ts, id, now))
  {
    var r := OpenVisitOn(t, url, ts, id, now);
    if IsWebUrl(url) && ts.status == Running {
      assert forall i :: 0 <= i < |t.visits| ==> r.visits[i] == t.visits[i];
    }
  }

  lemma SwitchKeepsTracked(t: Tracker, url: Url, ts: TimerState, id: Id, now: Timestamp)
    requires VisitsTracked(t) && Fresh(t, id)
    ensures VisitsTracked(SwitchTo(t, url, ts, id, now))
  {
    var c := CloseVisitOn(t, now);
    CloseLeavesNoneOpen(t, now);
    if c.focused {
      OpenKeepsTracked(c, url, ts, id, now);
    }
  }

  /** Starting to track from a tracker with no current visit (what stopping
      leaves) keeps the invariant. */
  lemma StartKeepsTracked(t: Tracker, activeTab: Option<Tab>, ts: TimerState, id: Id, now: Timestamp)
    requires VisitsTracked(t) && t.current.None? && Fresh(t, id)
    ensures VisitsTracked(StartTracking(t, activeTab, ts, id, now))
  {
    if activeTab.Some? && activeTab.value.url.Some? {
      OpenKeepsTracked(t, activeTab.value.url.value, ts, id, now);
    }
  }

  /** The tab handlers keep the invariant. */
  lemma TabEventsKeepTracked(t: Tracker, tab: Tab, tabId: TabId, changedUrl: Option<Url>, activeTab: Option<Tab>,
                             ts: TimerState, id: Id, now: Timestamp)
    requires VisitsTracked(t) && Fresh(t, id)
    ensures VisitsTracked(TabActivated(t, tab, ts, id, now))
    ensures VisitsTracked(TabUpdated(t, tabId, changedUrl, activeTab, ts, id, now))
  {
    if tab.url.Some? {
      SwitchKeepsTracked(t, tab.url.value, ts, id, now);
    }
    if changedUrl.Some? && activeTab.Some? && activeTab.value.id == tabId {
      SwitchKeepsTracked(t, changedUrl.value, ts, id, now);
    }
  }

  /** The corrected focus handler keeps the invariant, and losing focus
      leaves no open visit. */
  lemma FocusChangedClosingFirstKeepsTracked(t: Tracker, window: WindowId, activeTab: Option<Tab>,
                                             ts: TimerState, id: Id, now: Timestamp)
    requires VisitsTracked(t) && Fresh(t, id)
    ensures VisitsTracked(FocusChangedClosingFirst(t, window, activeTab, ts, id, now))
    ensures window == NoWindow ==>
      var r := FocusChangedClosingFirst(t, window, activeTab, ts, id, now);
      forall i :: 0 <= i < |r.visits| ==> r.visits[i].endedAt.Some?
  {
    var f := t.(focused := window != NoWindow);
    assert VisitsTracked(f);
    if window == NoWindow {
      CloseLeavesNoneOpen(f, now);
    } else if activeTab.Some? && activeTab.value.url.Some? {
      SwitchKeepsTracked(f, activeTab.value.url.value, ts, id, now);
    }
  }

  /** The handler as written loses track of a visit: during a running break
      with a visit open, focus moving straight to another window opens a
      second visit and leaves the first open with nothing pointing at it. */
  lemma FocusSwitchLeaksVisit()
    ensures var ts := TimerState(Running, Some(ShortBreak), Some(0), Some(300), 1, Some("s"), false);
      var url := Url("https://example.com/", Some(Location("https:", "example.com")));
      var v := DomainVisit("v0", Some("s"), "example.com", 0, None);
      var t := Tracker([v], Some(v), true);
      var r := FocusChanged(t, Window(2), Some(Tab(1, Some(url))), ts, "v1", 60);
      && VisitsTracked(t) && Fresh(t, "v1")
      && !VisitsTracked(r)
      && r.visits[0].endedAt.None? && r.current.value.id == "v1"
  {
    var ts := TimerState(Running, Some(ShortBreak), Some(0), Some(300), 1, Some("s"), false);
    var url := Url("https://example.com/", Some(Location("https:", "example.com")));
    var v := DomainVisit("v0", Some("s"), "example.com", 0, None);
    var t := Tracker([v], Some(v), true);
    var r := FocusChanged(t, Window(2), Some(Tab(1, Some(url))), ts, "v1", 60);
    var v1 := DomainVisit("v1", Some("s"), "example.com", 60, None);
    assert IsWebUrl(url);
    assert r.visits == [v, v1] && r.current == Some(v1);
    assert "v0" != "v1" by {
      assert "v0"[1] != "v1"[1];
    }
    assert r.visits[0].endedAt.None? && r.visits[0].id != r.current.value.id;
  }
}
