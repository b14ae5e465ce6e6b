/** The persistent key-value store every component reads and rewrites
    (`shared/storage.js`), with the typed getters that fill in defaults. */
module Storage {
  import opened Prelude
  import opened Records
  import C = Constants

  /** A timer state as it may sit in storage: any field may be missing, and a
      missing field takes its default on read (`{ ...defaults, ...stored }`).
      The fields whose default is null need no separate "missing" case. */
  datatype StoredTimerState = StoredTimerState(
    status: Option<Status>,
    sessionType: Option<SessionType>,
    startedAt: Option<Timestamp>,
    duration: Option<int>,
    cyclePosition: Option<int>,
    sessionId: Option<Id>,
    alarmFired: Option<bool>)

  /** Settings as they may sit in storage, each field possibly missing. */
  datatype StoredSettings = StoredSettings(
    blockedDomains: Option<seq<string>>,
    tags: Option<map<string, TagInfo>>)

  /** The values the extension writes under its keys. */
  datatype Value =
    | TasksValue(tasks: seq<Task>)
    | SessionsValue(sessions: seq<Session>)
    | EntriesValue(entries: seq<TaskTimeEntry>)
    | VisitsValue(visits: seq<DomainVisit>)
    | SettingsValue(settings: StoredSettings)
    | TimerStateValue(state: StoredTimerState)

  /** The state `getTimerState` returns when nothing is stored. The defaults
      object has no `alarmFired`; an absent flag reads as false. */
  const DefaultTimerState: TimerState := TimerState(Idle, None, None, None, 1, None, false)

  const DefaultSettings: Settings := Settings(C.DefaultBlockedDomains, map[])

  /** `get(key)`: the stored value, or null for a missing key. */
  function Lookup(data: map<string, Value>, key: string): (r: Option<Value>)
    ensures r.None? <==> key !in data
    ensures r.Some? ==> r.value == data[key]
  {
    if key in data then Some(data[key]) else None
  }

  /** `{ ...defaults, ...stored }` for the timer state. */
  function MergeTimerState(s: StoredTimerState): (r: TimerState)
    ensures s.status.Some? && s.cyclePosition.Some? && s.alarmFired.Some? <==> StoreTimerState(r) == s
    ensures s.status.None? ==> r.status == Idle
    ensures s.cyclePosition.None? ==> r.cyclePosition == 1
    ensures s.alarmFired.None? ==> !r.alarmFired
  {
    TimerState(
      s.status.GetOr(DefaultTimerState.status),
      s.sessionType,
      s.startedAt,
      s.duration,
      s.cyclePosition.GetOr(DefaultTimerState.cyclePosition),
      s.sessionId,
      s.alarmFired.GetOr(DefaultTimerState.alarmFired))
  }

  /** What `saveTimerState` writes: every field present. */
  function StoreTimerState(ts: TimerState): StoredTimerState {
    StoredTimerState(Some(ts.status), ts.sessionType, ts.startedAt, ts.duration,
                     Some(ts.cyclePosition), ts.sessionId, Some(ts.alarmFired))
  }

  /** `{ ...defaults, ...stored }` for the settings. */
  function MergeSettings(s: StoredSettings): (r: Settings)
    ensures s.blockedDomains.Some? && s.tags.Some? <==> StoreSettings(r) == s
    ensures s.blockedDomains.None? ==> r.blockedDomains == C.DefaultBlockedDomains
    ensures s.tags.None? ==> r.tags == map[]
  {
    Settings(s.blockedDomains.GetOr(DefaultSettings.blockedDomains), s.tags.GetOr(DefaultSettings.tags))
  }

  function StoreSettings(s: Settings): StoredSettings {
    StoredSettings(Some(s.blockedDomains), Some(s.tags))
  }

  // The typed getters. A key that is missing reads as the empty collection or
  // the defaults; so does a value of another shape under that key.

  function TasksIn(data: map<string, Value>): seq<Task> {
    match Lookup(data, C.TasksKey)
    case Some(TasksValue(ts)) => ts
    case _ => []
  }

  function SessionsIn(data: map<string, Value>): seq<Session> {
    match Lookup(data, C.SessionsKey)
    case Some(SessionsValue(ss)) => ss
    case _ => []
  }

  function EntriesIn(data: map<string, Value>): seq<TaskTimeEntry> {
    match Lookup(data, C.TaskTimeEntriesKey)
    case Some(EntriesValue(es)) => es
    case _ => []
  }

  function VisitsIn(data: map<string, Value>): seq<DomainVisit> {
    match Lookup(data, C.DomainVisitsKey)
    case Some(VisitsValue(vs)) => vs
    case _ => []
  }

  function SettingsIn(data: map<string, Value>): Settings {
    match Lookup(data, C.SettingsKey)
    case Some(SettingsValue(s)) => MergeSettings(s)
    case _ => DefaultSettings
  }

  function TimerStateIn(data: map<string, Value>): TimerState {
    match Lookup(data, C.TimerStateKey)
    case Some(TimerStateValue(s)) => MergeTimerState(s)
    case _ => DefaultTimerState
  }

  /** `data'` differs from `data` at most under `keys`. */
  ghost predicate OnlyChanged(data: map<string, Value>, data': map<string, Value>, keys: set<string>) {
    forall k :: k !in keys ==> Lookup(data', k) == Lookup(data, k)
  }

  /** Two writes confined to `keys` and `keys'` together stay within any set
      holding both. */
  lemma OnlyChangedThen(a: map<string, Value>, b: map<string, Value>, c: map<string, Value>, keys: set<string>, keys': set<string>, all: set<string>)
    requires OnlyChanged(a, b, keys) && OnlyChanged(b, c, keys')
    requires keys <= all && keys' <= all
    ensures OnlyChanged(a, c, all)
  {
  }

  /** A write confined to `keys` leaves every typed view of another key as
      it was. */
  lemma OnlyChangedViews(data: map<string, Value>, data': map<string, Value>, keys: set<string>)
    requires OnlyChanged(data, data', keys)
    ensures C.TasksKey !in keys ==> TasksIn(data') == TasksIn(data)
    ensures C.SessionsKey !in keys ==> SessionsIn(data') == SessionsIn(data)
    ensures C.TaskTimeEntriesKey !in keys ==> EntriesIn(data') == EntriesIn(data)
    ensures C.DomainVisitsKey !in keys ==> VisitsIn(data') == VisitsIn(data)
    ensures C.SettingsKey !in keys ==> SettingsIn(data') == SettingsIn(data)
    ensures C.TimerStateKey !in keys ==> TimerStateIn(data') == TimerStateIn(data)
  {
    assert C.TasksKey !in keys ==> Lookup(data', C.TasksKey) == Lookup(data, C.TasksKey);
    assert C.SessionsKey !in keys ==> Lookup(data', C.SessionsKey) == Lookup(data, C.SessionsKey);
    assert C.TaskTimeEntriesKey !in keys ==> Lookup(data', C.TaskTimeEntriesKey) == Lookup(data, C.TaskTimeEntriesKey);
    assert C.DomainVisitsKey !in keys ==> Lookup(data', C.DomainVisitsKey) == Lookup(data, C.DomainVisitsKey);
    assert C.SettingsKey !in keys ==> Lookup(data', C.SettingsKey) == Lookup(data, C.SettingsKey);
    assert C.TimerStateKey !in keys ==> Lookup(data', C.TimerStateKey) == Lookup(data, C.TimerStateKey);
  }

  /** The store itself: `chrome.storage.local` seen as one mutable map. */
  class Store {
    var data: map<string, Value>

    constructor (initial: map<string, Value>)
      ensures data == initial
    {
      data := initial;
    }

    /** `get(key)`. */
    function Get(key: string): (r: Option<Value>)
      reads this
      ensures r.None? <==> key !in data
      ensures r.Some? ==> r.value == data[key]
    {
      Lookup(data, key)
    }

    /** `set(key, value)`. */
    method Set(key: string, value: Value)
      modifies this
      ensures data == old(data)[key := value]
      ensures Get(key) == Some(value)
      ensures OnlyChanged(old(data), data, {key})
    {
      data := data[key := value];
    }

    function Tasks(): seq<Task> reads this { TasksIn(data) }
    function Sessions(): seq<Session> reads this { SessionsIn(data) }
    function TaskTimeEntries(): seq<TaskTimeEntry> reads this { EntriesIn(data) }
    function DomainVisits(): seq<DomainVisit> reads this { VisitsIn(data) }
    function Settings(): Records.Settings reads this { SettingsIn(data) }
    function TimerState(): Records.TimerState reads this { TimerStateIn(data) }

    method SaveTasks(tasks: seq<Task>)
      modifies this
      ensures data == old(data)[C.TasksKey := TasksValue(tasks)]
      ensures Tasks() == tasks
    {
      Set(C.TasksKey, TasksValue(tasks));
    }

    method SaveSessions(sessions: seq<Session>)
      modifies this
      ensures data == old(data)[C.SessionsKey := SessionsValue(sessions)]
      ensures Sessions() == sessions
    {
      Set(C.SessionsKey, SessionsValue(sessions));
    }

    method SaveTaskTimeEntries(entries: seq<TaskTimeEntry>)
      modifies this
      ensures data == old(data)[C.TaskTimeEntriesKey := EntriesValue(entries)]
      ensures TaskTimeEntries() == entries
    {
      Set(C.TaskTimeEntriesKey, EntriesValue(entries));
    }

    method SaveDomainVisits(visits: seq<DomainVisit>)
      modifies this
      ensures data == old(data)[C.DomainVisitsKey := VisitsValue(visits)]
      ensures DomainVisits() == visits
    {
      Set(C.DomainVisitsKey, VisitsValue(visits));
    }

    /** `saveSettings` writes whatever object it is given, possibly partial. */
    method SaveSettings(settings: StoredSettings)
      modifies this
      ensures data == old(data)[C.SettingsKey := SettingsValue(settings)]
      ensures Settings() == MergeSettings(settings)
    {
      Set(C.SettingsKey, SettingsValue(settings));
    }

    method SaveTimerState(state: Records.TimerState)
      modifies this
      ensures data == old(data)[C.TimerStateKey := TimerStateValue(StoreTimerState(state))]
      ensures TimerState() == state
    {
      Set(C.TimerStateKey, TimerStateValue(StoreTimerState(state)));
    }
  }

  /** A set followed by a get of the same key returns the value; every other
      key reads as before. */
  lemma SetThenGet(data: map<string, Value>, key: string, value: Value, other: string)
    ensures Lookup(data[key := value], key) == Some(value)
    ensures other != key ==> Lookup(data[key := value], other) == Lookup(data, other)
  {
  }

  /** With nothing stored, every collection getter returns the empty sequence. */
  lemma EmptyCollectionsByDefault(data: map<string, Value>)
    requires C.TasksKey !in data && C.SessionsKey !in data
    requires C.TaskTimeEntriesKey !in data && C.DomainVisitsKey !in data
    ensures TasksIn(data) == [] && SessionsIn(data) == []
    ensures EntriesIn(data) == [] && VisitsIn(data) == []
  {
  }

  /** Saving a collection and reading it back gives the same collection. */
  lemma CollectionsRoundTrip(data: map<string, Value>, ts: seq<Task>, ss: seq<Session>,
                             es: seq<TaskTimeEntry>, vs: seq<DomainVisit>)
    ensures TasksIn(data[C.TasksKey := TasksValue(ts)]) == ts
    ensures SessionsIn(data[C.SessionsKey := SessionsValue(ss)]) == ss
    ensures EntriesIn(data[C.TaskTimeEntriesKey := EntriesValue(es)]) == es
    ensures VisitsIn(data[C.DomainVisitsKey := VisitsValue(vs)]) == vs
  {
  }

  /** With nothing stored, the settings are the three default domains and no
      tags; a stored field overrides its default and a missing one does not. */
  lemma SettingsDefaults(data: map<string, Value>, stored: StoredSettings)
    ensures C.SettingsKey !in data ==>
      SettingsIn(data).blockedDomains == ["x.com", "web.whatsapp.com", "mail.google.com"]
      && SettingsIn(data).tags == map[]
    ensures var s := SettingsIn(data[C.SettingsKey := SettingsValue(stored)]);
      && (stored.blockedDomains.Some? ==> s.blockedDomains == stored.blockedDomains.value)
      && (stored.blockedDomains.None? ==> s.blockedDomains == C.DefaultBlockedDomains)
      && (stored.tags.Some? ==> s.tags == stored.tags.value)
      && (stored.tags.None? ==> s.tags == map[])
  {
  }

  /** With nothing stored the timer is idle, with no type, no session and cycle
      position 1; a stored field overrides its default; and a saved state
      reads back unchanged. */
  lemma TimerStateDefaults(data: map<string, Value>, stored: StoredTimerState, ts: TimerState)
    ensures C.TimerStateKey !in data ==>
      var d := TimerStateIn(data);
      d.status == Idle && d.sessionType == None && d.sessionId == None && d.cyclePosition == 1
    ensures var m := TimerStateIn(data[C.TimerStateKey := TimerStateValue(stored)]);
      && (stored.status.Some? ==> m.status == stored.status.value)
      && (stored.status.None? ==> m.status == Idle)
      && (stored.cyclePosition.Some? ==> m.cyclePosition == stored.cyclePosition.value)
      && (stored.cyclePosition.None? ==> m.cyclePosition == 1)
      && m.sessionType == stored.sessionType && m.sessionId == stored.sessionId
    ensures TimerStateIn(data[C.TimerStateKey := TimerStateValue(StoreTimerState(ts))]) == ts
  {
  }
}
