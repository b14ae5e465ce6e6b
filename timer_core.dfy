/** The Pomodoro session state machine (`shared/timer-core.js`): one timer
    state and an append-only session ledger, both kept in the store. */
module TimerCore {
  import opened Prelude
  import opened Records
  import C = Constants
  import opened Storage

  /** Nominal length of a session type, in seconds; unknown types have none. */
  function GetDuration(t: SessionType): (d: nat)
    ensures d == 0 <==> t.Other?
    ensures t == Focus ==> d == 1500
    ensures t == ShortBreak ==> d == 300
    ensures t == LongBreak ==> d == 900
  {
    match t
    case Focus => C.FocusDuration
    case ShortBreak => C.ShortBreakDuration
    case LongBreak => C.LongBreakDuration
    case Other(_) => 0
  }

  /** Seconds since the session started. A null start reads as the epoch
      (`new Date(null)`), a null duration as 0. */
  function Elapsed(ts: TimerState, now: Timestamp): int {
    now - ts.startedAt.GetOr(0)
  }

  /** Seconds left before the nominal end: 0 when not running, otherwise
      `max(0, duration - elapsed)`. */
  function GetRemaining(ts: TimerState, now: Timestamp): (r: int)
    ensures r >= 0
    ensures ts.status != Running ==> r == 0
    ensures ts.status == Running ==>
      r >= ts.duration.GetOr(0) - Elapsed(ts, now)
      && (r == 0 || r == ts.duration.GetOr(0) - Elapsed(ts, now))
    ensures ts.status == Running && Elapsed(ts, now) >= 0 && ts.duration.GetOr(0) >= 0 ==>
      r <= ts.duration.GetOr(0)
  {
    if ts.status != Running then 0
    else
      var left := ts.duration.GetOr(0) - Elapsed(ts, now);
      if left > 0 then left else 0
  }

  /** Running past the nominal duration. */
  function IsOvertime(ts: TimerState, now: Timestamp): (b: bool)
    ensures b <==> ts.status == Running && Elapsed(ts, now) >= ts.duration.GetOr(0)
  {
    if ts.status != Running then false else GetRemaining(ts, now) == 0
  }

  /** Index of the first ledger row with the given id (`sessions.find`). */
  function FindSession(ledger: seq<Session>, id: Option<Id>): (r: Option<nat>)
    ensures r.Some? ==> r.value < |ledger| && Some(ledger[r.value].id) == id
    ensures r.Some? ==> forall j :: 0 <= j < r.value ==> Some(ledger[j].id) != id
    ensures r.None? ==> forall j :: 0 <= j < |ledger| ==> Some(ledger[j].id) != id
  {
    FirstIndex(ledger, (s: Session) => Some(s.id) == id)
  }

  /** Cycle position after stopping: advanced (modulo the long-break threshold,
      with JavaScript's `%`) only when the stopped session was a focus session. */
  function NextCyclePosition(ts: TimerState): (p: int)
    ensures ts.sessionType != Some(Focus) ==> p == ts.cyclePosition
    ensures 1 <= ts.cyclePosition <= C.LongBreakAfter ==> 1 <= p <= C.LongBreakAfter
    ensures ts.sessionType == Some(Focus) && 1 <= ts.cyclePosition < C.LongBreakAfter ==>
      p == ts.cyclePosition + 1
    ensures ts.sessionType == Some(Focus) && ts.cyclePosition == C.LongBreakAfter ==> p == 1
  {
    if ts.sessionType == Some(Focus) then JsRem(ts.cyclePosition, C.LongBreakAfter) + 1
    else ts.cyclePosition
  }

  /** The state every stop leaves behind. */
  function IdleState(cyclePosition: int): TimerState {
    TimerState(Idle, None, None, None, cyclePosition, None, false)
  }

  datatype StopOutcome = StopOutcome(state: TimerState, ledger: seq<Session>, closed: Option<Session>)

  /** What `stopSession` does to the timer state and the ledger. */
  function Stopped(ts: TimerState, ledger: seq<Session>, now: Timestamp): (r: StopOutcome)
    ensures ts.status != Running ==> r == StopOutcome(ts, ledger, None)
    ensures ts.status == Running ==>
      && r.state.status == Idle && r.state.sessionType.None? && r.state.sessionId.None?
      && r.state.startedAt.None? && r.state.duration.None? && !r.state.alarmFired
      && r.state.cyclePosition == NextCyclePosition(ts)
    ensures |r.ledger| == |ledger|
    ensures ts.status == Running ==>
      match FindSession(ledger, ts.sessionId)
      case None => r.ledger == ledger && r.closed.None?
      case Some(i) =>
        && r.ledger[i] == ledger[i].(endedAt := Some(now), status := Completed)
        && r.closed == Some(r.ledger[i])
        && (forall j :: 0 <= j < |ledger| && j != i ==> r.ledger[j] == ledger[j])
  {
    if ts.status != Running then StopOutcome(ts, ledger, None)
    else
      var state := IdleState(NextCyclePosition(ts));
      match FindSession(ledger, ts.sessionId)
      case None => StopOutcome(state, ledger, None)
      case Some(i) =>
        var row := ledger[i].(endedAt := Some(now), status := Completed);
        StopOutcome(state, ledger[i := row], Some(row))
  }

  datatype StartOutcome = StartOutcome(state: TimerState, ledger: seq<Session>, session: Session)

  /** What `startSession` does: an implicit stop of a running session, then
      one new running ledger row and a running timer state. */
  function Started(ts: TimerState, ledger: seq<Session>, t: SessionType, now: Timestamp, id: Id): (r: StartOutcome)
    ensures r.ledger == Stopped(ts, ledger, now).ledger + [r.session]
    ensures r.session.id == id && r.session.sessionType == t && r.session.startedAt == now
    ensures r.session.endedAt.None? && r.session.status == Ongoing
    ensures r.state.status == Running && r.state.sessionType == Some(t) && r.state.startedAt == Some(now)
    ensures r.state.duration == Some(GetDuration(t)) && !r.state.alarmFired && r.state.sessionId == Some(id)
    ensures var p := Stopped(ts, ledger, now).state.cyclePosition;
      && r.state.cyclePosition == (if p == 0 then 1 else p)
      && r.session.cyclePosition == (if t == Focus then r.state.cyclePosition else p)
  {
    var current := Stopped(ts, ledger, now);
    var cs := current.state;
    var position := if cs.cyclePosition == 0 then 1 else cs.cyclePosition;
    var session := Session(id, t, now, None, Ongoing, if t == Focus then position else cs.cyclePosition);
    StartOutcome(
      TimerState(Running, Some(t), Some(now), Some(GetDuration(t)), position, Some(id), false),
      current.ledger + [session],
      session)
  }

  /** What `onAlarmFired` does: nothing when idle, otherwise only the overtime flag. */
  function AlarmFired(ts: TimerState): (r: Option<TimerState>)
    ensures r.None? <==> ts.status != Running
    ensures r.Some? ==> r.value.alarmFired && r.value.(alarmFired := ts.alarmFired) == ts
  {
    if ts.status != Running then None else Some(ts.(alarmFired := true))
  }

  /** No two ledger rows share an id. */
  ghost predicate UniqueIds(ledger: seq<Session>) {
    forall i, j :: 0 <= i < j < |ledger| ==> ledger[i].id != ledger[j].id
  }

  /** The state machine's invariant: an idle timer has no type and no session;
      a running one has a type, a start, the nominal duration and a running
      ledger row; the only running row is the current session; the cycle
      position lies in 1..4. */
  ghost predicate Consistent(ts: TimerState, ledger: seq<Session>) {
    && 1 <= ts.cyclePosition <= C.LongBreakAfter
    && UniqueIds(ledger)
    && (ts.status == Idle ==>
          ts.sessionType.None? && ts.sessionId.None? && ts.startedAt.None? && !ts.alarmFired)
    && (ts.status == Running ==>
          && ts.sessionType.Some? && ts.startedAt.Some?
          && ts.duration == Some(GetDuration(ts.sessionType.value))
          && FindSession(ledger, ts.sessionId).Some?
          && ledger[FindSession(ledger, ts.sessionId).value].status == Ongoing)
    && (forall i :: 0 <= i < |ledger| && ledger[i].status == Ongoing ==>
          ts.status == Running && ts.sessionId == Some(ledger[i].id))
  }

  /** The store the extension starts from satisfies the invariant. */
  lemma DefaultIsConsistent()
    ensures Consistent(DefaultTimerState, [])
  {
  }

  /** Stopping keeps the invariant and leaves no running row in the ledger. */
  lemma {:induction false} StopKeepsConsistent(ts: TimerState, ledger: seq<Session>, now: Timestamp)
    requires Consistent(ts, ledger)
    ensures var r := Stopped(ts, ledger, now); Consistent(r.state, r.ledger)
    ensures ts.status == Running ==>
      var r := Stopped(ts, ledger, now);
      r.closed.Some? && r.closed.value.status == Completed && r.closed.value.endedAt == Some(now)
      && (forall i :: 0 <= i < |r.ledger| ==> r.ledger[i].status == Completed)
  {
    var r := Stopped(ts, ledger, now);
    if ts.status == Running {
      var i := FindSession(ledger, ts.sessionId).value;
      forall j | 0 <= j < |r.ledger|
        ensures r.ledger[j].status == Completed
      {
        if j != i {
          assert r.ledger[j] == ledger[j];
          assert ledger[j].id != ledger[i].id by {
            if j < i { assert ledger[j].id != ledger[i].id; } else { assert ledger[i].id != ledger[j].id; }
          }
        }
      }
      assert UniqueIds(r.ledger) by {
        forall a, b | 0 <= a < b < |r.ledger| ensures r.ledger[a].id != r.ledger[b].id {
          assert r.ledger[a].id == ledger[a].id && r.ledger[b].id == ledger[b].id;
        }
      }
    }
  }

  /** Starting with a fresh id keeps the invariant: the ledger grew by exactly
      one row, and that row is the only running one. */
  lemma {:induction false} StartKeepsConsistent(ts: TimerState, ledger: seq<Session>, t: SessionType, now: Timestamp, id: Id)
    requires Consistent(ts, ledger)
    requires forall i :: 0 <= i < |ledger| ==> ledger[i].id != id
    ensures var r := Started(ts, ledger, t, now, id); Consistent(r.state, r.ledger)
    ensures var r := Started(ts, ledger, t, now, id);
      |r.ledger| == |ledger| + 1
      && forall i :: 0 <= i < |r.ledger| ==> (r.ledger[i].status == Ongoing <==> i == |ledger|)
  {
    var s := Stopped(ts, ledger, now);
    StopKeepsConsistent(ts, ledger, now);
    var r := Started(ts, ledger, t, now, id);
    assert s.state.status == Idle ==> forall i :: 0 <= i < |s.ledger| ==> s.ledger[i].status == Completed;
    assert forall i :: 0 <= i < |s.ledger| ==> s.ledger[i].id == ledger[i].id;
    assert r.ledger == s.ledger + [r.session];
    assert FindSession(r.ledger, Some(id)) == Some(|ledger|) by {
      FindAfterFresh(s.ledger, r.session);
    }
    assert UniqueIds(r.ledger);
  }

  /** The first row with a fresh id appended last is that row. */
  lemma {:induction false} FindAfterFresh(ledger: seq<Session>, row: Session)
    requires forall i :: 0 <= i < |ledger| ==> ledger[i].id != row.id
    ensures FindSession(ledger + [row], Some(row.id)) == Some(|ledger|)
    decreases |ledger|
  {
    if |ledger| > 0 {
      assert (ledger + [row])[1..] == ledger[1..] + [row];
      FindAfterFresh(ledger[1..], row);
    }
  }

  /** Firing the alarm keeps the invariant and makes no other change. */
  lemma AlarmKeepsConsistent(ts: TimerState, ledger: seq<Session>)
    requires Consistent(ts, ledger)
    ensures AlarmFired(ts).Some? ==> Consistent(AlarmFired(ts).value, ledger)
  {
  }

  /** Right after a start no time has elapsed, so the whole nominal duration
      remains and the session is not in overtime unless it has no duration. */
  lemma StartThenRemaining(ts: TimerState, ledger: seq<Session>, t: SessionType, now: Timestamp, id: Id)
    ensures var s := Started(ts, ledger, t, now, id).state;
      GetRemaining(s, now) == GetDuration(t) && (IsOvertime(s, now) <==> t.Other?)
  {
  }

  /** One focus session started and stopped at once, from an idle timer. */
  function FocusRound(ts: TimerState, ledger: seq<Session>, now: Timestamp, id: Id): StopOutcome {
    var r := Started(ts, ledger, Focus, now, id);
    Stopped(r.state, r.ledger, now)
  }

  /** A focus start/stop pair advances the cycle position by one, wrapping
      from 4 to 1, and records the position it ran at. */
  lemma FocusRoundAdvances(ts: TimerState, ledger: seq<Session>, now: Timestamp, id: Id)
    requires ts.status == Idle && 1 <= ts.cyclePosition <= C.LongBreakAfter
    ensures var r := FocusRound(ts, ledger, now, id);
      && r.state.status == Idle
      && r.state.cyclePosition == (if ts.cyclePosition == C.LongBreakAfter then 1 else ts.cyclePosition + 1)
      && |r.ledger| == |ledger| + 1
      && r.ledger[|ledger|].sessionType == Focus
      && r.ledger[|ledger|].cyclePosition == ts.cyclePosition
  {
    var s := Started(ts, ledger, Focus, now, id);
    assert Stopped(ts, ledger, now).ledger == ledger;
    assert s.ledger[|ledger|].id == id;
    var found := FindSession(s.ledger, Some(id));
    assert found.Some?;
    var i := found.value;
    assert s.ledger[|ledger|] == s.session;
    if i < |ledger| {
      assert s.ledger[i] == ledger[i];
    }
  }

  /** A session of any other type, started and stopped at once from an idle
      timer, leaves the cycle position where it was and records that position. */
  lemma BreakRoundKeepsPosition(ts: TimerState, ledger: seq<Session>, t: SessionType, now: Timestamp, id: Id)
    requires ts.status == Idle && 1 <= ts.cyclePosition <= C.LongBreakAfter
    requires t != Focus
    ensures var s := Started(ts, ledger, t, now, id);
      var r := Stopped(s.state, s.ledger, now);
      && r.state.status == Idle
      && r.state.cyclePosition == ts.cyclePosition
      && |r.ledger| == |ledger| + 1
      && r.ledger[|ledger|].sessionType == t
      && r.ledger[|ledger|].cyclePosition == ts.cyclePosition
  {
    var s := Started(ts, ledger, t, now, id);
    assert Stopped(ts, ledger, now).ledger == ledger;
    assert s.ledger[|ledger|] == s.session;
    var found := FindSession(s.ledger, Some(id));
    assert found.Some?;
    if found.value < |ledger| {
      assert s.ledger[found.value] == ledger[found.value];
    }
  }

  /** Four focus sessions, each stopped at once, return the cycle position to
      where it started; starting from 1, a long break is suggested next. */
  lemma FourFocusRounds(ts: TimerState, ledger: seq<Session>, now: Timestamp, a: Id, b: Id, c: Id, d: Id)
    requires ts.status == Idle && 1 <= ts.cyclePosition <= C.LongBreakAfter
    ensures var r1 := FocusRound(ts, ledger, now, a);
      var r2 := FocusRound(r1.state, r1.ledger, now, b);
      var r3 := FocusRound(r2.state, r2.ledger, now, c);
      var r4 := FocusRound(r3.state, r3.ledger, now, d);
      && r4.state.cyclePosition == ts.cyclePosition
      && (ts.cyclePosition == 1 ==> SuggestedNext(r4.state, r4.ledger) == LongBreak)
  {
    var r1 := FocusRound(ts, ledger, now, a);
    FocusRoundAdvances(ts, ledger, now, a);
    var r2 := FocusRound(r1.state, r1.ledger, now, b);
    FocusRoundAdvances(r1.state, r1.ledger, now, b);
    var r3 := FocusRound(r2.state, r2.ledger, now, c);
    FocusRoundAdvances(r2.state, r2.ledger, now, c);
    var r4 := FocusRound(r3.state, r3.ledger, now, d);
    FocusRoundAdvances(r3.state, r3.ledger, now, d);
  }

  /** The suggested next session type (`getSuggestedNext`). A long break is
      inferred from the last ledger row's recorded position, not from the
      timer's own position. */
  function SuggestedNext(ts: TimerState, ledger: seq<Session>): (r: SessionType)
    ensures var position := if ts.cyclePosition == 0 then 1 else ts.cyclePosition;
      r == LongBreak <==>
        ts.status == Idle && position == 1 && |ledger| > 0
        && ledger[|ledger| - 1].sessionType == Focus
        && ledger[|ledger| - 1].cyclePosition == C.LongBreakAfter
    ensures ts.status == Running ==> r == Focus
    ensures ts.status == Idle && r != LongBreak ==>
      (r == Focus <==> |ledger| == 0 || ledger[|ledger| - 1].sessionType != Focus)
    ensures r == Focus || r == ShortBreak || r == LongBreak
  {
    var position := if ts.cyclePosition == 0 then 1 else ts.cyclePosition;
    var last := if |ledger| == 0 then None else Some(ledger[|ledger| - 1]);
    if position == 1 && ts.status == Idle && last.Some? && last.value.sessionType == Focus
       && last.value.cyclePosition == C.LongBreakAfter then LongBreak
    else if ts.status == Idle then
      (if last.None? || last.value.sessionType != Focus then Focus else ShortBreak)
    else Focus
  }

  // --- Streak ---

  const SecondsPerDay: nat := 86400

  /** The calendar day (a day number) a timestamp falls on. */
  function DayOf(t: Timestamp): int {
    t / SecondsPerDay
  }

  predicate IsCompletedFocus(s: Session) {
    s.sessionType == Focus && s.status == Completed
  }

  /** The days the given sessions started on. */
  function DaysOf(sessions: seq<Session>): (days: set<int>)
    ensures forall i :: 0 <= i < |sessions| ==> DayOf(sessions[i].startedAt) in days
    ensures forall d :: d in days ==> exists i :: 0 <= i < |sessions| && DayOf(sessions[i].startedAt) == d
    decreases |sessions|
  {
    if |sessions| == 0 then {}
    else
      var init := sessions[..|sessions| - 1];
      var days := DaysOf(init);
      assert forall i :: 0 <= i < |init| ==> init[i] == sessions[i];
      days + {DayOf(sessions[|sessions| - 1].startedAt)}
  }

  /** Days with at least one completed focus session. */
  function FocusDays(ledger: seq<Session>): set<int> {
    DaysOf(Filter(ledger, IsCompletedFocus))
  }

  /** How many consecutive days, counting back from `day`, are all in
      `days`, scanning at most `fuel` days. */
  function RunLength(days: set<int>, day: int, fuel: nat): (n: nat)
    ensures n <= fuel
    ensures forall x :: day - n < x <= day ==> x in days
    ensures n < fuel ==> day - n !in days
    ensures n == 0 <==> fuel == 0 || day !in days
    decreases fuel
  {
    if fuel == 0 || day !in days then 0 else 1 + RunLength(days, day - 1, fuel - 1)
  }

  const StreakScanLimit: nat := 365

  /** The current streak over a set of days: 0 unless `today` or the day
      before is in the set; otherwise the run of consecutive days of the set
      ending there, scanning at most `limit` days. */
  function StreakFrom(days: set<int>, today: int, limit: nat): (n: nat)
    requires limit > 0
    ensures n <= limit
    ensures n == 0 <==> today !in days && today - 1 !in days
    ensures n > 0 ==>
      var start := if today in days then today else today - 1;
      (forall x :: start - n < x <= start ==> x in days)
      && (n < limit ==> start - n !in days)
  {
    if today in days then RunLength(days, today, limit)
    else if today - 1 in days then RunLength(days, today - 1, limit)
    else 0
  }

  /** `getStreak()`: the streak over the days with a completed focus session. */
  function Streak(ledger: seq<Session>, today: int): (r: nat)
    ensures r <= StreakScanLimit
  {
    StreakFrom(FocusDays(ledger), today, StreakScanLimit)
  }

  /** Some completed focus session of the ledger started on day `d`. */
  ghost predicate FocusOn(ledger: seq<Session>, d: int) {
    exists i :: 0 <= i < |ledger| && IsCompletedFocus(ledger[i]) && DayOf(ledger[i].startedAt) == d
  }

  lemma FocusDaysMembers(ledger: seq<Session>, d: int)
    ensures d in FocusDays(ledger) <==> FocusOn(ledger, d)
  {
    var focus := Filter(ledger, IsCompletedFocus);
    if d in FocusDays(ledger) {
      var j :| 0 <= j < |focus| && DayOf(focus[j].startedAt) == d;
      assert focus[j] in ledger;
      var i :| 0 <= i < |ledger| && ledger[i] == focus[j];
      assert IsCompletedFocus(ledger[i]);
    }
    if FocusOn(ledger, d) {
      var i :| 0 <= i < |ledger| && IsCompletedFocus(ledger[i]) && DayOf(ledger[i].startedAt) == d;
      assert ledger[i] in focus;
      var j :| 0 <= j < |focus| && focus[j] == ledger[i];
    }
  }

  /** `getStreak` in terms of the ledger: at most 365; 0 exactly when neither
      today nor yesterday has a completed focus session; otherwise every one
      of the counted days has one, and (below the cap) the day before the
      run has none. */
  lemma StreakMeaning(ledger: seq<Session>, today: int)
    ensures Streak(ledger, today) <= StreakScanLimit
    ensures Streak(ledger, today) == 0 <==> !FocusOn(ledger, today) && !FocusOn(ledger, today - 1)
    ensures var n := Streak(ledger, today);
      var start := if FocusOn(ledger, today) then today else today - 1;
      n > 0 ==>
        && (forall x :: start - n < x <= start ==> FocusOn(ledger, x))
        && (n < StreakScanLimit ==> !FocusOn(ledger, start - n))
  {
    forall d | true
      ensures d in FocusDays(ledger) <==> FocusOn(ledger, d)
    {
      FocusDaysMembers(ledger, d);
    }
  }

  // --- Operations on the store ---

  /** `startSession(type)`. */
  method StartSession(store: Store, t: SessionType, now: Timestamp, sessionId: Id)
    returns (state: TimerState, session: Session)
    modifies store
    ensures var r := Started(old(store.TimerState()), old(store.Sessions()), t, now, sessionId);
      store.TimerState() == r.state && store.Sessions() == r.ledger && state == r.state && session == r.session
    ensures OnlyChanged(old(store.data), store.data, {C.TimerStateKey, C.SessionsKey})
  {
    var ts := store.TimerState();
    if ts.status == Running {
      var _ := StopSession(store, now);
    }
    var current := store.TimerState();
    var cyclePosition := if current.cyclePosition == 0 then 1 else current.cyclePosition;
    session := Session(sessionId, t, now, None, Ongoing,
                       if t == Focus then cyclePosition else current.cyclePosition);
    var sessions := store.Sessions();
    sessions := sessions + [session];
    store.SaveSessions(sessions);
    state := TimerState(Running, Some(t), Some(now), Some(GetDuration(t)), cyclePosition, Some(sessionId), false);
    store.SaveTimerState(state);
  }

  /** `stopSession()`: returns the closed ledger row, or null when idle (and
      then writes nothing). */
  method StopSession(store: Store, now: Timestamp) returns (closed: Option<Session>)
    modifies store
    ensures var r := Stopped(old(store.TimerState()), old(store.Sessions()), now);
      store.TimerState() == r.state && store.Sessions() == r.ledger && closed == r.closed
    ensures old(store.TimerState()).status != Running ==> store.data == old(store.data)
    ensures OnlyChanged(old(store.data), store.data, {C.TimerStateKey, C.SessionsKey})
  {
    var ts := store.TimerState();
    if ts.status != Running {
      return None;
    }
    var sessions := store.Sessions();
    var found := FindSession(sessions, ts.sessionId);
    closed := None;
    if found.Some? {
      var i := found.value;
      sessions := sessions[i := sessions[i].(endedAt := Some(now), status := Completed)];
      store.SaveSessions(sessions);
      closed := Some(sessions[i]);
    }
    var nextCyclePosition := ts.cyclePosition;
    if ts.sessionType == Some(Focus) {
      nextCyclePosition := JsRem(ts.cyclePosition, C.LongBreakAfter) + 1;
    }
    store.SaveTimerState(IdleState(nextCyclePosition));
  }

  /** `onAlarmFired()`: flags overtime; the session keeps running. */
  method OnAlarmFired(store: Store) returns (state: Option<TimerState>)
    modifies store
    ensures state == AlarmFired(old(store.TimerState()))
    ensures state.Some? ==> store.TimerState() == state.value
    ensures state.None? ==> store.data == old(store.data)
    ensures OnlyChanged(old(store.data), store.data, {C.TimerStateKey})
  {
    var ts := store.TimerState();
    if ts.status != Running {
      return None;
    }
    ts := ts.(alarmFired := true);
    store.SaveTimerState(ts);
    state := Some(ts);
  }

  /** `getStreak()`, with today's day number passed in. */
  method GetStreak(store: Store, today: int) returns (streak: nat)
    ensures streak == Streak(store.Sessions(), today)
  {
    var sessions := store.Sessions();
    var focusSessions := Filter(sessions, IsCompletedFocus);
    if |focusSessions| == 0 {
      return 0;
    }
    var days := CollectDays(focusSessions);
    var checkDate := today;
    if today !in days {
      checkDate := today - 1;
      if checkDate !in days {
        return 0;
      }
    }
    streak := CountBack(days, checkDate);
  }

  /** The set of days `getStreak` builds from the completed focus sessions. */
  method CollectDays(focusSessions: seq<Session>) returns (days: set<int>)
    ensures days == DaysOf(focusSessions)
  {
    days := {};
    for i := 0 to |focusSessions|
      invariant days == DaysOf(focusSessions[..i])
    {
      assert focusSessions[..i + 1][..i] == focusSessions[..i];
      days := days + {DayOf(focusSessions[i].startedAt)};
    }
    assert focusSessions[..|focusSessions|] == focusSessions;
  }

  /** The backward scan of `getStreak`: count consecutive days of `days`
      from `start` down, stopping at the first gap or after 365 days. */
  method CountBack(days: set<int>, start: int) returns (streak: nat)
    ensures streak == RunLength(days, start, StreakScanLimit)
  {
    var checkDate := start;
    streak := 0;
    for i := 0 to StreakScanLimit
      invariant streak == i && checkDate == start - i
      invariant RunLength(days, start, StreakScanLimit) == i + RunLength(days, checkDate, StreakScanLimit - i)
    {
      if checkDate in days {
        streak := streak + 1;
        checkDate := checkDate - 1;
      } else {
        break;
      }
    }
  }
}
