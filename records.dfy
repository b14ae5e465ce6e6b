/** The records the extension persists and passes around. Timestamps are whole
    seconds since the epoch; identifiers are the strings `crypto.randomUUID`
    produces. */
module Records {
  import opened Prelude

  type Id = string
  type Timestamp = int

  /** A session type as the messages carry it: the three known types, or any
      other string (which has no duration and no statistics). */
  datatype SessionType = Focus | ShortBreak | LongBreak | Other(name: string)

  /** `timerState.status`. */
  datatype Status = Idle | Running

  /** `session.status` in the ledger: 'running' while open, then 'completed'. */
  datatype SessionStatus = Ongoing | Completed

  /** One row of the append-only session ledger. */
  datatype Session = Session(
    id: Id,
    sessionType: SessionType,
    startedAt: Timestamp,
    endedAt: Option<Timestamp>,
    status: SessionStatus,
    cyclePosition: int)

  /** The singleton timer state. `duration` is null while idle; `alarmFired`
      marks overtime. */
  datatype TimerState = TimerState(
    status: Status,
    sessionType: Option<SessionType>,
    startedAt: Option<Timestamp>,
    duration: Option<int>,
    cyclePosition: int,
    sessionId: Option<Id>,
    alarmFired: bool)

  datatype Column = Todo | Doing | Done | Cleared

  datatype Task = Task(
    id: Id,
    title: string,
    tag: Option<string>,
    column: Column,
    order: int,
    createdAt: Timestamp,
    completedAt: Option<Timestamp>)

  /** Time spent on one task during a focus session; open while `endedAt` is null. */
  datatype TaskTimeEntry = TaskTimeEntry(
    id: Id,
    taskId: Id,
    sessionId: Option<Id>,
    startedAt: Timestamp,
    endedAt: Option<Timestamp>)

  /** Time spent on one hostname during a break; open while `endedAt` is null. */
  datatype DomainVisit = DomainVisit(
    id: Id,
    sessionId: Option<Id>,
    domain: string,
    startedAt: Timestamp,
    endedAt: Option<Timestamp>)

  datatype TagInfo = TagInfo(displayName: string, color: string)

  datatype Settings = Settings(blockedDomains: seq<string>, tags: map<string, TagInfo>)
}
