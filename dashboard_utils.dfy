/** Dashboard statistics (`shared/dashboard-utils.js`): folds over sessions,
    task-time entries and domain visits. A record's start and end are read
    through accessor functions, standing for the source's field-name
    arguments; timestamps are whole seconds. */
module DashboardUtils {
  import opened Prelude
  import opened Records

  // --- Accessors ---

  function SessionStart(s: Session): Timestamp { s.startedAt }
  function SessionEnd(s: Session): Option<Timestamp> { s.endedAt }
  function EntryStart(e: TaskTimeEntry): Timestamp { e.startedAt }
  function EntryEnd(e: TaskTimeEntry): Option<Timestamp> { e.endedAt }
  function VisitStart(v: DomainVisit): Timestamp { v.startedAt }
  function VisitEnd(v: DomainVisit): Option<Timestamp> { v.endedAt }

  // --- Filtering ---

  /** `filterByDateRange(items, startField, rangeStart, rangeEnd)`: the items
      whose start lies in the closed range, in their original order. */
  function FilterByDateRange<T(!new)>(items: seq<T>, start: T -> Timestamp, rangeStart: Timestamp, rangeEnd: Timestamp): (r: seq<T>)
    ensures forall i :: 0 <= i < |r| ==> rangeStart <= start(r[i]) <= rangeEnd && r[i] in items
    ensures forall i :: 0 <= i < |items| && rangeStart <= start(items[i]) <= rangeEnd ==> items[i] in r
    ensures forall x :: multiset(r)[x] == if rangeStart <= start(x) <= rangeEnd then multiset(items)[x] else 0
    ensures SubsequenceOf(r, items)
  {
    FilterIsSubsequence(items, (x: T) => rangeStart <= start(x) <= rangeEnd);
    FilterCounts(items, (x: T) => rangeStart <= start(x) <= rangeEnd);
    Filter(items, (x: T) => rangeStart <= start(x) <= rangeEnd)
  }

  // --- Interval sums ---

  /** The seconds an item covers: `end - start`, or nothing while it is open. */
  function Duration<T>(x: T, start: T -> Timestamp, end: T -> Option<Timestamp>): int {
    if end(x).None? then 0 else end(x).value - start(x)
  }

  /** `sumDuration(items, startField, endField)`: the `reduce` from the left,
      written from the last element. */
  function SumDuration<T>(items: seq<T>, start: T -> Timestamp, end: T -> Option<Timestamp>): int
    decreases |items|
  {
    if |items| == 0 then 0
    else SumDuration(items[..|items| - 1], start, end) + Duration(items[|items| - 1], start, end)
  }

  /** One more item adds its own interval to the sum. */
  lemma SumDurationSnoc<T>(items: seq<T>, x: T, start: T -> Timestamp, end: T -> Option<Timestamp>)
    ensures SumDuration(items + [x], start, end) == SumDuration(items, start, end) + Duration(x, start, end)
  {
    assert (items + [x])[..|items + [x]| - 1] == items;
  }

  /** The sum over a concatenation is the sum of the sums. */
  lemma {:induction false} SumDurationAppend<T>(a: seq<T>, b: seq<T>, start: T -> Timestamp, end: T -> Option<Timestamp>)
    ensures SumDuration(a + b, start, end) == SumDuration(a, start, end) + SumDuration(b, start, end)
    decreases |b|
  {
    if |b| == 0 {
      assert a + b == a;
    } else {
      var b' := b[..|b| - 1];
      assert (a + b)[..|a + b| - 1] == a + b';
      SumDurationAppend(a, b', start, end);
    }
  }

  /** An item is closed once it has an end. */
  function IsClosed<T>(end: T -> Option<Timestamp>): T -> bool {
    (x: T) => end(x).Some?
  }

  /** Open items add nothing: the sum is the sum over the closed items alone. */
  lemma {:induction false} SumDurationOnlyClosed<T>(items: seq<T>, start: T -> Timestamp, end: T -> Option<Timestamp>)
    ensures SumDuration(items, start, end) == SumDuration(Filter(items, IsClosed(end)), start, end)
    decreases |items|
  {
    if |items| > 0 {
      var init := items[..|items| - 1];
      var x := items[|items| - 1];
      SumDurationOnlyClosed(init, start, end);
      var f := Filter(init, IsClosed(end));
      if end(x).Some? {
        assert Filter(items, IsClosed(end)) == f + [x];
        assert (f + [x])[..|f + [x]| - 1] == f;
      } else {
        assert Filter(items, IsClosed(end)) == f;
      }
    }
  }

  /** When no closed item ends before it starts, the sum is not negative. */
  lemma {:induction false} SumDurationNonNegative<T>(items: seq<T>, start: T -> Timestamp, end: T -> Option<Timestamp>)
    requires forall i :: 0 <= i < |items| && end(items[i]).Some? ==> start(items[i]) <= end(items[i]).value
    ensures SumDuration(items, start, end) >= 0
    decreases |items|
  {
    if |items| > 0 {
      var init := items[..|items| - 1];
      assert forall i :: 0 <= i < |init| ==> init[i] == items[i];
      SumDurationNonNegative(init, start, end);
    }
  }

  // --- Grouping ---

  /** The group key of a field value: `value || 'untagged'`. */
  function GroupKey(value: Option<string>): (k: string)
    ensures k == "untagged" <==> value.None? || value.value == "" || value.value == "untagged"
  {
    if value.None? || value.value == "" then "untagged" else value.value
  }

  function HasKey<T>(key: T -> string, k: string): T -> bool {
    (x: T) => key(x) == k
  }

  /** The grouping `forEach` builds: each item is pushed onto the group of
      its key, the group being created on first use. */
  function GroupsBy<T>(items: seq<T>, key: T -> string): map<string, seq<T>>
    decreases |items|
  {
    if |items| == 0 then map[]
    else
      var g := GroupsBy(items[..|items| - 1], key);
      var x := items[|items| - 1];
      g[key(x) := (if key(x) in g then g[key(x)] else []) + [x]]
  }

  /** A key's group, or nothing when the key has none. */
  function GroupOf<T>(groups: map<string, seq<T>>, k: string): seq<T> {
    if k in groups then groups[k] else []
  }

  /** Every key's group is the filter of the items on that key, and a key has
      a group exactly when some item has it. */
  lemma {:induction false} GroupIsFilter<T>(items: seq<T>, key: T -> string, k: string)
    ensures GroupOf(GroupsBy(items, key), k) == Filter(items, HasKey(key, k))
    ensures k in GroupsBy(items, key) <==> |Filter(items, HasKey(key, k))| > 0
    decreases |items|
  {
    if |items| > 0 {
      var init := items[..|items| - 1];
      GroupIsFilter(init, key, k);
    }
  }

  /** Grouping is a partition: an item is in the group of its own key, every
      group holds exactly the items with its key in their original order, and
      no group is empty. */
  lemma GroupsPartition<T>(items: seq<T>, key: T -> string)
    ensures forall i :: 0 <= i < |items| ==>
      key(items[i]) in GroupsBy(items, key) && items[i] in GroupsBy(items, key)[key(items[i])]
    ensures forall k :: k in GroupsBy(items, key) ==>
      && GroupsBy(items, key)[k] == Filter(items, HasKey(key, k))
      && |GroupsBy(items, key)[k]| > 0
      && SubsequenceOf(GroupsBy(items, key)[k], items)
  {
    var g := GroupsBy(items, key);
    forall i | 0 <= i < |items|
      ensures key(items[i]) in g && items[i] in g[key(items[i])]
    {
      GroupIsFilter(items, key, key(items[i]));
      assert HasKey(key, key(items[i]))(items[i]);
    }
    forall k | k in g
      ensures g[k] == Filter(items, HasKey(key, k)) && |g[k]| > 0 && SubsequenceOf(g[k], items)
    {
      GroupIsFilter(items, key, k);
      FilterIsSubsequence(items, HasKey(key, k));
    }
  }

  /** `groupByField(items, field)`: each item is pushed onto the group named
      by its field, null and empty values going to `untagged`. */
  function FieldKey<T>(field: T -> Option<string>): T -> string {
    (x: T) => GroupKey(field(x))
  }

  method GroupByField<T>(items: seq<T>, field: T -> Option<string>) returns (groups: map<string, seq<T>>)
    ensures groups == GroupsBy(items, FieldKey(field))
  {
    var key := FieldKey(field);
    groups := map[];
    for i := 0 to |items|
      invariant groups == GroupsBy(items[..i], key)
    {
      var k := key(items[i]);
      assert items[..i + 1][..i] == items[..i];
      if k !in groups {
        groups := groups[k := []];
      }
      groups := groups[k := groups[k] + [items[i]]];
    }
    assert items[..|items|] == items;
  }

  /** One summary per group, for any summary of a group. */
  function Summarize<T, S>(groups: map<string, seq<T>>, summary: seq<T> -> S): map<string, S> {
    map k | k in groups :: summary(groups[k])
  }

  /** Adding one item to a group changes only that group's summary. */
  lemma SummarizeSnoc<T, S>(groups: map<string, seq<T>>, k: string, x: T, summary: seq<T> -> S)
    ensures Summarize(groups[k := GroupOf(groups, k) + [x]], summary)
      == Summarize(groups, summary)[k := summary(GroupOf(groups, k) + [x])]
  {
    var lhs := Summarize(groups[k := GroupOf(groups, k) + [x]], summary);
    var rhs := Summarize(groups, summary)[k := summary(GroupOf(groups, k) + [x])];
    assert lhs.Keys == rhs.Keys;
    forall j | j in lhs
      ensures lhs[j] == rhs[j]
    {
    }
  }

  /** Grouping one more item, seen through `GroupOf`. */
  lemma GroupsBySnoc<T>(items: seq<T>, x: T, key: T -> string)
    ensures var g := GroupsBy(items, key);
      GroupsBy(items + [x], key) == g[key(x) := GroupOf(g, key(x)) + [x]]
  {
    assert (items + [x])[..|items|] == items;
  }

  /** One more item changes the summary of its own key's group only. */
  lemma SummarizeGroupsSnoc<T, S>(items: seq<T>, x: T, key: T -> string, summary: seq<T> -> S)
    ensures var g := GroupsBy(items, key);
      Summarize(GroupsBy(items + [x], key), summary)
        == Summarize(g, summary)[key(x) := summary(GroupOf(g, key(x)) + [x])]
  {
    GroupsBySnoc(items, x, key);
    SummarizeSnoc(GroupsBy(items, key), key(x), x, summary);
  }

  /** A summary is present exactly for the keys with a group, and is that group's summary. */
  lemma SummaryOfGroup<T, S>(g: map<string, seq<T>>, k: string, summary: seq<T> -> S)
    ensures k in Summarize(g, summary) <==> k in g
    ensures k in g ==> Summarize(g, summary)[k] == summary(GroupOf(g, k))
  {
  }

  // --- Session stats ---

  datatype Stat = Stat(count: nat, totalTime: int)
  datatype SessionStats = SessionStats(focus: Stat, shortBreak: Stat, longBreak: Stat)

  function CompletedOfType(sessionType: SessionType): Session -> bool {
    (s: Session) => s.status == Completed && s.sessionType == sessionType
  }

  /** The reference for one type: the completed sessions of that type and the
      sum of their intervals. */
  function TypeStat(sessions: seq<Session>, sessionType: SessionType): Stat {
    var done := Filter(sessions, CompletedOfType(sessionType));
    Stat(|done|, SumDuration(done, SessionStart, SessionEnd))
  }

  function SessionStatsOf(sessions: seq<Session>): SessionStats {
    SessionStats(TypeStat(sessions, Focus), TypeStat(sessions, ShortBreak), TypeStat(sessions, LongBreak))
  }

  /** A session's contribution to one type's stat: one more count and its
      interval when it is a completed session of that type. */
  function AddTo(stat: Stat, s: Session, sessionType: SessionType): Stat {
    if s.status == Completed && s.sessionType == sessionType
    then Stat(stat.count + 1, stat.totalTime + Duration(s, SessionStart, SessionEnd))
    else stat
  }

  /** A session's contribution to all three stats. */
  function AddSession(stats: SessionStats, s: Session): SessionStats {
    SessionStats(AddTo(stats.focus, s, Focus), AddTo(stats.shortBreak, s, ShortBreak),
                 AddTo(stats.longBreak, s, LongBreak))
  }

  /** One more session adds to its own type's stat when it is completed, and
      to nothing otherwise. */
  lemma TypeStatSnoc(sessions: seq<Session>, s: Session, sessionType: SessionType)
    ensures TypeStat(sessions + [s], sessionType) == AddTo(TypeStat(sessions, sessionType), s, sessionType)
  {
    var p := CompletedOfType(sessionType);
    FilterSnoc(sessions, s, p);
    var done := Filter(sessions, p);
    assert p(s) == (s.status == Completed && s.sessionType == sessionType);
    if p(s) {
      SumDurationSnoc(done, s, SessionStart, SessionEnd);
      assert Filter(sessions + [s], p) == done + [s];
    } else {
      assert Filter(sessions + [s], p) == done;
    }
  }

  /** What the loop holds after a prefix: the sessions folded in order. */
  function SessionTally(sessions: seq<Session>): SessionStats
    decreases |sessions|
  {
    if |sessions| == 0 then SessionStats(Stat(0, 0), Stat(0, 0), Stat(0, 0))
    else AddSession(SessionTally(sessions[..|sessions| - 1]), sessions[|sessions| - 1])
  }

  /** Folding session by session gives the per-type reference. */
  lemma {:induction false} SessionTallyIsStats(sessions: seq<Session>)
    ensures SessionTally(sessions) == SessionStatsOf(sessions)
    decreases |sessions|
  {
    if |sessions| > 0 {
      var init := sessions[..|sessions| - 1];
      var s := sessions[|sessions| - 1];
      SessionTallyIsStats(init);
      assert init + [s] == sessions;
      TypeStatSnoc(init, s, Focus);
      TypeStatSnoc(init, s, ShortBreak);
      TypeStatSnoc(init, s, LongBreak);
    }
  }

  /** `computeSessionStats(sessions)`: count and total time per known type,
      over completed sessions only. */
  method ComputeSessionStats(sessions: seq<Session>) returns (stats: SessionStats)
    ensures stats == SessionStatsOf(sessions)
  {
    stats := SessionStats(Stat(0, 0), Stat(0, 0), Stat(0, 0));
    for i := 0 to |sessions|
      invariant stats == SessionTally(sessions[..i])
    {
      var s := sessions[i];
      assert sessions[..i + 1][..i] == sessions[..i];
      ghost var expected := AddSession(stats, s);
      if s.status != Completed || s.sessionType.Other? {
        continue;
      }
      var time := if s.endedAt.Some? then s.endedAt.value - s.startedAt else 0;
      match s.sessionType {
        case Focus =>
          stats := stats.(focus := Stat(stats.focus.count + 1, stats.focus.totalTime + time));
        case ShortBreak =>
          stats := stats.(shortBreak := Stat(stats.shortBreak.count + 1, stats.shortBreak.totalTime + time));
        case LongBreak =>
          stats := stats.(longBreak := Stat(stats.longBreak.count + 1, stats.longBreak.totalTime + time));
      }
      assert stats == expected;
    }
    assert sessions[..|sessions|] == sessions;
    SessionTallyIsStats(sessions);
  }

  /** Running and other-typed sessions leave the statistics as they are. */
  lemma SessionStatsIgnore(sessions: seq<Session>, s: Session)
    requires s.status != Completed || s.sessionType.Other?
    ensures SessionStatsOf(sessions + [s]) == SessionStatsOf(sessions)
  {
    TypeStatSnoc(sessions, s, Focus);
    TypeStatSnoc(sessions, s, ShortBreak);
    TypeStatSnoc(sessions, s, LongBreak);
  }

  // --- Tag stats ---

  /** `tagMap`: every task id to its tag or `untagged`. */
  function TagMapOf(tasks: seq<Task>): map<Id, string>
    decreases |tasks|
  {
    if |tasks| == 0 then map[]
    else
      var t := tasks[|tasks| - 1];
      TagMapOf(tasks[..|tasks| - 1])[t.id := GroupKey(t.tag)]
  }

  /** The map knows exactly the ids of the tasks. */
  lemma {:induction false} TagMapKeys(tasks: seq<Task>, id: Id)
    ensures id in TagMapOf(tasks) <==> exists i :: 0 <= i < |tasks| && tasks[i].id == id
    decreases |tasks|
  {
    if |tasks| > 0 {
      var init := tasks[..|tasks| - 1];
      TagMapKeys(init, id);
      assert forall i :: 0 <= i < |init| ==> tasks[i] == init[i];
    }
  }

  /** Of two tasks with the same id the later one wins. */
  lemma {:induction false} TagMapLastWins(tasks: seq<Task>, i: nat)
    requires i < |tasks|
    requires forall j :: i < j < |tasks| ==> tasks[j].id != tasks[i].id
    ensures tasks[i].id in TagMapOf(tasks) && TagMapOf(tasks)[tasks[i].id] == GroupKey(tasks[i].tag)
    decreases |tasks|
  {
    if i < |tasks| - 1 {
      var init := tasks[..|tasks| - 1];
      assert init[i] == tasks[i];
      TagMapLastWins(init, i);
    }
  }

  /** The tag an entry is counted under: its task's, or `untagged` for an
      unknown task. */
  function EntryTag(tagMap: map<Id, string>): TaskTimeEntry -> string {
    (e: TaskTimeEntry) => if e.taskId in tagMap then tagMap[e.taskId] else "untagged"
  }

  /** The distinct task ids among entries. */
  function TaskIdsOf(entries: seq<TaskTimeEntry>): set<Id>
    decreases |entries|
  {
    if |entries| == 0 then {}
    else TaskIdsOf(entries[..|entries| - 1]) + {entries[|entries| - 1].taskId}
  }

  /** The set holds exactly the task ids that occur. */
  lemma {:induction false} TaskIdsMembers(entries: seq<TaskTimeEntry>, id: Id)
    ensures id in TaskIdsOf(entries) <==> exists i :: 0 <= i < |entries| && entries[i].taskId == id
    decreases |entries|
  {
    if |entries| > 0 {
      var init := entries[..|entries| - 1];
      TaskIdsMembers(init, id);
      assert forall i :: 0 <= i < |init| ==> entries[i] == init[i];
    }
  }

  datatype TagStat = TagStat(count: nat, totalTime: int)

  /** What the loop keeps per tag before the sets become counts. */
  datatype TagAcc = TagAcc(totalTime: int, taskIds: set<Id>)

  function TagAccOf(entries: seq<TaskTimeEntry>): TagAcc {
    TagAcc(SumDuration(entries, EntryStart, EntryEnd), TaskIdsOf(entries))
  }

  function TagStatOf(entries: seq<TaskTimeEntry>): TagStat {
    TagStat(|TaskIdsOf(entries)|, SumDuration(entries, EntryStart, EntryEnd))
  }

  /** The reference: group the entries by their task's tag; per tag, the
      number of distinct tasks and the summed intervals. */
  function TagStatsOf(entries: seq<TaskTimeEntry>, tasks: seq<Task>): map<string, TagStat> {
    Summarize(GroupsBy(entries, EntryTag(TagMapOf(tasks))), TagStatOf)
  }

  function TagAccsOf(entries: seq<TaskTimeEntry>, key: TaskTimeEntry -> string): map<string, TagAcc> {
    Summarize(GroupsBy(entries, key), TagAccOf)
  }

  /** One more entry adds its interval and its task to its tag's accumulator. */
  lemma TagAccsSnoc(entries: seq<TaskTimeEntry>, e: TaskTimeEntry, key: TaskTimeEntry -> string)
    ensures TagAccsOf(entries + [e], key) == AddEntry(TagAccsOf(entries, key), e, key)
  {
    var g := GroupsBy(entries, key);
    var group := GroupOf(g, key(e));
    SummarizeGroupsSnoc(entries, e, key, TagAccOf);
    SummaryOfGroup(g, key(e), TagAccOf);
    TagAccOfSnoc(group, e);
  }

  /** One more entry in a group adds its interval and its task to the group's accumulator. */
  lemma TagAccOfSnoc(group: seq<TaskTimeEntry>, e: TaskTimeEntry)
    ensures TagAccOf(group + [e])
      == TagAcc(TagAccOf(group).totalTime + Duration(e, EntryStart, EntryEnd), TagAccOf(group).taskIds + {e.taskId})
  {
    assert (group + [e])[..|group + [e]| - 1] == group;
    SumDurationSnoc(group, e, EntryStart, EntryEnd);
  }

  /** The sets of task ids become their sizes. */
  function Finish(acc: map<string, TagAcc>): map<string, TagStat> {
    map k | k in acc :: TagStat(|acc[k].taskIds|, acc[k].totalTime)
  }

  lemma FinishAccs(g: map<string, seq<TaskTimeEntry>>)
    ensures Finish(Summarize(g, TagAccOf)) == Summarize(g, TagStatOf)
  {
  }

  /** The first loop of `computeTagStats`: the task-to-tag map. */
  method BuildTagMap(tasks: seq<Task>) returns (tagMap: map<Id, string>)
    ensures tagMap == TagMapOf(tasks)
  {
    tagMap := map[];
    for i := 0 to |tasks|
      invariant tagMap == TagMapOf(tasks[..i])
    {
      assert tasks[..i + 1][..i] == tasks[..i];
      tagMap := tagMap[tasks[i].id := GroupKey(tasks[i].tag)];
    }
    assert tasks[..|tasks|] == tasks;
  }

  /** One entry folded into the accumulators. */
  function AddEntry(acc: map<string, TagAcc>, e: TaskTimeEntry, key: TaskTimeEntry -> string): map<string, TagAcc> {
    var prev := if key(e) in acc then acc[key(e)] else TagAcc(0, {});
    acc[key(e) := TagAcc(prev.totalTime + Duration(e, EntryStart, EntryEnd), prev.taskIds + {e.taskId})]
  }

  /** What the loop holds after a prefix: the entries folded in order. */
  function TagTally(entries: seq<TaskTimeEntry>, key: TaskTimeEntry -> string): map<string, TagAcc>
    decreases |entries|
  {
    if |entries| == 0 then map[]
    else AddEntry(TagTally(entries[..|entries| - 1], key), entries[|entries| - 1], key)
  }

  /** Folding entry by entry gives the grouped reference. */
  lemma {:induction false} TagTallyIsAccs(entries: seq<TaskTimeEntry>, key: TaskTimeEntry -> string)
    ensures TagTally(entries, key) == TagAccsOf(entries, key)
    decreases |entries|
  {
    if |entries| > 0 {
      var init := entries[..|entries| - 1];
      var e := entries[|entries| - 1];
      TagTallyIsAccs(init, key);
      assert TagTally(entries, key) == AddEntry(TagAccsOf(init, key), e, key);
      assert init + [e] == entries;
      TagAccsSnoc(init, e, key);
    }
  }

  /** `computeTagStats(entries, tasks)`. */
  method ComputeTagStats(entries: seq<TaskTimeEntry>, tasks: seq<Task>) returns (stats: map<string, TagStat>)
    ensures stats == TagStatsOf(entries, tasks)
  {
    var tagMap := BuildTagMap(tasks);
    var key := EntryTag(tagMap);
    var acc: map<string, TagAcc> := map[];
    for i := 0 to |entries|
      invariant acc == TagTally(entries[..i], key)
    {
      var e := entries[i];
      var tag := key(e);
      assert entries[..i + 1][..i] == entries[..i];
      ghost var expected := AddEntry(acc, e, key);
      if tag !in acc {
        acc := acc[tag := TagAcc(0, {})];
      }
      acc := acc[tag := TagAcc(acc[tag].totalTime + Duration(e, EntryStart, EntryEnd), acc[tag].taskIds + {e.taskId})];
      assert acc == expected;
    }
    assert entries[..|entries|] == entries;
    TagTallyIsAccs(entries, key);
    FinishAccs(GroupsBy(entries, key));
    stats := Finish(acc);
  }

  /** An entry whose task is unknown is counted under `untagged`. */
  lemma UnknownTaskIsUntagged(entries: seq<TaskTimeEntry>, tasks: seq<Task>, i: nat)
    requires i < |entries|
    requires forall j :: 0 <= j < |tasks| ==> tasks[j].id != entries[i].taskId
    ensures "untagged" in TagStatsOf(entries, tasks)
    ensures entries[i] in GroupsBy(entries, EntryTag(TagMapOf(tasks)))["untagged"]
  {
    TagMapKeys(tasks, entries[i].taskId);
    GroupsPartition(entries, EntryTag(TagMapOf(tasks)));
  }

  // --- Domain stats ---

  datatype DomainStat = DomainStat(visits: nat, totalTime: int)

  function VisitDomain(v: DomainVisit): string { v.domain }

  function DomainStatOf(visits: seq<DomainVisit>): DomainStat {
    DomainStat(|visits|, SumDuration(visits, VisitStart, VisitEnd))
  }

  /** The reference: group the visits by domain; per domain, every visit
      counts and the summed intervals. */
  function DomainStatsOf(visits: seq<DomainVisit>): map<string, DomainStat> {
    Summarize(GroupsBy(visits, VisitDomain), DomainStatOf)
  }

  /** One more visit adds one to its domain's count and its interval to the
      domain's time. */
  lemma DomainStatsSnoc(visits: seq<DomainVisit>, v: DomainVisit)
    ensures DomainStatsOf(visits + [v]) == AddVisit(DomainStatsOf(visits), v)
  {
    var g := GroupsBy(visits, VisitDomain);
    var group := GroupOf(g, v.domain);
    SummarizeGroupsSnoc(visits, v, VisitDomain, DomainStatOf);
    SummaryOfGroup(g, v.domain, DomainStatOf);
    SumDurationSnoc(group, v, VisitStart, VisitEnd);
    assert DomainStatOf(group + [v])
      == DomainStat(DomainStatOf(group).visits + 1, DomainStatOf(group).totalTime + Duration(v, VisitStart, VisitEnd));
  }

  /** One visit folded into the per-domain stats. */
  function AddVisit(stats: map<string, DomainStat>, v: DomainVisit): map<string, DomainStat> {
    var prev := if v.domain in stats then stats[v.domain] else DomainStat(0, 0);
    stats[v.domain := DomainStat(prev.visits + 1, prev.totalTime + Duration(v, VisitStart, VisitEnd))]
  }

  /** What the loop holds after a prefix: the visits folded in order. */
  function DomainTally(visits: seq<DomainVisit>): map<string, DomainStat>
    decreases |visits|
  {
    if |visits| == 0 then map[]
    else AddVisit(DomainTally(visits[..|visits| - 1]), visits[|visits| - 1])
  }

  /** Folding visit by visit gives the grouped reference. */
  lemma {:induction false} DomainTallyIsStats(visits: seq<DomainVisit>)
    ensures DomainTally(visits) == DomainStatsOf(visits)
    decreases |visits|
  {
    if |visits| > 0 {
      var init := visits[..|visits| - 1];
      var v := visits[|visits| - 1];
      DomainTallyIsStats(init);
      assert DomainTally(visits) == AddVisit(DomainStatsOf(init), v);
      assert init + [v] == visits;
      DomainStatsSnoc(init, v);
    }
  }

  /** `computeDomainStats(visits)`. */
  method ComputeDomainStats(visits: seq<DomainVisit>) returns (stats: map<string, DomainStat>)
    ensures stats == DomainStatsOf(visits)
  {
    stats := map[];
    for i := 0 to |visits|
      invariant stats == DomainTally(visits[..i])
    {
      var v := visits[i];
      assert visits[..i + 1][..i] == visits[..i];
      ghost var expected := AddVisit(stats, v);
      if v.domain !in stats {
        stats := stats[v.domain := DomainStat(0, 0)];
      }
      var time := if v.endedAt.Some? then v.endedAt.value - v.startedAt else 0;
      stats := stats[v.domain := DomainStat(stats[v.domain].visits + 1, stats[v.domain].totalTime + time)];
      assert stats == expected;
    }
    assert visits[..|visits|] == visits;
    DomainTallyIsStats(visits);
  }

  /** A domain has stats exactly when some visit is to it. */
  lemma DomainStatsKeys(visits: seq<DomainVisit>, domain: string)
    ensures domain in DomainStatsOf(visits) <==> exists i :: 0 <= i < |visits| && visits[i].domain == domain
  {
    var group := Filter(visits, HasKey(VisitDomain, domain));
    GroupIsFilter(visits, VisitDomain, domain);
    SummaryOfGroup(GroupsBy(visits, VisitDomain), domain, DomainStatOf);
    if |group| > 0 {
      assert HasKey(VisitDomain, domain)(group[0]) && group[0] in visits;
    }
    if i :| 0 <= i < |visits| && visits[i].domain == domain {
      assert VisitDomain(visits[i]) == domain;
      assert HasKey(VisitDomain, domain)(visits[i]);
      assert visits[i] in group;
    }
  }

  /** Per domain, `visits` counts every visit to it, open ones included, and
      `totalTime` is the sum over its closed visits only. */
  lemma DomainStatsMeaning(visits: seq<DomainVisit>, domain: string, i: nat)
    requires i < |visits| && visits[i].domain == domain
    ensures domain in DomainStatsOf(visits)
    ensures var group := Filter(visits, HasKey(VisitDomain, domain));
      && DomainStatsOf(visits)[domain].visits == |group|
      && DomainStatsOf(visits)[domain].totalTime == SumDuration(Filter(group, IsClosed(VisitEnd)), VisitStart, VisitEnd)
  {
    DomainStatsKeys(visits, domain);
    GroupIsFilter(visits, VisitDomain, domain);
    SumDurationOnlyClosed(Filter(visits, HasKey(VisitDomain, domain)), VisitStart, VisitEnd);
  }

  // --- Working time ---

  function ForTask(taskId: Id): TaskTimeEntry -> bool {
    (e: TaskTimeEntry) => e.taskId == taskId
  }

  /** `getTaskWorkingTime(taskId, entries)`. */
  function GetTaskWorkingTime(taskId: Id, entries: seq<TaskTimeEntry>): (r: int)
    ensures (forall i :: 0 <= i < |entries| ==> entries[i].taskId != taskId) ==> r == 0
  {
    FilterNone(entries, ForTask(taskId));
    SumDuration(Filter(entries, ForTask(taskId)), EntryStart, EntryEnd)
  }

  /** Working time adds up over a split of the entries, and entries of other
      tasks do not count. */
  lemma WorkingTimeAppend(taskId: Id, a: seq<TaskTimeEntry>, b: seq<TaskTimeEntry>)
    ensures GetTaskWorkingTime(taskId, a + b) == GetTaskWorkingTime(taskId, a) + GetTaskWorkingTime(taskId, b)
    ensures (forall i :: 0 <= i < |b| ==> b[i].taskId != taskId) ==> GetTaskWorkingTime(taskId, a + b) == GetTaskWorkingTime(taskId, a)
  {
    FilterAppend(a, b, ForTask(taskId));
    SumDurationAppend(Filter(a, ForTask(taskId)), Filter(b, ForTask(taskId)), EntryStart, EntryEnd);
  }

  // --- Completed tasks by tag ---

  datatype CompletedTask = CompletedTask(task: Task, workingTime: int)

  function IsFinished(t: Task): bool { t.column == Done || t.column == Cleared }

  function TaskTag(t: Task): string { GroupKey(t.tag) }

  function WithWorkingTimes(tasks: seq<Task>, entries: seq<TaskTimeEntry>): (r: seq<CompletedTask>)
    ensures |r| == |tasks|
    ensures forall i :: 0 <= i < |tasks| ==> r[i] == CompletedTask(tasks[i], GetTaskWorkingTime(tasks[i].id, entries))
  {
    seq(|tasks|, i requires 0 <= i < |tasks| => CompletedTask(tasks[i], GetTaskWorkingTime(tasks[i].id, entries)))
  }

  function IsFinishedTask(): Task -> bool { (t: Task) => IsFinished(t) }

  /** `getCompletedTasksByTag(tasks, entries)`: the done and cleared tasks
      grouped by tag, each with its working time. */
  function GetCompletedTasksByTag(tasks: seq<Task>, entries: seq<TaskTimeEntry>): (r: map<string, seq<CompletedTask>>)
    ensures (forall i :: 0 <= i < |tasks| ==> !IsFinished(tasks[i])) ==> r == map[]
  {
    var g := GroupsBy(Filter(tasks, IsFinishedTask()), TaskTag);
    map k | k in g :: WithWorkingTimes(g[k], entries)
  }

  /** Only done and cleared tasks appear, each under its own tag with its
      working time; and every one of them appears. Each group is exactly the
      finished tasks of its tag, in their order in `tasks`, each once per
      occurrence, paired with its working time. */
  lemma CompletedTasksByTag(tasks: seq<Task>, entries: seq<TaskTimeEntry>)
    ensures var r := GetCompletedTasksByTag(tasks, entries);
      forall k :: k in r ==>
        r[k] == WithWorkingTimes(Filter(Filter(tasks, IsFinishedTask()), HasKey(TaskTag, k)), entries)
    ensures var r := GetCompletedTasksByTag(tasks, entries);
      forall k :: k in r ==> forall j :: 0 <= j < |r[k]| ==>
        && IsFinished(r[k][j].task) && TaskTag(r[k][j].task) == k && r[k][j].task in tasks
        && r[k][j].workingTime == GetTaskWorkingTime(r[k][j].task.id, entries)
    ensures var r := GetCompletedTasksByTag(tasks, entries);
      forall i :: 0 <= i < |tasks| && IsFinished(tasks[i]) ==>
        TaskTag(tasks[i]) in r && CompletedTask(tasks[i], GetTaskWorkingTime(tasks[i].id, entries)) in r[TaskTag(tasks[i])]
  {
    CompletedTasksGroups(tasks, entries);
    CompletedTasksSound(tasks, entries);
    CompletedTasksComplete(tasks, entries);
  }

  /** Each group is the tag's finished tasks, in order, with working times. */
  lemma CompletedTasksGroups(tasks: seq<Task>, entries: seq<TaskTimeEntry>)
    ensures var r := GetCompletedTasksByTag(tasks, entries);
      forall k :: k in r ==>
        r[k] == WithWorkingTimes(Filter(Filter(tasks, IsFinishedTask()), HasKey(TaskTag, k)), entries)
  {
    GroupsPartition(Filter(tasks, IsFinishedTask()), TaskTag);
  }

  /** Every grouped task is finished, under its own tag, and from `tasks`. */
  lemma CompletedTasksSound(tasks: seq<Task>, entries: seq<TaskTimeEntry>)
    ensures var r := GetCompletedTasksByTag(tasks, entries);
      forall k :: k in r ==> forall j :: 0 <= j < |r[k]| ==>
        && IsFinished(r[k][j].task) && TaskTag(r[k][j].task) == k && r[k][j].task in tasks
        && r[k][j].workingTime == GetTaskWorkingTime(r[k][j].task.id, entries)
  {
    var finished := Filter(tasks, IsFinishedTask());
    var g := GroupsBy(finished, TaskTag);
    var r: map<string, seq<CompletedTask>> := GetCompletedTasksByTag(tasks, entries);
    GroupsPartition(finished, TaskTag);
    forall k: string, j: int | k in r && 0 <= j < |r[k]|
      ensures IsFinished(r[k][j].task) && TaskTag(r[k][j].task) == k && r[k][j].task in tasks
    {
      assert r[k][j].task == g[k][j];
      assert g[k][j] in finished;
    }
  }

  /** Every finished task of `tasks` is grouped under its tag. */
  lemma CompletedTasksComplete(tasks: seq<Task>, entries: seq<TaskTimeEntry>)
    ensures var r := GetCompletedTasksByTag(tasks, entries);
      forall i :: 0 <= i < |tasks| && IsFinished(tasks[i]) ==>
        TaskTag(tasks[i]) in r && CompletedTask(tasks[i], GetTaskWorkingTime(tasks[i].id, entries)) in r[TaskTag(tasks[i])]
  {
    var finished := Filter(tasks, IsFinishedTask());
    var g := GroupsBy(finished, TaskTag);
    var r: map<string, seq<CompletedTask>> := GetCompletedTasksByTag(tasks, entries);
    GroupsPartition(finished, TaskTag);
    forall i | 0 <= i < |tasks| && IsFinished(tasks[i])
      ensures TaskTag(tasks[i]) in r && CompletedTask(tasks[i], GetTaskWorkingTime(tasks[i].id, entries)) in r[TaskTag(tasks[i])]
    {
      var t := tasks[i];
      assert IsFinishedTask()(t);
      assert t in finished;
      var n :| 0 <= n < |finished| && finished[n] == t;
      var k := TaskTag(t);
      assert t in g[k];
      var m :| 0 <= m < |g[k]| && g[k][m] == t;
      assert r[k][m] == CompletedTask(t, GetTaskWorkingTime(t.id, entries));
    }
  }

  // --- Time range ---

  /** Hour of day and minute of hour of a timestamp (UTC). */
  function HourOf(t: Timestamp): int { (t / 3600) % 24 }
  function MinuteOf(t: Timestamp): int { (t / 60) % 60 }

  /** An end time rounded up to the hour: the next hour once past :00. */
  function EndHour(t: Timestamp): int { HourOf(t) + (if MinuteOf(t) > 0 then 1 else 0) }

  /** A session's end, or now for a session still open. */
  function EndOr(s: Session, now: Timestamp): Timestamp {
    if s.endedAt.Some? then s.endedAt.value else now
  }

  datatype HourRange = HourRange(minHour: int, maxHour: int)

  function Min(a: int, b: int): int { if a <= b then a else b }
  function Max(a: int, b: int): int { if a >= b then a else b }

  /** `getTimeRange(sessions)`: 9 to 17 with no sessions; otherwise from the
      earliest start hour to one past the latest rounded-up end hour, capped
      at 24. */
  method GetTimeRange(sessions: seq<Session>, now: Timestamp) returns (r: HourRange)
    ensures |sessions| == 0 ==> r == HourRange(9, 17)
    ensures |sessions| > 0 ==>
      && 0 <= r.minHour <= 23 && 1 <= r.maxHour <= 24
      && (forall i :: 0 <= i < |sessions| ==> r.minHour <= HourOf(sessions[i].startedAt))
      && (exists i :: 0 <= i < |sessions| && r.minHour == HourOf(sessions[i].startedAt))
      && (forall i :: 0 <= i < |sessions| ==> Min(24, EndHour(EndOr(sessions[i], now)) + 1) <= r.maxHour)
      && (exists i :: 0 <= i < |sessions| && r.maxHour == Min(24, EndHour(EndOr(sessions[i], now)) + 1))
  {
    if |sessions| == 0 {
      return HourRange(9, 17);
    }
    var minHour := 23;
    var maxHour := 0;
    var minAt, maxAt := 0, 0;
    for i := 0 to |sessions|
      invariant 0 <= minHour <= 23 && 0 <= maxHour <= 24
      invariant forall j :: 0 <= j < i ==> minHour <= HourOf(sessions[j].startedAt)
      invariant forall j :: 0 <= j < i ==> EndHour(EndOr(sessions[j], now)) <= maxHour
      invariant i > 0 ==> 0 <= minAt < i && minHour == HourOf(sessions[minAt].startedAt)
      invariant i > 0 ==> 0 <= maxAt < i && maxHour == EndHour(EndOr(sessions[maxAt], now))
    {
      var s := sessions[i];
      var start := s.startedAt;
      var end := EndOr(s, now);
      if i == 0 || HourOf(start) < minHour {
        minHour, minAt := HourOf(start), i;
      }
      if i == 0 || EndHour(end) > maxHour {
        maxHour, maxAt := EndHour(end), i;
      }
    }
    r := HourRange(minHour, Min(24, maxHour + 1));
  }

  // --- Week start ---

  /** Day of the week of a day number counted from 1 January 1970, a
      Thursday: 0 is Sunday, 1 Monday. */
  function Weekday(day: int): int { (day + 4) % 7 }

  /** `getWeekStart(date)` on day numbers: the Monday on or before the day. */
  function GetWeekStart(day: int): (r: int)
    ensures r <= day < r + 7
    ensures Weekday(r) == 1
  {
    var d := Weekday(day);
    var diff := if d == 0 then 6 else d - 1;
    day - diff
  }
}
