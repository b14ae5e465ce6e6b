/** Kanban task operations (`shared/task-utils.js`): tag extraction, task
    creation, moving between columns with a single "doing" slot, clearing,
    column views and tag colours. */
module TaskUtils {
  import opened Prelude
  import opened Records
  import C = Constants

  // --- Tags ---

  /** `\w` in a JavaScript regular expression. */
  predicate IsWordChar(c: char) {
    ('a' <= c <= 'z') || ('A' <= c <= 'Z') || ('0' <= c <= '9') || c == '_'
  }

  function ToLowerChar(c: char): char {
    if 'A' <= c <= 'Z' then (c as int + 32) as char else c
  }

  function ToLower(s: string): (r: string)
    ensures |r| == |s| && forall i :: 0 <= i < |s| ==> r[i] == ToLowerChar(s[i])
  {
    seq(|s|, i requires 0 <= i < |s| => ToLowerChar(s[i]))
  }

  /** Length of the run of word characters that starts `s`. */
  function WordRun(s: string): (n: nat)
    ensures n <= |s|
    ensures forall i :: 0 <= i < n ==> IsWordChar(s[i])
    ensures n < |s| ==> !IsWordChar(s[n])
    decreases |s|
  {
    if |s| == 0 || !IsWordChar(s[0]) then 0 else 1 + WordRun(s[1..])
  }

  /** A `#` at position `i` followed by a word character: where `/#(\w+)/` can match. */
  predicate TagAt(title: string, i: int) {
    0 <= i < |title| - 1 && title[i] == '#' && IsWordChar(title[i + 1])
  }

  /** The first position where a tag starts, scanning from `from`. */
  function FirstTagAt(title: string, from: nat): (r: Option<nat>)
    ensures r.Some? ==> from <= r.value && TagAt(title, r.value)
    ensures r.Some? ==> forall i :: from <= i < r.value ==> !TagAt(title, i)
    ensures r.None? ==> forall i :: from <= i ==> !TagAt(title, i)
    decreases |title| - from
  {
    if from + 1 >= |title| then None
    else if TagAt(title, from) then Some(from)
    else FirstTagAt(title, from + 1)
  }

  /** `extractTag(title)`: the word after the first `#`, lower-cased, or null. */
  function ExtractTag(title: string): (r: Option<string>)
    ensures r.None? <==> forall i :: !TagAt(title, i)
    ensures r.Some? ==>
      && |r.value| > 0
      && (forall k :: 0 <= k < |r.value| ==> IsWordChar(r.value[k]) && !('A' <= r.value[k] <= 'Z'))
      && exists i :: TagAt(title, i) && (forall j :: 0 <= j < i ==> !TagAt(title, j))
           && i + 1 + |r.value| <= |title|
           && r.value == ToLower(title[i + 1..i + 1 + |r.value|])
           && (i + 1 + |r.value| == |title| || !IsWordChar(title[i + 1 + |r.value|]))
  {
    match FirstTagAt(title, 0)
    case None => None
    case Some(i) =>
      var word := title[i + 1..];
      var n := WordRun(word);
      assert n >= 1 && title[i + 1..i + 1 + n] == word[..n];
      Some(ToLower(word[..n]))
  }

  // --- Creating a task ---

  /** The characters `String.prototype.trim` removes. */
  predicate IsJsWhitespace(c: char) {
    || c == ' ' || c == '\t' || c == '\n' || c == '\r' || c == '\U{B}' || c == '\U{C}'
    || c == '\U{A0}' || c == '\U{FEFF}' || c == '\U{1680}' || ('\U{2000}' <= c <= '\U{200A}')
    || c == '\U{2028}' || c == '\U{2029}' || c == '\U{202F}' || c == '\U{205F}' || c == '\U{3000}'
  }

  function LeadingSpace(s: string): (n: nat)
    ensures n <= |s|
    ensures forall i :: 0 <= i < n ==> IsJsWhitespace(s[i])
    ensures n < |s| ==> !IsJsWhitespace(s[n])
    decreases |s|
  {
    if |s| == 0 || !IsJsWhitespace(s[0]) then 0 else 1 + LeadingSpace(s[1..])
  }

  function TrailingSpace(s: string): (n: nat)
    ensures n <= |s|
    ensures forall i :: |s| - n <= i < |s| ==> IsJsWhitespace(s[i])
    ensures n < |s| ==> !IsJsWhitespace(s[|s| - 1 - n])
    decreases |s|
  {
    if |s| == 0 || !IsJsWhitespace(s[|s| - 1]) then 0 else 1 + TrailingSpace(s[..|s| - 1])
  }

  /** `String.prototype.trim`: the slice of `s` between its leading and
      trailing whitespace; empty when `s` is all whitespace. */
  function Trim(s: string): (r: string)
    ensures r == "" <==> forall i :: 0 <= i < |s| ==> IsJsWhitespace(s[i])
    ensures r != "" ==> !IsJsWhitespace(r[0]) && !IsJsWhitespace(r[|r| - 1])
    ensures LeadingSpace(s) + |r| <= |s| && r == s[LeadingSpace(s)..LeadingSpace(s) + |r|]
    ensures forall i :: LeadingSpace(s) + |r| <= i < |s| ==> IsJsWhitespace(s[i])
  {
    var lead := LeadingSpace(s);
    if lead == |s| then
      ""
    else
      var trail := TrailingSpace(s);
      s[lead..|s| - trail]
  }

  /** Number of tasks in a column. */
  function CountIn(tasks: seq<Task>, column: Column): (n: nat)
    ensures n <= |tasks|
    decreases |tasks|
  {
    if |tasks| == 0 then 0
    else CountIn(tasks[..|tasks| - 1], column) + (if tasks[|tasks| - 1].column == column then 1 else 0)
  }

  /** Number of tasks in a column, not counting those with the given id. */
  function CountOthersIn(tasks: seq<Task>, column: Column, id: Id): (n: nat)
    ensures n <= CountIn(tasks, column)
    decreases |tasks|
  {
    if |tasks| == 0 then 0
    else
      var last := tasks[|tasks| - 1];
      CountOthersIn(tasks[..|tasks| - 1], column, id) + (if last.column == column && last.id != id then 1 else 0)
  }

  /** The counts only look at columns and ids. */
  lemma {:induction false} CountsOnlyReadColumns(a: seq<Task>, b: seq<Task>, column: Column, id: Id)
    requires |a| == |b|
    requires forall i :: 0 <= i < |a| ==> a[i].column == b[i].column && a[i].id == b[i].id
    ensures CountIn(a, column) == CountIn(b, column)
    ensures CountOthersIn(a, column, id) == CountOthersIn(b, column, id)
    decreases |a|
  {
    if |a| > 0 {
      CountsOnlyReadColumns(a[..|a| - 1], b[..|b| - 1], column, id);
    }
  }

  /** `createTask(title, tasks)`: null for a blank title; otherwise a to-do
      task with the trimmed title, its tag, and `order` equal to the number of
      to-do tasks already there (the next free position). */
  function CreateTask(title: string, tasks: seq<Task>, id: Id, now: Timestamp): (r: Option<Task>)
    ensures r.None? <==> forall i :: 0 <= i < |title| ==> IsJsWhitespace(title[i])
    ensures r.Some? ==>
      && r.value.title == Trim(title) && r.value.title != ""
      && r.value.tag == ExtractTag(r.value.title)
      && r.value.column == Todo
      && r.value.order == CountIn(tasks, Todo)
      && r.value.completedAt.None?
      && r.value.id == id && r.value.createdAt == now
  {
    var trimmed := Trim(title);
    if trimmed == "" then None
    else Some(Task(id, trimmed, ExtractTag(trimmed), Todo, CountIn(tasks, Todo), now, None))
  }

  // --- Moving a task ---

  /** Index of the first task with the given id (`tasks.find`). */
  function FindTask(tasks: seq<Task>, id: Id): (r: Option<nat>)
    ensures r.Some? ==> r.value < |tasks| && tasks[r.value].id == id
    ensures r.Some? ==> forall j :: 0 <= j < r.value ==> tasks[j].id != id
    ensures r.None? ==> forall j :: 0 <= j < |tasks| ==> tasks[j].id != id
  {
    FirstIndex(tasks, (t: Task) => t.id == id)
  }

  /** Index of the first task in "doing" whose id is not `id`. */
  function FindOtherDoing(tasks: seq<Task>, id: Id): (r: Option<nat>)
    ensures r.Some? ==> r.value < |tasks| && tasks[r.value].column == Doing && tasks[r.value].id != id
    ensures r.Some? ==> forall j :: 0 <= j < r.value ==> !(tasks[j].column == Doing && tasks[j].id != id)
    ensures r.None? ==> forall j :: 0 <= j < |tasks| ==> !(tasks[j].column == Doing && tasks[j].id != id)
  {
    FirstIndex(tasks, (t: Task) => t.column == Doing && t.id != id)
  }

  datatype MoveOutcome = MoveOutcome(tasks: seq<Task>, movedFrom: Option<Column>, displaced: Option<Task>)

  /** Changing one task changes a column's count by what leaves and what enters. */
  lemma {:induction false} CountInUpdate(tasks: seq<Task>, j: nat, t: Task, column: Column)
    requires j < |tasks|
    ensures CountIn(tasks[j := t], column)
      == CountIn(tasks, column) - (if tasks[j].column == column then 1 else 0) + (if t.column == column then 1 else 0)
    decreases |tasks|
  {
    var n := |tasks| - 1;
    if j == n {
      assert tasks[j := t][..n] == tasks[..n];
    } else {
      CountInUpdate(tasks[..n], j, t, column);
      assert tasks[j := t][..n] == tasks[..n][j := t];
    }
  }

  /** The task that held "doing" goes back to "todo", its order the to-do
      count once it is there. */
  function Displace(tasks: seq<Task>, j: nat): (r: seq<Task>)
    requires j < |tasks| && tasks[j].column == Doing
    ensures |r| == |tasks|
    ensures r[j] == tasks[j].(column := Todo, order := CountIn(tasks, Todo) + 1)
    ensures forall k :: 0 <= k < |tasks| && k != j ==> r[k] == tasks[k]
  {
    var back := tasks[j := tasks[j].(column := Todo)];
    CountInUpdate(tasks, j, back[j], Todo);
    back[j := back[j].(order := CountIn(back, Todo))]
  }

  /** `completedAt` after a move: stamped on entering "done" unless already
      set, cleared in every other column. */
  function CompletedAfter(completedAt: Option<Timestamp>, target: Column, now: Timestamp): Option<Timestamp> {
    if target == Done then (if completedAt.None? then Some(now) else completedAt) else None
  }

  /** The moved task takes the target column, the order after the other tasks
      there, and its new `completedAt`. */
  function Place(tasks: seq<Task>, i: nat, target: Column, now: Timestamp): (r: seq<Task>)
    requires i < |tasks|
    ensures |r| == |tasks|
    ensures r[i] == tasks[i].(column := target, order := CountOthersIn(r, target, tasks[i].id),
                              completedAt := CompletedAfter(tasks[i].completedAt, target, now))
    ensures forall k :: 0 <= k < |tasks| && k != i ==> r[k] == tasks[k]
  {
    var id := tasks[i].id;
    var ts2 := tasks[i := tasks[i].(column := target)];
    var ts3 := ts2[i := ts2[i].(order := CountOthersIn(ts2, target, id))];
    var ts4 := ts3[i := ts3[i].(completedAt := CompletedAfter(ts3[i].completedAt, target, now))];
    CountsOnlyReadColumns(ts2, ts4, target, id);
    ts4
  }

  /** `moveTask(tasks, taskId, targetColumn)`: an unknown id changes nothing;
      otherwise the task enters the target column after the tasks already
      there, and a task entering "doing" sends the one that held it back to
      "todo". */
  function Move(tasks: seq<Task>, id: Id, target: Column, now: Timestamp): (r: MoveOutcome)
    ensures |r.tasks| == |tasks|
    ensures FindTask(tasks, id).None? ==> r == MoveOutcome(tasks, None, None)
    ensures FindTask(tasks, id).Some? ==>
      var i := FindTask(tasks, id).value;
      && r.movedFrom == Some(tasks[i].column)
      && r.tasks[i] == tasks[i].(column := target, order := r.tasks[i].order, completedAt := r.tasks[i].completedAt)
      && r.tasks[i].order == CountOthersIn(r.tasks, target, id)
      && (target == Done && tasks[i].completedAt.Some? ==> r.tasks[i].completedAt == tasks[i].completedAt)
      && (target == Done && tasks[i].completedAt.None? ==> r.tasks[i].completedAt == Some(now))
      && (target != Done ==> r.tasks[i].completedAt.None?)
    ensures FindTask(tasks, id).Some? && (target != Doing || FindOtherDoing(tasks, id).None?) ==>
      && r.displaced.None?
      && forall k :: 0 <= k < |tasks| && k != FindTask(tasks, id).value ==> r.tasks[k] == tasks[k]
    ensures FindTask(tasks, id).Some? && target == Doing && FindOtherDoing(tasks, id).Some? ==>
      var j := FindOtherDoing(tasks, id).value;
      && r.displaced == Some(r.tasks[j])
      && r.tasks[j] == tasks[j].(column := Todo, order := CountIn(tasks, Todo) + 1)
      && forall k :: 0 <= k < |tasks| && k != FindTask(tasks, id).value && k != j ==> r.tasks[k] == tasks[k]
  {
    match FindTask(tasks, id)
    case None => MoveOutcome(tasks, None, None)
    case Some(i) =>
      if target == Doing && FindOtherDoing(tasks, id).Some? then
        var j := FindOtherDoing(tasks, id).value;
        var ts1 := Displace(tasks, j);
        MoveOutcome(Place(ts1, i, target, now), Some(tasks[i].column), Some(ts1[j]))
      else
        MoveOutcome(Place(tasks, i, target, now), Some(tasks[i].column), None)
  }

  /** At most one task sits in "doing". */
  ghost predicate AtMostOneDoing(tasks: seq<Task>) {
    forall a, b :: 0 <= a < b < |tasks| && tasks[a].column == Doing ==> tasks[b].column != Doing
  }

  ghost predicate UniqueTaskIds(tasks: seq<Task>) {
    forall a, b :: 0 <= a < b < |tasks| ==> tasks[a].id != tasks[b].id
  }

  /** With unique ids, moving keeps "at most one task in doing"; a task moved
      to "doing" is then the only one there. */
  lemma MoveKeepsSingleDoing(tasks: seq<Task>, id: Id, target: Column, now: Timestamp)
    requires UniqueTaskIds(tasks) && AtMostOneDoing(tasks)
    ensures AtMostOneDoing(Move(tasks, id, target, now).tasks)
    ensures FindTask(tasks, id).Some? && target == Doing ==>
      forall k :: 0 <= k < |tasks| ==>
        (Move(tasks, id, target, now).tasks[k].column == Doing <==> k == FindTask(tasks, id).value)
  {
    var r := Move(tasks, id, target, now);
    if FindTask(tasks, id).Some? {
      var i := FindTask(tasks, id).value;
      if target == Doing {
        forall k | 0 <= k < |tasks| && k != i
          ensures r.tasks[k].column != Doing
        {
          if tasks[k].column == Doing {
            assert tasks[k].id != id by {
              if k < i { assert tasks[k].id != tasks[i].id; } else { assert tasks[i].id != tasks[k].id; }
            }
            assert FindOtherDoing(tasks, id).Some?;
          }
        }
      } else {
        forall a, b | 0 <= a < b < |tasks| && r.tasks[a].column == Doing
          ensures r.tasks[b].column != Doing
        {
          if FindOtherDoing(tasks, id).Some? && target == Doing {
          } else {
            assert a != i;
            if b != i {
              assert r.tasks[a] == tasks[a] && r.tasks[b] == tasks[b];
            }
          }
        }
      }
    }
  }

  /** `moveTask` on the board's task array, in place. */
  method MoveTask(tasks: array<Task>, taskId: Id, target: Column, now: Timestamp)
    returns (movedFrom: Option<Column>, displaced: Option<Task>)
    modifies tasks
    ensures var r := Move(old(tasks[..]), taskId, target, now);
      tasks[..] == r.tasks && movedFrom == r.movedFrom && displaced == r.displaced
  {
    var found := FindTask(tasks[..], taskId);
    if found.None? {
      return None, None;
    }
    var i := found.value;
    var previousColumn := tasks[i].column;
    displaced := None;
    if target == Doing {
      var currentDoing := FindOtherDoing(tasks[..], taskId);
      if currentDoing.Some? {
        var j := currentDoing.value;
        tasks[j] := tasks[j].(column := Todo);
        tasks[j] := tasks[j].(order := CountIn(tasks[..], Todo));
        displaced := Some(tasks[j]);
      }
    }
    tasks[i] := tasks[i].(column := target);
    tasks[i] := tasks[i].(order := CountOthersIn(tasks[..], target, taskId));
    if target == Done && tasks[i].completedAt.None? {
      tasks[i] := tasks[i].(completedAt := Some(now));
    }
    if target != Done {
      tasks[i] := tasks[i].(completedAt := None);
    }
    movedFrom := Some(previousColumn);
  }

  // --- Clearing ---

  /** `clearTask(tasks, taskId)`: the first task with that id goes to "cleared". */
  function ClearTaskIn(tasks: seq<Task>, id: Id): (r: seq<Task>)
    ensures |r| == |tasks|
    ensures FindTask(tasks, id).None? ==> r == tasks
    ensures FindTask(tasks, id).Some? ==>
      var i := FindTask(tasks, id).value;
      r[i] == tasks[i].(column := Cleared)
      && forall k :: 0 <= k < |tasks| && k != i ==> r[k] == tasks[k]
  {
    match FindTask(tasks, id)
    case None => tasks
    case Some(i) => tasks[i := tasks[i].(column := Cleared)]
  }

  method ClearTask(tasks: array<Task>, taskId: Id)
    modifies tasks
    ensures tasks[..] == ClearTaskIn(old(tasks[..]), taskId)
  {
    var found := FindTask(tasks[..], taskId);
    if found.None? {
      return;
    }
    tasks[found.value] := tasks[found.value].(column := Cleared);
  }

  /** One task after `clearAllDone`. */
  function ClearIfDone(t: Task): Task {
    if t.column == Done then t.(column := Cleared) else t
  }

  /** `clearAllDone(tasks)`: every done task becomes cleared, nothing else changes. */
  function AllDoneCleared(tasks: seq<Task>): (r: seq<Task>)
    ensures |r| == |tasks|
    ensures forall k :: 0 <= k < |r| ==> r[k].column != Done
    ensures forall k :: 0 <= k < |r| && tasks[k].column == Done ==> r[k] == tasks[k].(column := Cleared)
    ensures forall k :: 0 <= k < |r| && tasks[k].column != Done ==> r[k] == tasks[k]
  {
    seq(|tasks|, k requires 0 <= k < |tasks| => ClearIfDone(tasks[k]))
  }

  method ClearAllDone(tasks: array<Task>)
    modifies tasks
    ensures tasks[..] == AllDoneCleared(old(tasks[..]))
  {
    for k := 0 to tasks.Length
      invariant forall m :: 0 <= m < k ==> tasks[m] == ClearIfDone(old(tasks[m]))
      invariant forall m :: k <= m < tasks.Length ==> tasks[m] == old(tasks[m])
    {
      if tasks[k].column == Done {
        tasks[k] := tasks[k].(column := Cleared);
      }
    }
  }

  // --- Views ---

  predicate SortedByOrder(s: seq<Task>) {
    forall a, b :: 0 <= a < b < |s| ==> s[a].order <= s[b].order
  }

  /** Every task of a sorted sequence is at most its last one. */
  lemma SortedBelowLast(s: seq<Task>)
    requires SortedByOrder(s) && |s| > 0
    ensures SortedByOrder(s[..|s| - 1])
    ensures forall k :: 0 <= k < |s| ==> s[k].order <= s[|s| - 1].order
  {
    forall k | 0 <= k < |s| ensures s[k].order <= s[|s| - 1].order {
      if k < |s| - 1 { assert s[k].order <= s[|s| - 1].order; }
    }
  }

  /** Appending a task at least as large as every element keeps a sequence sorted. */
  lemma SortedSnoc(s: seq<Task>, x: Task)
    requires SortedByOrder(s)
    requires forall k :: 0 <= k < |s| ==> s[k].order <= x.order
    ensures SortedByOrder(s + [x])
  {
  }

  /** A bound on every element carries over to a sequence with the same
      elements plus one task under the bound. */
  lemma BoundThroughMultiset(rest: seq<Task>, init: seq<Task>, t: Task, bound: int)
    requires multiset(rest) == multiset(init) + multiset{t}
    requires forall k :: 0 <= k < |init| ==> init[k].order <= bound
    requires t.order <= bound
    ensures forall k :: 0 <= k < |rest| ==> rest[k].order <= bound
  {
    forall k | 0 <= k < |rest| ensures rest[k].order <= bound {
      assert rest[k] in multiset(rest);
      if rest[k] != t {
        assert rest[k] in multiset(init);
        var m :| 0 <= m < |init| && init[m] == rest[k];
      }
    }
  }

  /** The tasks with a given `order`. */
  function HasOrder(o: int): Task -> bool {
    (t: Task) => t.order == o
  }

  /** Stability: for every `order`, the tasks holding it come in the same
      sequence in `r` as in `s`. */
  ghost predicate SameTies(r: seq<Task>, s: seq<Task>) {
    forall o :: Filter(r, HasOrder(o)) == Filter(s, HasOrder(o))
  }

  /** Appending the same task to both sides keeps the ties in step. */
  lemma SameTiesSnoc(r: seq<Task>, s: seq<Task>, x: Task)
    requires SameTies(r, s)
    ensures SameTies(r + [x], s + [x])
  {
    forall o ensures Filter(r + [x], HasOrder(o)) == Filter(s + [x], HasOrder(o)) {
      FilterSnoc(r, x, HasOrder(o));
      FilterSnoc(s, x, HasOrder(o));
    }
  }

  /** Moving a task of greater order behind `t` leaves every tie group as it
      was, since the two never share a group. */
  lemma SameTiesPastGreater(rest: seq<Task>, init: seq<Task>, last: Task, t: Task)
    requires t.order < last.order
    requires SameTies(rest, init + [t])
    ensures SameTies(rest + [last], init + [last] + [t])
  {
    forall o ensures Filter(rest + [last], HasOrder(o)) == Filter(init + [last] + [t], HasOrder(o)) {
      FilterSnoc(rest, last, HasOrder(o));
      FilterSnoc(init, t, HasOrder(o));
      FilterSnoc(init, last, HasOrder(o));
      FilterSnoc(init + [last], t, HasOrder(o));
    }
  }

  /** Insert `t` into a sorted sequence after every task whose order is not
      greater, which keeps equal orders in their original sequence. */
  function InsertByOrder(t: Task, s: seq<Task>): (r: seq<Task>)
    requires SortedByOrder(s)
    ensures SortedByOrder(r) && multiset(r) == multiset(s) + multiset{t}
    ensures SameTies(r, s + [t])
    decreases |s|
  {
    if |s| == 0 then
      assert s + [t] == [t];
      [t]
    else
      var last := s[|s| - 1];
      var init := s[..|s| - 1];
      assert s == init + [last];
      SortedBelowLast(s);
      if last.order <= t.order then
        SortedSnoc(s, t);
        s + [t]
      else
        var rest := InsertByOrder(t, init);
        BoundThroughMultiset(rest, init, t, last.order);
        SortedSnoc(rest, last);
        SameTiesPastGreater(rest, init, last, t);
        rest + [last]
  }

  /** A stable sort by `order` (`Array.prototype.sort` is stable). */
  function SortByOrder(s: seq<Task>): (r: seq<Task>)
    ensures SortedByOrder(r) && multiset(r) == multiset(s)
    ensures SameTies(r, s)
    decreases |s|
  {
    if |s| == 0 then []
    else
      var init := s[..|s| - 1];
      assert s == init + [s[|s| - 1]];
      var sorted := SortByOrder(init);
      SameTiesSnoc(sorted, init, s[|s| - 1]);
      InsertByOrder(s[|s| - 1], sorted)
  }

  /** The last task of a sequence is in its own tie group. */
  lemma TieOfLast(s: seq<Task>)
    requires |s| > 0
    ensures |Filter(s, HasOrder(s[|s| - 1].order))| > 0
  {
    assert HasOrder(s[|s| - 1].order)(s[|s| - 1]);
  }

  /** In a sorted sequence every order that has a tie group is at most the
      last task's order. */
  lemma TieBelowLast(s: seq<Task>, o: int)
    requires SortedByOrder(s) && |Filter(s, HasOrder(o))| > 0
    ensures |s| > 0 && o <= s[|s| - 1].order
  {
    var x := Filter(s, HasOrder(o))[0];
    assert x in s && HasOrder(o)(x);
    var j :| 0 <= j < |s| && s[j] == x;
    if j < |s| - 1 {
      assert s[j].order <= s[|s| - 1].order;
    }
  }

  /** Two sequences with the same tie groups whose last tasks share an order
      have the same last task, and their prefixes have the same tie groups. */
  lemma SameTiesInit(a': seq<Task>, la: Task, b': seq<Task>, lb: Task)
    requires la.order == lb.order && SameTies(a' + [la], b' + [lb])
    ensures la == lb && SameTies(a', b')
  {
    forall o ensures Filter(a', HasOrder(o)) == Filter(b', HasOrder(o)) {
      FilterSnoc(a', la, HasOrder(o));
      FilterSnoc(b', lb, HasOrder(o));
      if o == la.order {
        SnocInjective(Filter(a', HasOrder(o)), la, Filter(b', HasOrder(o)), lb);
      }
    }
    var o := la.order;
    FilterSnoc(a', la, HasOrder(o));
    FilterSnoc(b', lb, HasOrder(o));
    SnocInjective(Filter(a', HasOrder(o)), la, Filter(b', HasOrder(o)), lb);
  }

  /** Two sorted sequences with the same tie groups are empty together, and
      otherwise end in tasks of the same order. */
  lemma LastOrdersAgree(a: seq<Task>, b: seq<Task>)
    requires SortedByOrder(a) && SortedByOrder(b) && SameTies(a, b)
    ensures |a| > 0 <==> |b| > 0
    ensures |a| > 0 ==> a[|a| - 1].order == b[|b| - 1].order
  {
    if |b| > 0 {
      TieOfLast(b);
      TieBelowLast(a, b[|b| - 1].order);
    }
    if |a| > 0 {
      TieOfLast(a);
      TieBelowLast(b, a[|a| - 1].order);
    }
  }

  /** Sortedness and stability together fix the result: two sorted
      sequences with the same tie groups are equal, so `SortByOrder` is the
      only stable sort. */
  lemma {:induction false} SortedSameTiesEqual(a: seq<Task>, b: seq<Task>)
    requires SortedByOrder(a) && SortedByOrder(b) && SameTies(a, b)
    ensures a == b
    decreases |a|
  {
    LastOrdersAgree(a, b);
    if |a| > 0 {
      var la, lb := a[|a| - 1], b[|b| - 1];
      var a', b' := a[..|a| - 1], b[..|b| - 1];
      assert a == a' + [la] && b == b' + [lb];
      SameTiesInit(a', la, b', lb);
      SortedBelowLast(a);
      SortedBelowLast(b);
      SortedSameTiesEqual(a', b');
    }
  }

  /** `getColumnTasks(tasks, column)`: exactly the tasks of that column, sorted by `order`. */
  function GetColumnTasks(tasks: seq<Task>, column: Column): (r: seq<Task>)
    ensures SortedByOrder(r)
    ensures multiset(r) == multiset(Filter(tasks, (t: Task) => t.column == column))
    ensures SameTies(r, Filter(tasks, (t: Task) => t.column == column))
    ensures forall k :: 0 <= k < |r| ==> r[k].column == column && r[k] in tasks
    ensures forall k :: 0 <= k < |tasks| && tasks[k].column == column ==> tasks[k] in r
  {
    var inColumn := Filter(tasks, (t: Task) => t.column == column);
    var r := SortByOrder(inColumn);
    assert forall k :: 0 <= k < |r| ==> r[k] in multiset(inColumn);
    assert forall k :: 0 <= k < |tasks| && tasks[k].column == column ==> tasks[k] in multiset(r);
    r
  }

  /** `getVisibleTasks(tasks)`: every task not cleared, in the original order. */
  function GetVisibleTasks(tasks: seq<Task>): (r: seq<Task>)
    ensures forall k :: 0 <= k < |r| ==> r[k].column != Cleared && r[k] in tasks
    ensures forall k :: 0 <= k < |tasks| && tasks[k].column != Cleared ==> tasks[k] in r
    ensures forall t :: multiset(r)[t] == if t.column != Cleared then multiset(tasks)[t] else 0
    ensures SubsequenceOf(r, tasks)
  {
    FilterIsSubsequence(tasks, (t: Task) => t.column != Cleared);
    FilterCounts(tasks, (t: Task) => t.column != Cleared);
    Filter(tasks, (t: Task) => t.column != Cleared)
  }

  // --- Tag colours ---

  /** The colours the known tags already use. */
  function UsedColors(tags: map<string, TagInfo>): set<string> {
    set v | v in tags.Values :: v.color
  }

  /** The colours of `palette` no tag uses yet, in palette order. */
  function AvailableColors(palette: seq<string>, tags: map<string, TagInfo>): (r: seq<string>)
    ensures forall k :: 0 <= k < |r| ==> r[k] in palette && r[k] !in UsedColors(tags)
    ensures forall k :: 0 <= k < |palette| && palette[k] !in UsedColors(tags) ==> palette[k] in r
  {
    Filter(palette, (c: string) => c !in UsedColors(tags))
  }

  /** The colour a new tag gets: the first palette colour no tag uses; when
      every one is taken the source picks one at random, and `pick` stands
      for that choice. */
  function ChooseColor(palette: seq<string>, tags: map<string, TagInfo>, pick: nat): (c: string)
    requires |palette| > 0
    ensures c in palette
    ensures (exists k :: 0 <= k < |palette| && palette[k] !in UsedColors(tags)) ==>
      && c !in UsedColors(tags)
      && exists n :: 0 <= n < |palette| && palette[n] == c
           && forall m :: 0 <= m < n ==> palette[m] in UsedColors(tags)
  {
    var available := AvailableColors(palette, tags);
    if |available| > 0 then
      FirstOfFilter(palette, (c: string) => c !in UsedColors(tags));
      available[0]
    else
      palette[pick % |palette|]
  }

  /** `assignTagColor(tag, settings)` over a palette: a null or empty tag and
      a known tag leave the settings alone; a new tag is added with itself as
      display name and the colour `ChooseColor` gives, and no other tag
      changes. */
  function AssignTagColorFrom(tag: Option<string>, settings: Settings, palette: seq<string>, pick: nat): (r: Settings)
    requires |palette| > 0
    ensures tag.None? || tag.value == "" || tag.value in settings.tags ==> r == settings
    ensures tag.Some? && tag.value != "" && tag.value !in settings.tags ==>
      && r.blockedDomains == settings.blockedDomains
      && r.tags.Keys == settings.tags.Keys + {tag.value}
      && (forall k :: k in settings.tags ==> r.tags[k] == settings.tags[k])
      && r.tags[tag.value] == TagInfo(tag.value, ChooseColor(palette, settings.tags, pick))
  {
    if tag.None? || tag.value == "" || tag.value in settings.tags then settings
    else
      var info := TagInfo(tag.value, ChooseColor(palette, settings.tags, pick));
      settings.(tags := settings.tags[tag.value := info])
  }

  /** `assignTagColor(tag, settings)` with the extension's pastel palette. */
  function AssignTagColor(tag: Option<string>, settings: Settings, pick: nat): Settings {
    AssignTagColorFrom(tag, settings, C.PastelColors, pick)
  }

  /** The first element a filter keeps is preceded only by rejected elements. */
  lemma {:induction false} FirstOfFilter<T>(s: seq<T>, p: T -> bool)
    requires |Filter(s, p)| > 0
    ensures exists n :: 0 <= n < |s| && s[n] == Filter(s, p)[0] && forall m :: 0 <= m < n ==> !p(s[m])
    decreases |s|
  {
    var init := s[..|s| - 1];
    var last := s[|s| - 1];
    assert Filter(s, p) == if p(last) then Filter(init, p) + [last] else Filter(init, p);
    if |Filter(init, p)| > 0 {
      FirstOfFilter(init, p);
      var n :| 0 <= n < |init| && init[n] == Filter(init, p)[0] && forall m :: 0 <= m < n ==> !p(init[m]);
      assert s[n] == init[n];
      assert forall m :: 0 <= m < n ==> s[m] == init[m];
    } else {
      forall m | 0 <= m < |init|
        ensures !p(s[m])
      {
        assert s[m] == init[m];
      }
      assert Filter(s, p)[0] == last;
    }
  }
}
