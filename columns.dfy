/**
  The two list columns ("ongoing" and "completed"): the filter each column's
  listener applies to a snapshot, and the status a drop on a column asks for.
 */
module Columns {
  import opened Tasks

  /** The column's `type`, the string union "ongoing" | "completed". */
  datatype ColumnType = OngoingColumn | CompletedColumn

  /** The callback given to `tasks.filter` by a column of this type. */
  predicate Keeps(kind: ColumnType, t: Task) {
    if kind == OngoingColumn then t.status == Ongoing else t.status == Completed
  }

  /** The status a drop on a column passes to `moveTask`. */
  function DropStatus(kind: ColumnType): (s: Status)
    ensures forall t: Task :: Keeps(kind, t) <==> t.status == s
  {
    if kind == OngoingColumn then Ongoing else Completed
  }

  /** `tasks.filter(...)` as one column computes it. */
  function Filter(kind: ColumnType, tasks: seq<Task>): (r: seq<Task>)
    ensures forall i :: 0 <= i < |r| ==> Keeps(kind, r[i])
  {
    if |tasks| == 0 then []
    else
      (if Keeps(kind, tasks[0]) then [tasks[0]] else []) + Filter(kind, tasks[1..])
  }

  /** A column holds every task of its status, as often as the snapshot does, and no other. */
  lemma {:induction false} FilterCounts(kind: ColumnType, tasks: seq<Task>, t: Task)
    ensures multiset(Filter(kind, tasks))[t] == if Keeps(kind, t) then multiset(tasks)[t] else 0
  {
    if |tasks| > 0 {
      FilterCounts(kind, tasks[1..], t);
      assert tasks == [tasks[0]] + tasks[1..];
    }
  }

  /** The filter keeps the original order: extending the snapshot extends the column. */
  lemma {:induction false} FilterAppend(kind: ColumnType, tasks: seq<Task>, t: Task)
    ensures Filter(kind, tasks + [t]) == Filter(kind, tasks) + (if Keeps(kind, t) then [t] else [])
  {
    if |tasks| == 0 {
      assert tasks + [t] == [t];
    } else {
      FilterAppend(kind, tasks[1..], t);
      assert (tasks + [t])[1..] == tasks[1..] + [t];
    }
  }

  /** A column shows a snapshot whose every task it keeps unchanged. */
  lemma {:induction false} FilterKeepsAll(kind: ColumnType, tasks: seq<Task>)
    requires forall i :: 0 <= i < |tasks| ==> Keeps(kind, tasks[i])
    ensures Filter(kind, tasks) == tasks
  {
    if |tasks| > 0 {
      FilterKeepsAll(kind, tasks[1..]);
      assert tasks == [tasks[0]] + tasks[1..];
    }
  }

  /** The two columns split every snapshot between them: each task lands in exactly one. */
  lemma FilterPartition(tasks: seq<Task>)
    ensures multiset(Filter(OngoingColumn, tasks)) + multiset(Filter(CompletedColumn, tasks)) == multiset(tasks)
    ensures |Filter(OngoingColumn, tasks)| + |Filter(CompletedColumn, tasks)| == |tasks|
  {
    var a, b := Filter(OngoingColumn, tasks), Filter(CompletedColumn, tasks);
    assert multiset(a) + multiset(b) == multiset(tasks) by {
      forall t ensures (multiset(a) + multiset(b))[t] == multiset(tasks)[t] {
        FilterCounts(OngoingColumn, tasks, t);
        FilterCounts(CompletedColumn, tasks, t);
      }
    }
    assert |multiset(a) + multiset(b)| == |a| + |b|;
  }
}
