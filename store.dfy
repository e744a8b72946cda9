/**
  The observable task store (`TaskStateManagement` with its base `state`), the
  list columns that subscribe to it (`TaskList`), and the singleton accessor.

  A listener here is the column object that registered it: calling the
  listener is `TaskList.Receive`, which keeps in `assignedTasks` the tasks of the
  column's status. Besides that effect, the store keeps a ghost log of every
  call it makes (which listener position, which snapshot), so that "each
  listener once, in registration order, with the current collection" can be
  stated.
 */
module Store {
  import opened Tasks
  import opened Columns

  /** One listener call: the listener's position in registration order and the snapshot it got. */
  datatype Notification = Notification(position: nat, snapshot: seq<Task>)

  /** The calls one run of `updateListeners` makes, given `count` registered listeners. */
  ghost function Round(count: nat, snapshot: seq<Task>): seq<Notification> {
    seq(count, i requires 0 <= i < count => Notification(i, snapshot))
  }

  /** How many calls in `calls` went to the listener at `position`. */
  ghost function CallsTo(calls: seq<Notification>, position: nat): nat {
    if |calls| == 0 then 0
    else CallsTo(calls[..|calls| - 1], position) + (if calls[|calls| - 1].position == position then 1 else 0)
  }

  /**
    In one round every registered listener is called exactly once, and no
    call goes to a position beyond the registered ones.
   */
  lemma {:induction false} RoundCallsEachListenerOnce(count: nat, snapshot: seq<Task>, position: nat)
    ensures CallsTo(Round(count, snapshot), position) == if position < count then 1 else 0
  {
    if count > 0 {
      RoundCallsEachListenerOnce(count - 1, snapshot, position);
      assert Round(count, snapshot)[..count - 1] == Round(count - 1, snapshot);
    }
  }

  class TaskStore {
    var tasks: seq<Task>
    var listeners: seq<TaskList>
    ghost var log: seq<Notification>

    ghost predicate Valid()
      reads this
    {
      IdsInRange(tasks)
    }

    /**
      Each column this store notifies shows the current collection, filtered
      by its type, and so holds only tasks of its own status.
     */
    ghost predicate ColumnsShowCurrent()
      reads this, listeners
    {
      forall i :: 0 <= i < |listeners| ==>
        listeners[i].assignedTasks == Filter(listeners[i].kind, tasks) && listeners[i].Valid()
    }

    constructor ()
      ensures Valid()
      ensures tasks == [] && listeners == [] && log == []
    {
      tasks := [];
      listeners := [];
      log := [];
    }

    /** `addListener`: the listener list only grows, at its end. */
    method AddListener(listener: TaskList)
      modifies this
      ensures listeners == old(listeners) + [listener]
      ensures tasks == old(tasks) && log == old(log)
    {
      listeners := listeners + [listener];
    }

    /** `updateListeners`: call every listener, in order, with a copy of the collection. */
    method UpdateListeners()
      modifies this`log, listeners
      ensures log == old(log) + Round(|listeners|, tasks)
      ensures ColumnsShowCurrent()
    {
      for i := 0 to |listeners|
        invariant log == old(log) + Round(i, tasks)
        invariant forall j :: 0 <= j < i ==>
                    listeners[j].assignedTasks == Filter(listeners[j].kind, tasks) && listeners[j].Valid()
      {
        listeners[i].Receive(tasks);
        log := log + [Notification(i, tasks)];
        assert Round(i + 1, tasks) == Round(i, tasks) + [Notification(i, tasks)];
      }
    }

    /**
      `addTask` with the id `Math.random` would have drawn: one new ongoing task
      at the end, everything before it untouched, then one round of notifications.
     */
    method AddTask(title: string, description: string, id: nat)
      requires Valid() && ValidId(id)
      modifies this, listeners
      ensures Valid()
      ensures tasks == old(tasks) + [Task(id, title, description, Ongoing)]
      ensures listeners == old(listeners)
      ensures log == old(log) + Round(|listeners|, tasks)
      ensures ColumnsShowCurrent()
    {
      tasks := tasks + [Task(id, title, description, Ongoing)];
      UpdateListeners();
    }

    /**
      `moveTask`: the first task whose id text equals `taskId` takes `newStatus`
      if it had the other one, and only then are the listeners notified.
     */
    method MoveTask(taskId: string, newStatus: Status)
      requires Valid()
      modifies this, listeners
      ensures Valid()
      ensures tasks == MoveResult(old(tasks), taskId, newStatus)
      ensures listeners == old(listeners)
      ensures MoveNotifies(old(tasks), taskId, newStatus) ==>
                log == old(log) + Round(|listeners|, tasks) && ColumnsShowCurrent()
      ensures !MoveNotifies(old(tasks), taskId, newStatus) ==>
                log == old(log) && forall l :: l in listeners ==> l.assignedTasks == old(l.assignedTasks)
    {
      MoveKeepsIds(tasks, taskId, newStatus);
      var found := FirstMatch(tasks, taskId);
      if found.Some? && tasks[found.value].status != newStatus {
        tasks := tasks[found.value := tasks[found.value].(status := newStatus)];
        UpdateListeners();
      }
    }
  }

  /** `TaskList`: one column, holding the tasks it last rendered. */
  class TaskList {
    const kind: ColumnType
    const store: TaskStore
    var assignedTasks: seq<Task>

    /** The column only ever holds tasks of its own status. */
    ghost predicate Valid()
      reads this
    {
      forall i :: 0 <= i < |assignedTasks| ==> Keeps(kind, assignedTasks[i])
    }

    /** The constructor's `configure`: register this column's listener with the store. */
    constructor (kind: ColumnType, store: TaskStore)
      modifies store
      ensures Valid() && this.kind == kind && this.store == store && assignedTasks == []
      ensures store.listeners == old(store.listeners) + [this]
      ensures store.tasks == old(store.tasks) && store.log == old(store.log)
    {
      this.kind := kind;
      this.store := store;
      assignedTasks := [];
      new;
      store.AddListener(this);
    }

    /** The listener body: keep the snapshot's tasks of this column's status, in order. */
    method Receive(snapshot: seq<Task>)
      modifies this
      ensures Valid()
      ensures assignedTasks == Filter(kind, snapshot)
    {
      assignedTasks := Filter(kind, snapshot);
    }

    /** `drop`: ask the store to move the dragged task to this column's status. */
    method Drop(taskId: string)
      requires store.Valid()
      modifies store, store.listeners
      ensures store.Valid()
      ensures store.tasks == MoveResult(old(store.tasks), taskId, DropStatus(kind))
      ensures store.listeners == old(store.listeners)
      ensures MoveNotifies(old(store.tasks), taskId, DropStatus(kind)) ==>
                store.log == old(store.log) + Round(|store.listeners|, store.tasks) && store.ColumnsShowCurrent()
      ensures !MoveNotifies(old(store.tasks), taskId, DropStatus(kind)) ==>
                store.log == old(store.log) && forall l :: l in old(store.listeners) ==> l.assignedTasks == old(l.assignedTasks)
    {
      store.MoveTask(taskId, DropStatus(kind));
    }
  }

  /**
    A task dropped on a column ends up in that column's view of the new
    collection and not in the other column's.
   */
  lemma DroppedTaskShowsInTargetColumn(tasks: seq<Task>, taskId: string, kind: ColumnType, i: nat)
    requires i < |tasks| && IdMatches(tasks[i], taskId)
    requires forall j :: 0 <= j < i ==> !IdMatches(tasks[j], taskId)
    ensures var after := MoveResult(tasks, taskId, DropStatus(kind));
      && after[i] in Filter(kind, after)
      && forall other :: other != kind ==> after[i] !in Filter(other, after)
  {
    var after := MoveResult(tasks, taskId, DropStatus(kind));
    MoveChangesOnlyFirstMatch(tasks, taskId, DropStatus(kind), i);
    assert after[i] in multiset(after);
    FilterCounts(kind, after, after[i]);
    forall other | other != kind
      ensures after[i] !in Filter(other, after)
    {
      FilterCounts(other, after, after[i]);
    }
  }

  /** The static `instance` slot behind `TaskStateManagement.getInstance`. */
  class StoreHolder {
    var instance: TaskStore?

    constructor ()
      ensures instance == null
    {
      instance := null;
    }

    /** `getInstance`: the existing store if there is one, otherwise a fresh empty one kept from now on. */
    method GetInstance() returns (s: TaskStore)
      modifies this
      ensures old(instance) != null ==> s == old(instance)
      ensures old(instance) == null ==> fresh(s) && s.tasks == [] && s.listeners == [] && s.log == [] && s.Valid()
      ensures instance == s
    {
      if instance != null {
        return instance;
      }
      s := new TaskStore();
      instance := s;
    }
  }
}
