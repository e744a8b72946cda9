/**
  The task record and the value-level rules of the task store: which task a
  drag payload designates (`Array.prototype.find` over the collection, keyed by
  the id's decimal text) and what `moveTask` makes of the collection.
 */
module Tasks {
  import opened Decimal

  datatype Option<T> = None | Some(value: T)

  /** The numeric enum `taskStatus`. */
  datatype Status = Ongoing | Completed

  datatype Task = Task(id: nat, title: string, description: string, status: Status)

  /** Ids are drawn by `Math.floor(Math.random() * 100 + 1)`: an integer in 1..100. */
  predicate ValidId(id: int) {
    1 <= id <= 100
  }

  predicate IdsInRange(tasks: seq<Task>) {
    forall i :: 0 <= i < |tasks| ==> ValidId(tasks[i].id)
  }

  /** The predicate handed to `find`: the id's decimal text equals the payload. */
  predicate IdMatches(t: Task, taskId: string) {
    ToDecimal(t.id) == taskId
  }

  /** `tasks.find(...)`, as the index of the element it returns. */
  function FirstMatch(tasks: seq<Task>, taskId: string): (r: Option<nat>)
    ensures r.Some? ==> r.value < |tasks| && IdMatches(tasks[r.value], taskId)
    ensures r.Some? ==> forall j :: 0 <= j < r.value ==> !IdMatches(tasks[j], taskId)
    ensures r.None? ==> forall j :: 0 <= j < |tasks| ==> !IdMatches(tasks[j], taskId)
  {
    if |tasks| == 0 then None
    else if IdMatches(tasks[0], taskId) then Some(0)
    else match FirstMatch(tasks[1..], taskId)
      case Some(j) => Some(j + 1)
      case None => None
  }

  /** Whether `moveTask(taskId, newStatus)` changes a task (and so notifies). */
  predicate MoveNotifies(tasks: seq<Task>, taskId: string, newStatus: Status)
    ensures MoveNotifies(tasks, taskId, newStatus) <==> MoveResult(tasks, taskId, newStatus) != tasks
  {
    var found := FirstMatch(tasks, taskId);
    found.Some? && tasks[found.value].status != newStatus
  }

  /** The collection after `moveTask(taskId, newStatus)`. */
  function MoveResult(tasks: seq<Task>, taskId: string, newStatus: Status): (r: seq<Task>)
    ensures |r| == |tasks|
    ensures forall j :: 0 <= j < |tasks| ==>
      r[j].id == tasks[j].id && r[j].title == tasks[j].title && r[j].description == tasks[j].description
    ensures forall j :: 0 <= j < |tasks| && r[j] != tasks[j] ==> IdMatches(tasks[j], taskId) && r[j].status == newStatus
  {
    var found := FirstMatch(tasks, taskId);
    if found.Some? && tasks[found.value].status != newStatus then
      tasks[found.value := tasks[found.value].(status := newStatus)]
    else
      tasks
  }

  /** A payload that names no task leaves the collection alone and notifies nobody. */
  lemma MoveMissIsNoOp(tasks: seq<Task>, taskId: string, newStatus: Status)
    requires forall j :: 0 <= j < |tasks| ==> !IdMatches(tasks[j], taskId)
    ensures MoveResult(tasks, taskId, newStatus) == tasks
    ensures !MoveNotifies(tasks, taskId, newStatus)
  {
  }

  /**
    When the first task with a matching id sits at index `i`, only its status
    can change: every other task, the length and the order stay as they were,
    and a notification follows exactly when the status differs.
   */
  lemma MoveChangesOnlyFirstMatch(tasks: seq<Task>, taskId: string, newStatus: Status, i: nat)
    requires i < |tasks| && IdMatches(tasks[i], taskId)
    requires forall j :: 0 <= j < i ==> !IdMatches(tasks[j], taskId)
    ensures var r := MoveResult(tasks, taskId, newStatus);
      && |r| == |tasks|
      && r[i] == tasks[i].(status := newStatus)
      && (forall j :: 0 <= j < |tasks| && j != i ==> r[j] == tasks[j])
    ensures MoveNotifies(tasks, taskId, newStatus) <==> tasks[i].status != newStatus
  {
  }

  /**
    With duplicate ids, a later task sharing the first match's id is never
    touched by the move.
   */
  lemma MoveSkipsLaterDuplicates(tasks: seq<Task>, taskId: string, newStatus: Status, i: nat, k: nat)
    requires i < k < |tasks| && tasks[i].id == tasks[k].id && IdMatches(tasks[i], taskId)
    ensures MoveResult(tasks, taskId, newStatus)[k] == tasks[k]
  {
    var found := FirstMatch(tasks, taskId);
    assert found.Some? && found.value <= i;
  }

  /** Moving a task to the status it already has changes nothing and notifies nobody. */
  lemma MoveToSameStatusIsNoOp(tasks: seq<Task>, taskId: string, newStatus: Status, i: nat)
    requires i < |tasks| && IdMatches(tasks[i], taskId)
    requires forall j :: 0 <= j < i ==> !IdMatches(tasks[j], taskId)
    requires tasks[i].status == newStatus
    ensures MoveResult(tasks, taskId, newStatus) == tasks
    ensures !MoveNotifies(tasks, taskId, newStatus)
  {
    MoveChangesOnlyFirstMatch(tasks, taskId, newStatus, i);
  }

  /** A move keeps every id, so the ids stay in 1..100. */
  lemma MoveKeepsIds(tasks: seq<Task>, taskId: string, newStatus: Status)
    requires IdsInRange(tasks)
    ensures IdsInRange(MoveResult(tasks, taskId, newStatus))
  {
  }

  /**
    The payload match is exact text equality: "7" designates a task with id 7,
    while "07" and " 7" designate no task at all.
   */
  lemma PayloadMatchIsExact(t: Task)
    ensures t.id == 7 ==> IdMatches(t, "7")
    ensures !IdMatches(t, "07") && !IdMatches(t, " 7")
  {
    DecimalMatchIff(t.id, "07");
    DecimalMatchIff(t.id, " 7");
    if t.id == 7 {
      assert ToDecimal(7) == ['7'];
    }
  }
}
