# Drag-and-drop to-do list: the task store, its columns and its form

This project models the logic of a browser to-do list in which tasks move
between an "ongoing" and a "completed" column by drag and drop. The model
covers:

- the in-memory task store (`TaskStateManagement` and its base `state`). It
  appends new ongoing tasks, moves the first task whose id text matches a
  drag payload to a new status, and notifies its listeners;
- the two list columns (`TaskList`). Each one registers a listener that keeps
  the tasks of its own status, and a drop on a column asks the store for
  that column's status;
- the input form (`ToDoForm`). It rejects a submission when either field is
  blank after `trim()`, and otherwise hands both fields, untrimmed, to the store.

Modules:

- `Decimal` (`decimal.dfy`): the decimal text `toString()` gives a task id,
  its reading back, and the fact that a string matches an id's text exactly
  when it is a canonical digit string denoting that id.
- `Tasks` (`tasks.dfy`): `Task` and `Status`, the `find` over the collection
  (`FirstMatch`), and the value-level meaning of `moveTask` (`MoveResult`,
  `MoveNotifies`) with its properties: a miss is a no-op, only the first match
  changes, a later duplicate id is never touched, and moving to the current
  status changes nothing.
- `Columns` (`columns.dfy`): the column filter, the column-to-status mapping
  used on drop, and the facts that the filter keeps the original order and
  that the two columns partition every snapshot.
- `Store` (`store.dfy`): the classes `TaskStore`, `TaskList` and `StoreHolder`
  (the static singleton slot). `TaskStore.tasks` and `TaskStore.listeners`
  are sequences that the methods reassign. A listener is the `TaskList` that
  registered it, and calling it is `TaskList.Receive`. The ghost `log`
  records every call (listener position and snapshot), so each notifying
  mutation is specified as exactly one `Round`: each listener once, in
  registration order, with the current collection.
- `Form` (`form.dfy`): `trim`, `getUserInput`, the form class with
  `clearInputs` and `onSubmit`, and the page's start-up sequence.

Ids are drawn from 1..100 and can collide. `moveTask` then always picks the
earliest task with that id (`Tasks.MoveSkipsLaterDuplicates`). The model
keeps this behaviour as written.

## Model

| member | source | states |
|---|---|---|
| `Decimal.ToDecimal` | src/app.ts:245 | the id text is a non-empty digit string with no leading zero, one digit long exactly for ids below 10 |
| `Decimal.ParseToDecimal` | src/app.ts:245 | reading an id's text back gives the id |
| `Decimal.ToDecimalParse` | src/app.ts:245 | every canonical digit string is the text of the number it denotes |
| `Decimal.ToDecimalInjective` | src/app.ts:245 | two ids with the same text are the same id |
| `Decimal.DecimalMatchIff` | src/app.ts:245 | a payload equals an id's text iff it is a canonical digit string denoting that id |
| `Tasks.ValidId` | src/app.ts:235 | no contract: the range 1..100 of `Math.floor(Math.random() * 100 + 1)`; `Store.TaskStore.AddTask` requires it of the drawn id and `Tasks.MoveKeepsIds` keeps it |
| `Tasks.IdMatches` | src/app.ts:245 | no contract: the `find` callback, the id's decimal text equals the payload; `Decimal.DecimalMatchIff` and `Tasks.PayloadMatchIsExact` give its meaning |
| `Tasks.FirstMatch` | src/app.ts:245 | `find` returns an index whose task's id text equals the payload, with no match before it, or nothing when no task matches |
| `Tasks.MoveResult` | src/app.ts:245-247 | the collection after `moveTask`: same length; ids, titles and descriptions unchanged everywhere; a task that differs matches the payload and now has the requested status |
| `Tasks.MoveNotifies` | src/app.ts:246-248 | `moveTask` notifies exactly when it changes the collection |
| `Tasks.MoveMissIsNoOp` | src/app.ts:244-250 | a payload matching no task leaves the collection unchanged and causes no notification |
| `Tasks.MoveChangesOnlyFirstMatch` | src/app.ts:245-249 | with the first match at `i`, only task `i` takes the new status; length, order and every other task are unchanged; a notification follows iff the status differed |
| `Tasks.MoveSkipsLaterDuplicates` | src/app.ts:245-247 | a later task sharing the matched id is never changed by a move |
| `Tasks.MoveToSameStatusIsNoOp` | src/app.ts:246-249 | moving the first match to its current status changes nothing and notifies nobody |
| `Tasks.MoveKeepsIds` | src/app.ts:244-250 | a move keeps all ids in 1..100 |
| `Tasks.PayloadMatchIsExact` | src/app.ts:245 | "7" matches id 7, while "07" and " 7" match no id |
| `Columns.Keeps` | src/app.ts:181-186 | no contract: the filter callback, ongoing columns keep ongoing tasks and all others keep completed ones; `Columns.DropStatus` ties it to the drop status |
| `Columns.DropStatus` | src/app.ts:160-163 | the status a drop requests is exactly the status the column's filter keeps |
| `Columns.Filter` | src/app.ts:180-187 | every task a column keeps has the column's status |
| `Columns.FilterCounts` | src/app.ts:181-186 | a column holds each task of its status as often as the snapshot does, and no task of the other status |
| `Columns.FilterAppend` | src/app.ts:181-186 | the filter keeps the snapshot's order: one more task at the end adds that task at the end of the column iff its status matches |
| `Columns.FilterKeepsAll` | src/app.ts:181-186 | a snapshot of only this column's status is kept whole |
| `Columns.FilterPartition` | src/app.ts:180-187 | the ongoing and completed columns together hold exactly the snapshot's tasks (as a multiset, and in number) |
| `Store.Round` | src/app.ts:252-257 | no contract: the definition `UpdateListeners` meets, one call per listener position 0, 1, 2, ... in order, each with the same snapshot; `Store.RoundCallsEachListenerOnce` states what it guarantees |
| `Store.RoundCallsEachListenerOnce` | src/app.ts:252-257 | in one round each registered listener is called exactly once, and no call goes to a position beyond the registered ones |
| `Store.TaskStore.constructor` | src/app.ts:224-231 | a new store has no tasks, no listeners and no notifications |
| `Store.TaskStore.AddListener` | src/app.ts:217-220 | registering appends the listener to the end of the list; tasks and log are unchanged |
| `Store.TaskStore.UpdateListeners` | src/app.ts:252-257 | the loop calls every listener once, in order, with the current collection; afterwards every column shows the collection filtered by its type and so holds only tasks of its status |
| `Store.TaskStore.AddTask` | src/app.ts:233-242 | one task `(id, title, description, ongoing)` is appended after the unchanged earlier tasks, ids stay in 1..100, then exactly one round of notifications |
| `Store.TaskStore.MoveTask` | src/app.ts:244-250 | the collection becomes `MoveResult`; exactly one round of notifications if `MoveNotifies`, otherwise no call and no column changes |
| `Store.TaskList.constructor` | src/app.ts:133-139 | a new column is empty and is appended to the store's listeners; the store's tasks are unchanged |
| `Store.TaskList.Receive` | src/app.ts:180-188 | the listener body: the column now holds the snapshot filtered by its type, so it holds only tasks of its status |
| `Store.TaskList.Drop` | src/app.ts:157-164 | a drop performs `moveTask` with the column's status: same collection change, one round of notifications iff the move notifies, otherwise no column changes |
| `Store.DroppedTaskShowsInTargetColumn` | src/app.ts:157-187 | after a drop, the moved task is in the target column's view and in no other column's view |
| `Store.StoreHolder.constructor` | src/app.ts:226 | the singleton slot starts empty |
| `Store.StoreHolder.GetInstance` | src/app.ts:260-266 | an existing store is returned unchanged; otherwise a fresh empty store is created, kept and returned |
| `Form.IsWhitespace` | src/app.ts:298 | no contract: the code points `trim` removes (ECMAScript WhiteSpace and LineTerminator); `Form.TrimEmptyIffBlank` and `Form.Trim` give its use |
| `Form.Trim` | src/app.ts:298 | `trim()` yields the stretch of the field from its first to its last non-whitespace character; everything cut off on either side is whitespace |
| `Form.TrimStart` | src/app.ts:298 | the result is the suffix of the input that starts at its first non-whitespace character; everything dropped is whitespace |
| `Form.TrimEnd` | src/app.ts:298 | the result is the prefix of the input that ends at its last non-whitespace character; everything dropped is whitespace |
| `Form.TrimEmptyIffBlank` | src/app.ts:298 | `trim()` yields the empty string iff the field is all whitespace |
| `Form.GetUserInput` | src/app.ts:294-304 | input is accepted iff neither field is blank; an accepted pair is the two fields exactly as typed |
| `Form.ToDoForm.constructor` | src/app.ts:275-287 | the form is bound to the store and both inputs start empty |
| `Form.ToDoForm.ClearInputs` | src/app.ts:289-292 | both inputs become empty |
| `Form.ToDoForm.OnSubmit` | src/app.ts:306-317 | an accepted pair adds one ongoing task with the untrimmed fields, notifies once and clears the inputs; a rejected one leaves the store, its columns and the inputs unchanged |
| `Form.Start` | src/app.ts:326-331 | start-up takes the one store (a fresh store with no tasks and no notifications when the slot was empty), builds a fresh form with empty inputs and two fresh empty columns, and registers the ongoing column and then the completed column as its listeners; an existing store keeps its tasks and log |

## Left out

- Rendering: `BaseComponent`, template cloning, `insertAdjacentElement`, `TaskItem.renderContent`, `TaskList.renderContent` and `renderList`. They are browser DOM output with no logic to state. A column's rendered list is modelled by the tasks it holds (`TaskList.assignedTasks`).
- Drag-event plumbing: `dragStart`, `dragEnd`, `dragOver`, `dragLeave`, `dataTransfer`, `classList` and the `autobind` decorator. These are browser APIs and JavaScript `this` binding. `dragStart` puts the id's `toString()` text into the payload, which is what `Decimal.ToDecimal` models. The `dragOver` test of the payload's type is not modelled.
- `Math.random`: the id is a parameter of `AddTask` and `OnSubmit`, constrained to 1..100.
- `alert` on rejected input and the `console.log` calls are side effects with no state. They are not modelled.
- Listeners are not arbitrary callbacks. In this program every listener is a column's filter, so the store's listener list holds `TaskList` objects, and the generic `state<T>` is specialised to tasks.
- `Store.TaskStore.MoveTask`: tasks are values, so the in-place `task.status = newStatus` becomes an update of the store's sequence. In the program, the Task object is shared with snapshots delivered earlier. This aliasing cannot be observed, because every column rebuilds its list from the fresh snapshot right away.
- Whitespace for `trim` is the fixed list of ECMAScript WhiteSpace and LineTerminator code points in `Form.IsWhitespace`. Unicode property tables are not consulted.
- Task ids are `nat`. The program's ids are JavaScript numbers, but every id comes from `addTask` and is an integer in 1..100.
- The form's inputs start empty; the template markup that defines them is not part of this model. Users typing into the inputs is an assignment to `ToDoForm.title` and `ToDoForm.description`.
- The global `taskState` singleton is used through an explicit store reference, which the form and the columns receive at construction.
- dist/app.js is the compiled output of src/app.ts, with the same logic. It is not modelled separately.
