/**
 * The task board: three status columns over a local mirror of the server's task list, and the
 * drag handler that moves a task between columns optimistically, rolling the mirror back to
 * its pre-move snapshot when the status update fails.
 */
module TaskBoard {
  import opened Js
  import opened Api
  import TaskService

  /** A task as the list endpoint returns it; `rest` holds every other field the server sends. */
  datatype Task = Task(id: string, title: string, description: string, status: string, rest: TaskService.Object)

  /** `Object.keys(columns)`, in declaration order. */
  const Columns: seq<string> := ["pending", "completed", "done"]

  const InvalidColumnMessage := "Tasks can only be moved to Pending, Completed, or Done columns"
  const SameColumnMessage := "Task is already in the same column."
  const StatusUpdateFailedMessage := "Failed to update task status. Please try again."
  const DeleteFailedMessage := "Failed to delete task. Please try again."

  /** `getTasksByColumn(status)`: the tasks whose status is `status`, as `filter` keeps them. */
  function TasksByColumn(tasks: seq<Task>, status: string): (r: seq<Task>)
    ensures |r| <= |tasks|
    ensures forall t :: t in r ==> t in tasks && t.status == status
    ensures forall t :: t in tasks && t.status == status ==> t in r
  {
    if tasks == [] then []
    else (if tasks[0].status == status then [tasks[0]] else []) + TasksByColumn(tasks[1..], status)
  }

  /** Filtering distributes over concatenation, so the column keeps the tasks' relative order. */
  lemma {:induction false} TasksByColumnAppend(a: seq<Task>, b: seq<Task>, status: string)
    ensures TasksByColumn(a + b, status) == TasksByColumn(a, status) + TasksByColumn(b, status)
  {
    if a == [] {
      assert a + b == b;
    } else {
      assert (a + b)[1..] == a[1..] + b;
      TasksByColumnAppend(a[1..], b, status);
    }
  }

  /** A column holds exactly the tasks of that status, in order: one element at a time. */
  lemma TasksByColumnSingleton(t: Task, status: string)
    ensures TasksByColumn([t], status) == if t.status == status then [t] else []
  {
    assert [t][1..] == [];
  }

  /** When every task has a column's status, the three columns together show every task once. */
  lemma {:induction false} ColumnsPartitionBoard(tasks: seq<Task>)
    requires forall t :: t in tasks ==> t.status in Columns
    ensures |TasksByColumn(tasks, "pending")| + |TasksByColumn(tasks, "completed")|
            + |TasksByColumn(tasks, "done")| == |tasks|
  {
    if tasks != [] {
      assert tasks[0] in tasks;
      ColumnsPartitionBoard(tasks[1..]);
    }
  }

  /**
   * The optimistic update `tasks.map(task => task._id === taskId ? { ...task, status } : task)`:
   * same length and order, the status of every task with that id replaced, nothing else touched.
   */
  function WithStatus(tasks: seq<Task>, taskId: string, status: string): (r: seq<Task>)
    ensures |r| == |tasks|
    ensures forall i :: 0 <= i < |tasks| ==> r[i].(status := tasks[i].status) == tasks[i]
    ensures forall i :: 0 <= i < |tasks| && tasks[i].id == taskId ==> r[i].status == status
    ensures forall i :: 0 <= i < |tasks| && tasks[i].id != taskId ==> r[i] == tasks[i]
  {
    if tasks == [] then []
    else [if tasks[0].id == taskId then tasks[0].(status := status) else tasks[0]]
         + WithStatus(tasks[1..], taskId, status)
  }

  /**
   * After a move from `src` to `dst`, the moved task is in the destination column and no task
   * with its id is left in the source column; every other task stays in its own column.
   */
  lemma MovedTaskChangesColumn(tasks: seq<Task>, taskId: string, src: string, dst: string)
    requires src != dst
    ensures forall t :: t in tasks && t.id == taskId ==>
              t.(status := dst) in TasksByColumn(WithStatus(tasks, taskId, dst), dst)
    ensures forall t :: t in TasksByColumn(WithStatus(tasks, taskId, dst), src) ==> t.id != taskId
    ensures forall t :: t in tasks && t.id != taskId ==>
              t in TasksByColumn(WithStatus(tasks, taskId, dst), t.status)
  {
    var moved := WithStatus(tasks, taskId, dst);
    forall t | t in tasks && t.id == taskId
      ensures t.(status := dst) in TasksByColumn(moved, dst)
    {
      var i :| 0 <= i < |tasks| && tasks[i] == t;
      assert moved[i] == t.(status := dst);
    }
    forall t | t in tasks && t.id != taskId
      ensures t in TasksByColumn(moved, t.status)
    {
      var i :| 0 <= i < |tasks| && tasks[i] == t;
      assert moved[i] == t;
    }
  }

  /** Moving the same task to the same column twice is the same as moving it once. */
  lemma {:induction false} WithStatusIdempotent(tasks: seq<Task>, taskId: string, status: string)
    ensures WithStatus(WithStatus(tasks, taskId, status), taskId, status) == WithStatus(tasks, taskId, status)
  {
    if tasks != [] {
      WithStatusIdempotent(tasks[1..], taskId, status);
    }
  }

  /**
   * The handler's guards: the message it shows when it refuses a drop, or None when it accepts.
   */
  function DragRejection(source: string, destination: Option<string>): (r: Option<string>)
    ensures r == Some(InvalidColumnMessage) <==> destination.None? || destination.value !in Columns
    ensures r == Some(SameColumnMessage) <==>
              destination.Some? && destination.value in Columns && destination.value == source
    ensures r.None? <==> destination.Some? && destination.value in Columns && destination.value != source
  {
    if destination.None? || destination.value !in Columns then Some(InvalidColumnMessage)
    else if source == destination.value then Some(SameColumnMessage)
    else None
  }

  /** An accepted drop whose status request is in flight: the request and the pre-move snapshot. */
  datatype PendingMove = PendingMove(request: TaskService.Request, originalTasks: seq<Task>)

  class Board {
    var localTasks: seq<Task>
    var errorMessage: string
    /** The id of the task awaiting delete confirmation (`showDeleteModal`), or null. */
    var showDeleteModal: Option<string>

    constructor ()
      ensures localTasks == [] && errorMessage == "" && showDeleteModal == None
    {
      localTasks := [];
      errorMessage := "";
      showDeleteModal := None;
    }

    /** The effect on `response?.data`: a list from the server replaces the mirror wholesale. */
    method ReceiveServerTasks(data: Option<seq<Task>>)
      modifies this`localTasks
      ensures localTasks == if data.Some? then data.value else old(localTasks)
    {
      if data.Some? {
        localTasks := data.value;
      }
    }

    /**
     * `handleDragEnd` up to its `await`: refuse the drop, or apply the move optimistically and
     * issue the status request.
     */
    method StartDrag(source: string, destination: Option<string>, draggableId: string)
      returns (pending: Option<PendingMove>)
      modifies this`localTasks, this`errorMessage
      ensures DragRejection(source, destination).Some? ==>
                pending.None? && localTasks == old(localTasks)
                && errorMessage == DragRejection(source, destination).value
      ensures DragRejection(source, destination).None? ==>
                && pending == Some(PendingMove(TaskService.UpdateTaskStatusQuery(draggableId, destination.value),
                                              old(localTasks)))
                && localTasks == WithStatus(old(localTasks), draggableId, destination.value)
                && errorMessage == old(errorMessage)
    {
      var rejection := DragRejection(source, destination);
      if rejection.Some? {
        errorMessage := rejection.value;
        return None;
      }
      var taskId := draggableId;
      var newStatus := destination.value;
      var originalTasks := localTasks;
      var updatedTasks := WithStatus(originalTasks, taskId, newStatus);
      localTasks := updatedTasks;
      pending := Some(PendingMove(TaskService.UpdateTaskStatusQuery(taskId, newStatus), originalTasks));
    }

    /** `handleDragEnd` after its `await`: clear the error, or roll back to the snapshot. */
    method FinishDrag(pending: PendingMove, result: MutationResult)
      modifies this`localTasks, this`errorMessage
      ensures result.Fulfilled? ==> errorMessage == "" && localTasks == old(localTasks)
      ensures result.Rejected? ==>
                errorMessage == StatusUpdateFailedMessage && localTasks == pending.originalTasks
    {
      if Unwrap(result).None? {
        errorMessage := "";
      } else {
        errorMessage := StatusUpdateFailedMessage;
        localTasks := pending.originalTasks;
      }
    }

    /** The whole of `handleDragEnd`, with the status request settling as `result`. */
    method HandleDragEnd(source: string, destination: Option<string>, draggableId: string, result: MutationResult)
      returns (request: Option<TaskService.Request>)
      modifies this`localTasks, this`errorMessage
      ensures DragRejection(source, destination).Some? ==>
                request.None? && localTasks == old(localTasks)
                && errorMessage == DragRejection(source, destination).value
      ensures DragRejection(source, destination).None? ==>
                request == Some(TaskService.UpdateTaskStatusQuery(draggableId, destination.value))
      ensures DragRejection(source, destination).None? && result.Fulfilled? ==>
                errorMessage == "" && localTasks == WithStatus(old(localTasks), draggableId, destination.value)
      ensures DragRejection(source, destination).None? && result.Rejected? ==>
                errorMessage == StatusUpdateFailedMessage && localTasks == old(localTasks)
    {
      var pending := StartDrag(source, destination, draggableId);
      request := None;
      if pending.Some? {
        request := Some(pending.value.request);
        FinishDrag(pending.value, result);
      }
    }

    /** The delete button of a card: remember the task and open the confirmation dialog. */
    method AskToDelete(taskId: string)
      modifies this`showDeleteModal
      ensures showDeleteModal == Some(taskId)
    {
      showDeleteModal := Some(taskId);
    }

    /** The dialog is open while `!!showDeleteModal`. */
    predicate DeleteDialogOpen()
      reads this
    {
      showDeleteModal.Some? && showDeleteModal.value != ""
    }

    /** `onClose` of the dialog. */
    method CloseDeleteDialog()
      modifies this`showDeleteModal
      ensures showDeleteModal == None
    {
      showDeleteModal := None;
    }

    /**
     * `handleDelete`: without a selected task nothing happens; otherwise the delete request is
     * issued, a failure is reported, and the selection is cleared either way.
     */
    method HandleDelete(result: MutationResult) returns (request: Option<TaskService.Request>)
      modifies this`showDeleteModal, this`errorMessage
      ensures !old(DeleteDialogOpen()) ==>
                request.None? && showDeleteModal == old(showDeleteModal) && errorMessage == old(errorMessage)
      ensures old(DeleteDialogOpen()) ==>
                && request == Some(TaskService.DeleteTaskQuery(old(showDeleteModal).value))
                && showDeleteModal == None
                && errorMessage == if result.Rejected? then DeleteFailedMessage else old(errorMessage)
    {
      if !DeleteDialogOpen() {
        return None;
      }
      request := Some(TaskService.DeleteTaskQuery(showDeleteModal.value));
      if Unwrap(result).Some? {
        errorMessage := DeleteFailedMessage;
      }
      showDeleteModal := None;
    }
  }

  /**
   * Two drags of different tasks overlapping in time: the second one's request succeeds and the
   * first one's fails. The first rollback restores its whole snapshot, discarding the second,
   * confirmed move from the mirror until the next refetch.
   */
  method OverlappingDragsLoseConfirmedMove(tasks: seq<Task>, a: string, b: string, ok: ResponseBody, err: ErrorPayload)
    returns (mirror: seq<Task>)
    requires a != b
    requires exists i :: 0 <= i < |tasks| && tasks[i].id == b
    requires forall i :: 0 <= i < |tasks| && tasks[i].id == b ==> tasks[i].status == "pending"
    ensures mirror == tasks
    ensures forall t :: t in TasksByColumn(mirror, "done") ==> t.id != b
  {
    var board := new Board();
    board.ReceiveServerTasks(Some(tasks));
    var first := board.StartDrag("pending", Some("done"), a);
    var second := board.StartDrag("pending", Some("done"), b);
    board.FinishDrag(second.value, Fulfilled(ok));
    board.FinishDrag(first.value, Rejected(err));
    mirror := board.localTasks;
  }
}
