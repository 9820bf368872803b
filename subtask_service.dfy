/** SubTaskService: lifecycle of SubTasks, each under a parent TaskItem, over the shared
    context. Every operation returns its result together with a status message. */
module SubTaskServices {
  import opened Models
  import opened Text
  import opened Store

  const SUBTASK_EMPTY_DESCRIPTION_MESSAGE := "The SubTask description cannot be left empty"
  const EMPTY_NAME_MESSAGE := "The SubTask name cannot be left empty"
  const SUBTASK_ID_MISMATCH_MESSAGE := "Invalid request as provided id does not match with SubTaskId"

  function SubTaskRetrievedMessage(id: int): string
  {
    "Successfully retrieved SubTask for Task with id: " + IntToString(id)
  }

  function SubTaskMissingMessage(id: int): string
  {
    "SubTask with id: " + IntToString(id) + " doesnot exists"
  }

  function RetrieveFailedMessage(taskId: int): string
  {
    "Failed to retreive SubTasks for Task with TaskId: " + IntToString(taskId)
  }

  function TaskMissingMessage(taskId: int): string
  {
    "TaskItem with id: " + IntToString(taskId) + " doesnot exists, Please recheck the task id"
  }

  function ListedMessage(taskId: int): string
  {
    "Successfully retrieved SubTasks for Task with TaskId: " + IntToString(taskId)
  }

  /** The refusal of AddSubTask for a missing parent: two leading spaces, no space after "id:". */
  function AddParentMissingMessage(taskId: int): string
  {
    "  Cannot add SubTask,Task with id:" + IntToString(taskId) + " doesnot exists, Please recheck the task Id"
  }

  /** The refusal of DeleteSubTask for a missing parent: it keeps the word "add" and has a
      space after "id:". */
  function DeleteParentMissingMessage(taskId: int): string
  {
    "  Cannot add SubTask,Task with id: " + IntToString(taskId) + " doesnot exists, Please recheck the task Id"
  }

  /** The success message of AddSubTask, which speaks of a TaskItem. */
  function SubTaskAddedMessage(name: string): string
  {
    "TaskItem with name " + name + " added successfully"
  }

  function SubTaskUpdatedMessage(id: int): string
  {
    "SubTask with id: " + IntToString(id) + " updated successfully"
  }

  function SubTaskDeletedMessage(id: int): string
  {
    "SubTask with id: " + IntToString(id) + " deleted successfully"
  }

  /** `subTaskId` names a stored subtask (the first with that id) that belongs to task `taskId`. */
  predicate SubTaskUnder(subs: seq<SubTask>, taskId: int, subTaskId: int)
  {
    HasSubTask(subs, subTaskId) && subs[SubTaskIndex(subs, subTaskId)].taskItemId == taskId
  }

  /** The stored SubTask after an update: the payload's name, description, dates and
      completion flag; its own id and parent stay. */
  function OverwriteSubTask(stored: SubTask, payload: SubTask): (r: SubTask)
    ensures r.subTaskId == stored.subTaskId && r.taskItemId == stored.taskItemId
    ensures r.subTaskName == payload.subTaskName && r.subTaskDescription == payload.subTaskDescription
    ensures r.dateCreated == payload.dateCreated && r.dueDate == payload.dueDate
    ensures r.isCompleted == payload.isCompleted
  {
    stored.(subTaskName := payload.subTaskName,
            subTaskDescription := payload.subTaskDescription,
            dateCreated := payload.dateCreated,
            dueDate := payload.dueDate,
            isCompleted := payload.isCompleted)
  }

  class SubTaskService {
    const context: TaskContext

    constructor (context: TaskContext)
      ensures this.context == context
    {
      this.context := context;
    }

    /** The first SubTask with `id` in the SubTasks collection (not a task's nested list),
        or none. */
    function GetSubTaskWithId(id: int): (r: Reply<Option<SubTask>>)
      reads context
      ensures r.value.Some? <==> HasSubTask(context.subTasks, id)
      ensures r.value.Some? ==> IsFirstSubTask(context.subTasks, id, r.value.value)
      ensures r.value.Some? ==> r.message == SubTaskRetrievedMessage(id)
      ensures r.value.None? ==> r.message == SubTaskMissingMessage(id)
    {
      var k := SubTaskIndex(context.subTasks, id);
      if k < |context.subTasks| then Reply(Some(context.subTasks[k]), SubTaskRetrievedMessage(id))
      else Reply(None, SubTaskMissingMessage(id))
    }

    /** The subtasks of task `taskId`. `readFails` stands for the TaskItems read raising an
        error: then the result is absent. A task id no TaskItem has gives an empty list. */
    function GetSubTasks(taskId: int, readFails: bool): (r: Reply<Option<seq<SubTask>>>)
      reads context
      ensures r.value.None? <==> readFails
      ensures readFails ==> r.message == RetrieveFailedMessage(taskId)
      ensures !readFails && !HasTask(context.taskItems, taskId) ==> r == Reply(Some([]), TaskMissingMessage(taskId))
      ensures !readFails && HasTask(context.taskItems, taskId) ==>
                && r.message == ListedMessage(taskId)
                && |r.value.value| <= |context.subTasks|
                && forall s :: s in r.value.value <==> s in context.subTasks && s.taskItemId == taskId
    {
      if readFails then Reply(None, RetrieveFailedMessage(taskId))
      else if !HasTask(context.taskItems, taskId) then Reply(Some([]), TaskMissingMessage(taskId))
      else Reply(Some(SubTasksOf(context.subTasks, taskId)), ListedMessage(taskId))
    }

    /** Updates subtask `subTaskId` of task `taskId` from `subTask`. The description is
        checked first; then the parent, the subtask and the payload's id. */
    method UpdateSubTask(taskId: int, subTaskId: int, subTask: SubTask) returns (r: Reply<bool>)
      modifies context
      ensures subTask.subTaskDescription == "" ==> r == Reply(false, SUBTASK_EMPTY_DESCRIPTION_MESSAGE)
      ensures subTask.subTaskDescription != "" && !HasTask(old(context.taskItems), taskId) ==>
                r == Reply(false, TaskMissingMessage(taskId))
      ensures subTask.subTaskDescription != "" && HasTask(old(context.taskItems), taskId)
              && !SubTaskUnder(old(context.subTasks), taskId, subTaskId) ==>
                r == Reply(false, SubTaskMissingMessage(subTaskId))
      ensures subTask.subTaskDescription != "" && HasTask(old(context.taskItems), taskId)
              && SubTaskUnder(old(context.subTasks), taskId, subTaskId) && subTask.subTaskId != subTaskId ==>
                r == Reply(false, SUBTASK_ID_MISMATCH_MESSAGE)
      ensures r.value <==> subTask.subTaskDescription != "" && HasTask(old(context.taskItems), taskId)
                           && SubTaskUnder(old(context.subTasks), taskId, subTaskId) && subTask.subTaskId == subTaskId
      ensures r.value ==>
                && r.message == SubTaskUpdatedMessage(subTaskId)
                && context.commits == old(context.commits) + 1
                && (var k := SubTaskIndex(old(context.subTasks), subTaskId);
                    context.subTasks == ReplaceAt(old(context.subTasks), k, OverwriteSubTask(old(context.subTasks)[k], subTask)))
      ensures !r.value ==> context.subTasks == old(context.subTasks) && context.commits == old(context.commits)
      ensures context.taskItems == old(context.taskItems)
    {
      if subTask.subTaskDescription == "" {
        r := Reply(false, SUBTASK_EMPTY_DESCRIPTION_MESSAGE);
      } else if !HasTask(context.taskItems, taskId) {
        r := Reply(false, TaskMissingMessage(taskId));
      } else {
        var k := SubTaskIndex(context.subTasks, subTaskId);
        if k == |context.subTasks| || context.subTasks[k].taskItemId != taskId {
          r := Reply(false, SubTaskMissingMessage(subTaskId));
        } else if subTask.subTaskId != subTaskId {
          r := Reply(false, SUBTASK_ID_MISMATCH_MESSAGE);
        } else {
          context.SetSubTaskAt(k, OverwriteSubTask(context.subTasks[k], subTask));
          context.SaveChanges();
          r := Reply(true, SubTaskUpdatedMessage(subTaskId));
        }
      }
    }

    /** Adds a subtask after checking that its parent task exists, then that it has a name;
        one insert and one commit on success, neither on failure. */
    method AddSubTask(subTask: SubTask) returns (r: Reply<Option<SubTask>>)
      modifies context
      ensures !HasTask(old(context.taskItems), subTask.taskItemId) ==>
                r == Reply(None, AddParentMissingMessage(subTask.taskItemId))
      ensures HasTask(old(context.taskItems), subTask.taskItemId) && subTask.subTaskName == "" ==>
                r == Reply(None, EMPTY_NAME_MESSAGE)
      ensures r.value.Some? <==> HasTask(old(context.taskItems), subTask.taskItemId) && subTask.subTaskName != ""
      ensures r.value.Some? ==>
                && r == Reply(Some(subTask), SubTaskAddedMessage(subTask.subTaskName))
                && context.subTasks == old(context.subTasks) + [subTask]
                && context.commits == old(context.commits) + 1
      ensures r.value.None? ==> context.subTasks == old(context.subTasks) && context.commits == old(context.commits)
      ensures context.taskItems == old(context.taskItems)
    {
      if !HasTask(context.taskItems, subTask.taskItemId) {
        r := Reply(None, AddParentMissingMessage(subTask.taskItemId));
      } else if subTask.subTaskName == "" {
        r := Reply(None, EMPTY_NAME_MESSAGE);
      } else {
        context.AddSubTask(subTask);
        context.SaveChanges();
        r := Reply(Some(subTask), SubTaskAddedMessage(subTask.subTaskName));
      }
    }

    /** Deletes subtask `subTaskId` of task `taskId` after checking that the parent exists. */
    method DeleteSubTask(taskId: int, subTaskId: int) returns (r: Reply<bool>)
      modifies context
      ensures !HasTask(old(context.taskItems), taskId) ==> r == Reply(false, DeleteParentMissingMessage(taskId))
      ensures HasTask(old(context.taskItems), taskId) && !SubTaskUnder(old(context.subTasks), taskId, subTaskId) ==>
                r == Reply(false, SubTaskMissingMessage(subTaskId))
      ensures r.value <==> HasTask(old(context.taskItems), taskId) && SubTaskUnder(old(context.subTasks), taskId, subTaskId)
      ensures r.value ==>
                && r.message == SubTaskDeletedMessage(subTaskId)
                && context.subTasks == RemoveAt(old(context.subTasks), SubTaskIndex(old(context.subTasks), subTaskId))
                && context.commits == old(context.commits) + 1
      ensures !r.value ==> context.subTasks == old(context.subTasks) && context.commits == old(context.commits)
      ensures context.taskItems == old(context.taskItems)
    {
      if !HasTask(context.taskItems, taskId) {
        r := Reply(false, DeleteParentMissingMessage(taskId));
      } else {
        var k := SubTaskIndex(context.subTasks, subTaskId);
        if k == |context.subTasks| || context.subTasks[k].taskItemId != taskId {
          r := Reply(false, SubTaskMissingMessage(subTaskId));
        } else {
          context.RemoveSubTaskAt(k);
          context.SaveChanges();
          r := Reply(true, SubTaskDeletedMessage(subTaskId));
        }
      }
    }
  }

  /** A subtask added under a fresh id is then found by GetSubTaskWithId, equal in every field. */
  lemma AddedSubTaskIsRetrieved(subs: seq<SubTask>, s: SubTask)
    requires !HasSubTask(subs, s.subTaskId)
    ensures HasSubTask(subs + [s], s.subTaskId)
    ensures IsFirstSubTask(subs + [s], s.subTaskId, s)
  {
    SubTaskIndexAfterAppend(subs, s);
    assert (subs + [s])[|subs|] == s;
  }

  /** Client: AddSubTask followed by GetSubTaskWithId on the added id gives the added subtask back. */
  method AddThenGetSubTask(service: SubTaskService, subTask: SubTask) returns (found: Reply<Option<SubTask>>)
    requires HasTask(service.context.taskItems, subTask.taskItemId) && subTask.subTaskName != ""
    requires !HasSubTask(service.context.subTasks, subTask.subTaskId)
    modifies service.context
    ensures found == Reply(Some(subTask), SubTaskRetrievedMessage(subTask.subTaskId))
  {
    ghost var before := service.context.subTasks;
    var added := service.AddSubTask(subTask);
    SubTaskIndexAfterAppend(before, subTask);
    found := service.GetSubTaskWithId(subTask.subTaskId);
  }

  /** Client: after AddSubTask, GetSubTasks of the parent lists what it listed before and
      then the new subtask. */
  method AddThenListSubTasks(service: SubTaskService, subTask: SubTask)
    returns (before: Reply<Option<seq<SubTask>>>, after: Reply<Option<seq<SubTask>>>)
    requires HasTask(service.context.taskItems, subTask.taskItemId) && subTask.subTaskName != ""
    modifies service.context
    ensures before.value.Some? && after.value.Some?
    ensures after.value.value == before.value.value + [subTask]
  {
    before := service.GetSubTasks(subTask.taskItemId, false);
    ghost var subs := service.context.subTasks;
    var added := service.AddSubTask(subTask);
    SubTasksOfAppend(subs, subTask, subTask.taskItemId);
    after := service.GetSubTasks(subTask.taskItemId, false);
  }

  /** Client: once a subtask whose id is unique is deleted, GetSubTaskWithId no longer finds it. */
  method DeleteThenGetSubTask(service: SubTaskService, taskId: int, subTaskId: int)
    returns (deleted: Reply<bool>, found: Reply<Option<SubTask>>)
    requires forall i, j :: 0 <= i < j < |service.context.subTasks| ==>
               service.context.subTasks[i].subTaskId != service.context.subTasks[j].subTaskId
    modifies service.context
    ensures deleted.value ==> found == Reply(None, SubTaskMissingMessage(subTaskId))
  {
    ghost var subs := service.context.subTasks;
    deleted := service.DeleteSubTask(taskId, subTaskId);
    if deleted.value {
      SubTaskIndexAfterRemove(subs, SubTaskIndex(subs, subTaskId));
    }
    found := service.GetSubTaskWithId(subTaskId);
  }
}
