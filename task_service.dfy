/** TaskService: lifecycle of TaskItems over the shared context. Every operation returns
    its result together with a status message. */
module TaskServices {
  import opened Models
  import opened Text
  import opened Store

  const TASK_EMPTY_DESCRIPTION_MESSAGE := "Validation failed. TaskItem description cannot be left empty."
  const DATE_VALIDATION_MESSAGE := "Date validation failed"
  const TASK_ID_MISMATCH_MESSAGE := "Invalid request as provided id does not match with TaskItemId"

  function TaskRetrievedMessage(id: int): string
  {
    "Successfully retrieved TaskItem with id: " + IntToString(id)
  }

  function NotFoundMessage(id: int): string
  {
    "TaskItem with id: " + IntToString(id) + " not found"
  }

  function TaskAddedMessage(name: string): string
  {
    "TaskItem with name " + name + " added successfully"
  }

  /** The success message of a delete, with the misspelling "sucessfully" it carries. */
  function TaskDeletedMessage(id: int): string
  {
    "TaskItem with id: " + IntToString(id) + " deleted sucessfully"
  }

  function PendingSubTasksMessage(id: int): string
  {
    "TaskItem with id: " + IntToString(id) + " cannot be deleted as it has one or more pending subtasks."
  }

  function DoesNotExistMessage(id: int): string
  {
    "TaskItem with id: " + IntToString(id) + " does not exist"
  }

  function TaskUpdatedMessage(id: int): string
  {
    "TaskItem with id: " + IntToString(id) + " updated successfully"
  }

  /** Some subtask in the list is not completed yet. */
  predicate AnyPending(subs: seq<SubTask>)
  {
    subs != [] && (!subs[0].isCompleted || AnyPending(subs[1..]))
  }

  /** AnyPending holds exactly when the list holds an incomplete subtask. */
  lemma {:induction false} AnyPendingMeans(subs: seq<SubTask>)
    ensures AnyPending(subs) <==> exists i :: 0 <= i < |subs| && !subs[i].isCompleted
  {
    if subs != [] {
      AnyPendingMeans(subs[1..]);
      if !AnyPending(subs) {
        forall i | 0 <= i < |subs| ensures subs[i].isCompleted {
          if i > 0 { assert subs[i] == subs[1..][i - 1]; }
        }
      } else if subs[0].isCompleted {
        var i :| 0 <= i < |subs[1..]| && !subs[1..][i].isCompleted;
        assert subs[i + 1] == subs[1..][i];
      }
    }
  }

  /** The delete gate: the task itself is completed and none of its own subtasks is pending. */
  predicate Deletable(t: TaskItem)
  {
    t.isCompleted && !AnyPending(t.subTasks)
  }

  /** A task passes the delete gate exactly when it and every subtask it owns are completed;
      an incomplete task with no subtasks at all is refused. */
  lemma DeletableMeans(t: TaskItem)
    ensures Deletable(t) <==> t.isCompleted && forall i :: 0 <= i < |t.subTasks| ==> t.subTasks[i].isCompleted
    ensures !t.isCompleted && t.subTasks == [] ==> !Deletable(t)
  {
    AnyPendingMeans(t.subTasks);
  }

  /** What AddTask accepts: a non-empty description and a due date not before the creation date. */
  predicate ValidNewTask(t: TaskItem)
  {
    t.taskItemDescription != "" && !Before(t.dueDate, t.dateCreated)
  }

  /** The stored TaskItem after an update: the payload's name, description, dates and
      completion flag; the stored nested subtasks stay. */
  function OverwriteTask(stored: TaskItem, payload: TaskItem): (r: TaskItem)
    ensures r.taskItemId == stored.taskItemId && r.subTasks == stored.subTasks
    ensures r.taskItemName == payload.taskItemName && r.taskItemDescription == payload.taskItemDescription
    ensures r.dateCreated == payload.dateCreated && r.dueDate == payload.dueDate
    ensures r.isCompleted == payload.isCompleted
  {
    stored.(taskItemName := payload.taskItemName,
            taskItemDescription := payload.taskItemDescription,
            dateCreated := payload.dateCreated,
            dueDate := payload.dueDate,
            isCompleted := payload.isCompleted)
  }

  class TaskService {
    const context: TaskContext

    constructor (context: TaskContext)
      ensures this.context == context
    {
      this.context := context;
    }

    /** Every stored TaskItem, in the order the store holds them; nothing is filtered. */
    function GetAllTaskItems(): (r: seq<TaskItem>)
      reads context
      ensures |r| == |context.taskItems|
      ensures forall i :: 0 <= i < |r| ==> r[i] == context.taskItems[i]
    {
      context.taskItems
    }

    /** The first TaskItem with `id`, or none when no TaskItem has that id. */
    function GetTaskItem(id: int): (r: Reply<Option<TaskItem>>)
      reads context
      ensures r.value.Some? <==> HasTask(context.taskItems, id)
      ensures r.value.Some? ==> IsFirstTask(context.taskItems, id, r.value.value)
      ensures r.value.Some? ==> r.message == TaskRetrievedMessage(id)
      ensures r.value.None? ==> r.message == NotFoundMessage(id)
    {
      var k := TaskIndex(context.taskItems, id);
      if k < |context.taskItems| then Reply(Some(context.taskItems[k]), TaskRetrievedMessage(id))
      else Reply(None, NotFoundMessage(id))
    }

    /** Adds a task after checking its description, then its dates; one insert and one
        commit on success, neither on failure. */
    method AddTask(item: TaskItem) returns (r: Reply<Option<TaskItem>>)
      modifies context
      ensures item.taskItemDescription == "" ==> r == Reply(None, TASK_EMPTY_DESCRIPTION_MESSAGE)
      ensures item.taskItemDescription != "" && Before(item.dueDate, item.dateCreated) ==>
                r == Reply(None, DATE_VALIDATION_MESSAGE)
      ensures r.value.Some? <==> ValidNewTask(item)
      ensures ValidNewTask(item) ==>
                && r == Reply(Some(item), TaskAddedMessage(item.taskItemName))
                && context.taskItems == old(context.taskItems) + [item]
                && context.commits == old(context.commits) + 1
      ensures !ValidNewTask(item) ==>
                context.taskItems == old(context.taskItems) && context.commits == old(context.commits)
      ensures context.subTasks == old(context.subTasks)
    {
      if item.taskItemDescription == "" {
        r := Reply(None, TASK_EMPTY_DESCRIPTION_MESSAGE);
      } else if Before(item.dueDate, item.dateCreated) {
        r := Reply(None, DATE_VALIDATION_MESSAGE);
      } else {
        context.AddTaskItem(item);
        context.SaveChanges();
        r := Reply(Some(item), TaskAddedMessage(item.taskItemName));
      }
    }

    /** Deletes the first TaskItem with `id` when it passes the delete gate; its subtasks
        are left where they are. One removal and one commit on success, neither on failure. */
    method DeleteTask(id: int) returns (r: Reply<bool>)
      modifies context
      ensures !HasTask(old(context.taskItems), id) ==>
                r == Reply(false, NotFoundMessage(id)) && context.taskItems == old(context.taskItems)
      ensures HasTask(old(context.taskItems), id) && !Deletable(old(context.taskItems)[TaskIndex(old(context.taskItems), id)]) ==>
                r == Reply(false, PendingSubTasksMessage(id)) && context.taskItems == old(context.taskItems)
      ensures r.value <==> HasTask(old(context.taskItems), id) && Deletable(old(context.taskItems)[TaskIndex(old(context.taskItems), id)])
      ensures r.value ==>
                && r.message == TaskDeletedMessage(id)
                && context.taskItems == RemoveAt(old(context.taskItems), TaskIndex(old(context.taskItems), id))
                && context.commits == old(context.commits) + 1
      ensures !r.value ==> context.commits == old(context.commits)
      ensures context.subTasks == old(context.subTasks)
    {
      var k := TaskIndex(context.taskItems, id);
      if k == |context.taskItems| {
        r := Reply(false, NotFoundMessage(id));
      } else if !Deletable(context.taskItems[k]) {
        r := Reply(false, PendingSubTasksMessage(id));
      } else {
        context.RemoveTaskItemAt(k);
        context.SaveChanges();
        r := Reply(true, TaskDeletedMessage(id));
      }
    }

    /** Updates the first TaskItem with `id` from `item`, provided the payload carries the
        same id; no field is re-validated. */
    method UpdateTask(id: int, item: TaskItem) returns (r: Reply<bool>)
      modifies context
      ensures !HasTask(old(context.taskItems), id) ==> r == Reply(false, DoesNotExistMessage(id))
      ensures HasTask(old(context.taskItems), id) && item.taskItemId != id ==> r == Reply(false, TASK_ID_MISMATCH_MESSAGE)
      ensures r.value <==> HasTask(old(context.taskItems), id) && item.taskItemId == id
      ensures r.value ==>
                && r.message == TaskUpdatedMessage(id)
                && context.commits == old(context.commits) + 1
                && (var k := TaskIndex(old(context.taskItems), id);
                    context.taskItems == ReplaceAt(old(context.taskItems), k, OverwriteTask(old(context.taskItems)[k], item)))
      ensures !r.value ==> context.taskItems == old(context.taskItems) && context.commits == old(context.commits)
      ensures context.subTasks == old(context.subTasks)
    {
      var k := TaskIndex(context.taskItems, id);
      if k == |context.taskItems| {
        r := Reply(false, DoesNotExistMessage(id));
      } else if item.taskItemId != id {
        r := Reply(false, TASK_ID_MISMATCH_MESSAGE);
      } else {
        context.SetTaskItemAt(k, OverwriteTask(context.taskItems[k], item));
        context.SaveChanges();
        r := Reply(true, TaskUpdatedMessage(id));
      }
    }
  }

  /** A task added under a fresh id is then found by GetTaskItem, exactly as it was added. */
  lemma AddedTaskIsRetrieved(items: seq<TaskItem>, t: TaskItem)
    requires !HasTask(items, t.taskItemId)
    ensures HasTask(items + [t], t.taskItemId)
    ensures IsFirstTask(items + [t], t.taskItemId, t)
  {
    TaskIndexAfterAppend(items, t);
    assert (items + [t])[|items|] == t;
  }

  /** After the update of task `id` the first TaskItem with `id` is the overwritten one. */
  lemma UpdatedTaskIsRetrieved(items: seq<TaskItem>, id: int, payload: TaskItem)
    requires HasTask(items, id)
    ensures var k := TaskIndex(items, id);
            IsFirstTask(ReplaceAt(items, k, OverwriteTask(items[k], payload)), id, OverwriteTask(items[k], payload))
  {
    var k := TaskIndex(items, id);
    var r := ReplaceAt(items, k, OverwriteTask(items[k], payload));
    assert r[k] == OverwriteTask(items[k], payload);
  }

  /** Client: a valid task with an id not yet stored can be read back after AddTask. */
  method AddThenGetTask(service: TaskService, item: TaskItem) returns (found: Reply<Option<TaskItem>>)
    requires ValidNewTask(item) && !HasTask(service.context.taskItems, item.taskItemId)
    modifies service.context
    ensures found == Reply(Some(item), TaskRetrievedMessage(item.taskItemId))
  {
    ghost var before := service.context.taskItems;
    var added := service.AddTask(item);
    AddedTaskIsRetrieved(before, item);
    TaskIndexAfterAppend(before, item);
    found := service.GetTaskItem(item.taskItemId);
  }

  /** Client: once a task whose id is unique is deleted, GetTaskItem no longer finds it. */
  method DeleteThenGetTask(service: TaskService, id: int) returns (deleted: Reply<bool>, found: Reply<Option<TaskItem>>)
    requires forall i, j :: 0 <= i < j < |service.context.taskItems| ==>
               service.context.taskItems[i].taskItemId != service.context.taskItems[j].taskItemId
    modifies service.context
    ensures deleted.value ==> found == Reply(None, NotFoundMessage(id))
  {
    ghost var before := service.context.taskItems;
    deleted := service.DeleteTask(id);
    if deleted.value {
      TaskIndexAfterRemove(before, TaskIndex(before, id));
    }
    found := service.GetTaskItem(id);
  }
}
