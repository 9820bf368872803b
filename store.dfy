/** The persistence context both services share: the TaskItems and SubTasks collections
    and a count of SaveChanges calls. Lookups scan a collection for the first entity
    with a given id; ids need not be unique. */
module Store {
  import opened Models

  /** The index of the first element satisfying `p`, or |s| when there is none. */
  function FirstIndex<T>(s: seq<T>, p: T -> bool): (k: nat)
    ensures k <= |s|
    ensures k < |s| ==> p(s[k])
    ensures forall j :: 0 <= j < k ==> !p(s[j])
  {
    if s == [] then 0 else if p(s[0]) then 0 else 1 + FirstIndex(s[1..], p)
  }

  predicate HasTask(items: seq<TaskItem>, id: int)
  {
    exists i :: 0 <= i < |items| && items[i].taskItemId == id
  }

  predicate HasSubTask(subs: seq<SubTask>, id: int)
  {
    exists i :: 0 <= i < |subs| && subs[i].subTaskId == id
  }

  /** Where the first TaskItem with `id` stands; |items| when none has it. */
  function TaskIndex(items: seq<TaskItem>, id: int): (k: nat)
    ensures k <= |items|
    ensures k < |items| <==> HasTask(items, id)
    ensures k < |items| ==> items[k].taskItemId == id
    ensures forall j :: 0 <= j < k ==> items[j].taskItemId != id
  {
    FirstIndex(items, (t: TaskItem) => t.taskItemId == id)
  }

  /** Where the first SubTask with `id` stands; |subs| when none has it. */
  function SubTaskIndex(subs: seq<SubTask>, id: int): (k: nat)
    ensures k <= |subs|
    ensures k < |subs| <==> HasSubTask(subs, id)
    ensures k < |subs| ==> subs[k].subTaskId == id
    ensures forall j :: 0 <= j < k ==> subs[j].subTaskId != id
  {
    FirstIndex(subs, (s: SubTask) => s.subTaskId == id)
  }

  /** `t` is the first TaskItem of `items` carrying `id`. */
  predicate IsFirstTask(items: seq<TaskItem>, id: int, t: TaskItem)
  {
    exists i :: 0 <= i < |items| && items[i] == t && t.taskItemId == id
      && forall j :: 0 <= j < i ==> items[j].taskItemId != id
  }

  /** `s` is the first SubTask of `subs` carrying `id`. */
  predicate IsFirstSubTask(subs: seq<SubTask>, id: int, s: SubTask)
  {
    exists i :: 0 <= i < |subs| && subs[i] == s && s.subTaskId == id
      && forall j :: 0 <= j < i ==> subs[j].subTaskId != id
  }

  /** The subtasks of `subs` that belong to task `taskId`, in collection order. */
  function SubTasksOf(subs: seq<SubTask>, taskId: int): (r: seq<SubTask>)
    ensures |r| <= |subs|
    ensures forall s :: s in r <==> s in subs && s.taskItemId == taskId
  {
    if subs == [] then []
    else if subs[0].taskItemId == taskId then [subs[0]] + SubTasksOf(subs[1..], taskId)
    else SubTasksOf(subs[1..], taskId)
  }

  /** Appending a subtask extends the filtered list exactly when it belongs to the task. */
  lemma {:induction false} SubTasksOfAppend(subs: seq<SubTask>, s: SubTask, taskId: int)
    ensures SubTasksOf(subs + [s], taskId)
         == SubTasksOf(subs, taskId) + (if s.taskItemId == taskId then [s] else [])
  {
    if subs != [] {
      assert (subs + [s])[1..] == subs[1..] + [s];
      SubTasksOfAppend(subs[1..], s, taskId);
    }
  }

  /** The sequence `s` without its element at index `k`. */
  function RemoveAt<T>(s: seq<T>, k: nat): (r: seq<T>)
    requires k < |s|
    ensures |r| == |s| - 1
    ensures forall j :: 0 <= j < k ==> r[j] == s[j]
    ensures forall j :: k <= j < |r| ==> r[j] == s[j + 1]
    ensures multiset(r) + multiset{s[k]} == multiset(s)
  {
    assert s == s[..k] + [s[k]] + s[k + 1..];
    s[..k] + s[k + 1..]
  }

  /** The sequence `s` with its element at index `k` replaced by `x`. */
  function ReplaceAt<T>(s: seq<T>, k: nat, x: T): (r: seq<T>)
    requires k < |s|
    ensures |r| == |s| && r[k] == x
    ensures forall j :: 0 <= j < |s| && j != k ==> r[j] == s[j]
  {
    s[k := x]
  }

  /** A TaskItem appended after the others is found by its id exactly when no earlier one has it. */
  lemma TaskIndexAfterAppend(items: seq<TaskItem>, t: TaskItem)
    ensures HasTask(items + [t], t.taskItemId)
    ensures !HasTask(items, t.taskItemId) ==> TaskIndex(items + [t], t.taskItemId) == |items|
    ensures forall id :: HasTask(items, id) ==> TaskIndex(items + [t], id) == TaskIndex(items, id)
  {
    assert (items + [t])[|items|] == t;
    forall id | HasTask(items, id)
      ensures TaskIndex(items + [t], id) == TaskIndex(items, id)
    {
      var k := TaskIndex(items, id);
      assert (items + [t])[k] == items[k];
    }
  }

  /** A SubTask appended after the others is found by its id exactly when no earlier one has it. */
  lemma SubTaskIndexAfterAppend(subs: seq<SubTask>, s: SubTask)
    ensures HasSubTask(subs + [s], s.subTaskId)
    ensures !HasSubTask(subs, s.subTaskId) ==> SubTaskIndex(subs + [s], s.subTaskId) == |subs|
    ensures forall id :: HasSubTask(subs, id) ==> SubTaskIndex(subs + [s], id) == SubTaskIndex(subs, id)
  {
    assert (subs + [s])[|subs|] == s;
    forall id | HasSubTask(subs, id)
      ensures SubTaskIndex(subs + [s], id) == SubTaskIndex(subs, id)
    {
      var k := SubTaskIndex(subs, id);
      assert (subs + [s])[k] == subs[k];
    }
  }

  /** Removing the only TaskItem with its id makes that id unknown; an id that stood
      elsewhere before still finds the same item. */
  lemma TaskIndexAfterRemove(items: seq<TaskItem>, k: nat)
    requires k < |items|
    requires forall j :: 0 <= j < |items| && j != k ==> items[j].taskItemId != items[k].taskItemId
    ensures !HasTask(RemoveAt(items, k), items[k].taskItemId)
    ensures forall id :: id != items[k].taskItemId && HasTask(items, id) ==>
              HasTask(RemoveAt(items, k), id)
              && RemoveAt(items, k)[TaskIndex(RemoveAt(items, k), id)] == items[TaskIndex(items, id)]
  {
    var r := RemoveAt(items, k);
    forall id | id != items[k].taskItemId && HasTask(items, id)
      ensures HasTask(r, id) && r[TaskIndex(r, id)] == items[TaskIndex(items, id)]
    {
      var i := TaskIndex(items, id);
      var m := if i < k then i else i - 1;
      assert r[m] == items[i];
      assert HasTask(r, id);
    }
  }

  /** Removing the only SubTask with its id makes that id unknown. */
  lemma SubTaskIndexAfterRemove(subs: seq<SubTask>, k: nat)
    requires k < |subs|
    requires forall j :: 0 <= j < |subs| && j != k ==> subs[j].subTaskId != subs[k].subTaskId
    ensures !HasSubTask(RemoveAt(subs, k), subs[k].subTaskId)
  {
  }

  /** The context: TaskItems and SubTasks as the store iterates them, and the number
      of SaveChanges calls so far. */
  class TaskContext {
    var taskItems: seq<TaskItem>
    var subTasks: seq<SubTask>
    var commits: nat

    constructor (taskItems: seq<TaskItem>, subTasks: seq<SubTask>)
      ensures this.taskItems == taskItems && this.subTasks == subTasks && commits == 0
    {
      this.taskItems := taskItems;
      this.subTasks := subTasks;
      commits := 0;
    }

    /** TaskItems.Add */
    method AddTaskItem(t: TaskItem)
      modifies this
      ensures taskItems == old(taskItems) + [t]
      ensures subTasks == old(subTasks) && commits == old(commits)
    {
      taskItems := taskItems + [t];
    }

    /** TaskItems.Remove of the entity standing at index `k`. */
    method RemoveTaskItemAt(k: nat)
      requires k < |taskItems|
      modifies this
      ensures taskItems == RemoveAt(old(taskItems), k)
      ensures subTasks == old(subTasks) && commits == old(commits)
    {
      taskItems := RemoveAt(taskItems, k);
    }

    /** Writing new field values into the tracked TaskItem at index `k`. */
    method SetTaskItemAt(k: nat, t: TaskItem)
      requires k < |taskItems|
      modifies this
      ensures taskItems == ReplaceAt(old(taskItems), k, t)
      ensures subTasks == old(subTasks) && commits == old(commits)
    {
      taskItems := ReplaceAt(taskItems, k, t);
    }

    /** SubTasks.Add */
    method AddSubTask(s: SubTask)
      modifies this
      ensures subTasks == old(subTasks) + [s]
      ensures taskItems == old(taskItems) && commits == old(commits)
    {
      subTasks := subTasks + [s];
    }

    /** SubTasks.Remove of the entity standing at index `k`. */
    method RemoveSubTaskAt(k: nat)
      requires k < |subTasks|
      modifies this
      ensures subTasks == RemoveAt(old(subTasks), k)
      ensures taskItems == old(taskItems) && commits == old(commits)
    {
      subTasks := RemoveAt(subTasks, k);
    }

    /** Writing new field values into the tracked SubTask at index `k`. */
    method SetSubTaskAt(k: nat, s: SubTask)
      requires k < |subTasks|
      modifies this
      ensures subTasks == ReplaceAt(old(subTasks), k, s)
      ensures taskItems == old(taskItems) && commits == old(commits)
    {
      subTasks := ReplaceAt(subTasks, k, s);
    }

    /** SaveChanges: one more commit; the collections are as they were. */
    method SaveChanges()
      modifies this
      ensures commits == old(commits) + 1
      ensures taskItems == old(taskItems) && subTasks == old(subTasks)
    {
      commits := commits + 1;
    }
  }
}
