/** The SubTaskService unit tests as client methods: each builds the test's store, runs the
    operation under test, and promises in its postcondition what the test asserts. */
module SubTaskServiceScenarios {
  import opened Models
  import opened Store
  import opened SubTaskServices
  import TaskServiceScenarios

  /** The two entries of the SubTasks collection the tests start from. */
  function TestSubTasks(): seq<SubTask>
  {
    [ SubTask(1, "Test SubTask 1", "Description for Test SubTask 1", Date(2024, 7, 24), Date(2024, 7, 25), true, 1),
      SubTask(2, "Test SubTask 2", "Description for Test SubTask 2", Date(2024, 7, 24), Date(2024, 7, 25), true, 3) ]
  }

  /** The TaskItems collection the tests start from: the same three tasks as in the TaskService tests. */
  function TestTaskItems(): seq<TaskItem>
  {
    TaskServiceScenarios.TestTaskItems()
  }

  /** A TaskItem of which only the id was set; every other field keeps its default. */
  function BareTaskItem(id: int): TaskItem
  {
    TaskItem(id, "", "", DEFAULT_DATE, DEFAULT_DATE, false, [])
  }

  method NewService(items: seq<TaskItem>, subs: seq<SubTask>) returns (service: SubTaskService)
    ensures fresh(service) && fresh(service.context)
    ensures service.context.taskItems == items && service.context.subTasks == subs && service.context.commits == 0
  {
    var context := new TaskContext(items, subs);
    service := new SubTaskService(context);
  }

  method GetSubTaskWithIdSubTaskExistsShouldReturnSubTask() returns (r: Reply<Option<SubTask>>)
    ensures r.value.Some? && r.value.value.subTaskName == "Test SubTask 1"
    ensures r.message == "Successfully retrieved SubTask for Task with id: " + "1"
  {
    var service := NewService(TestTaskItems(), TestSubTasks());
    r := service.GetSubTaskWithId(1);
  }

  method GetSubTaskWithIdSubTaskDoesNotExistShouldReturnNull() returns (r: Reply<Option<SubTask>>)
    ensures r.value.None?
    ensures r.message == "SubTask with id: " + "3" + " doesnot exists"
  {
    var service := NewService(TestTaskItems(), TestSubTasks());
    r := service.GetSubTaskWithId(3);
  }

  /** The TaskItems read raises an error: the result is absent, not empty. */
  method GetSubTasksExceptionThrownShouldReturnErrorMessage() returns (r: Reply<Option<seq<SubTask>>>)
    ensures r.value.None?
    ensures r.message == "Failed to retreive SubTasks for Task with TaskId: " + "1"
  {
    var service := NewService(TestTaskItems(), TestSubTasks());
    r := service.GetSubTasks(1, true);
  }

  /** Only task 1 is stored: asking for task 999 gives an empty list, not an absent one. */
  method GetSubTasksTaskDoesNotExistShouldReturnErrorMessage() returns (r: Reply<Option<seq<SubTask>>>)
    ensures r.value == Some([])
    ensures r.message == "TaskItem with id: " + "999" + " doesnot exists, Please recheck the task id"
  {
    var taskItems := [TaskItem(1, "Task 1", "", DEFAULT_DATE, DEFAULT_DATE, false, [])];
    var service := NewService(taskItems, TestSubTasks());
    r := service.GetSubTasks(999, false);
  }

  method UpdateSubTaskEmptyDescriptionShouldReturnErrorMessage() returns (r: Reply<bool>, store: TaskContext)
    ensures !r.value && r.message == "The SubTask description cannot be left empty"
    ensures store.subTasks == TestSubTasks() && store.commits == 0
  {
    var updatedSubTask := SubTask(1, "Updated SubTask", "", Date(2024, 7, 24), Date(2024, 7, 26), false, 1);
    var service := NewService(TestTaskItems(), TestSubTasks());
    r := service.UpdateSubTask(1, 1, updatedSubTask);
    store := service.context;
  }

  method AddSubTaskTaskDoesNotExistReturnsErrorMessage() returns (r: Reply<Option<SubTask>>, store: TaskContext)
    ensures r.value.None?
    ensures r.message == "  Cannot add SubTask,Task with id:" + "99" + " doesnot exists, Please recheck the task Id"
    ensures store.subTasks == TestSubTasks() && store.commits == 0
  {
    var subTask := SubTask(0, "SubTask1", "Description1", DEFAULT_DATE, DEFAULT_DATE, false, 99);
    var service := NewService(TestTaskItems(), TestSubTasks());
    r := service.AddSubTask(subTask);
    store := service.context;
  }

  /** The test appends a second TaskItem with id 1 to the backing list before the call. */
  method AddSubTaskEmptySubTaskNameReturnsErrorMessage() returns (r: Reply<Option<SubTask>>, store: TaskContext)
    ensures r.value.None? && r.message == "The SubTask name cannot be left empty"
    ensures store.subTasks == TestSubTasks() && store.commits == 0
  {
    var subTask := SubTask(0, "", "Description1", DEFAULT_DATE, DEFAULT_DATE, false, 1);
    var taskItems := TestTaskItems() + [BareTaskItem(1)];
    assert taskItems[0].taskItemId == 1;
    var service := NewService(taskItems, TestSubTasks());
    r := service.AddSubTask(subTask);
    store := service.context;
  }

  method AddSubTaskValidInputAddsSubTaskSuccessfully() returns (r: Reply<Option<SubTask>>, store: TaskContext)
    ensures r.value.Some? && r.value.value.subTaskName == "SubTask1"
    ensures r.message == "TaskItem with name " + "SubTask1" + " added successfully"
    ensures |store.subTasks| == 3 && store.subTasks[2] == r.value.value && store.commits == 1
  {
    var subTask := SubTask(0, "SubTask1", "Description1", Date(2024, 7, 24), Date(2024, 7, 25), false, 1);
    var taskItems := TestTaskItems() + [BareTaskItem(1)];
    assert taskItems[0].taskItemId == 1;
    var service := NewService(taskItems, TestSubTasks());
    r := service.AddSubTask(subTask);
    store := service.context;
  }

  /** The refusal keeps the "add" wording, with a space after "id:". */
  method DeleteSubTaskTaskDoesNotExistReturnsErrorMessage() returns (r: Reply<bool>, store: TaskContext)
    ensures !r.value
    ensures r.message == "  Cannot add SubTask,Task with id: " + "99" + " doesnot exists, Please recheck the task Id"
    ensures store.subTasks == TestSubTasks() && store.commits == 0
  {
    var service := NewService(TestTaskItems(), TestSubTasks());
    r := service.DeleteSubTask(99, 1);
    store := service.context;
  }
}
