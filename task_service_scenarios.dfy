/** The TaskService unit tests as client methods: each builds the test's store, runs the
    operation under test, and promises in its postcondition what the test asserts. */
module TaskServiceScenarios {
  import opened Models
  import opened Store
  import opened TaskServices

  function TestSubTask(id: int, name: string, taskId: int): SubTask
  {
    SubTask(id, name, "SubDescription 1", Date(2024, 7, 24), Date(2024, 7, 25), true, taskId)
  }

  /** The three TaskItems the tests start from; task 2 is incomplete and owns no subtask. */
  function TestTaskItems(): seq<TaskItem>
  {
    [ TaskItem(1, "Test Task Item 1", "It is a unit test task", Date(2024, 7, 23), Date(2024, 7, 28), true,
               [TestSubTask(1, "SubTask 1", 1)]),
      TaskItem(2, "Test Task Item 2", "It is a unit test task no 2", Date(2024, 7, 26), Date(2024, 7, 31), false,
               []),
      TaskItem(3, "Test Task Item 3", "It is a unit test task", Date(2024, 7, 23), Date(2024, 7, 28), true,
               [TestSubTask(2, "SubTask 2", 3)]) ]
  }

  method NewService(items: seq<TaskItem>) returns (service: TaskService)
    ensures fresh(service) && fresh(service.context)
    ensures service.context.taskItems == items && service.context.subTasks == [] && service.context.commits == 0
  {
    var context := new TaskContext(items, []);
    service := new TaskService(context);
  }

  method GetAllTaskItemsShouldReturnAllItems() returns (result: seq<TaskItem>)
    ensures |result| == 3
    ensures result[0].taskItemName == "Test Task Item 1" && result[1].taskItemName == "Test Task Item 2"
  {
    var service := NewService(TestTaskItems());
    result := service.GetAllTaskItems();
  }

  method GetTaskItemExistingIdShouldReturnTaskItem() returns (r: Reply<Option<TaskItem>>)
    ensures r.value.Some?
    ensures r.value.value.taskItemId == 1 && r.value.value.taskItemName == "Test Task Item 1"
    ensures r.message == "Successfully retrieved TaskItem with id: " + "1"
  {
    var service := NewService(TestTaskItems());
    r := service.GetTaskItem(1);
  }

  /** The store is emptied first, as the test does; the add then inserts once and commits once. */
  method AddTaskValidTaskItemShouldAddTaskItem() returns (r: Reply<Option<TaskItem>>, store: TaskContext)
    ensures r.value.Some? && r.value.value.taskItemId == 3
    ensures r.message == "TaskItem with name " + "New Task Item" + " added successfully"
    ensures |store.taskItems| == 1 && store.commits == 1
  {
    var newTaskItem := TaskItem(3, "New Task Item", "New task description", Date(2024, 7, 24), Date(2024, 7, 30), false, []);
    var service := NewService([]);
    r := service.AddTask(newTaskItem);
    store := service.context;
  }

  method AddTaskInvalidDatesShouldReturnValidationError() returns (r: Reply<Option<TaskItem>>, store: TaskContext)
    ensures r.value.None? && r.message == "Date validation failed"
    ensures store.taskItems == TestTaskItems() && store.commits == 0
  {
    var newTaskItem := TaskItem(3, "New Task Item", "New task description", Date(2024, 7, 24), Date(2023, 7, 23), false, []);
    var service := NewService(TestTaskItems());
    r := service.AddTask(newTaskItem);
    store := service.context;
  }

  method AddTaskEmptyDescriptionShouldReturnValidationError() returns (r: Reply<Option<TaskItem>>, store: TaskContext)
    ensures r.value.None? && r.message == "Validation failed. TaskItem description cannot be left empty."
    ensures store.taskItems == TestTaskItems() && store.commits == 0
  {
    var newTaskItem := TaskItem(3, "New Task Item", "", Date(2024, 7, 24), Date(2024, 7, 30), false, []);
    var service := NewService(TestTaskItems());
    r := service.AddTask(newTaskItem);
    store := service.context;
  }

  /** Task 3 and its one subtask are completed: one removal, one commit. */
  method DeleteTaskExistingIdShouldDeleteTaskItem() returns (r: Reply<bool>, store: TaskContext)
    ensures r.value && r.message == "TaskItem with id: " + "3" + " deleted sucessfully"
    ensures store.taskItems == TestTaskItems()[..2] && store.commits == 1
  {
    var items := TestTaskItems();
    assert TaskIndex(items, 3) == 2 by {
      assert items[2].taskItemId == 3 && items[0].taskItemId != 3 && items[1].taskItemId != 3;
    }
    assert Deletable(items[2]) by {
      assert !AnyPending(items[2].subTasks[1..]);
    }
    assert RemoveAt(items, 2) == items[..2];
    var service := NewService(items);
    r := service.DeleteTask(3);
    store := service.context;
  }

  method DeleteTaskNonExistingIdShouldReturnError() returns (r: Reply<bool>, store: TaskContext)
    ensures !r.value && r.message == "TaskItem with id: " + "999" + " not found"
    ensures store.taskItems == TestTaskItems() && store.commits == 0
  {
    var service := NewService(TestTaskItems());
    r := service.DeleteTask(999);
    store := service.context;
  }

  /** Task 2 has no subtasks but is itself incomplete, and the gate refuses it. */
  method DeleteTaskNotCompletedTaskItemShouldReturnError() returns (r: Reply<bool>, store: TaskContext)
    ensures !r.value
    ensures r.message == "TaskItem with id: " + "2" + " cannot be deleted as it has one or more pending subtasks."
    ensures store.taskItems == TestTaskItems() && store.commits == 0
  {
    var items := TestTaskItems();
    assert TaskIndex(items, 2) == 1 by {
      assert items[1].taskItemId == 2 && items[0].taskItemId != 2;
    }
    assert !Deletable(items[1]);
    var service := NewService(items);
    r := service.DeleteTask(2);
    store := service.context;
  }

  method UpdateTaskTaskItemDoesNotExistShouldReturnFalse() returns (r: Reply<bool>)
    ensures !r.value && r.message == "TaskItem with id: " + "999" + " does not exist"
  {
    var taskItem := TaskItem(999, "Non-Existing Task", "This task does not exist", Date(2024, 7, 20), Date(2024, 7, 30), false, []);
    var service := NewService(TestTaskItems());
    r := service.UpdateTask(999, taskItem);
  }

  method UpdateTaskProvidedIdDoesNotMatchShouldReturnFalse() returns (r: Reply<bool>)
    ensures !r.value && r.message == "Invalid request as provided id does not match with TaskItemId"
  {
    var taskItem := TaskItem(2, "Test Task Item", "It is a unit test task", Date(2024, 7, 23), Date(2024, 7, 28), false, []);
    var service := NewService(TestTaskItems());
    assert TestTaskItems()[0].taskItemId == 1;
    r := service.UpdateTask(1, taskItem);
  }
}
