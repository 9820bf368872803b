# Task manager service layer, modelled in Dafny

The backend keeps tasks (TaskItem) that own subtasks (SubTask) in a store with two
collections, TaskItems and SubTasks. Two services sit on that store:

- TaskService lists, reads, adds, deletes and updates TaskItems.
- SubTaskService reads, lists, updates, adds and deletes SubTasks under a parent TaskItem.

Every operation returns its result together with a status message. The repository's
service classes are not part of this model. Their contract is taken from the two xUnit
test files `TaskServiceUnitTest.cs` and `SubTaskServiceUnitTest.cs`. These files give
each fixture and every operation that is called. For each call they check some of the
result (often only whether it is present, or one field of it) and the message, either
exactly or by substring. Only the six AddTask and DeleteTask tests also count the calls
to Add, Remove and SaveChanges. No SubTaskService test and no UpdateTask test counts
calls. Every store effect stated beyond those six tests is a model choice, listed below.

Layout, one module per file:

- `models.dfy` (`Models`): the entities. `Date` is a (year, month, day) triple ordered
  lexicographically, like `DateOnly`. Also `Option`, and `Reply` (a value plus a message).
- `text.dfy` (`Text`): decimal rendering of ids, as `{id}` interpolation writes them.
  Includes its round trip.
- `store.dfy` (`Store`): `TaskContext`, the store as a class. It holds
  `taskItems: seq<TaskItem>` (each item keeps its own nested `subTasks`), a separate
  `subTasks: seq<SubTask>` and a `commits: nat` counter for `SaveChanges`. The file also
  has the first-match lookups and the lemmas about them.
- `task_service.dfy` (`TaskServices`) and `subtask_service.dfy` (`SubTaskServices`): the
  two services as classes holding `const context: TaskContext`. Each updates the store in
  place through the context's Add, Remove and SaveChanges methods.
- `task_service_scenarios.dfy` and `subtask_service_scenarios.dfy`: one method per test.
  Each builds the test's fixture on fresh objects, runs the operation, and states the
  test's assertions as its postcondition.

Choices the tests leave open, and what the model picks:

- Messages. Where a test checks a message with `Assert.Contains`, the model's message is
  exactly the asserted text. Where it uses `Assert.Equal`, the string is copied exactly.
  That includes the two leading spaces, `id:99` with no space in the refusal of
  AddSubTask, and `id: 99` with a space in the refusal of DeleteSubTask. The delete
  refusal also keeps the word "add". Scenario postconditions write each message that
  embeds an id as prefix + id + suffix, the way the tests interpolate it.
- Check order. When more than one check fails, the model checks in this order:
  - AddTask: description, then dates.
  - UpdateTask: existence, then the id match.
  - AddSubTask: parent, then name.
  - UpdateSubTask: description first, then parent, subtask and id.
- Delete gate. DeleteTask refuses a task that is itself incomplete, or that owns an
  incomplete subtask in its nested list. The test deletes task 2, which is incomplete and
  has no subtasks, and must be refused. So a gate that looked only at subtasks would
  contradict it.
- Deletes do not cascade. Deleting a TaskItem leaves the SubTasks collection unchanged.
- Success paths the tests do not cover:
  - UpdateTask overwrites the stored item's name, description, dates and completion flag
    and keeps its nested subtasks.
  - UpdateSubTask and DeleteSubTask act on the first SubTask with the given id. They
    refuse when that one belongs to another task, even if a later SubTask with the same
    id belongs to the given task.
  - All three commit once.
  - Their success messages are the model's own wording.
- Store effects of SubTaskService and UpdateTask. No test counts calls for these
  operations, so the following are the model's:
  - AddSubTask on success: one `SubTasks.Add` and one commit.
  - Every SubTaskService refusal and every UpdateTask refusal: no change and no commit.
  - So the subtask scenarios' clauses on the store contents and the commit count are
    model choices too.
- Messages no test checks are also the model's wording:
  - GetTaskItem's not-found message.
  - GetSubTasks' success message.
  - UpdateSubTask's refusals for a missing parent, a missing subtask and an id mismatch.
  - DeleteSubTask's refusal for a missing subtask.
- GetSubTasks lists the entries of the SubTasks collection whose `taskItemId` matches, in
  collection order.
- The mocked exception on reading TaskItems becomes the `readFails` parameter of
  GetSubTasks. It selects the absent result.
- GetSubTaskWithId's success message names the requested id.
- Lookups return the first match. Ids need not be unique: two tests append a second
  TaskItem with id 1.
- A property that a test leaves unset keeps its default: the empty string, `false`,
  1 January of year 1, id 0 and no subtasks.

## Model

| member | source | states |
|---|---|---|
| Models.BeforeIsStrictTotalOrder | TaskServiceUnitTest.cs:153-154 | the date comparison is a strict total order on (year, month, day) |
| Text.NatToStringRoundTrip | TaskServiceUnitTest.cs:111 | reading back the digits written for a natural number gives the number again |
| Text.IntToStringRoundTrip | TaskServiceUnitTest.cs:111 | ParseInt recovers every int from its rendering, so nothing is lost |
| Text.IntToStringInjective | TaskServiceUnitTest.cs:205 | two ids rendered alike are equal, so a message that embeds an id names exactly one |
| Store.TaskIndex | TaskServiceUnitTest.cs:104-110 | the index of the first TaskItem with the id, below the length exactly when one has it; none before it has the id |
| Store.SubTaskIndex | SubTaskServiceUnitTest.cs:123-127 | the index of the first SubTask with the id, below the length exactly when one has it; none before it has the id |
| Store.SubTasksOf | SubTaskServiceUnitTest.cs:151 | a subtask is listed for a task exactly when it is in the collection and belongs to that task |
| Store.SubTasksOfAppend | SubTaskServiceUnitTest.cs:242-259 | appending a subtask extends the list of its own task by that subtask and leaves every other task's list as it was |
| Store.TaskIndexAfterAppend | TaskServiceUnitTest.cs:134-141 | an appended TaskItem is found by its id; it is the first match when its id was new; earlier ids still find what they found |
| Store.SubTaskIndexAfterAppend | SubTaskServiceUnitTest.cs:254-258 | an appended SubTask is found by its id; it is the first match when its id was new; earlier ids still find what they found |
| Store.TaskIndexAfterRemove | TaskServiceUnitTest.cs:198-207 | removing the only TaskItem with an id makes the id unknown, and every other id still finds the same item |
| Store.SubTaskIndexAfterRemove | SubTaskServiceUnitTest.cs:272 | removing the only SubTask with an id makes the id unknown |
| Store.TaskContext.constructor | SubTaskServiceUnitTest.cs:107-109 | a context over the given TaskItems and SubTasks with no commit yet |
| Store.TaskContext.AddTaskItem | TaskServiceUnitTest.cs:140 | TaskItems.Add appends exactly that item and touches nothing else |
| Store.TaskContext.RemoveTaskItemAt | TaskServiceUnitTest.cs:206 | TaskItems.Remove drops exactly the item at that index and touches nothing else |
| Store.TaskContext.SetTaskItemAt | TaskServiceUnitTest.cs:256 | an update replaces exactly the item at that index |
| Store.TaskContext.AddSubTask | SubTaskServiceUnitTest.cs:254 | SubTasks.Add appends exactly that subtask and touches nothing else |
| Store.TaskContext.RemoveSubTaskAt | SubTaskServiceUnitTest.cs:272 | SubTasks.Remove drops exactly the subtask at that index |
| Store.TaskContext.SetSubTaskAt | SubTaskServiceUnitTest.cs:196 | an update replaces exactly the subtask at that index |
| Store.TaskContext.SaveChanges | TaskServiceUnitTest.cs:141 | one more commit; both collections unchanged |
| TaskServices.AnyPendingMeans | TaskServiceUnitTest.cs:233-235 | the pending-subtask test holds exactly when some subtask in the list is incomplete |
| TaskServices.DeletableMeans | TaskServiceUnitTest.cs:224-237 | a task passes the delete gate exactly when it and all its own subtasks are completed; an incomplete task with no subtasks is refused |
| TaskServices.TaskService.constructor | TaskServiceUnitTest.cs:83 | a service over the given context |
| TaskServices.TaskService.GetAllTaskItems | TaskServiceUnitTest.cs:91-97 | every stored TaskItem, in store order, none filtered out |
| TaskServices.TaskService.GetTaskItem | TaskServiceUnitTest.cs:104-111 | present exactly when some TaskItem has the id; then it is the first such item, with "Successfully retrieved TaskItem with id: {id}"; otherwise absent with a not-found message |
| TaskServices.TaskService.AddTask | TaskServiceUnitTest.cs:118-191 | an empty description gives absent and "Validation failed. TaskItem description cannot be left empty."; a due date before the creation date gives absent and "Date validation failed"; both then mean no insert and no commit; a valid item is returned, appended once, committed once, with "TaskItem with name {name} added successfully" |
| TaskServices.TaskService.DeleteTask | TaskServiceUnitTest.cs:198-237 | an unknown id gives false with "TaskItem with id: {id} not found"; a task that fails the gate gives false with "... cannot be deleted as it has one or more pending subtasks."; both leave items and commits unchanged; otherwise true, exactly the first match removed, one commit, "TaskItem with id: {id} deleted sucessfully" |
| TaskServices.TaskService.UpdateTask | TaskServiceUnitTest.cs:244-283 | an unknown id gives false with "TaskItem with id: {id} does not exist"; a payload id that differs from the path id gives false with "Invalid request as provided id does not match with TaskItemId"; both change nothing; otherwise the first match is overwritten and committed once |
| TaskServices.AddedTaskIsRetrieved | TaskServiceUnitTest.cs:134-139 | a task appended under a new id is the first match for that id |
| TaskServices.UpdatedTaskIsRetrieved | TaskServiceUnitTest.cs:256 | after an update the first match for the id is the overwritten item |
| TaskServices.AddThenGetTask | TaskServiceUnitTest.cs:134-138 | AddTask of a valid item with a new id, then GetTaskItem of that id, returns the item with the success message |
| TaskServices.DeleteThenGetTask | TaskServiceUnitTest.cs:201-204 | when ids are unique, a successful DeleteTask makes GetTaskItem of that id return absent |
| TaskServiceScenarios.GetAllTaskItemsShouldReturnAllItems | TaskServiceUnitTest.cs:88-98 | on the fixture: three items, the first two named "Test Task Item 1" and "Test Task Item 2" |
| TaskServiceScenarios.GetTaskItemExistingIdShouldReturnTaskItem | TaskServiceUnitTest.cs:101-112 | on the fixture: id 1 found, named "Test Task Item 1", message "Successfully retrieved TaskItem with id: 1" |
| TaskServiceScenarios.AddTaskValidTaskItemShouldAddTaskItem | TaskServiceUnitTest.cs:115-142 | on an emptied store: the item with id 3 returned, the success message, exactly one stored item and one commit |
| TaskServiceScenarios.AddTaskInvalidDatesShouldReturnValidationError | TaskServiceUnitTest.cs:145-167 | absent, "Date validation failed", store and commit count unchanged |
| TaskServiceScenarios.AddTaskEmptyDescriptionShouldReturnValidationError | TaskServiceUnitTest.cs:170-192 | absent, the empty-description message, store and commit count unchanged |
| TaskServiceScenarios.DeleteTaskExistingIdShouldDeleteTaskItem | TaskServiceUnitTest.cs:195-208 | task 3 deleted: true, "TaskItem with id: 3 deleted sucessfully", the first two items left, one commit |
| TaskServiceScenarios.DeleteTaskNonExistingIdShouldReturnError | TaskServiceUnitTest.cs:212-222 | id 999: false, "TaskItem with id: 999 not found", nothing removed, no commit |
| TaskServiceScenarios.DeleteTaskNotCompletedTaskItemShouldReturnError | TaskServiceUnitTest.cs:225-238 | task 2, incomplete with no subtasks: false, the pending-subtasks message, nothing removed, no commit |
| TaskServiceScenarios.UpdateTaskTaskItemDoesNotExistShouldReturnFalse | TaskServiceUnitTest.cs:241-261 | id 999: false, "TaskItem with id: 999 does not exist" |
| TaskServiceScenarios.UpdateTaskProvidedIdDoesNotMatchShouldReturnFalse | TaskServiceUnitTest.cs:264-284 | path id 1, payload id 2: false, the id-mismatch message |
| SubTaskServices.SubTaskService.constructor | SubTaskServiceUnitTest.cs:115 | a service over the given context |
| SubTaskServices.SubTaskService.GetSubTaskWithId | SubTaskServiceUnitTest.cs:123-140 | read from the SubTasks collection: present exactly when some SubTask has the id, then the first one, with "Successfully retrieved SubTask for Task with id: {id}"; otherwise absent with "SubTask with id: {id} doesnot exists" |
| SubTaskServices.SubTaskService.GetSubTasks | SubTaskServiceUnitTest.cs:148-174 | absent exactly when the read fails, with "Failed to retreive SubTasks for Task with TaskId: {id}"; an unknown task gives an empty list, not an absent one, with "TaskItem with id: {id} doesnot exists, Please recheck the task id"; otherwise exactly the subtasks of that task |
| SubTaskServices.SubTaskService.UpdateSubTask | SubTaskServiceUnitTest.cs:182-200 | an empty description gives false with "The SubTask description cannot be left empty" and changes nothing; otherwise the model's parent, subtask and id checks, then an overwrite and one commit |
| SubTaskServices.SubTaskService.AddSubTask | SubTaskServiceUnitTest.cs:208-259 | a missing parent gives absent with "  Cannot add SubTask,Task with id:{id} doesnot exists, Please recheck the task Id"; an empty name under an existing parent gives absent with "The SubTask name cannot be left empty"; both change nothing; otherwise the subtask is returned, appended once, committed once, with "TaskItem with name {name} added successfully" |
| SubTaskServices.SubTaskService.DeleteSubTask | SubTaskServiceUnitTest.cs:268-276 | a missing parent gives false with "  Cannot add SubTask,Task with id: {taskId} doesnot exists, Please recheck the task Id" and changes nothing; otherwise, by model choice, the first SubTask with the id is removed with one commit when it belongs to that task, and the call is refused when it does not |
| SubTaskServices.AddedSubTaskIsRetrieved | SubTaskServiceUnitTest.cs:254-258 | a subtask appended under a new id is the first match for that id |
| SubTaskServices.AddThenGetSubTask | SubTaskServiceUnitTest.cs:254-258 | AddSubTask then GetSubTaskWithId of the added id returns a subtask equal in every field |
| SubTaskServices.AddThenListSubTasks | SubTaskServiceUnitTest.cs:254-258 | after AddSubTask, GetSubTasks of the parent is what it was before plus the new subtask at the end |
| SubTaskServices.DeleteThenGetSubTask | SubTaskServiceUnitTest.cs:272-275 | when subtask ids are unique, a successful DeleteSubTask makes GetSubTaskWithId return absent |
| SubTaskServiceScenarios.GetSubTaskWithIdSubTaskExistsShouldReturnSubTask | SubTaskServiceUnitTest.cs:120-129 | id 1: "Test SubTask 1", taken from the SubTasks collection and not from task 1's nested "SubTask 1", with the success message |
| SubTaskServiceScenarios.GetSubTaskWithIdSubTaskDoesNotExistShouldReturnNull | SubTaskServiceUnitTest.cs:133-141 | id 3: absent, "SubTask with id: 3 doesnot exists" |
| SubTaskServiceScenarios.GetSubTasksExceptionThrownShouldReturnErrorMessage | SubTaskServiceUnitTest.cs:145-156 | failing read: absent, "Failed to retreive SubTasks for Task with TaskId: 1" |
| SubTaskServiceScenarios.GetSubTasksTaskDoesNotExistShouldReturnErrorMessage | SubTaskServiceUnitTest.cs:160-175 | only task 1 stored, task 999 asked: an empty list and "TaskItem with id: 999 doesnot exists, Please recheck the task id" |
| SubTaskServiceScenarios.UpdateSubTaskEmptyDescriptionShouldReturnErrorMessage | SubTaskServiceUnitTest.cs:179-201 | false, "The SubTask description cannot be left empty"; in the model also no change and no commit |
| SubTaskServiceScenarios.AddSubTaskTaskDoesNotExistReturnsErrorMessage | SubTaskServiceUnitTest.cs:205-217 | parent 99: absent, the exact "  Cannot add SubTask,Task with id:99 ..." string; in the model also no change |
| SubTaskServiceScenarios.AddSubTaskEmptySubTaskNameReturnsErrorMessage | SubTaskServiceUnitTest.cs:221-236 | existing parent, empty name: absent, exactly "The SubTask name cannot be left empty"; in the model also no change |
| SubTaskServiceScenarios.AddSubTaskValidInputAddsSubTaskSuccessfully | SubTaskServiceUnitTest.cs:239-261 | the subtask named "SubTask1" returned, exactly "TaskItem with name SubTask1 added successfully"; in the model also appended as the third entry with one commit |
| SubTaskServiceScenarios.DeleteSubTaskTaskDoesNotExistReturnsErrorMessage | SubTaskServiceUnitTest.cs:265-278 | parent 99: false, the exact "  Cannot add SubTask,Task with id: 99 ..." string; in the model also no change |

## Left out

- Entity Framework (`DbContext`, `DbSet`), Moq and `ReturnsDbSet`: replaced by the `TaskContext` class with two sequences and a commit counter.
- Logging: it only observes and has no effect on results.
- Exceptions. The one the tests provoke becomes a failing read in GetSubTasks. Failures of other reads and of writes are not modelled, because the tests never raise them.
- Store-assigned ids: AddTask and AddSubTask store the entity with the id it carries.
- Name validation of TaskItems on add, and re-validation of a TaskItem's fields on update: no test shows either.
- The nested `subTasks` list of a TaskItem is not updated when a SubTask is added to, changed in or deleted from the SubTasks collection. The delete gate of DeleteTask sees only the nested list. So after AddSubTask of an incomplete subtask under task 3, DeleteTask(3) still succeeds.
- A `string` property left unset is `null` in the source, which has no counterpart in `seq<char>`. The model uses the empty string.
- Idempotence of GetTaskItem holds as a matter of course: it is a function of the store's state.
- Concurrent callers, HTTP controllers, dependency wiring and durability of commits: they are outside the services.
