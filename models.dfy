/** The entities the two services work on: tasks, their subtasks, calendar dates,
    and the (value, message) pairs every service operation returns. */
module Models {

  datatype Option<+T> = None | Some(value: T)

  /** A calendar date given as year, month and day, the way a DateOnly is constructed. */
  datatype Date = Date(year: int, month: int, day: int)

  /** The value of a DateOnly that nobody assigned: 1 January of year 1. */
  const DEFAULT_DATE := Date(1, 1, 1)

  /** `a` lies strictly earlier than `b`: dates compare by year, then month, then day. */
  predicate Before(a: Date, b: Date)
  {
    a.year < b.year
    || (a.year == b.year && a.month < b.month)
    || (a.year == b.year && a.month == b.month && a.day < b.day)
  }

  /** Before is a strict total order on dates. */
  lemma BeforeIsStrictTotalOrder(a: Date, b: Date, c: Date)
    ensures !Before(a, a)
    ensures Before(a, b) && Before(b, c) ==> Before(a, c)
    ensures a == b || Before(a, b) || Before(b, a)
    ensures !(Before(a, b) && Before(b, a))
  {
  }

  datatype SubTask = SubTask(
    subTaskId: int,
    subTaskName: string,
    subTaskDescription: string,
    dateCreated: Date,
    dueDate: Date,
    isCompleted: bool,
    taskItemId: int)

  /** A task and the subtasks it owns (its own, nested list). */
  datatype TaskItem = TaskItem(
    taskItemId: int,
    taskItemName: string,
    taskItemDescription: string,
    dateCreated: Date,
    dueDate: Date,
    isCompleted: bool,
    subTasks: seq<SubTask>)

  /** What a service operation hands back: its result and a human-readable status message. */
  datatype Reply<+T> = Reply(value: T, message: string)
}
