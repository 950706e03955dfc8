/**
 * `Task` and the value types it aggregates. Only `TaskCategory` and `Priority` are modelled
 * in detail; the others are opaque wrappers whose validation is outside this model.
 */
module Tasks {
  import opened Wrappers
  import Categories
  import Priorities

  datatype TaskName = TaskName(value: string)

  datatype Description = Description(value: string)

  /** A contact's e-mail address, borrowed from the address book. */
  datatype Email = Email(value: string)

  /** A calendar date, as a day number; later days have larger numbers. */
  datatype TaskDeadline = TaskDeadline(epochDay: int)

  /** A task; the contact e-mail is optional. */
  datatype Task = Task(
    name: TaskName,
    category: Categories.TaskCategory,
    description: Description,
    priority: Priorities.Priority,
    deadline: TaskDeadline,
    personEmailAddress: Option<Email>,
    isDone: bool)
}
