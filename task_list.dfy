/**
 * The filter predicates and the part of the application model that a filter command
 * touches: the full task list and the predicate that governs the filtered view.
 */
module TaskList {
  import opened Wrappers
  import opened Tasks
  import Categories

  /**
   * The three predicate classes, tagged by class and carrying their constructor
   * arguments. How each one tests a task is left abstract (see `Model.test`).
   */
  datatype TaskPredicate =
    | TaskCategoryAndDeadlinePredicate(category: Categories.TaskCategory, date: TaskDeadline)
    | TaskContainsCategoryPredicate(category: Categories.TaskCategory)
    | TaskDeadlineBeforeDatePredicate(date: TaskDeadline)

  /** The tasks of `tasks` that pass `p` under `test`, in their original order. */
  function FilterTasks(tasks: seq<Task>, p: TaskPredicate, test: (TaskPredicate, Task) -> bool): (r: seq<Task>)
    ensures |r| <= |tasks|
    ensures forall t :: t in r <==> t in tasks && test(p, t)
    ensures forall t :: multiset(r)[t] == if test(p, t) then multiset(tasks)[t] else 0
    decreases |tasks|
  {
    if tasks == [] then []
    else
      assert tasks == [tasks[0]] + tasks[1..];
      (if test(p, tasks[0]) then [tasks[0]] else []) + FilterTasks(tasks[1..], p, test)
  }

  /** The number of list positions whose task passes `p`. */
  function CountPassing(tasks: seq<Task>, p: TaskPredicate, test: (TaskPredicate, Task) -> bool): nat
    decreases |tasks|
  {
    if tasks == [] then 0 else (if test(p, tasks[0]) then 1 else 0) + CountPassing(tasks[1..], p, test)
  }

  /** The view holds one entry per passing position of the list. */
  lemma {:induction false} FilterTasksSize(tasks: seq<Task>, p: TaskPredicate, test: (TaskPredicate, Task) -> bool)
    ensures |FilterTasks(tasks, p, test)| == CountPassing(tasks, p, test)
    decreases |tasks|
  {
    if tasks != [] {
      FilterTasksSize(tasks[1..], p, test);
    }
  }

  /** The view is as long as the whole list exactly when every task passes `p`. */
  lemma {:induction false} FilterTasksCount(tasks: seq<Task>, p: TaskPredicate, test: (TaskPredicate, Task) -> bool)
    ensures |FilterTasks(tasks, p, test)| == |tasks| <==> forall t :: t in tasks ==> test(p, t)
    decreases |tasks|
  {
    if tasks != [] {
      FilterTasksCount(tasks[1..], p, test);
      assert forall t :: t in tasks <==> t == tasks[0] || t in tasks[1..];
    }
  }

  /**
   * The model: the full task list and the current filter (`None` shows every task).
   * `updates` records every predicate handed to `UpdateFilteredTaskList`, in order.
   */
  class Model {
    var tasks: seq<Task>
    var filter: Option<TaskPredicate>
    ghost var updates: seq<TaskPredicate>
    /** How a predicate object tests a task. */
    const test: (TaskPredicate, Task) -> bool

    constructor (tasks: seq<Task>, test: (TaskPredicate, Task) -> bool)
      ensures this.tasks == tasks && this.test == test
      ensures filter == None && updates == []
    {
      this.tasks := tasks;
      this.test := test;
      filter := None;
      updates := [];
    }

    /** `getFilteredTaskList()`: the tasks the current filter lets through. */
    function FilteredTaskList(): (r: seq<Task>)
      reads this
      ensures filter.None? ==> r == tasks
      ensures filter.Some? ==> forall t :: t in r <==> t in tasks && test(filter.value, t)
      ensures filter.Some? ==> forall t :: multiset(r)[t] == if test(filter.value, t) then multiset(tasks)[t] else 0
      ensures filter.Some? ==> |r| == CountPassing(tasks, filter.value, test)
    {
      match filter
      case None => tasks
      case Some(p) =>
        FilterTasksSize(tasks, p, test);
        FilterTasks(tasks, p, test)
    }

    /** `updateFilteredTaskList(p)`: replaces the filter; the task list itself is untouched. */
    method UpdateFilteredTaskList(p: TaskPredicate)
      modifies this
      ensures filter == Some(p)
      ensures tasks == old(tasks) && updates == old(updates) + [p]
    {
      filter := Some(p);
      updates := updates + [p];
    }
  }
}
