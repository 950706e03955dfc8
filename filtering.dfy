/**
 * `FilterTaskCommand` and its nested `FilterTaskDescriptor`: the descriptor collects an
 * optional category and an optional date; the command decides once, when it is built,
 * which of the three predicates to use, and hands that predicate to the model when run.
 */
module Filtering {
  import opened Wrappers
  import opened JavaLang
  import opened Tasks
  import opened TaskList
  import Categories

  /** `Optional<TaskCategory>.equals`: both empty, or both present with equal categories. */
  predicate CategoryOptionalEquals(a: Option<Categories.TaskCategory>, b: Option<Categories.TaskCategory>) {
    match (a, b)
    case (None, None) => true
    case (Some(x), Some(y)) => x.Equals(SameClass(y))
    case _ => false
  }

  /** `Optional<TaskDeadline>.equals`; `TaskDeadline.equals` is taken to be equality of dates. */
  predicate DateOptionalEquals(a: Option<TaskDeadline>, b: Option<TaskDeadline>) {
    match (a, b)
    case (None, None) => true
    case (Some(x), Some(y)) => x == y
    case _ => false
  }

  /** The mutable descriptor; `None` in a slot stands for a null field. */
  class FilterTaskDescriptor {
    var category: Option<Categories.TaskCategory>
    var date: Option<TaskDeadline>

    constructor ()
      ensures category == None && date == None
    {
      category := None;
      date := None;
    }

    /** The copy constructor: a new descriptor holding the same two slots. */
    constructor Copy(toCopy: FilterTaskDescriptor)
      ensures category == toCopy.category && date == toCopy.date
    {
      category := toCopy.category;
      date := toCopy.date;
    }

    /** `isAnyFieldEdited()`: some slot is non-null, so some getter's `Optional` is present. */
    function IsAnyFieldEdited(): (r: bool)
      reads this
      ensures r <==> GetCategory().Some? || GetDate().Some?
      ensures !r <==> category == None && date == None
    {
      category.Some? || date.Some?
    }

    /** `getCategory()`: `Optional.ofNullable(category)`. */
    function GetCategory(): (r: Option<Categories.TaskCategory>)
      reads this
      ensures r.Some? <==> category.Some?
      ensures r.Some? ==> r.value == category.value
    {
      category
    }

    /** `getDate()`: `Optional.ofNullable(date)`. */
    function GetDate(): (r: Option<TaskDeadline>)
      reads this
      ensures r.Some? <==> date.Some?
      ensures r.Some? ==> r.value == date.value
    {
      date
    }

    method SetCategory(category: Option<Categories.TaskCategory>)
      modifies this
      ensures GetCategory() == category
      ensures GetDate() == old(GetDate())
    {
      this.category := category;
    }

    method SetDate(date: Option<TaskDeadline>)
      modifies this
      ensures GetDate() == date
      ensures GetCategory() == old(GetCategory())
    {
      this.date := date;
    }

    /**
     * `equals(Object)`: another descriptor whose two Optionals are equal to these, which
     * comes down to equal slot values; never null or another class.
     */
    function Equals(other: Other<FilterTaskDescriptor>): (r: bool)
      reads this, if other.SameClass? then {other.value} else {}
      ensures r <==> other.SameClass? && category == other.value.category && date == other.value.date
    {
      other == SameClass(this)
        || (other.SameClass?
            && CategoryOptionalEquals(GetCategory(), other.value.GetCategory())
            && DateOptionalEquals(GetDate(), other.value.GetDate()))
    }
  }

  /**
   * The constructor's three-way branch on the descriptor's slots: both present, category
   * only, and otherwise the date predicate, whose `getDate().get()` throws when the date
   * is absent as well.
   */
  function Dispatch(category: Option<Categories.TaskCategory>, date: Option<TaskDeadline>): (r: Result<TaskPredicate, Exception>)
    ensures r.Failure? <==> category.None? && date.None?
    ensures r.Failure? ==> r.error == NoSuchElementException
    ensures r.Success? ==> PredicateCategory(r.value) == category && PredicateDate(r.value) == date
  {
    if category.Some? && date.Some? then
      Success(TaskCategoryAndDeadlinePredicate(category.value, date.value))
    else if category.Some? && date.None? then
      Success(TaskContainsCategoryPredicate(category.value))
    else if date.Some? then
      Success(TaskDeadlineBeforeDatePredicate(date.value))
    else
      Failure(NoSuchElementException)
  }

  /** The category a predicate filters by, if any. */
  function PredicateCategory(p: TaskPredicate): Option<Categories.TaskCategory> {
    match p
    case TaskCategoryAndDeadlinePredicate(c, _) => Some(c)
    case TaskContainsCategoryPredicate(c) => Some(c)
    case TaskDeadlineBeforeDatePredicate(_) => None
  }

  /** The date a predicate filters by, if any. */
  function PredicateDate(p: TaskPredicate): Option<TaskDeadline> {
    match p
    case TaskCategoryAndDeadlinePredicate(_, d) => Some(d)
    case TaskContainsCategoryPredicate(_) => None
    case TaskDeadlineBeforeDatePredicate(d) => Some(d)
  }

  /** Which predicate class is chosen for each combination of present slots. */
  lemma DispatchSelectsVariant(category: Option<Categories.TaskCategory>, date: Option<TaskDeadline>)
    ensures category.Some? && date.Some? ==> Dispatch(category, date).Success? && Dispatch(category, date).value.TaskCategoryAndDeadlinePredicate?
    ensures category.Some? && date.None? ==> Dispatch(category, date).Success? && Dispatch(category, date).value.TaskContainsCategoryPredicate?
    ensures category.None? && date.Some? ==> Dispatch(category, date).Success? && Dispatch(category, date).value.TaskDeadlineBeforeDatePredicate?
  {
  }

  class FilterTaskCommand {
    /** The command's own copy of the descriptor it was built from. */
    const filterTaskDescriptor: FilterTaskDescriptor
    const both: Option<TaskPredicate>
    const category: Option<TaskPredicate>
    const date: Option<TaskPredicate>
    const hasCategory: bool
    const hasDate: bool

    /**
     * The flags agree with the predicate fields: exactly one of them is set, and it is
     * the predicate class the flags name. The flags are never both false.
     */
    ghost predicate Valid() {
      && (hasCategory || hasDate)
      && (hasCategory && hasDate ==>
            both.Some? && both.value.TaskCategoryAndDeadlinePredicate? && category.None? && date.None?)
      && (hasCategory && !hasDate ==>
            both.None? && category.Some? && category.value.TaskContainsCategoryPredicate? && date.None?)
      && (!hasCategory && hasDate ==>
            both.None? && category.None? && date.Some? && date.value.TaskDeadlineBeforeDatePredicate?)
    }

    /** The predicate chosen at construction. */
    function Selected(): TaskPredicate
      requires Valid()
    {
      if hasCategory && hasDate then both.value
      else if hasCategory then category.value
      else date.value
    }

    /**
     * `new FilterTaskCommand(d)`: takes a defensive copy of `d` and fixes the predicate.
     * The source throws on a descriptor with neither slot set, hence the precondition.
     */
    constructor (toCopy: FilterTaskDescriptor)
      requires toCopy.IsAnyFieldEdited()
      ensures fresh(filterTaskDescriptor)
      ensures filterTaskDescriptor.category == toCopy.category && filterTaskDescriptor.date == toCopy.date
      ensures Valid()
      ensures hasCategory == toCopy.category.Some? && hasDate == toCopy.date.Some?
      ensures Dispatch(toCopy.category, toCopy.date) == Success(Selected())
    {
      filterTaskDescriptor := new FilterTaskDescriptor.Copy(toCopy);
      if toCopy.GetCategory().Some? && toCopy.GetDate().Some? {
        both := Some(TaskCategoryAndDeadlinePredicate(toCopy.GetCategory().value, toCopy.GetDate().value));
        category := None;
        date := None;
        hasCategory := true;
        hasDate := true;
      } else if toCopy.GetCategory().Some? && toCopy.GetDate().None? {
        both := None;
        category := Some(TaskContainsCategoryPredicate(toCopy.GetCategory().value));
        date := None;
        hasCategory := true;
        hasDate := false;
      } else {
        both := None;
        category := None;
        date := Some(TaskDeadlineBeforeDatePredicate(toCopy.GetDate().value));
        hasCategory := false;
        hasDate := true;
      }
    }

    /**
     * `execute(model)`: hands the chosen predicate to the model, once, and reports how
     * many tasks the filtered view then shows.
     */
    method Execute(model: Model) returns (count: nat)
      requires Valid()
      modifies model
      ensures model.updates == old(model.updates) + [Selected()]
      ensures model.filter == Some(Selected()) && model.tasks == old(model.tasks)
      ensures count == |model.FilteredTaskList()|
    {
      if hasCategory && hasDate {
        model.UpdateFilteredTaskList(both.value);
      }
      if hasCategory && !hasDate {
        model.UpdateFilteredTaskList(category.value);
      }
      if !hasCategory && hasDate {
        model.UpdateFilteredTaskList(date.value);
      }
      count := |model.FilteredTaskList()|;
    }

    /**
     * `equals(Object)`: another filter command with an equal descriptor, that is, with equal
     * slot values; which predicates the two built plays no part.
     */
    function Equals(other: Other<FilterTaskCommand>): (r: bool)
      reads filterTaskDescriptor, if other.SameClass? then {other.value.filterTaskDescriptor} else {}
      ensures r <==>
        (other.SameClass?
         && filterTaskDescriptor.category == other.value.filterTaskDescriptor.category
         && filterTaskDescriptor.date == other.value.filterTaskDescriptor.date)
    {
      other == SameClass(this)
        || (other.SameClass? && filterTaskDescriptor.Equals(SameClass(other.value.filterTaskDescriptor)))
    }
  }

  lemma CommandEqualsIsReflexive(a: FilterTaskCommand)
    ensures a.Equals(SameClass(a))
  {
  }

  lemma CommandEqualsIsSymmetric(a: FilterTaskCommand, b: FilterTaskCommand)
    ensures a.Equals(SameClass(b)) <==> b.Equals(SameClass(a))
  {
  }

  lemma CommandNeverEqualsNullOrOtherClass(a: FilterTaskCommand)
    ensures !a.Equals(NullRef) && !a.Equals(OtherClass)
  {
  }

  /**
   * Commands built from equal descriptors are equal and chose the same predicate.
   */
  lemma EqualDescriptorsGiveEqualCommands(a: FilterTaskCommand, b: FilterTaskCommand, da: FilterTaskDescriptor, db: FilterTaskDescriptor)
    requires a.Valid() && b.Valid()
    requires Dispatch(da.category, da.date) == Success(a.Selected())
    requires Dispatch(db.category, db.date) == Success(b.Selected())
    requires a.filterTaskDescriptor.category == da.category && a.filterTaskDescriptor.date == da.date
    requires b.filterTaskDescriptor.category == db.category && b.filterTaskDescriptor.date == db.date
    requires da.Equals(SameClass(db))
    ensures a.Equals(SameClass(b))
    ensures a.Selected() == b.Selected()
  {
  }

  /**
   * A client: changing the caller's descriptor after the command is built leaves the
   * command's copy, its flags and its predicate as they were.
   */
  method MutateDescriptorAfterConstruction(d: FilterTaskDescriptor, newCategory: Option<Categories.TaskCategory>, newDate: Option<TaskDeadline>)
      returns (cmd: FilterTaskCommand)
    requires d.IsAnyFieldEdited()
    modifies d
    ensures d.category == newCategory && d.date == newDate
    ensures cmd.filterTaskDescriptor.category == old(d.category) && cmd.filterTaskDescriptor.date == old(d.date)
    ensures cmd.Valid() && Dispatch(old(d.category), old(d.date)) == Success(cmd.Selected())
  {
    cmd := new FilterTaskCommand(d);
    d.SetCategory(newCategory);
    d.SetDate(newDate);
  }

  /** A client: the filter's count is the size of the view under the chosen predicate. */
  method FilterAndCount(d: FilterTaskDescriptor, model: Model) returns (count: nat)
    requires d.IsAnyFieldEdited()
    modifies model
    ensures Dispatch(d.category, d.date).Success?
    ensures model.filter == Some(Dispatch(d.category, d.date).value)
    ensures count == |FilterTasks(model.tasks, Dispatch(d.category, d.date).value, model.test)|
    ensures count <= |model.tasks|
    ensures count == CountPassing(model.tasks, Dispatch(d.category, d.date).value, model.test)
  {
    var cmd := new FilterTaskCommand(d);
    count := cmd.Execute(model);
  }
}
