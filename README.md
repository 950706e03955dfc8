# Task filtering, edit-descriptor building and task value types

A Dafny model of three small pieces of the task-tracking module of an address-book
application:

- **Filter command dispatch.** `FilterTaskCommand` is built from a `FilterTaskDescriptor`,
  a mutable record with two optional slots: a category and a date. The constructor takes
  a defensive copy of the descriptor. It then decides, once, which of three predicates to
  build: category and deadline, category only, or deadline before a date. It also records
  that choice in two flags. `execute` hands the chosen predicate to the model's filtered
  view and reports how many tasks the view then shows. Two commands are equal when their
  descriptors are.
- **Edit-descriptor builder.** `EditTaskDescriptorBuilder` is a fluent builder over an
  `EditTaskDescriptor`, a mutable record with seven optional slots: name, category,
  description, priority, deadline, e-mail and done flag.
- **Value types and comparator.** `TaskCategory` is a level plus a category type.
  `Priority` wraps an enum constant. `SortByStatus` is a task comparator that is still a
  stub.

Modules, one per source component:

| module | file | models |
|---|---|---|
| `Wrappers` | wrappers.dfy | `Option` (a Java null or an empty `Optional`), `Result` (a value or a thrown exception) |
| `JavaLang` | java_lang.dfy | Java `int`, the argument of `equals(Object)`, the two exceptions, `Integer.toString` |
| `Categories` | categories.dfy | `TaskCategory`, `TaskCategoryType` |
| `Priorities` | priorities.dfy | `Priority`, `PriorityEnum` |
| `Tasks` | tasks.dfy | `Task` and its other field types, as plain values |
| `Sorting` | sorting.dfy | `SortByStatus` |
| `TaskList` | task_list.dfy | the three predicate classes and the part of `Model` a filter uses |
| `Filtering` | filtering.dfy | `FilterTaskCommand`, `FilterTaskDescriptor` |
| `Editing` | editing.dfy | `EditTaskDescriptor`, `EditTaskDescriptorBuilder` |

Modelling conventions:

- A nullable Java reference is an `Option`, with `None` for null.
- The argument of `equals(Object)` is `Other<T>`: `NullRef`, `SameClass(value)` or
  `OtherClass`. It stands in for the `instanceof` test. For the value types `TaskCategory` and
  `Priority` the `other == this` short cut is covered by structural equality. For the classes
  `FilterTaskDescriptor` and `FilterTaskCommand` it is reference identity, `other == SameClass(this)`.
- Java's `Enum.hashCode` depends on object identity, so it differs from one run to the
  next. The model passes it in as a parameter `enumHash`, and every hash lemma holds for
  every such function.
- Mutable objects are classes: `FilterTaskDescriptor`, `EditTaskDescriptor`, the builder,
  the command and the model. Every setter and `with*` method states the whole new state of
  its record. On `EditTaskDescriptor` and the builder this is one `ensures`,
  `Fields() == old(Fields()).(slot := v)`. On `FilterTaskDescriptor` it is two: the getter of
  the slot written returns the new value, and the other getter returns what it did before.
- The constructor branch of `FilterTaskCommand` is also a pure function, `Dispatch`. It
  includes the branch in which `getDate().get()` runs on an empty `Optional` and throws
  `NoSuchElementException`.

## Model

| member | source | states |
|---|---|---|
| `Filtering.FilterTaskDescriptor.constructor` | src/main/java/seedu/address/logic/commands/FilterTaskCommand.java:126-127 | a new descriptor has both slots empty |
| `Filtering.FilterTaskDescriptor.Copy` | src/main/java/seedu/address/logic/commands/FilterTaskCommand.java:133-136 | the copy holds the same category and date as its source |
| `Filtering.FilterTaskDescriptor.SetCategory` | src/main/java/seedu/address/logic/commands/FilterTaskCommand.java:145-151 | after the call `getCategory()` returns exactly the value set (empty for null); the date is unchanged |
| `Filtering.FilterTaskDescriptor.SetDate` | src/main/java/seedu/address/logic/commands/FilterTaskCommand.java:153-159 | after the call `getDate()` returns exactly the value set (empty for null); the category is unchanged |
| `Filtering.FilterTaskDescriptor.IsAnyFieldEdited` | src/main/java/seedu/address/logic/commands/FilterTaskCommand.java:141-143 | `isAnyFieldEdited()` holds iff some getter's Optional is present; it is false exactly when both slots are null |
| `Filtering.FilterTaskDescriptor.GetCategory` | src/main/java/seedu/address/logic/commands/FilterTaskCommand.java:145-147 | `getCategory()` is present exactly when the category slot is non-null, and then holds that category |
| `Filtering.FilterTaskDescriptor.GetDate` | src/main/java/seedu/address/logic/commands/FilterTaskCommand.java:153-155 | `getDate()` is present exactly when the date slot is non-null, and then holds that date |
| `Filtering.FilterTaskDescriptor.Equals` | src/main/java/seedu/address/logic/commands/FilterTaskCommand.java:161-176 | descriptor `equals` holds iff the other is a descriptor with equal category and equal date; never against null or another class |
| `Filtering.Dispatch` | src/main/java/seedu/address/logic/commands/FilterTaskCommand.java:50-78 | the branch fails with `NoSuchElementException` iff neither slot is set; otherwise the chosen predicate carries exactly the category and date that were supplied |
| `Filtering.DispatchSelectsVariant` | src/main/java/seedu/address/logic/commands/FilterTaskCommand.java:50-76 | both slots give the category-and-deadline predicate, category only gives the category predicate, date only gives the deadline predicate |
| `Filtering.FilterTaskCommand.constructor` | src/main/java/seedu/address/logic/commands/FilterTaskCommand.java:46-79 | stores a fresh copy equal to the argument; `hasCategory`/`hasDate` equal the slots' presence; exactly one predicate field is set, the one `Dispatch` selects; the flags are never both false |
| `Filtering.FilterTaskCommand.Execute` | src/main/java/seedu/address/logic/commands/FilterTaskCommand.java:81-99 | the model receives exactly one update, with the predicate chosen at construction; its tasks are unchanged; the count returned is the size of the filtered list after the update |
| `Filtering.FilterTaskCommand.Equals` | src/main/java/seedu/address/logic/commands/FilterTaskCommand.java:101-116 | two commands are equal iff their descriptors hold equal category and date, whatever predicate each built |
| `Filtering.CommandEqualsIsReflexive` | src/main/java/seedu/address/logic/commands/FilterTaskCommand.java:102-106 | every command equals itself |
| `Filtering.CommandEqualsIsSymmetric` | src/main/java/seedu/address/logic/commands/FilterTaskCommand.java:101-116 | command equality is symmetric |
| `Filtering.CommandNeverEqualsNullOrOtherClass` | src/main/java/seedu/address/logic/commands/FilterTaskCommand.java:108-111 | a command never equals null or an object of another class |
| `Filtering.EqualDescriptorsGiveEqualCommands` | src/main/java/seedu/address/logic/commands/FilterTaskCommand.java:46-116 | commands built from equal descriptors are equal and chose the same predicate |
| `Filtering.MutateDescriptorAfterConstruction` | src/main/java/seedu/address/logic/commands/FilterTaskCommand.java:46-48 | changing the caller's descriptor after construction leaves the command's copy and its chosen predicate as built |
| `Filtering.FilterAndCount` | src/main/java/seedu/address/logic/commands/FilterTaskCommand.java:82-98 | building and running a command on a descriptor with some slot set installs `Dispatch`'s predicate and reports the size of the filtered list: the number of tasks that pass it, at most the number of tasks |
| `TaskList.Model.UpdateFilteredTaskList` | src/main/java/seedu/address/logic/commands/FilterTaskCommand.java:85-95 | replaces the current filter with the given predicate, logs the call, leaves the tasks alone |
| `TaskList.Model.FilteredTaskList` | src/main/java/seedu/address/logic/commands/FilterTaskCommand.java:97-98 | with no filter it is the whole list; otherwise each task occurs in it as often as in the list if it passes the filter and not at all if it fails, so its size is the number of passing list positions |
| `TaskList.FilterTasks` | src/main/java/seedu/address/logic/commands/FilterTaskCommand.java:97-98 | the filtered view is no longer than the list; a passing task occurs in it as often as in the list, a failing one not at all |
| `TaskList.FilterTasksSize` | src/main/java/seedu/address/logic/commands/FilterTaskCommand.java:97-98 | the size of the filtered view is the number of list positions whose task passes the predicate |
| `TaskList.FilterTasksCount` | src/main/java/seedu/address/logic/commands/FilterTaskCommand.java:97-98 | the reported count equals the full list size iff every task passes the predicate |
| `Editing.EditTaskDescriptor.constructor` | src/test/java/seedu/address/testutil/EditTaskDescriptorBuilder.java:20 | a new descriptor has all seven slots empty |
| `Editing.EditTaskDescriptor.Copy` | src/test/java/seedu/address/testutil/EditTaskDescriptorBuilder.java:24 | the copy holds the same seven slots as its source |
| `Editing.EditTaskDescriptor.SetName` | src/test/java/seedu/address/testutil/EditTaskDescriptorBuilder.java:45 | sets the name slot; the other six are unchanged |
| `Editing.EditTaskDescriptor.SetCategory` | src/test/java/seedu/address/testutil/EditTaskDescriptorBuilder.java:53 | sets the category slot; the other six are unchanged |
| `Editing.EditTaskDescriptor.SetDescription` | src/test/java/seedu/address/testutil/EditTaskDescriptorBuilder.java:61 | sets the description slot; the other six are unchanged |
| `Editing.EditTaskDescriptor.SetPriority` | src/test/java/seedu/address/testutil/EditTaskDescriptorBuilder.java:69 | sets the priority slot; the other six are unchanged |
| `Editing.EditTaskDescriptor.SetDeadline` | src/test/java/seedu/address/testutil/EditTaskDescriptorBuilder.java:78 | sets the deadline slot; the other six are unchanged |
| `Editing.EditTaskDescriptor.SetPersonEmailAddress` | src/test/java/seedu/address/testutil/EditTaskDescriptorBuilder.java:87 | sets the e-mail slot; the other six are unchanged |
| `Editing.EditTaskDescriptor.SetDone` | src/test/java/seedu/address/testutil/EditTaskDescriptorBuilder.java:96 | sets the done slot; the other six are unchanged |
| `Editing.EditTaskDescriptorBuilder.constructor` | src/test/java/seedu/address/testutil/EditTaskDescriptorBuilder.java:19-21 | the builder starts with a fresh descriptor whose seven slots are all empty |
| `Editing.EditTaskDescriptorBuilder.FromDescriptor` | src/test/java/seedu/address/testutil/EditTaskDescriptorBuilder.java:23-25 | the builder holds a fresh descriptor with the same slots as the one passed in |
| `Editing.EditTaskDescriptorBuilder.FromTask` | src/test/java/seedu/address/testutil/EditTaskDescriptorBuilder.java:30-39 | the builder's fresh descriptor holds every field of the task in its slot |
| `Editing.FieldsOfInjective` | src/test/java/seedu/address/testutil/EditTaskDescriptorBuilder.java:30-39 | the descriptor filled from a task determines the task: different tasks give different descriptors |
| `Editing.FieldsOfSetsSlots` | src/test/java/seedu/address/testutil/EditTaskDescriptorBuilder.java:30-39 | a descriptor filled from a task has six slots set, and the e-mail slot set iff the task has an e-mail |
| `Editing.EditTaskDescriptorBuilder.WithName` | src/test/java/seedu/address/testutil/EditTaskDescriptorBuilder.java:44-47 | sets only the name slot, to a task name built from the string, and returns the same builder |
| `Editing.EditTaskDescriptorBuilder.WithCategory` | src/test/java/seedu/address/testutil/EditTaskDescriptorBuilder.java:52-55 | sets only the category slot and returns the same builder |
| `Editing.EditTaskDescriptorBuilder.WithDescription` | src/test/java/seedu/address/testutil/EditTaskDescriptorBuilder.java:60-63 | sets only the description slot, to a description built from the string, and returns the same builder |
| `Editing.EditTaskDescriptorBuilder.WithPriority` | src/test/java/seedu/address/testutil/EditTaskDescriptorBuilder.java:68-71 | sets only the priority slot and returns the same builder |
| `Editing.EditTaskDescriptorBuilder.WithDeadline` | src/test/java/seedu/address/testutil/EditTaskDescriptorBuilder.java:77-80 | sets only the deadline slot and returns the same builder |
| `Editing.EditTaskDescriptorBuilder.WithEmail` | src/test/java/seedu/address/testutil/EditTaskDescriptorBuilder.java:86-89 | sets only the e-mail slot and returns the same builder |
| `Editing.EditTaskDescriptorBuilder.WithIsDone` | src/test/java/seedu/address/testutil/EditTaskDescriptorBuilder.java:95-98 | sets only the done slot and returns the same builder |
| `Editing.EditTaskDescriptorBuilder.Build` | src/test/java/seedu/address/testutil/EditTaskDescriptorBuilder.java:100-102 | returns the builder's own descriptor, not a copy |
| `Editing.CopyIsIndependent` | src/test/java/seedu/address/testutil/EditTaskDescriptorBuilder.java:23-25 | after copying into a builder, a `with*` call changes the builder's descriptor and leaves the original unchanged |
| `Editing.LastWriteWins` | src/test/java/seedu/address/testutil/EditTaskDescriptorBuilder.java:68-98 | of two writes to one slot the later one wins; a slot written in between is kept |
| `Editing.BuildSharesDescriptor` | src/test/java/seedu/address/testutil/EditTaskDescriptorBuilder.java:100-102 | a `with*` call made after `build()` shows through the returned descriptor |
| `Categories.TaskCategory.GetLevel` | src/main/java/seedu/address/model/task/TaskCategory.java:28-30 | `getLevel()` returns the level that, with the type, makes up this category |
| `Categories.TaskCategory.GetTaskCategoryType` | src/main/java/seedu/address/model/task/TaskCategory.java:19-21 | `getTaskCategoryType()` returns the type that, with the level, makes up this category |
| `Categories.GettersReturnArguments` | src/main/java/seedu/address/model/task/TaskCategory.java:9-30 | `getLevel` and `getTaskCategoryType` return exactly the constructor arguments |
| `Categories.TaskCategory.Equals` | src/main/java/seedu/address/model/task/TaskCategory.java:61-67 | `equals` holds iff the other object is a category with the same level and type |
| `Categories.EqualsIsReflexive` | src/main/java/seedu/address/model/task/TaskCategory.java:61-67 | every category equals itself |
| `Categories.EqualsIsSymmetric` | src/main/java/seedu/address/model/task/TaskCategory.java:61-67 | category equality is symmetric |
| `Categories.EqualsIsTransitive` | src/main/java/seedu/address/model/task/TaskCategory.java:61-67 | category equality is transitive |
| `Categories.NeverEqualsNullOrOtherClass` | src/main/java/seedu/address/model/task/TaskCategory.java:63 | a category never equals null or an object of another class |
| `Categories.TaskCategory.HashCode` | src/main/java/seedu/address/model/task/TaskCategory.java:39-41 | `hashCode()` is the enum hash of the type of every category equal to this one |
| `Categories.HashCodeConsistentWithEquals` | src/main/java/seedu/address/model/task/TaskCategory.java:39-67 | equal categories have equal hash codes, for every enum hash the runtime picks |
| `Categories.HashCodeIgnoresLevel` | src/main/java/seedu/address/model/task/TaskCategory.java:39-41 | categories of one type with different levels hash alike, yet are not equal |
| `Categories.TaskCategory.ToString` | src/main/java/seedu/address/model/task/TaskCategory.java:50-52 | `toString()` is a leading numeral, which is the decimal form of the level, followed by the type's enum name and nothing else |
| `Categories.ToStringParts` | src/main/java/seedu/address/model/task/TaskCategory.java:50-52 | `toString` is the decimal level, which reads back as the level, followed by the type's enum name |
| `Categories.ToStringInjective` | src/main/java/seedu/address/model/task/TaskCategory.java:50-67 | two categories print alike iff they are equal |
| `JavaLang.IntToString` | src/main/java/seedu/address/model/task/TaskCategory.java:51 | the decimal form of the level is non-empty, made of digits and a sign, and starts with `-` iff the level is negative |
| `JavaLang.IntToStringRoundTrip` | src/main/java/seedu/address/model/task/TaskCategory.java:51 | the decimal rendering of the level reads back as the level |
| `JavaLang.IntToStringInjective` | src/main/java/seedu/address/model/task/TaskCategory.java:51 | different levels render as different strings |
| `Priorities.NewPriority` | src/main/java/seedu/address/model/task/Priority.java:12-15 | construction fails with `NullPointerException` iff the constant is null; otherwise `getPriority()` returns it unchanged |
| `Priorities.Priority.GetPriority` | src/main/java/seedu/address/model/task/Priority.java:55-57 | `getPriority()` returns the constant this priority wraps |
| `Priorities.Priority.ToString` | src/main/java/seedu/address/model/task/Priority.java:23-25 | `toString()` is the name of the wrapped constant and of no other constant |
| `Priorities.Priority.HashCode` | src/main/java/seedu/address/model/task/Priority.java:46-48 | `hashCode()` is the enum hash of the constant of every priority equal to this one |
| `Priorities.Priority.Equals` | src/main/java/seedu/address/model/task/Priority.java:34-38 | `equals` holds iff the other object is a priority wrapping the same constant |
| `Priorities.EqualsIsReflexive` | src/main/java/seedu/address/model/task/Priority.java:34-38 | every priority equals itself |
| `Priorities.EqualsIsSymmetric` | src/main/java/seedu/address/model/task/Priority.java:34-38 | priority equality is symmetric |
| `Priorities.NeverEqualsNullOrOtherClass` | src/main/java/seedu/address/model/task/Priority.java:36 | a priority never equals null or an object of another class |
| `Priorities.HashCodeConsistentWithEquals` | src/main/java/seedu/address/model/task/Priority.java:46-48 | equal priorities have equal hash codes, for every enum hash the runtime picks |
| `Priorities.ToStringInjective` | src/main/java/seedu/address/model/task/Priority.java:23-25 | `toString`, the enum name, is the same for two priorities iff they are equal |
| `Sorting.Compare` | src/main/java/seedu/address/model/task/SortByStatus.java:18-21 | `compare(task1, task2)` is 0: the stub ranks every pair as tied |
| `Sorting.CompareReadsNoField` | src/main/java/seedu/address/model/task/SortByStatus.java:18-21 | `compare` is 0 for every pair of tasks, whatever their fields |
| `Sorting.CompareIsReflexive` | src/main/java/seedu/address/model/task/SortByStatus.java:20 | a task compares as 0 with itself |
| `Sorting.CompareIsComparator` | src/main/java/seedu/address/model/task/SortByStatus.java:11-20 | `compare` meets the `Comparator` contract: antisymmetric in sign, transitive, and consistent for pairs that compare as 0 |
| `Sorting.CompareIsConsistent` | src/main/java/seedu/address/model/task/SortByStatus.java:11-20 | two tasks that compare as 0 compare alike against every third task |

## Left out

- `Filtering.FilterTaskCommand.constructor`: requires `isAnyFieldEdited()`. With both slots null the source calls `get()` on an empty `Optional` and throws; a Dafny constructor cannot fail, so that error path is modelled in `Filtering.Dispatch` instead.
- `TaskList.FilterTasks`: its contract fixes how often each task occurs in the view, and so its size, but not the order of the view; the body keeps the list's order.
- `COMMAND_WORD`, `MESSAGE_USAGE` and the `CliSyntax` prefixes: usage text with no behaviour.
- The result message of `execute`: the `String.format` of `MESSAGE_TASK_LISTED_OVERVIEW` is not modelled; `Execute` returns the count it reports.
- `Model` is not part of this model beyond a class holding the task list, the current filter and a log of filter updates. Its initial "show all" state is `None`. JavaFX observable lists are left out.
- The three predicate classes are not part of this model beyond a tagged datatype carrying their constructor arguments. How a predicate tests a task is a parameter of the model (`Model.test`), so nothing depends on the matching rules.
- `Task`, `TaskName`, `Description`, `Email`, `TaskDeadline`, `PriorityEnum`, `TaskCategoryType` and `EditTaskDescriptor` are not part of this model beyond plain values and slot records. The deadline is a day number. The enum constants are assumed, since neither enum is part of this model: LOW, MEDIUM, HIGH for `PriorityEnum`, and DATABASE, FRONTEND, BACKEND, UIUX, PRESENTATION, OTHERS for `TaskCategoryType` (the latter after the category words in the command's usage text). Date parsing and the validation in the `TaskName` and `Description` constructors are left out.
- `Editing.EditTaskDescriptorBuilder.WithName`: does not model the `TaskName` constructor rejecting a malformed name, because that validation is not part of this model.
- `Editing.EditTaskDescriptorBuilder.WithDescription`: does not model the `Description` constructor rejecting a malformed description, for the same reason.
- `Enum.hashCode` itself is left out: it depends on object identity at run time and appears only as the `enumHash` parameter.
- Null arguments: Dafny references are non-null, so no operation here can be handed a null object. In the source, `requireNonNull` rejects a null descriptor or model (FilterTaskCommand.java:47, 83), and a null argument also throws `NullPointerException` in the descriptor copy constructor (FilterTaskCommand.java:134-135) and in both builder constructors that take an argument (EditTaskDescriptorBuilder.java:24, 32). None of these failures is modelled. Nullable slot values (null categories, dates, priorities and so on) are modelled, as `None`.
- `Categories.TaskCategory`: the type is never null in the model. The Java constructor stores `taskCategoryType` without a null check, and a category with a null type then throws `NullPointerException` from `hashCode`, from `toString`, and from `equals` when it is handed a category of the same level whose type is null. The model leaves this out because categories reach the core from the command parser, which always supplies a type.
- `TaskDeadline.equals` is taken to be equality of dates, as used by `FilterTaskDescriptor.equals`.

## Notes

- `TaskCategory.hashCode` uses only the type, not the level. This is consistent with `equals` in Java's sense: equal categories always hash alike (`Categories.HashCodeConsistentWithEquals`). Unequal categories of one type merely collide (`Categories.HashCodeIgnoresLevel`). So the model keeps the behaviour as written.
- `SortByStatus.compare` always returns 0. The status comparison its documentation describes is commented out. The stub still meets the `Comparator` contract, because it orders nothing.
