/**
 * `EditTaskDescriptor`, the sparse patch of a task's seven fields, and the fluent
 * `EditTaskDescriptorBuilder` that fills one in.
 */
module Editing {
  import opened Wrappers
  import opened Tasks
  import Categories
  import Priorities

  /** The seven slots of an edit descriptor at one moment; `None` is an unset (null) slot. */
  datatype EditFields = EditFields(
    name: Option<TaskName>,
    category: Option<Categories.TaskCategory>,
    description: Option<Description>,
    priority: Option<Priorities.Priority>,
    deadline: Option<TaskDeadline>,
    personEmailAddress: Option<Email>,
    isDone: Option<bool>)

  const NoFields := EditFields(None, None, None, None, None, None, None)

  /** The slots a descriptor holds once every field of `task` has been copied into it. */
  function FieldsOf(task: Task): EditFields {
    EditFields(Some(task.name), Some(task.category), Some(task.description), Some(task.priority),
               Some(task.deadline), task.personEmailAddress, Some(task.isDone))
  }

  /** A descriptor filled from a task records the whole task: distinct tasks give distinct descriptors. */
  lemma FieldsOfInjective(a: Task, b: Task)
    ensures FieldsOf(a) == FieldsOf(b) <==> a == b
  {
  }

  /** Every slot but the e-mail is set; the e-mail is set exactly when the task has one. */
  lemma FieldsOfSetsSlots(task: Task)
    ensures FieldsOf(task).name.Some? && FieldsOf(task).category.Some? && FieldsOf(task).description.Some?
    ensures FieldsOf(task).priority.Some? && FieldsOf(task).deadline.Some? && FieldsOf(task).isDone.Some?
    ensures FieldsOf(task).personEmailAddress.Some? <==> task.personEmailAddress.Some?
    ensures FieldsOf(task) != NoFields
  {
  }

  /** The mutable descriptor; each setter assigns its own slot and no other. */
  class EditTaskDescriptor {
    var name: Option<TaskName>
    var category: Option<Categories.TaskCategory>
    var description: Option<Description>
    var priority: Option<Priorities.Priority>
    var deadline: Option<TaskDeadline>
    var personEmailAddress: Option<Email>
    var isDone: Option<bool>

    function Fields(): EditFields
      reads this
    {
      EditFields(name, category, description, priority, deadline, personEmailAddress, isDone)
    }

    constructor ()
      ensures Fields() == NoFields
    {
      name, category, description, priority := None, None, None, None;
      deadline, personEmailAddress, isDone := None, None, None;
    }

    /** The copy constructor: field by field. */
    constructor Copy(toCopy: EditTaskDescriptor)
      ensures Fields() == toCopy.Fields()
    {
      name, category, description := toCopy.name, toCopy.category, toCopy.description;
      priority, deadline := toCopy.priority, toCopy.deadline;
      personEmailAddress, isDone := toCopy.personEmailAddress, toCopy.isDone;
    }

    method SetName(name: Option<TaskName>)
      modifies this
      ensures Fields() == old(Fields()).(name := name)
    {
      this.name := name;
    }

    method SetCategory(category: Option<Categories.TaskCategory>)
      modifies this
      ensures Fields() == old(Fields()).(category := category)
    {
      this.category := category;
    }

    method SetDescription(description: Option<Description>)
      modifies this
      ensures Fields() == old(Fields()).(description := description)
    {
      this.description := description;
    }

    method SetPriority(priority: Option<Priorities.Priority>)
      modifies this
      ensures Fields() == old(Fields()).(priority := priority)
    {
      this.priority := priority;
    }

    method SetDeadline(deadline: Option<TaskDeadline>)
      modifies this
      ensures Fields() == old(Fields()).(deadline := deadline)
    {
      this.deadline := deadline;
    }

    method SetPersonEmailAddress(personEmailAddress: Option<Email>)
      modifies this
      ensures Fields() == old(Fields()).(personEmailAddress := personEmailAddress)
    {
      this.personEmailAddress := personEmailAddress;
    }

    method SetDone(isDone: Option<bool>)
      modifies this
      ensures Fields() == old(Fields()).(isDone := isDone)
    {
      this.isDone := isDone;
    }
  }

  /**
   * The builder keeps one descriptor for its whole life (the field is final); every
   * `with*` call writes one slot of it and returns the builder itself.
   */
  class EditTaskDescriptorBuilder {
    const descriptor: EditTaskDescriptor

    constructor ()
      ensures fresh(descriptor) && descriptor.Fields() == NoFields
    {
      descriptor := new EditTaskDescriptor();
    }

    /** A builder over a fresh copy of `toCopy`, so later `with*` calls leave `toCopy` alone. */
    constructor FromDescriptor(toCopy: EditTaskDescriptor)
      ensures fresh(descriptor) && descriptor.Fields() == toCopy.Fields()
    {
      descriptor := new EditTaskDescriptor.Copy(toCopy);
    }

    /** A builder whose descriptor holds every field of `task`. */
    constructor FromTask(task: Task)
      ensures fresh(descriptor) && descriptor.Fields() == FieldsOf(task)
    {
      var d := new EditTaskDescriptor();
      d.SetName(Some(task.name));
      d.SetCategory(Some(task.category));
      d.SetDescription(Some(task.description));
      d.SetPriority(Some(task.priority));
      d.SetDeadline(Some(task.deadline));
      d.SetPersonEmailAddress(task.personEmailAddress);
      d.SetDone(Some(task.isDone));
      descriptor := d;
    }

    method WithName(name: string) returns (r: EditTaskDescriptorBuilder)
      modifies descriptor
      ensures r == this
      ensures descriptor.Fields() == old(descriptor.Fields()).(name := Some(TaskName(name)))
    {
      descriptor.SetName(Some(TaskName(name)));
      r := this;
    }

    method WithCategory(category: Option<Categories.TaskCategory>) returns (r: EditTaskDescriptorBuilder)
      modifies descriptor
      ensures r == this
      ensures descriptor.Fields() == old(descriptor.Fields()).(category := category)
    {
      descriptor.SetCategory(category);
      r := this;
    }

    method WithDescription(description: string) returns (r: EditTaskDescriptorBuilder)
      modifies descriptor
      ensures r == this
      ensures descriptor.Fields() == old(descriptor.Fields()).(description := Some(Description(description)))
    {
      descriptor.SetDescription(Some(Description(description)));
      r := this;
    }

    method WithPriority(priority: Option<Priorities.Priority>) returns (r: EditTaskDescriptorBuilder)
      modifies descriptor
      ensures r == this
      ensures descriptor.Fields() == old(descriptor.Fields()).(priority := priority)
    {
      descriptor.SetPriority(priority);
      r := this;
    }

    method WithDeadline(deadline: Option<TaskDeadline>) returns (r: EditTaskDescriptorBuilder)
      modifies descriptor
      ensures r == this
      ensures descriptor.Fields() == old(descriptor.Fields()).(deadline := deadline)
    {
      descriptor.SetDeadline(deadline);
      r := this;
    }

    method WithEmail(email: Option<Email>) returns (r: EditTaskDescriptorBuilder)
      modifies descriptor
      ensures r == this
      ensures descriptor.Fields() == old(descriptor.Fields()).(personEmailAddress := email)
    {
      descriptor.SetPersonEmailAddress(email);
      r := this;
    }

    method WithIsDone(isDone: Option<bool>) returns (r: EditTaskDescriptorBuilder)
      modifies descriptor
      ensures r == this
      ensures descriptor.Fields() == old(descriptor.Fields()).(isDone := isDone)
    {
      descriptor.SetDone(isDone);
      r := this;
    }

    /** `build()`: the builder's own descriptor, not a copy. */
    method Build() returns (d: EditTaskDescriptor)
      ensures d == descriptor
    {
      d := descriptor;
    }
  }

  /** A client: copying into a builder protects the original from later `with*` calls. */
  method CopyIsIndependent(original: EditTaskDescriptor, name: string) returns (b: EditTaskDescriptorBuilder)
    ensures fresh(b.descriptor)
    ensures b.descriptor.Fields() == original.Fields().(name := Some(TaskName(name)))
    ensures original.Fields() == old(original.Fields())
  {
    b := new EditTaskDescriptorBuilder.FromDescriptor(original);
    b := b.WithName(name);
  }

  /** A client: of two writes to one slot the later wins, and slots written in between are kept. */
  method LastWriteWins(first: Option<Priorities.Priority>, second: Option<Priorities.Priority>, done: Option<bool>)
      returns (d: EditTaskDescriptor)
    ensures d.Fields() == NoFields.(priority := second, isDone := done)
  {
    var b := new EditTaskDescriptorBuilder();
    b := b.WithPriority(first);
    b := b.WithIsDone(done);
    b := b.WithPriority(second);
    d := b.Build();
  }

  /** A client: `with*` calls made after `build()` show through the descriptor it returned. */
  method BuildSharesDescriptor(task: Task, description: string) returns (d: EditTaskDescriptor)
    ensures d.Fields() == FieldsOf(task).(description := Some(Description(description)))
  {
    var b := new EditTaskDescriptorBuilder.FromTask(task);
    d := b.Build();
    var same := b.WithDescription(description);
    assert same.descriptor == d;
  }
}
