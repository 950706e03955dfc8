/** `Priority`: an immutable wrapper around a priority enum constant. */
module Priorities {
  import opened Wrappers
  import opened JavaLang

  datatype PriorityEnum = LOW | MEDIUM | HIGH {

    /** `Enum.name()`: the constant's identifier. */
    function Name(): string {
      match this
      case LOW => "LOW"
      case MEDIUM => "MEDIUM"
      case HIGH => "HIGH"
    }
  }

  /** The value of a constructed `Priority`; its single field is final. */
  datatype Priority = Priority(priority: PriorityEnum) {

    /** `getPriority()`: the constant that rebuilds this very priority. */
    function GetPriority(): (r: PriorityEnum)
      ensures Priority(r) == this
    {
      priority
    }

    /** `toString()`: the enum constant's name, which names no other constant. */
    function ToString(): (s: string)
      ensures forall q: PriorityEnum :: q.Name() == s <==> q == priority
    {
      priority.Name()
    }

    /** `equals(Object)`: only another `Priority` wrapping the same constant is equal. */
    function Equals(other: Other<Priority>): (r: bool)
      ensures r <==> other == SameClass(this)
    {
      other == SameClass(this) || (other.SameClass? && priority == other.value.priority)
    }

    /** `hashCode()`: the enum's own hash, which Java leaves to the runtime; hence the parameter. */
    function HashCode(enumHash: PriorityEnum -> Int32): (h: Int32)
      ensures forall q: Priority :: Equals(SameClass(q)) ==> h == enumHash(q.priority)
    {
      enumHash(priority)
    }
  }

  /**
   * `new Priority(p)`: `requireNonNull` rejects a null constant, the only way construction
   * can fail; otherwise the constant is stored unchanged.
   */
  function NewPriority(p: Option<PriorityEnum>): (r: Result<Priority, Exception>)
    ensures r.Failure? <==> p.None?
    ensures r.Failure? ==> r.error == NullPointerException
    ensures r.Success? ==> r.value.GetPriority() == p.value
  {
    match p
    case None => Failure(NullPointerException)
    case Some(e) => Success(Priority(e))
  }

  lemma EqualsIsReflexive(a: Priority)
    ensures a.Equals(SameClass(a))
  {
  }

  lemma EqualsIsSymmetric(a: Priority, b: Priority)
    ensures a.Equals(SameClass(b)) <==> b.Equals(SameClass(a))
  {
  }

  lemma NeverEqualsNullOrOtherClass(a: Priority)
    ensures !a.Equals(NullRef) && !a.Equals(OtherClass)
  {
  }

  /** Equal priorities hash alike, whatever hash the runtime gives the enum constants. */
  lemma HashCodeConsistentWithEquals(a: Priority, b: Priority, enumHash: PriorityEnum -> Int32)
    requires a.Equals(SameClass(b))
    ensures a.HashCode(enumHash) == b.HashCode(enumHash)
  {
  }

  /** Two priorities print alike exactly when they are equal. */
  lemma ToStringInjective(a: Priority, b: Priority)
    ensures a.ToString() == b.ToString() <==> a.Equals(SameClass(b))
  {
  }
}
