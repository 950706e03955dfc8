/** `TaskCategory`: an immutable pair of a caller-defined level and a category type. */
module Categories {
  import opened JavaLang

  /** The closed set of domains a task can belong to. */
  datatype TaskCategoryType = DATABASE | FRONTEND | BACKEND | UIUX | PRESENTATION | OTHERS {

    /** `Enum.name()`: the constant's identifier. */
    function Name(): string {
      match this
      case DATABASE => "DATABASE"
      case FRONTEND => "FRONTEND"
      case BACKEND => "BACKEND"
      case UIUX => "UIUX"
      case PRESENTATION => "PRESENTATION"
      case OTHERS => "OTHERS"
    }
  }

  /** Every enum name is a non-empty run of capital letters. */
  lemma NameIsLetters(t: TaskCategoryType)
    ensures |t.Name()| >= 1
    ensures forall k :: 0 <= k < |t.Name()| ==> 'A' <= t.Name()[k] <= 'Z'
  {
  }

  lemma NameInjective(a: TaskCategoryType, b: TaskCategoryType)
    ensures a.Name() == b.Name() <==> a == b
  {
  }

  /**
   * The constructor stores both arguments; there are no setters, so `level` and
   * `taskCategoryType` are also what the getters return.
   */
  datatype TaskCategory = TaskCategory(level: Int32, taskCategoryType: TaskCategoryType) {

    /** `getLevel()`: together with the type, the level rebuilds this very category. */
    function GetLevel(): (r: Int32)
      ensures TaskCategory(r, taskCategoryType) == this
    {
      level
    }

    /** `getTaskCategoryType()`: together with the level, the type rebuilds this very category. */
    function GetTaskCategoryType(): (r: TaskCategoryType)
      ensures TaskCategory(level, r) == this
    {
      taskCategoryType
    }

    /**
     * `equals(Object)`: never equal to null or to another class; otherwise equal exactly
     * when level and type agree, which for this value type is equality of the values.
     */
    function Equals(other: Other<TaskCategory>): (r: bool)
      ensures r <==> other == SameClass(this)
    {
      other == SameClass(this)
        || (other.SameClass? && other.value.level == level
            && other.value.taskCategoryType == taskCategoryType)
    }

    /**
     * `hashCode()`: the hash of the type alone. Java's `Enum.hashCode` is identity-based
     * and differs from run to run, so the enum's hash is the parameter `enumHash`.
     */
    function HashCode(enumHash: TaskCategoryType -> Int32): (h: Int32)
      ensures forall c: TaskCategory :: Equals(SameClass(c)) ==> h == enumHash(c.taskCategoryType)
    {
      enumHash(taskCategoryType)
    }

    /**
     * `toString()`: `level + taskCategoryType.name()`, the decimal level then the type's name.
     * The text splits back into the two at the end of its leading numeral.
     */
    function ToString(): (s: string)
      ensures NumeralPrefixLength(s) < |s|
      ensures s[..NumeralPrefixLength(s)] == IntToString(level)
      ensures s[NumeralPrefixLength(s)..] == taskCategoryType.Name()
    {
      var digits := IntToString(level);
      NameIsLetters(taskCategoryType);
      NumeralPrefixOfConcat(digits, taskCategoryType.Name());
      assert (digits + taskCategoryType.Name())[..|digits|] == digits;
      assert (digits + taskCategoryType.Name())[|digits|..] == taskCategoryType.Name();
      digits + taskCategoryType.Name()
    }
  }

  /** The getters give back exactly what the constructor was passed. */
  lemma GettersReturnArguments(level: Int32, t: TaskCategoryType)
    ensures TaskCategory(level, t).GetLevel() == level
    ensures TaskCategory(level, t).GetTaskCategoryType() == t
  {
  }

  lemma EqualsIsReflexive(a: TaskCategory)
    ensures a.Equals(SameClass(a))
  {
  }

  lemma EqualsIsSymmetric(a: TaskCategory, b: TaskCategory)
    ensures a.Equals(SameClass(b)) <==> b.Equals(SameClass(a))
  {
  }

  lemma EqualsIsTransitive(a: TaskCategory, b: TaskCategory, c: TaskCategory)
    requires a.Equals(SameClass(b)) && b.Equals(SameClass(c))
    ensures a.Equals(SameClass(c))
  {
  }

  lemma NeverEqualsNullOrOtherClass(a: TaskCategory)
    ensures !a.Equals(NullRef) && !a.Equals(OtherClass)
  {
  }

  /** Equal categories hash alike, whatever hash the runtime gives the enum constants. */
  lemma HashCodeConsistentWithEquals(a: TaskCategory, b: TaskCategory, enumHash: TaskCategoryType -> Int32)
    requires a.Equals(SameClass(b))
    ensures a.HashCode(enumHash) == b.HashCode(enumHash)
  {
  }

  /** The hash ignores the level: same type, different level gives equal hashes of unequal values. */
  lemma HashCodeIgnoresLevel(a: TaskCategory, b: TaskCategory, enumHash: TaskCategoryType -> Int32)
    requires a.taskCategoryType == b.taskCategoryType && a.level != b.level
    ensures a.HashCode(enumHash) == b.HashCode(enumHash)
    ensures !a.Equals(SameClass(b))
  {
  }

  /** `toString` starts with the decimal level, which can be read back, and ends with the type's name. */
  lemma ToStringParts(a: TaskCategory)
    ensures |IntToString(a.level)| < |a.ToString()|
    ensures ParseInt(a.ToString()[..|IntToString(a.level)|]) == a.level
    ensures a.ToString()[|IntToString(a.level)|..] == a.taskCategoryType.Name()
  {
    var digits := IntToString(a.level);
    assert a.ToString()[..|digits|] == digits;
    assert a.ToString()[|digits|..] == a.taskCategoryType.Name();
    IntToStringRoundTrip(a.level);
  }

  /** Two categories print alike exactly when they are equal. */
  lemma {:induction false} ToStringInjective(a: TaskCategory, b: TaskCategory)
    ensures a.ToString() == b.ToString() <==> a.Equals(SameClass(b))
  {
    if a.ToString() == b.ToString() {
      var da, db := IntToString(a.level), IntToString(b.level);
      NameIsLetters(a.taskCategoryType);
      NameIsLetters(b.taskCategoryType);
      NumeralPrefixOfConcat(da, a.taskCategoryType.Name());
      NumeralPrefixOfConcat(db, b.taskCategoryType.Name());
      assert |da| == |db|;
      assert da == a.ToString()[..|da|];
      assert db == b.ToString()[..|db|];
      IntToStringInjective(a.level, b.level);
      assert a.taskCategoryType.Name() == a.ToString()[|da|..];
      assert b.taskCategoryType.Name() == b.ToString()[|db|..];
      NameInjective(a.taskCategoryType, b.taskCategoryType);
    }
  }
}
