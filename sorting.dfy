/** `SortByStatus`: a `Comparator<Task>` whose comparison is still a stub. */
module Sorting {
  import opened Tasks

  /** `compare(task1, task2)`: the status comparison is commented out; every pair compares as 0. */
  function Compare(task1: Task, task2: Task): (r: int)
    ensures r == 0
  {
    0
  }

  function Sign(x: int): int {
    if x < 0 then -1 else if x > 0 then 1 else 0
  }

  /** The three requirements `java.util.Comparator` places on `compare`. */
  ghost predicate IsComparator(cmp: (Task, Task) -> int) {
    && (forall x, y :: Sign(cmp(x, y)) == -Sign(cmp(y, x)))
    && (forall x, y, z :: cmp(x, y) > 0 && cmp(y, z) > 0 ==> cmp(x, z) > 0)
    && (forall x, y, z :: cmp(x, y) == 0 ==> Sign(cmp(x, z)) == Sign(cmp(y, z)))
  }

  /** The stub reads no field of either task: it gives the same answer for every pair. */
  lemma CompareReadsNoField(a: Task, b: Task, c: Task, d: Task)
    ensures Compare(a, b) == Compare(c, d) == 0
  {
  }

  lemma CompareIsReflexive(t: Task)
    ensures Compare(t, t) == 0
  {
    CompareReadsNoField(t, t, t, t);
  }

  /** The stub meets the comparator contract its documentation promises. */
  lemma CompareIsComparator()
    ensures IsComparator(Compare)
  {
  }

  /** Tasks that compare as equal compare alike against every third task. */
  lemma CompareIsConsistent(a: Task, b: Task, c: Task)
    requires Compare(a, b) == 0
    ensures Compare(a, c) == Compare(b, c)
  {
    CompareReadsNoField(a, c, b, c);
  }
}
