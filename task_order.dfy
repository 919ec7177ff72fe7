/**
 * The order in which the pages show tasks: `[...tasks].sort((a, b) => b.daysBefore - a.daysBefore)`,
 * largest day count first, on a copy of the list.  `Array.prototype.sort` is stable, so tasks
 * with equal day counts keep their stored order.
 */
module TaskOrder {
  import opened Seqs

  /** The sort key that makes the ascending `SortBy` order descending in `daysBefore`. */
  function DescKey<T>(daysBefore: T -> int): T -> int
  {
    t => -daysBefore(t)
  }

  function SortedByDaysDesc<T>(daysBefore: T -> int, tasks: seq<T>): seq<T>
  {
    SortBy(DescKey(daysBefore), tasks)
  }

  /** `filter(t => t.daysBefore === d)`: the tasks due `d` days before, in order. */
  function SameDays<T>(daysBefore: T -> int, tasks: seq<T>, d: int): seq<T>
  {
    KeepByKey(DescKey(daysBefore), tasks, -d)
  }

  /**
   * The shown list holds the same tasks, with day counts non-increasing, and tasks with equal
   * day counts in their stored order.
   */
  lemma SortedByDaysDescSpec<T>(daysBefore: T -> int, tasks: seq<T>)
    ensures var r := SortedByDaysDesc(daysBefore, tasks);
      && |r| == |tasks| && multiset(r) == multiset(tasks)
      && (forall i, j :: 0 <= i < j < |r| ==> daysBefore(r[i]) >= daysBefore(r[j]))
      && (forall d :: SameDays(daysBefore, r, d) == SameDays(daysBefore, tasks, d))
  {
    var r := SortedByDaysDesc(daysBefore, tasks);
    SortBySortsAndPermutes(DescKey(daysBefore), tasks);
    forall i, j | 0 <= i < j < |r| ensures daysBefore(r[i]) >= daysBefore(r[j]) {
      assert DescKey(daysBefore)(r[i]) <= DescKey(daysBefore)(r[j]);
    }
    forall d ensures SameDays(daysBefore, r, d) == SameDays(daysBefore, tasks, d) {
      SortByStable(DescKey(daysBefore), tasks, -d);
    }
  }
}
