/**
 * The calorie reconciliation both map screens run when HealthKit delivers a
 * statistics collection: the current figure is raised to every positive
 * cumulative sum in the collection and never lowered.
 */
module EnergyFeed {
  import opened Wrappers

  /**
   * One statistics bucket of an HKStatisticsCollection: its cumulative sum in
   * kcal, or None when `sumQuantity()` is nil.
   */
  type Statistics = Option<real>

  function Max(a: real, b: real): real
  {
    if a >= b then a else b
  }

  /** Reference definition: `current` raised to every positive sum, left to right. */
  function Reconciled(current: real, buckets: seq<Statistics>): real
    decreases |buckets|
  {
    if buckets == [] then current
    else
      var last := buckets[|buckets| - 1];
      var before := Reconciled(current, buckets[..|buckets| - 1]);
      if last.Some? && last.value > 0.0 then Max(before, last.value) else before
  }

  /** The reconciled figure is the least upper bound of `current` and the positive sums. */
  lemma {:induction false} ReconciledIsLeastUpperBound(current: real, buckets: seq<Statistics>)
    ensures Reconciled(current, buckets) >= current
    ensures forall i :: 0 <= i < |buckets| && buckets[i].Some? && buckets[i].value > 0.0 ==>
      Reconciled(current, buckets) >= buckets[i].value
    ensures Reconciled(current, buckets) == current ||
      exists i :: 0 <= i < |buckets| && buckets[i].Some? && buckets[i].value > 0.0 &&
        Reconciled(current, buckets) == buckets[i].value
    decreases |buckets|
  {
    if buckets != [] {
      var n := |buckets| - 1;
      var front := buckets[..n];
      ReconciledIsLeastUpperBound(current, front);
      assert forall i :: 0 <= i < n ==> front[i] == buckets[i];
      var r := Reconciled(current, buckets);
      if r != current && !(buckets[n].Some? && buckets[n].value > 0.0 && r == buckets[n].value) {
        var j :| 0 <= j < |front| && front[j].Some? && front[j].value > 0.0 &&
          Reconciled(current, front) == front[j].value;
        assert buckets[j] == front[j];
      }
    }
  }

  /** Non-positive and missing sums are ignored. */
  lemma IgnoresNonPositive(current: real, buckets: seq<Statistics>, bucket: Statistics)
    requires bucket.None? || bucket.value <= 0.0
    ensures Reconciled(current, buckets + [bucket]) == Reconciled(current, buckets)
  {
    assert (buckets + [bucket])[..|buckets|] == buckets;
  }

  /**
   * The `enumerateStatistics` loop: `totalCalories` starts at the current
   * figure and is raised with `max` by every positive sum.
   */
  method FoldStatistics(current: real, buckets: seq<Statistics>) returns (totalCalories: real)
    ensures totalCalories == Reconciled(current, buckets)
    ensures totalCalories >= current
    ensures forall i :: 0 <= i < |buckets| && buckets[i].Some? && buckets[i].value > 0.0 ==>
      totalCalories >= buckets[i].value
  {
    totalCalories := current;
    var i := 0;
    while i < |buckets|
      invariant 0 <= i <= |buckets|
      invariant totalCalories == Reconciled(current, buckets[..i])
    {
      var statistics := buckets[i];
      if statistics.Some? {
        var newCalories := statistics.value;
        if newCalories > 0.0 {
          totalCalories := Max(totalCalories, newCalories);
        }
      }
      assert buckets[..i + 1][..i] == buckets[..i];
      i := i + 1;
    }
    assert buckets[..i] == buckets;
    ReconciledIsLeastUpperBound(current, buckets);
  }
}
