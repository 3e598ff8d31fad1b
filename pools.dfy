/**
 * Queries over a pool of voices, given for each voice (in array order) whether it
 * answered that it is free: the first free one, and how many are free or busy.
 */
module Pools {
  import opened Wrappers

  /** The position of the first free voice: Swift's `first { $0.isAvailable() }`. */
  function FirstFree(free: seq<bool>): (r: Option<nat>)
    ensures r.Some? ==> r.value < |free| && free[r.value] && forall j :: 0 <= j < r.value ==> !free[j]
    ensures r.None? ==> forall j :: 0 <= j < |free| ==> !free[j]
  {
    if |free| == 0 then None
    else if free[0] then Some(0)
    else match FirstFree(free[1..])
      case None => None
      case Some(k) => Some(k + 1)
  }

  /** The number of free voices. */
  function CountFree(free: seq<bool>): nat
  {
    if |free| == 0 then 0
    else CountFree(free[1..]) + (if free[0] then 1 else 0)
  }

  /** No more voices are free than there are; none exactly when all are busy, all exactly when none is. */
  lemma {:induction false} CountFreeBounds(free: seq<bool>)
    ensures CountFree(free) <= |free|
    ensures CountFree(free) == 0 <==> forall j :: 0 <= j < |free| ==> !free[j]
    ensures CountFree(free) == |free| <==> forall j :: 0 <= j < |free| ==> free[j]
  {
    if |free| > 0 {
      CountFreeBounds(free[1..]);
      assert forall j :: 1 <= j < |free| ==> free[j] == free[1..][j - 1];
    }
  }

  /** The number of busy voices: Swift's `filter { !$0.isAvailable() }.count`. */
  function CountBusy(free: seq<bool>): (n: nat)
    ensures n <= |free|
    ensures n == 0 <==> forall j :: 0 <= j < |free| ==> free[j]
    ensures n == |free| <==> forall j :: 0 <= j < |free| ==> !free[j]
  {
    if |free| == 0 then 0
    else CountBusy(free[1..]) + (if free[0] then 0 else 1)
  }

  /** Every voice is free or busy. */
  lemma {:induction false} FreePlusBusy(free: seq<bool>)
    ensures CountFree(free) + CountBusy(free) == |free|
  {
    if |free| > 0 {
      FreePlusBusy(free[1..]);
    }
  }

  /** Some voice is free exactly when the count of free voices is positive. */
  lemma FirstFreeIffCount(free: seq<bool>)
    ensures FirstFree(free).Some? <==> CountFree(free) > 0
  {
    CountFreeBounds(free);
  }

  /** Multiplying by a natural number keeps the order. */
  lemma MulAtLeast(d: nat, a: int, b: int)
    requires a <= b
    ensures d * a <= d * b
  {
    assert d * b - d * a == d * (b - a);
  }
}
