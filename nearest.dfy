/** The nearest-value search the Python agents use to snap a computed strike
    to one that exists: Python's `min(xs, key=lambda x: abs(x - target))`
    and pandas' `idxmin` of the absolute differences both return the first
    element at the least distance. */
module Nearest {
  import opened RealMath

  function Dist(x: real, target: real): real
  {
    Abs(x - target)
  }

  /** The index `min` settles on: it scans from the left and only replaces
      its candidate by a strictly closer element. */
  function ClosestIndex(xs: seq<real>, target: real): (i: nat)
    requires xs != []
    ensures i < |xs|
    ensures forall j :: 0 <= j < |xs| ==> Dist(xs[i], target) <= Dist(xs[j], target)
    ensures forall j :: 0 <= j < i ==> Dist(xs[j], target) > Dist(xs[i], target)
  {
    if |xs| == 1 then 0
    else
      var i := ClosestIndex(xs[..|xs| - 1], target);
      assert forall j :: 0 <= j < |xs| - 1 ==> xs[..|xs| - 1][j] == xs[j];
      if Dist(xs[|xs| - 1], target) < Dist(xs[i], target) then |xs| - 1 else i
  }

  /** The element at `ClosestIndex`. */
  function Closest(xs: seq<real>, target: real): (r: real)
    requires xs != []
    ensures r in xs
    ensures forall x :: x in xs ==> Dist(r, target) <= Dist(x, target)
  {
    xs[ClosestIndex(xs, target)]
  }

  /** The first minimiser is unique: any index at the least distance with
      only strictly farther elements before it is `ClosestIndex`. */
  lemma ClosestIndexUnique(xs: seq<real>, target: real, k: nat)
    requires k < |xs|
    requires forall j :: 0 <= j < |xs| ==> Dist(xs[k], target) <= Dist(xs[j], target)
    requires forall j :: 0 <= j < k ==> Dist(xs[j], target) > Dist(xs[k], target)
    ensures ClosestIndex(xs, target) == k
  {
    var i := ClosestIndex(xs, target);
    assert Dist(xs[i], target) == Dist(xs[k], target);
  }

  /** When the target itself is available it is the one chosen. */
  lemma ExactHit(xs: seq<real>, target: real)
    requires target in xs
    ensures Closest(xs, target) == target
  {
    var k :| 0 <= k < |xs| && xs[k] == target;
    assert Dist(xs[k], target) == 0.0;
  }
}
