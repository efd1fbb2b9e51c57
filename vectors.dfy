/** Resource vectors and process-by-resource matrices: the elementwise
    subtraction, addition and comparison the safety check performs on them. */
module Vectors {

  /** One amount per resource kind. */
  type Vector = seq<int>

  /** One row per process, one column per resource kind. */
  type Matrix = seq<seq<int>>

  /** `a` has `n` rows of `m` entries each. */
  predicate IsMatrix(a: Matrix, n: nat, m: nat)
  {
    |a| == n && forall i :: 0 <= i < n ==> |a[i]| == m
  }

  /** Every entry of the first `n` rows of `a` is non-negative. */
  predicate NonNegative(a: Matrix, n: nat, m: nat)
    requires IsMatrix(a, n, m)
  {
    forall i, k :: 0 <= i < n && 0 <= k < m ==> a[i][k] >= 0
  }

  /** Elementwise sum, as numpy's `+` on vectors of one length. */
  function Add(a: Vector, b: Vector): (r: Vector)
    requires |a| == |b|
    ensures |r| == |a|
    ensures forall k :: 0 <= k < |a| ==> r[k] == a[k] + b[k]
  {
    seq(|a|, k requires 0 <= k < |a| => a[k] + b[k])
  }

  /** Elementwise difference, as numpy's `-` on vectors of one length. */
  function Sub(a: Vector, b: Vector): (r: Vector)
    requires |a| == |b|
    ensures |r| == |a|
    ensures forall k :: 0 <= k < |a| ==> r[k] == a[k] - b[k]
  {
    seq(|a|, k requires 0 <= k < |a| => a[k] - b[k])
  }

  /** The whole-vector test `all(pool >= need)`: every kind is available in
      at least the amount needed (true for zero resource kinds). */
  predicate Covers(pool: Vector, need: Vector)
    requires |pool| == |need|
    ensures |pool| == 0 ==> Covers(pool, need)
  {
    forall k :: 0 <= k < |pool| ==> need[k] <= pool[k]
  }
}
