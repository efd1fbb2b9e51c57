/** The safety check of the banker's algorithm as a pure state machine.
    `Step` is the body of the inner `for` loop of banker-algorithm.py (one
    process looked at), `PassTo` the `for` loop itself (one pass over the
    processes in ascending index order), and `Run` the outer `while` loop with
    its `break` when a pass finishes nobody.  `Check` is the whole call. */
module SafetySpec {
  import opened Vectors

  /** The working state of one call: the `terminado` flags, the working pool
      `disponible` and the completion order `orden`. */
  datatype Progress = Progress(finished: seq<bool>, pool: Vector, order: seq<nat>)

  /** `need` and `alloc` have one row per process of `st` and one column per
      resource kind of its pool. */
  predicate Shaped(need: Matrix, alloc: Matrix, st: Progress)
  {
    IsMatrix(need, |st.finished|, |st.pool|) && IsMatrix(alloc, |st.finished|, |st.pool|)
  }

  /** Number of processes not yet finished. */
  function Unfinished(f: seq<bool>): (c: nat)
    ensures c <= |f|
  {
    if f == [] then 0 else Unfinished(f[..|f| - 1]) + (if f[|f| - 1] then 0 else 1)
  }

  /** Every finished process has been appended to the order exactly once. */
  predicate Counted(st: Progress)
  {
    |st.order| + Unfinished(st.finished) == |st.finished|
  }

  lemma {:induction false} UnfinishedAllFalse(n: nat)
    ensures Unfinished(seq(n, _ => false)) == n
  {
    if n > 0 {
      assert seq(n, _ => false)[..n - 1] == seq(n - 1, _ => false);
      UnfinishedAllFalse(n - 1);
    }
  }

  /** Marking an unfinished process finished lowers the count by one. */
  lemma {:induction false} UnfinishedMark(f: seq<bool>, i: nat)
    requires i < |f| && !f[i]
    ensures Unfinished(f[i := true]) == Unfinished(f) - 1
  {
    var g := f[i := true];
    if i == |f| - 1 {
      assert g[..|g| - 1] == f[..|f| - 1];
    } else {
      assert g[..|g| - 1] == f[..|f| - 1][i := true];
      UnfinishedMark(f[..|f| - 1], i);
    }
  }

  /** No process is left exactly when the count is zero. */
  lemma {:induction false} UnfinishedZero(f: seq<bool>)
    ensures Unfinished(f) == 0 <==> forall i :: 0 <= i < |f| ==> f[i]
  {
    if f != [] {
      var p := f[..|f| - 1];
      UnfinishedZero(p);
      assert forall i :: 0 <= i < |p| ==> p[i] == f[i];
    }
  }

  /** The state before the first pass: nobody finished, the pool as given. */
  function Start(n: nat, available: Vector): (st: Progress)
    ensures |st.finished| == n && st.pool == available && st.order == []
    ensures forall i :: 0 <= i < n ==> !st.finished[i]
    ensures Counted(st)
  {
    UnfinishedAllFalse(n);
    Progress(seq(n, _ => false), available, [])
  }

  /** Process `i` is looked at: when it is unfinished and its need fits in the
      current pool it is marked finished, appended to the order, and its
      allocation goes back into the pool at once. */
  function Step(need: Matrix, alloc: Matrix, st: Progress, i: nat): (r: Progress)
    requires Shaped(need, alloc, st) && i < |st.finished|
    ensures |r.finished| == |st.finished| && |r.pool| == |st.pool|
    ensures |st.order| <= |r.order| <= |st.order| + 1
    ensures Counted(st) ==> Counted(r)
  {
    if !st.finished[i] && Covers(st.pool, need[i]) then
      UnfinishedMark(st.finished, i);
      Progress(st.finished[i := true], Add(st.pool, alloc[i]), st.order + [i])
    else
      st
  }

  /** The first `j` iterations of one pass: processes `0 .. j-1` in turn. */
  function PassTo(need: Matrix, alloc: Matrix, st: Progress, j: nat): (r: Progress)
    requires Shaped(need, alloc, st) && j <= |st.finished|
    ensures |r.finished| == |st.finished| && |r.pool| == |st.pool|
    ensures |st.order| <= |r.order| <= |st.order| + j
    ensures Counted(st) ==> Counted(r)
  {
    if j == 0 then st else Step(need, alloc, PassTo(need, alloc, st, j - 1), j - 1)
  }

  /** One full pass over all processes. */
  function Pass(need: Matrix, alloc: Matrix, st: Progress): (r: Progress)
    requires Shaped(need, alloc, st)
    ensures |r.finished| == |st.finished| && |r.pool| == |st.pool|
    ensures |st.order| <= |r.order| <= |st.order| + |st.finished|
    ensures Counted(st) ==> Counted(r)
  {
    PassTo(need, alloc, st, |st.finished|)
  }

  /** The outer loop: passes are repeated while some process is unfinished,
      and the loop stops after a pass that finished nobody. */
  function Run(need: Matrix, alloc: Matrix, st: Progress): (r: Progress)
    requires Shaped(need, alloc, st) && Counted(st)
    ensures |r.finished| == |st.finished| && |r.pool| == |st.pool|
    ensures |st.order| <= |r.order| && Counted(r)
    decreases Unfinished(st.finished)
  {
    if |st.order| < |st.finished| then
      var next := Pass(need, alloc, st);
      if |next.order| == |st.order| then next else Run(need, alloc, next)
    else
      st
  }

  /** The need matrix `maximum - allocation`. */
  function NeedMatrix(maximum: Matrix, allocation: Matrix): (need: Matrix)
    requires |maximum| == |allocation|
    requires forall i :: 0 <= i < |maximum| ==> |maximum[i]| == |allocation[i]|
    ensures |need| == |maximum|
    ensures forall i :: 0 <= i < |maximum| ==> need[i] == Sub(maximum[i], allocation[i])
  {
    seq(|maximum|, i requires 0 <= i < |maximum| => Sub(maximum[i], allocation[i]))
  }

  /** No process needs a negative amount exactly when no allocation exceeds
      the maximum. */
  lemma NeedNonNegativeIff(maximum: Matrix, allocation: Matrix)
    requires |maximum| == |allocation|
    requires forall i :: 0 <= i < |maximum| ==> |maximum[i]| == |allocation[i]|
    ensures (forall i, k :: 0 <= i < |maximum| && 0 <= k < |maximum[i]| ==> NeedMatrix(maximum, allocation)[i][k] >= 0)
      <==> (forall i, k :: 0 <= i < |maximum| && 0 <= k < |maximum[i]| ==> allocation[i][k] <= maximum[i][k])
  {
    var need := NeedMatrix(maximum, allocation);
    assert forall i, k :: 0 <= i < |maximum| && 0 <= k < |maximum[i]| ==>
      need[i][k] == maximum[i][k] - allocation[i][k];
  }

  /** Well-formed input: `n` processes and `m` resource kinds throughout. */
  predicate Input(maximum: Matrix, allocation: Matrix, available: Vector)
  {
    IsMatrix(maximum, |maximum|, |available|) && IsMatrix(allocation, |maximum|, |available|)
  }

  /** The whole safety check: the final state of the loops. */
  function Check(maximum: Matrix, allocation: Matrix, available: Vector): (r: Progress)
    requires Input(maximum, allocation, available)
    ensures |r.finished| == |maximum| && |r.pool| == |available| && Counted(r)
  {
    Run(NeedMatrix(maximum, allocation), allocation, Start(|maximum|, available))
  }

  /** The verdict of the safety check. */
  predicate Safe(maximum: Matrix, allocation: Matrix, available: Vector)
    requires Input(maximum, allocation, available)
    ensures Safe(maximum, allocation, available) <==> Unfinished(Check(maximum, allocation, available).finished) == 0
  {
    |Check(maximum, allocation, available).order| == |maximum|
  }
}
