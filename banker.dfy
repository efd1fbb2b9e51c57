/** The safety check of the banker's algorithm written imperatively: a
    `while` loop of passes around a `for` loop over the processes, with the
    `terminado` flags in an array and the caller's pool `disponible` updated
    in place.  Each method is proved equal to its counterpart in SafetySpec
    or Vectors. */
module BankerAlgorithm {
  import opened Vectors
  import opened Completion
  import opened SafetySpec
  import opened SafetyProperties
  import opened Labels

  /** The need matrix `maximum - allocation`, row by row. */
  method ComputeNeed(maximum: Matrix, allocation: Matrix) returns (need: Matrix)
    requires |maximum| == |allocation|
    requires forall i :: 0 <= i < |maximum| ==> |maximum[i]| == |allocation[i]|
    ensures need == NeedMatrix(maximum, allocation)
  {
    need := [];
    var i := 0;
    while i < |maximum|
      invariant 0 <= i <= |maximum|
      invariant need == NeedMatrix(maximum, allocation)[..i]
    {
      var row: Vector := [];
      var k := 0;
      while k < |maximum[i]|
        invariant 0 <= k <= |maximum[i]|
        invariant row == Sub(maximum[i], allocation[i])[..k]
      {
        row := row + [maximum[i][k] - allocation[i][k]];
        k := k + 1;
      }
      assert row == Sub(maximum[i], allocation[i]);
      assert NeedMatrix(maximum, allocation)[..i + 1] == NeedMatrix(maximum, allocation)[..i] + [row];
      need := need + [row];
      i := i + 1;
    }
  }

  /** The test `all(pool >= need)`, one resource kind after another. */
  method Fits(pool: array<int>, need: Vector) returns (ok: bool)
    requires pool.Length == |need|
    ensures ok == Covers(pool[..], need)
  {
    var k := 0;
    while k < pool.Length
      invariant 0 <= k <= pool.Length
      invariant forall c :: 0 <= c < k ==> need[c] <= pool[c]
    {
      if pool[k] < need[k] {
        return false;
      }
      k := k + 1;
    }
    return true;
  }

  /** `pool += row`: a finished process returns its allocation. */
  method Release(pool: array<int>, row: Vector)
    requires pool.Length == |row|
    modifies pool
    ensures pool[..] == Add(old(pool[..]), row)
  {
    for k := 0 to pool.Length
      invariant forall c :: 0 <= c < k ==> pool[c] == old(pool[c]) + row[c]
      invariant forall c :: k <= c < pool.Length ==> pool[c] == old(pool[c])
    {
      pool[k] := pool[k] + row[k];
    }
  }

  /** One pass over the processes in ascending index order: each unfinished
      process whose need fits the pool is marked finished, appended to the
      order with its label, and returns its allocation to the pool at once.
      `progressed` tells whether anyone finished. */
  method PassOver(need: Matrix, allocation: Matrix, finished: array<bool>, available: array<int>,
                  order0: seq<nat>, labels0: seq<string>)
    returns (order: seq<nat>, labels: seq<string>, progressed: bool)
    requires Shaped(need, allocation, Progress(finished[..], available[..], order0))
    requires |labels0| == |order0| && forall j :: 0 <= j < |order0| ==> labels0[j] == Label(order0[j])
    modifies finished, available
    ensures Progress(finished[..], available[..], order) == Pass(need, allocation, Progress(old(finished[..]), old(available[..]), order0))
    ensures progressed <==> |order| > |order0|
    ensures |labels| == |order| && forall j :: 0 <= j < |order| ==> labels[j] == Label(order[j])
  {
    ghost var before := Progress(finished[..], available[..], order0);
    order, labels, progressed := order0, labels0, false;
    for i := 0 to finished.Length
      invariant Progress(finished[..], available[..], order) == PassTo(need, allocation, before, i)
      invariant progressed <==> |order| > |order0|
      invariant |labels| == |order| && forall j :: 0 <= j < |order| ==> labels[j] == Label(order[j])
    {
      ghost var current := Progress(finished[..], available[..], order);
      assert PassTo(need, allocation, before, i + 1) == Step(need, allocation, current, i);
      if !finished[i] {
        var fits := Fits(available, need[i]);
        if fits {
          Release(available, allocation[i]);
          finished[i] := true;
          progressed := true;
          order := order + [i];
          labels := labels + [Label(i)];
          assert finished[..] == current.finished[i := true];
        }
      }
    }
  }

  /** The outer loop: passes are made while some process is unfinished, and
      the loop stops after a pass that finished nobody.  `rounds` counts the
      passes made, at most one per process. */
  method Passes(need: Matrix, allocation: Matrix, finished: array<bool>, available: array<int>)
    returns (order: seq<nat>, labels: seq<string>, ghost rounds: nat)
    requires Shaped(need, allocation, Progress(finished[..], available[..], []))
    requires forall i :: 0 <= i < finished.Length ==> !finished[i]
    modifies finished, available
    ensures Progress(finished[..], available[..], order)
      == Run(need, allocation, Start(finished.Length, old(available[..])))
    ensures |labels| == |order| && forall j :: 0 <= j < |order| ==> labels[j] == Label(order[j])
    ensures rounds <= finished.Length
  {
    order, labels, rounds := [], [], 0;
    ghost var start := Start(finished.Length, available[..]);
    assert Progress(finished[..], available[..], order) == start;
    while |order| < finished.Length
      invariant Counted(Progress(finished[..], available[..], order))
      invariant Run(need, allocation, Progress(finished[..], available[..], order)) == Run(need, allocation, start)
      invariant rounds <= |order|
      invariant |labels| == |order| && forall j :: 0 <= j < |order| ==> labels[j] == Label(order[j])
      decreases finished.Length - |order|
    {
      var progressed;
      order, labels, progressed := PassOver(need, allocation, finished, available, order, labels);
      rounds := rounds + 1;
      if !progressed {
        break;
      }
    }
  }

  /** The loops of the safety check on a fresh `terminado` array: the final
      order and pool are those of `Check`.  With non-negative allocations
      the pool left in `available` is nowhere below the initial one, and
      when some process is left over, none of those left fits it. */
  method SafetyCheck(maximum: Matrix, allocation: Matrix, available: array<int>)
    returns (order: seq<nat>, labels: seq<string>, ghost rounds: nat)
    requires Input(maximum, allocation, available[..])
    modifies available
    ensures order == Check(maximum, allocation, old(available[..])).order
    ensures available[..] == Check(maximum, allocation, old(available[..])).pool
    ensures |labels| == |order| && forall j :: 0 <= j < |order| ==> labels[j] == Label(order[j])
    ensures NonNegative(allocation, |maximum|, available.Length) ==>
      forall c :: 0 <= c < available.Length ==> old(available[c]) <= available[c]
    ensures |order| < |maximum| ==> forall i :: 0 <= i < |maximum| && i !in order ==>
      exists c :: 0 <= c < available.Length && available[c] < maximum[i][c] - allocation[i][c]
    ensures rounds <= |maximum|
  {
    ghost var initial := available[..];
    var need := ComputeNeed(maximum, allocation);
    var finished := new bool[|maximum|](_ => false);
    order, labels, rounds := Passes(need, allocation, finished, available);

    ghost var final := available[..];
    if NonNegative(allocation, |maximum|, available.Length) {
      assert forall c :: 0 <= c < available.Length ==> initial[c] <= final[c] by {
        FinalPool(maximum, allocation, initial);
        assert order[..|order|] == order;
      }
      forall c | 0 <= c < available.Length ensures old(available[c]) <= available[c] {
        assert old(available[c]) == initial[c] && available[c] == final[c];
      }
    }
    if |order| < |maximum| {
      assert forall i :: 0 <= i < |maximum| && i !in order ==>
        exists c :: 0 <= c < available.Length && final[c] < maximum[i][c] - allocation[i][c] by {
        UnsafeStall(maximum, allocation, initial);
      }
      forall i | 0 <= i < |maximum| && i !in order
        ensures exists c :: 0 <= c < available.Length && available[c] < maximum[i][c] - allocation[i][c]
      {
        var c :| 0 <= c < available.Length && final[c] < maximum[i][c] - allocation[i][c];
        assert available[c] == final[c];
      }
    }
  }

  /** The safety check.  `available` is the caller's pool and is left holding
      the final working pool.  Returns the verdict, the completion order and
      the matching labels "P<i>"; `rounds` counts the passes made. */
  method Banker(nProcesses: nat, nResources: nat, maximum: Matrix, allocation: Matrix, available: array<int>)
    returns (safe: bool, order: seq<nat>, labels: seq<string>, ghost rounds: nat)
    requires |maximum| == nProcesses && available.Length == nResources
    requires Input(maximum, allocation, available[..])
    modifies available
    ensures order == Check(maximum, allocation, old(available[..])).order
    ensures available[..] == Check(maximum, allocation, old(available[..])).pool
    ensures safe <==> |order| == nProcesses
    ensures safe == Safe(maximum, allocation, old(available[..]))
    ensures nProcesses == 0 ==> safe && order == []
    ensures |labels| == |order| && forall j :: 0 <= j < |order| ==> labels[j] == Label(order[j])
    ensures InRange(order, nProcesses) && Distinct(order) && |order| <= nProcesses
    ensures ValidOrder(NeedMatrix(maximum, allocation), allocation, old(available[..]), order)
    ensures available[..] == PoolAfter(allocation, old(available[..]), order)
    ensures NonNegative(allocation, nProcesses, nResources) ==>
      forall c :: 0 <= c < nResources ==> old(available[c]) <= available[c]
    ensures !safe ==> forall i :: 0 <= i < nProcesses && i !in order ==>
      exists c :: 0 <= c < nResources && available[c] < maximum[i][c] - allocation[i][c]
    ensures safe ==> IsCompletion(NeedMatrix(maximum, allocation), allocation, old(available[..]), order)
    ensures NonNegative(allocation, nProcesses, nResources) ==>
      (safe <==> exists s :: IsCompletion(NeedMatrix(maximum, allocation), allocation, old(available[..]), s))
    ensures rounds <= nProcesses
  {
    ghost var initial := available[..];
    order, labels, rounds := SafetyCheck(maximum, allocation, available);
    safe := |order| == nProcesses;
    ghost var need := NeedMatrix(maximum, allocation);

    ghost var final := available[..];
    ghost var r := Check(maximum, allocation, initial);
    assert order == r.order && final == r.pool;
    assert InRange(order, nProcesses) && Distinct(order) && |order| <= nProcesses
      && ValidOrder(need, allocation, initial, order) by {
      OrderIsValid(maximum, allocation, initial);
    }
    assert final == PoolAfter(allocation, initial, order) by {
      FinalPool(maximum, allocation, initial);
    }
    assert safe ==> IsCompletion(need, allocation, initial, order) by {
      SafeOrderIsCompletion(maximum, allocation, initial);
    }
    if NonNegative(allocation, nProcesses, nResources) {
      SafeIffCompletionExists(maximum, allocation, initial);
    }
  }
}
