/** What the safety check guarantees: the order it builds is a valid
    completion order without repetitions, the pool is the initial pool plus
    what the finished processes returned, an unsafe verdict means that no
    unfinished process fits the final pool, and the verdict is "safe" exactly when a safe sequence exists. */
module SafetyProperties {
  import opened Vectors
  import opened Completion
  import opened SafetySpec

  /** First half of the loop invariant: the order lists distinct processes,
      exactly the finished ones. */
  predicate Recorded(st: Progress)
  {
    InRange(st.order, |st.finished|) && Distinct(st.order)
    && (forall i :: 0 <= i < |st.finished| ==> (st.finished[i] <==> i in st.order))
  }

  /** Second half of the loop invariant, relative to the initial pool `pool0`:
      the pool is what the order leaves behind, and the order is valid. */
  predicate Replayed(need: Matrix, alloc: Matrix, pool0: Vector, st: Progress)
    requires Shaped(need, alloc, st) && |st.pool| == |pool0|
  {
    InRange(st.order, |st.finished|)
    && st.pool == PoolAfter(alloc, pool0, st.order)
    && ValidOrder(need, alloc, pool0, st.order)
  }

  /** `Step` keeps the first half; `r` names its result. */
  lemma {:induction false} StepRecorded(need: Matrix, alloc: Matrix, st: Progress, i: nat, r: Progress)
    requires Shaped(need, alloc, st) && i < |st.finished| && Recorded(st)
    requires r == Step(need, alloc, st, i)
    ensures Recorded(r)
  {
    if !st.finished[i] && Covers(st.pool, need[i]) {
      assert i !in st.order;
    }
  }

  /** Appending a process whose need fits the pool left by a valid order
      gives a valid order, and the pool it leaves is that pool plus the
      process's allocation. */
  lemma AppendReplayed(need: Matrix, alloc: Matrix, pool0: Vector, s: seq<nat>, i: nat)
    requires IsMatrix(need, |alloc|, |pool0|) && IsMatrix(alloc, |alloc|, |pool0|)
    requires InRange(s, |alloc|) && i < |alloc|
    requires ValidOrder(need, alloc, pool0, s)
    requires Covers(PoolAfter(alloc, pool0, s), need[i])
    ensures InRange(s + [i], |alloc|)
    ensures PoolAfter(alloc, pool0, s + [i]) == Add(PoolAfter(alloc, pool0, s), alloc[i])
    ensures ValidOrder(need, alloc, pool0, s + [i])
  {
    var t := s + [i];
    assert t[..|s|] == s;
    forall k | 0 <= k < |t|
      ensures Covers(PoolAfter(alloc, pool0, t[..k]), need[t[k]])
    {
      if k < |s| {
        assert t[..k] == s[..k] && t[k] == s[k];
      }
    }
  }

  /** `Step` keeps the second half; `r` names its result. */
  lemma {:induction false} StepReplayed(need: Matrix, alloc: Matrix, pool0: Vector, st: Progress, i: nat, r: Progress)
    requires Shaped(need, alloc, st) && |st.pool| == |pool0| && i < |st.finished|
    requires Replayed(need, alloc, pool0, st)
    requires r == Step(need, alloc, st, i)
    ensures Shaped(need, alloc, r) && |r.pool| == |pool0|
    ensures Replayed(need, alloc, pool0, r)
  {
    if !st.finished[i] && Covers(st.pool, need[i]) {
      AppendReplayed(need, alloc, pool0, st.order, i);
      assert r.order == st.order + [i] && r.pool == Add(st.pool, alloc[i]);
    } else {
      assert r == st;
    }
  }

  lemma {:induction false} PassToRecorded(need: Matrix, alloc: Matrix, st: Progress, j: nat)
    requires Shaped(need, alloc, st) && j <= |st.finished| && Recorded(st)
    ensures Recorded(PassTo(need, alloc, st, j))
  {
    if j > 0 {
      var p := PassTo(need, alloc, st, j - 1);
      PassToRecorded(need, alloc, st, j - 1);
      StepRecorded(need, alloc, p, j - 1, PassTo(need, alloc, st, j));
    }
  }

  lemma {:induction false} PassToReplayed(need: Matrix, alloc: Matrix, pool0: Vector, st: Progress, j: nat)
    requires Shaped(need, alloc, st) && |st.pool| == |pool0| && j <= |st.finished|
    requires Replayed(need, alloc, pool0, st)
    ensures Replayed(need, alloc, pool0, PassTo(need, alloc, st, j))
  {
    if j > 0 {
      var p := PassTo(need, alloc, st, j - 1);
      var q := PassTo(need, alloc, st, j);
      assert q == Step(need, alloc, p, j - 1);
      PassToReplayed(need, alloc, pool0, st, j - 1);
      StepReplayed(need, alloc, pool0, p, j - 1, q);
    }
  }

  /** Both halves of the invariant hold of the state `Run` ends in. */
  lemma {:induction false} RunInv(need: Matrix, alloc: Matrix, pool0: Vector, st: Progress)
    requires Shaped(need, alloc, st) && |st.pool| == |pool0| && Counted(st)
    requires Recorded(st) && Replayed(need, alloc, pool0, st)
    ensures Recorded(Run(need, alloc, st)) && Replayed(need, alloc, pool0, Run(need, alloc, st))
    decreases Unfinished(st.finished)
  {
    if |st.order| < |st.finished| {
      var next := Pass(need, alloc, st);
      PassToRecorded(need, alloc, st, |st.finished|);
      PassToReplayed(need, alloc, pool0, st, |st.finished|);
      if |next.order| != |st.order| {
        RunInv(need, alloc, pool0, next);
      }
    }
  }

  /** A pass that finished nobody changed nothing, because every unfinished
      process it looked at needed more than the pool. */
  lemma {:induction false} PassToStalled(need: Matrix, alloc: Matrix, st: Progress, j: nat)
    requires Shaped(need, alloc, st) && j <= |st.finished|
    requires |PassTo(need, alloc, st, j).order| == |st.order|
    ensures PassTo(need, alloc, st, j) == st
    ensures forall i :: 0 <= i < j ==> st.finished[i] || !Covers(st.pool, need[i])
  {
    if j > 0 {
      PassToStalled(need, alloc, st, j - 1);
    }
  }

  lemma {:induction false} RunStalls(need: Matrix, alloc: Matrix, st: Progress)
    requires Shaped(need, alloc, st) && Counted(st)
    ensures var r := Run(need, alloc, st);
      |r.order| < |r.finished| ==>
        forall i :: 0 <= i < |r.finished| ==> r.finished[i] || !Covers(r.pool, need[i])
    decreases Unfinished(st.finished)
  {
    if |st.order| < |st.finished| {
      var next := Pass(need, alloc, st);
      if |next.order| == |st.order| {
        PassToStalled(need, alloc, st, |st.finished|);
      } else {
        RunStalls(need, alloc, next);
      }
    }
  }

  lemma CheckInv(maximum: Matrix, allocation: Matrix, available: Vector)
    requires Input(maximum, allocation, available)
    ensures var r := Check(maximum, allocation, available);
      Recorded(r) && Replayed(NeedMatrix(maximum, allocation), allocation, available, r)
  {
    RunInv(NeedMatrix(maximum, allocation), allocation, available, Start(|maximum|, available));
  }

  /** The order lists distinct processes, at most `n` of them, each admitted
      when its need fitted the initial pool plus the allocations of the
      processes before it; a process is finished exactly when it is listed. */
  lemma OrderIsValid(maximum: Matrix, allocation: Matrix, available: Vector)
    requires Input(maximum, allocation, available)
    ensures var r := Check(maximum, allocation, available);
      InRange(r.order, |maximum|) && Distinct(r.order) && |r.order| <= |maximum|
      && ValidOrder(NeedMatrix(maximum, allocation), allocation, available, r.order)
      && (forall i :: 0 <= i < |maximum| ==> (r.finished[i] <==> i in r.order))
  {
    CheckInv(maximum, allocation, available);
  }

  /** The final pool is the initial pool plus the allocations of the finished
      processes; with non-negative allocations it never fell below the initial
      pool, at any point of the order. */
  lemma FinalPool(maximum: Matrix, allocation: Matrix, available: Vector)
    requires Input(maximum, allocation, available)
    ensures var r := Check(maximum, allocation, available);
      InRange(r.order, |allocation|)
      && r.pool == PoolAfter(allocation, available, r.order)
      && (forall c :: 0 <= c < |available| ==> r.pool[c] == available[c] + ColSum(allocation, r.order, c))
    ensures var r := Check(maximum, allocation, available);
      NonNegative(allocation, |allocation|, |available|) ==>
        forall j, c :: 0 <= j <= |r.order| && 0 <= c < |available| ==>
          available[c] <= PoolAfter(allocation, available, r.order[..j])[c] <= r.pool[c]
  {
    var r := Check(maximum, allocation, available);
    CheckInv(maximum, allocation, available);
    forall c | 0 <= c < |available| ensures r.pool[c] == available[c] + ColSum(allocation, r.order, c) {
      PoolAfterAt(allocation, available, r.order, c);
    }
    if NonNegative(allocation, |allocation|, |available|) {
      forall j, c | 0 <= j <= |r.order| && 0 <= c < |available|
        ensures available[c] <= PoolAfter(allocation, available, r.order[..j])[c] <= r.pool[c]
      {
        PoolAfterGrows(allocation, available, r.order, j, |r.order|, c);
        assert r.order[..|r.order|] == r.order;
      }
    }
  }

  /** The verdict is "safe" exactly when every process is marked finished. */
  lemma SafeIffAllFinished(maximum: Matrix, allocation: Matrix, available: Vector)
    requires Input(maximum, allocation, available)
    ensures Safe(maximum, allocation, available) <==>
      forall i :: 0 <= i < |maximum| ==> Check(maximum, allocation, available).finished[i]
  {
    UnfinishedZero(Check(maximum, allocation, available).finished);
  }

  /** On an unsafe verdict every unfinished process needs more of some
      resource kind than the final pool holds. */
  lemma UnsafeStall(maximum: Matrix, allocation: Matrix, available: Vector)
    requires Input(maximum, allocation, available)
    ensures var r := Check(maximum, allocation, available);
      !Safe(maximum, allocation, available) ==>
        forall i :: 0 <= i < |maximum| && i !in r.order ==>
          exists c :: 0 <= c < |available| && r.pool[c] < maximum[i][c] - allocation[i][c]
  {
    var need := NeedMatrix(maximum, allocation);
    CheckInv(maximum, allocation, available);
    RunStalls(need, allocation, Start(|maximum|, available));
  }

  /** The position in `s` of the first process not finished in `f`, given
      that `u` is one such process and occurs in `s`. */
  lemma FirstUnfinished(f: seq<bool>, s: seq<nat>, u: nat) returns (k: nat)
    requires InRange(s, |f|) && u < |f| && !f[u] && u in s
    ensures k < |s| && !f[s[k]]
    ensures forall t :: 0 <= t < k ==> f[s[t]]
  {
    var ju :| 0 <= ju < |s| && s[ju] == u;
    k := 0;
    while f[s[k]]
      invariant 0 <= k <= ju
      invariant forall t :: 0 <= t < k ==> f[s[t]]
      decreases ju - k
    {
      k := k + 1;
    }
  }

  /** A state in which no unfinished process fits the pool, reached by a valid
      order, leaves no process of a safe sequence unfinished: the first
      unfinished process of that sequence would fit, since the processes
      before it have all returned their allocations. */
  lemma StalledFinishesCompletion(need: Matrix, alloc: Matrix, pool0: Vector, r: Progress, s: seq<nat>)
    requires Shaped(need, alloc, r) && |r.pool| == |pool0|
    requires NonNegative(alloc, |alloc|, |pool0|)
    requires Recorded(r) && r.pool == PoolAfter(alloc, pool0, r.order)
    requires forall i :: 0 <= i < |r.finished| ==> r.finished[i] || !Covers(r.pool, need[i])
    requires IsCompletion(need, alloc, pool0, s)
    ensures forall i :: 0 <= i < |r.finished| ==> r.finished[i]
  {
    forall u | 0 <= u < |r.finished| ensures r.finished[u] {
      if !r.finished[u] {
        var k := FirstUnfinished(r.finished, s, u);
        var before := s[..k];
        assert Covers(PoolAfter(alloc, pool0, before), need[s[k]]);
        assert Distinct(before) && InRange(before, |alloc|);
        assert forall t :: 0 <= t < |before| ==> before[t] in r.order;
        PoolAfterSubset(alloc, pool0, before, r.order);
        assert false;
      }
    }
  }

  /** Greedy completeness: with non-negative allocations, if any safe
      sequence exists, the check finishes every process. */
  lemma GreedyComplete(maximum: Matrix, allocation: Matrix, available: Vector, s: seq<nat>)
    requires Input(maximum, allocation, available)
    requires NonNegative(allocation, |allocation|, |available|)
    requires IsCompletion(NeedMatrix(maximum, allocation), allocation, available, s)
    ensures Safe(maximum, allocation, available)
  {
    var need := NeedMatrix(maximum, allocation);
    var r := Check(maximum, allocation, available);
    CheckInv(maximum, allocation, available);
    RunStalls(need, allocation, Start(|maximum|, available));
    if |r.order| < |maximum| {
      StalledFinishesCompletion(need, allocation, available, r, s);
      UnfinishedZero(r.finished);
    }
  }

  /** Soundness of a safe verdict, for any allocations: the order produced
      is a safe sequence. */
  lemma SafeOrderIsCompletion(maximum: Matrix, allocation: Matrix, available: Vector)
    requires Input(maximum, allocation, available)
    ensures Safe(maximum, allocation, available) ==>
      IsCompletion(NeedMatrix(maximum, allocation), allocation, available, Check(maximum, allocation, available).order)
  {
    var r := Check(maximum, allocation, available);
    CheckInv(maximum, allocation, available);
    if Safe(maximum, allocation, available) {
      UnfinishedZero(r.finished);
    }
  }

  /** The verdict is "safe" exactly when a safe sequence exists (given
      non-negative allocations); the order produced is then one. */
  lemma SafeIffCompletionExists(maximum: Matrix, allocation: Matrix, available: Vector)
    requires Input(maximum, allocation, available)
    requires NonNegative(allocation, |allocation|, |available|)
    ensures Safe(maximum, allocation, available) ==>
      IsCompletion(NeedMatrix(maximum, allocation), allocation, available, Check(maximum, allocation, available).order)
    ensures Safe(maximum, allocation, available) <==>
      exists s :: IsCompletion(NeedMatrix(maximum, allocation), allocation, available, s)
  {
    var need := NeedMatrix(maximum, allocation);
    SafeOrderIsCompletion(maximum, allocation, available);
    if s :| IsCompletion(need, allocation, available, s) {
      GreedyComplete(maximum, allocation, available, s);
    }
  }
}
