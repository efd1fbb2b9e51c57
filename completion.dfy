/** Completion sequences: the pool a sequence of finishing processes leaves
    behind, and when such a sequence is a valid completion order. */
module Completion {
  import opened Vectors

  /** Every entry names one of `n` processes. */
  predicate InRange(s: seq<nat>, n: nat)
  {
    forall k :: 0 <= k < |s| ==> s[k] < n
  }

  /** No process appears twice. */
  predicate Distinct(s: seq<nat>)
  {
    forall a, b :: 0 <= a < b < |s| ==> s[a] != s[b]
  }

  /** Total allocation of resource kind `c` held by the processes of `s`. */
  function ColSum(alloc: Matrix, s: seq<nat>, c: nat): (r: int)
    requires InRange(s, |alloc|)
    requires forall i :: 0 <= i < |alloc| ==> c < |alloc[i]|
  {
    if s == [] then 0 else ColSum(alloc, s[..|s| - 1], c) + alloc[s[|s| - 1]][c]
  }

  /** The pool after the processes of `s` have finished one after the other,
      each returning its allocation. */
  function PoolAfter(alloc: Matrix, pool: Vector, s: seq<nat>): (r: Vector)
    requires InRange(s, |alloc|) && IsMatrix(alloc, |alloc|, |pool|)
    ensures |r| == |pool|
  {
    if s == [] then pool else Add(PoolAfter(alloc, pool, s[..|s| - 1]), alloc[s[|s| - 1]])
  }

  /** Each process of `s`, when its turn comes, needs no more than the pool
      left by the processes before it. */
  predicate ValidOrder(need: Matrix, alloc: Matrix, pool: Vector, s: seq<nat>)
    requires IsMatrix(need, |alloc|, |pool|) && IsMatrix(alloc, |alloc|, |pool|)
    requires InRange(s, |alloc|)
  {
    forall k :: 0 <= k < |s| ==> Covers(PoolAfter(alloc, pool, s[..k]), need[s[k]])
  }

  /** `s` lists every one of the `|alloc|` processes exactly once, in an order
      in which each can obtain its remaining need: the definition of a safe
      sequence. */
  predicate IsCompletion(need: Matrix, alloc: Matrix, pool: Vector, s: seq<nat>)
    requires IsMatrix(need, |alloc|, |pool|) && IsMatrix(alloc, |alloc|, |pool|)
  {
    InRange(s, |alloc|) && Distinct(s) && (forall i :: 0 <= i < |alloc| ==> i in s)
    && ValidOrder(need, alloc, pool, s)
  }

  /** The pool is the initial pool plus the column sums of the finished
      processes. */
  lemma {:induction false} PoolAfterAt(alloc: Matrix, pool: Vector, s: seq<nat>, c: nat)
    requires InRange(s, |alloc|) && IsMatrix(alloc, |alloc|, |pool|) && c < |pool|
    ensures PoolAfter(alloc, pool, s)[c] == pool[c] + ColSum(alloc, s, c)
  {
    if s != [] {
      PoolAfterAt(alloc, pool, s[..|s| - 1], c);
    }
  }

  lemma {:induction false} ColSumNonNegative(alloc: Matrix, s: seq<nat>, m: nat, c: nat)
    requires IsMatrix(alloc, |alloc|, m) && NonNegative(alloc, |alloc|, m) && c < m
    requires InRange(s, |alloc|)
    ensures ColSum(alloc, s, c) >= 0
  {
    if s != [] {
      ColSumNonNegative(alloc, s[..|s| - 1], m, c);
    }
  }

  lemma {:induction false} ColSumConcat(alloc: Matrix, a: seq<nat>, b: seq<nat>, c: nat)
    requires InRange(a, |alloc|) && InRange(b, |alloc|)
    requires forall i :: 0 <= i < |alloc| ==> c < |alloc[i]|
    ensures InRange(a + b, |alloc|)
    ensures ColSum(alloc, a + b, c) == ColSum(alloc, a, c) + ColSum(alloc, b, c)
  {
    if b == [] {
      assert a + b == a;
    } else {
      var ab := a + b;
      assert ab[..|ab| - 1] == a + b[..|b| - 1];
      ColSumConcat(alloc, a, b[..|b| - 1], c);
    }
  }

  /** Taking the entry at `j` out of `t` lowers the column sum by its row. */
  lemma ColSumRemove(alloc: Matrix, t: seq<nat>, j: nat, c: nat)
    requires InRange(t, |alloc|) && j < |t|
    requires forall i :: 0 <= i < |alloc| ==> c < |alloc[i]|
    ensures InRange(t[..j] + t[j + 1..], |alloc|)
    ensures ColSum(alloc, t, c) == ColSum(alloc, t[..j] + t[j + 1..], c) + alloc[t[j]][c]
  {
    var x := t[j];
    assert t == t[..j] + [x] + t[j + 1..];
    ColSumConcat(alloc, t[..j] + [x], t[j + 1..], c);
    ColSumConcat(alloc, t[..j], [x], c);
    ColSumConcat(alloc, t[..j], t[j + 1..], c);
    assert ColSum(alloc, [x], c) == alloc[x][c] by {
      assert [x][..0] == [];
    }
  }

  /** Entries of `s` other than `t[j]` that occur in `t` still occur once
      `t[j]` is taken out. */
  lemma RemoveKeeps(s: seq<nat>, t: seq<nat>, j: nat)
    requires j < |t| && forall k :: 0 <= k < |s| ==> s[k] in t && s[k] != t[j]
    ensures forall k :: 0 <= k < |s| ==> s[k] in t[..j] + t[j + 1..]
  {
    var t' := t[..j] + t[j + 1..];
    forall k | 0 <= k < |s| ensures s[k] in t' {
      var p :| 0 <= p < |t| && t[p] == s[k];
      if p < j {
        assert t'[p] == s[k];
      } else {
        assert t'[p - 1] == s[k];
      }
    }
  }

  /** With non-negative allocations, the processes of a duplicate-free `s`
      that all occur in `t` hold no more of kind `c` than those of `t`. */
  lemma {:induction false} ColSumSubset(alloc: Matrix, s: seq<nat>, t: seq<nat>, m: nat, c: nat)
    requires IsMatrix(alloc, |alloc|, m) && NonNegative(alloc, |alloc|, m) && c < m
    requires InRange(s, |alloc|) && InRange(t, |alloc|) && Distinct(s)
    requires forall k :: 0 <= k < |s| ==> s[k] in t
    ensures ColSum(alloc, s, c) <= ColSum(alloc, t, c)
    decreases |s|
  {
    if s == [] {
      ColSumNonNegative(alloc, t, m, c);
    } else {
      var s' := s[..|s| - 1];
      var j :| 0 <= j < |t| && t[j] == s[|s| - 1];
      ColSumRemove(alloc, t, j, c);
      assert forall k :: 0 <= k < |s'| ==> s'[k] in t && s'[k] != t[j];
      RemoveKeeps(s', t, j);
      ColSumSubset(alloc, s', t[..j] + t[j + 1..], m, c);
    }
  }

  /** With non-negative allocations, the pool left by a duplicate-free `s`
      whose processes all occur in `t` is below the pool left by `t`. */
  lemma {:induction false} PoolAfterSubset(alloc: Matrix, pool: Vector, s: seq<nat>, t: seq<nat>)
    requires IsMatrix(alloc, |alloc|, |pool|) && NonNegative(alloc, |alloc|, |pool|)
    requires InRange(s, |alloc|) && InRange(t, |alloc|) && Distinct(s)
    requires forall k :: 0 <= k < |s| ==> s[k] in t
    ensures forall c :: 0 <= c < |pool| ==> PoolAfter(alloc, pool, s)[c] <= PoolAfter(alloc, pool, t)[c]
  {
    forall c | 0 <= c < |pool| ensures PoolAfter(alloc, pool, s)[c] <= PoolAfter(alloc, pool, t)[c] {
      PoolAfterAt(alloc, pool, s, c);
      PoolAfterAt(alloc, pool, t, c);
      ColSumSubset(alloc, s, t, |pool|, c);
    }
  }

  /** With non-negative allocations the pool never shrinks along a sequence:
      the pool after a prefix is below the pool after a longer prefix. */
  lemma {:induction false} PoolAfterGrows(alloc: Matrix, pool: Vector, s: seq<nat>, j: nat, k: nat, c: nat)
    requires IsMatrix(alloc, |alloc|, |pool|) && NonNegative(alloc, |alloc|, |pool|)
    requires InRange(s, |alloc|) && j <= k <= |s| && c < |pool|
    ensures pool[c] <= PoolAfter(alloc, pool, s[..j])[c] <= PoolAfter(alloc, pool, s[..k])[c]
  {
    PoolAfterAt(alloc, pool, s[..j], c);
    PoolAfterAt(alloc, pool, s[..k], c);
    assert s[..k] == s[..j] + s[j..k];
    ColSumConcat(alloc, s[..j], s[j..k], c);
    ColSumNonNegative(alloc, s[..j], |pool|, c);
    ColSumNonNegative(alloc, s[j..k], |pool|, c);
  }
}
