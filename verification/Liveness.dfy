/** A measure that never increases along an infinite run is constant in the end. */
module Liveness {
  ghost predicate Decreasing(f: nat -> nat)
  {
    forall k: nat :: f(k + 1) <= f(k)
  }

  ghost predicate ConstantFrom(f: nat -> nat, start: nat)
  {
    forall k: nat :: k >= start ==> f(k) == f(start)
  }

  lemma {:induction false} NeverMore(f: nat -> nat, j: nat, k: nat)
    requires Decreasing(f) && j <= k
    ensures f(k) <= f(j)
  {
    if j < k { NeverMore(f, j, k - 1); }
  }

  lemma {:induction false} ConstantInTheEnd(f: nat -> nat, k: nat) returns (start: nat)
    requires Decreasing(f)
    ensures start >= k && ConstantFrom(f, start)
    decreases f(k)
  {
    forall j: nat | j >= k ensures f(j) <= f(k) {
      NeverMore(f, k, j);
    }
    if j: nat :| j >= k && f(j) < f(k) {
      start := ConstantInTheEnd(f, j);
    } else {
      start := k;
    }
  }
}
