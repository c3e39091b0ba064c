/** reconcileProvisionedInstances: count the active instances, then fill the missing replica indices. */
module InstanceAllocation {
  import opened Names
  import opened Objects
  import opened Checkpoints

  // ---------- The allocation loop ----------

  /** `for taken[idx] { idx++; if idx >= limit { break } }` */
  function NextIndex(taken: set<nat>, limit: int, idx: nat): nat
    decreases limit - idx
  {
    if idx !in taken then idx
    else if idx + 1 >= limit then idx + 1
    else NextIndex(taken, limit, idx + 1)
  }

  function From(refused: set<nat>, idx: nat): set<nat>
  {
    set r | r in refused && r >= idx
  }

  lemma FromShrinks(refused: set<nat>, i: nat, j: nat)
    requires i <= j
    ensures From(refused, j) <= From(refused, i)
    ensures |From(refused, j)| <= |From(refused, i)|
    ensures i < j && i in refused ==> |From(refused, j)| < |From(refused, i)|
  {
    SubsetSize(From(refused, j), From(refused, i));
    if i < j && i in refused {
      SubsetSize(From(refused, j), From(refused, i) - {i});
    }
  }

  lemma {:induction false} SubsetSize<T>(a: set<T>, b: set<T>)
    requires a <= b
    ensures |a| <= |b|
    ensures |a| == |b| ==> a == b
  {
    if a != {} {
      var x :| x in a;
      SubsetSize(a - {x}, b - {x});
    }
  }

  lemma NextIndexIncreases(taken: set<nat>, limit: int, idx: nat)
    ensures NextIndex(taken, limit, idx) >= idx
    decreases limit - idx
  {
  }

  /**
    The indices the loop creates, in order, when creation fails at the indices of `refused`.
    The loop never visits an index twice, so a finite set describes any finite number of failures.
  */
  function Allocate(taken: set<nat>, refused: set<nat>, limit: int, idx: nat, needed: nat): seq<nat>
    decreases needed, |From(refused, idx)|
  {
    if needed == 0 then []
    else
      var i := NextIndex(taken, limit, idx);
      NextIndexIncreases(taken, limit, idx);
      FromShrinks(refused, i, i + 1);
      FromShrinks(refused, idx, i);
      if i in refused then Allocate(taken, refused, limit, i + 1, needed)
      else [i] + Allocate(taken, refused, limit, i + 1, needed - 1)
  }

  lemma AllocateStep(taken: set<nat>, refused: set<nat>, limit: int, idx: nat, needed: nat)
    ensures needed == 0 ==> Allocate(taken, refused, limit, idx, needed) == []
    ensures needed > 0 ==>
      var i := NextIndex(taken, limit, idx);
      Allocate(taken, refused, limit, idx, needed) ==
        if i in refused then Allocate(taken, refused, limit, i + 1, needed)
        else [i] + Allocate(taken, refused, limit, i + 1, needed - 1)
  {
  }

  // ---------- What it computes ----------

  ghost predicate Increasing(ixs: seq<nat>)
  {
    forall j, k :: 0 <= j < k < |ixs| ==> ixs[j] < ixs[k]
  }

  /** `ixs` are the `n` smallest indices from `lo` on outside `blocked`. */
  ghost predicate SmallestFree(ixs: seq<nat>, blocked: set<nat>, lo: nat, n: nat)
  {
    && |ixs| == n && Increasing(ixs)
    && (forall k :: 0 <= k < n ==> ixs[k] >= lo && ixs[k] !in blocked)
    && (forall j: nat, k :: 0 <= k < n && lo <= j < ixs[k] && j !in ixs ==> j in blocked)
  }

  function Range(lo: nat, hi: nat): (r: set<nat>)
    ensures forall i :: i in r <==> lo <= i < hi
    ensures |r| == if lo <= hi then hi - lo else 0
    decreases hi - lo
  {
    if lo >= hi then {} else {lo} + Range(lo + 1, hi)
  }

  /** The inner loop stops at the first free index, provided there is one below the limit. */
  lemma {:induction false} NextIndexLeastFree(taken: set<nat>, limit: int, idx: nat, free: nat)
    requires idx <= free < limit && free !in taken
    ensures idx <= NextIndex(taken, limit, idx) <= free
    ensures NextIndex(taken, limit, idx) !in taken
    ensures Range(idx, NextIndex(taken, limit, idx)) <= taken
    decreases limit - idx
  {
    if idx in taken {
      NextIndexLeastFree(taken, limit, idx + 1, free);
      var i := NextIndex(taken, limit, idx + 1);
      assert Range(idx, i) == {idx} + Range(idx + 1, i);
    } else {
      assert Range(idx, idx) == {};
    }
  }

  /** Pigeonhole: fewer blocked indices than room leaves a free index. */
  lemma FreeIndexExists(taken: set<nat>, idx: nat, limit: nat)
    requires idx <= limit && |From(taken, idx)| < limit - idx
    ensures exists free: nat :: idx <= free < limit && free !in taken
  {
    if Range(idx, limit) <= taken {
      SubsetSize(Range(idx, limit), From(taken, idx));
    } else {
      var free :| free in Range(idx, limit) && free !in taken;
      assert idx <= free < limit && free !in taken;
    }
  }

  lemma FromOfRange(blocked: set<nat>, idx: nat, i: nat)
    requires idx <= i && Range(idx, i) <= blocked
    ensures |From(blocked, idx)| == (i - idx) + |From(blocked, i)|
  {
    assert From(blocked, idx) == Range(idx, i) + From(blocked, i);
    assert Range(idx, i) !! From(blocked, i);
  }

  /**
    If the room up to the limit holds the blocked indices still ahead and the indices needed, the
    loop takes exactly the smallest free indices.
  */
  lemma {:induction false} AllocateSmallestFree(taken: set<nat>, refused: set<nat>, limit: int, idx: nat, needed: nat)
    requires idx + |From(taken + refused, idx)| + needed <= limit
    ensures SmallestFree(Allocate(taken, refused, limit, idx, needed), taken + refused, idx, needed)
    ensures forall i :: i in Allocate(taken, refused, limit, idx, needed) ==>
      i < idx + |From(taken + refused, idx)| + needed
    decreases needed, |From(refused, idx)|
  {
    hide Range, NextIndex, SmallestFree;
    AllocateStep(taken, refused, limit, idx, needed);
    NothingNeeded(taken + refused, idx);
    if needed > 0 {
      var blocked := taken + refused;
      var i := NextIndex(taken, limit, idx);
      SubsetSize(From(taken, idx), From(blocked, idx));
      FreeIndexExists(taken, idx, limit);
      var free: nat :| idx <= free < limit && free !in taken;
      NextIndexLeastFree(taken, limit, idx, free);
      FromShrinks(refused, i, i + 1);
      FromShrinks(refused, idx, i);
      FromOfRange(blocked, idx, i);
      if i in refused {
        assert Range(i, i + 1) <= blocked;
        FromOfRange(blocked, i, i + 1);
        AllocateSmallestFree(taken, refused, limit, i + 1, needed);
        SkipBlocked(Allocate(taken, refused, limit, i + 1, needed), blocked, idx, i, needed);
      } else {
        FromShrinks(blocked, i, i + 1);
        assert From(blocked, i) == From(blocked, i + 1);
        AllocateSmallestFree(taken, refused, limit, i + 1, needed - 1);
        Prepend(Allocate(taken, refused, limit, i + 1, needed - 1), blocked, idx, i, needed);
      }
    }
  }

  lemma NothingNeeded(blocked: set<nat>, idx: nat)
    ensures SmallestFree([], blocked, idx, 0)
  {
  }

  lemma SkipBlocked(rest: seq<nat>, blocked: set<nat>, idx: nat, i: nat, needed: nat)
    requires idx <= i && i in blocked && Range(idx, i) <= blocked
    requires SmallestFree(rest, blocked, i + 1, needed)
    ensures SmallestFree(rest, blocked, idx, needed)
  {
    hide Range;
    forall j: nat, k | 0 <= k < needed && idx <= j < rest[k] && j !in rest ensures j in blocked {
      if j < i { assert j in Range(idx, i); }
    }
  }

  lemma PrependIncreases(rest: seq<nat>, i: nat)
    requires Increasing(rest) && forall k :: 0 <= k < |rest| ==> rest[k] > i
    ensures Increasing([i] + rest)
  {
    var ixs := [i] + rest;
    forall j, k | 0 <= j < k < |ixs| ensures ixs[j] < ixs[k] {
      assert ixs[k] == rest[k - 1];
      assert j > 0 ==> ixs[j] == rest[j - 1];
    }
  }

  lemma Prepend(rest: seq<nat>, blocked: set<nat>, idx: nat, i: nat, needed: nat)
    requires needed > 0 && idx <= i && i !in blocked && Range(idx, i) <= blocked
    requires SmallestFree(rest, blocked, i + 1, needed - 1)
    ensures SmallestFree([i] + rest, blocked, idx, needed)
  {
    hide Range, Increasing;
    var ixs := [i] + rest;
    PrependIncreases(rest, i);
    forall k | 0 <= k < needed ensures ixs[k] >= idx && ixs[k] !in blocked {
      assert k > 0 ==> ixs[k] == rest[k - 1];
    }
    forall j: nat, k | 0 <= k < needed && idx <= j < ixs[k] && j !in ixs ensures j in blocked {
      PrependCovers(rest, blocked, idx, i, needed, j, k);
    }
  }

  lemma PrependCovers(rest: seq<nat>, blocked: set<nat>, idx: nat, i: nat, needed: nat, j: nat, k: nat)
    requires needed > 0 && idx <= i && Range(idx, i) <= blocked && SmallestFree(rest, blocked, i + 1, needed - 1)
    requires k < needed && idx <= j < ([i] + rest)[k] && j !in [i] + rest
    ensures j in blocked
  {
    hide Increasing;
    assert j != i && j !in rest;
    if j < i {
      assert j in Range(idx, i);
    } else {
      assert ([i] + rest)[k] == rest[k - 1];
    }
  }

  lemma FromZero(blocked: set<nat>)
    ensures From(blocked, 0) == blocked
  {
  }

  // ---------- When the loop fails ----------

  /** The free indices of [lo, hi). */
  function Free(taken: set<nat>, lo: nat, hi: nat): set<nat>
  {
    Range(lo, hi) - taken
  }

  lemma FreeStep(taken: set<nat>, lo: nat, hi: nat)
    requires lo < hi
    ensures Free(taken, lo, hi) == (if lo in taken then {} else {lo}) + Free(taken, lo + 1, hi)
    ensures |Free(taken, lo, hi)| == (if lo in taken then 0 else 1) + |Free(taken, lo + 1, hi)|
  {
    hide Range;
    var rest := Free(taken, lo + 1, hi);
    assert Free(taken, lo, hi) == (if lo in taken then {} else {lo}) + rest;
    assert lo !in rest;
  }

  /** Two adjacent indices are taken, and fewer indices are free before them than are needed. */
  ghost predicate AdjacentWithin(taken: set<nat>, idx: nat, needed: int)
  {
    exists x: nat :: AdjacentAt(taken, idx, needed, x)
  }

  ghost predicate AdjacentAt(taken: set<nat>, idx: nat, needed: int, x: nat)
  {
    idx <= x && x in taken && x + 1 in taken && |Free(taken, idx, x)| < needed
  }

  lemma AdjacentMoves(taken: set<nat>, idx: nat, later: nat, needed: int, rest: int)
    requires forall x: nat :: AdjacentAt(taken, idx, needed, x) ==> AdjacentAt(taken, later, rest, x)
    requires forall x: nat :: AdjacentAt(taken, later, rest, x) ==> AdjacentAt(taken, idx, needed, x)
    ensures AdjacentWithin(taken, idx, needed) <==> AdjacentWithin(taken, later, rest)
  {
    hide AdjacentAt;
  }

  lemma AdjacentSkip(taken: set<nat>, idx: nat, needed: nat)
    requires idx !in taken && needed > 0
    ensures AdjacentWithin(taken, idx, needed) <==> AdjacentWithin(taken, idx + 1, needed - 1)
  {
    hide Free, AdjacentWithin;
    forall x: nat | x > idx ensures |Free(taken, idx, x)| == 1 + |Free(taken, idx + 1, x)| {
      FreeStep(taken, idx, x);
    }
    AdjacentMoves(taken, idx, idx + 1, needed, needed - 1);
  }

  lemma AdjacentSkipTaken(taken: set<nat>, idx: nat, needed: nat)
    requires idx in taken && idx + 1 !in taken && needed > 0
    ensures AdjacentWithin(taken, idx, needed) <==> AdjacentWithin(taken, idx + 2, needed - 1)
  {
    hide Free, AdjacentWithin;
    forall x: nat | x > idx + 1 ensures |Free(taken, idx, x)| == 1 + |Free(taken, idx + 2, x)| {
      FreeStep(taken, idx, x);
      FreeStep(taken, idx + 1, x);
    }
    AdjacentMoves(taken, idx, idx + 2, needed, needed - 1);
  }

  /**
    With int32 wrap-around the limit of a huge replica count is negative. The inner loop then steps over one
    taken index and never looks at the next, so an index that is taken is handed out exactly when two
    adjacent ones are taken within reach.
  */
  lemma {:induction false} AllocateOverflows(taken: set<nat>, limit: int, idx: nat, needed: nat)
    requires limit <= 0
    ensures (exists i :: i in Allocate(taken, {}, limit, idx, needed) && i in taken)
      <==> AdjacentWithin(taken, idx, needed)
    decreases needed
  {
    hide Free, Allocate;
    AllocateStep(taken, {}, limit, idx, needed);
    if needed > 0 {
      var i := NextIndex(taken, limit, idx);
      var rest := Allocate(taken, {}, limit, i + 1, needed - 1);
      AllocateOverflows(taken, limit, i + 1, needed - 1);
      assert forall j :: j in [i] + rest <==> j == i || j in rest;
      if idx !in taken {
        AdjacentSkip(taken, idx, needed);
      } else if idx + 1 !in taken {
        AdjacentSkipTaken(taken, idx, needed);
      } else {
        assert Free(taken, idx, idx) == {} by { NothingFree(taken, idx); }
        assert AdjacentAt(taken, idx, needed, idx);
      }
    }
  }

  lemma NothingFree(taken: set<nat>, idx: nat)
    ensures Free(taken, idx, idx) == {}
  {
  }

  lemma OverflowLimit(spec: Spec)
    requires 0x4000_0000 <= Desired(spec) < 0x8000_0000
    ensures IndexLimit(spec) == 2 * Desired(spec) - 0x1_0000_0000 < 0
  {
  }

  lemma {:induction false} NextIndexPast(taken: set<nat>, limit: int, idx: nat, bound: nat)
    requires idx <= bound < limit && forall j :: idx <= j < bound ==> j in taken
    ensures NextIndex(taken, limit, idx) >= bound
    decreases bound - idx
  {
    if idx < bound {
      assert idx in taken;
      NextIndexPast(taken, limit, idx + 1, bound);
    } else {
      NextIndexIncreases(taken, limit, idx);
    }
  }

  lemma {:induction false} FreeFrom(taken: set<nat>, idx: nat, i: nat, bound: nat)
    requires idx <= i <= bound && Range(idx, i) <= taken
    ensures Free(taken, idx, bound) == Free(taken, i, bound)
  {
    hide Range;
    assert forall j :: idx <= j < i ==> j in Range(idx, i);
  }

  ghost predicate SomeBeyond(ixs: seq<nat>, bound: nat)
  {
    exists i :: i in ixs && i >= bound
  }

  lemma BeyondStep(i: nat, rest: seq<nat>, bound: nat)
    ensures SomeBeyond([i] + rest, bound) <==> i >= bound || SomeBeyond(rest, bound)
    ensures !SomeBeyond([], bound)
  {
    var ixs := [i] + rest;
    assert i in ixs && forall j :: j in rest ==> j in ixs;
    if SomeBeyond(rest, bound) {
      var j :| j in rest && j >= bound;
      assert j in ixs;
    }
  }

  /** Below the overflow, an index beyond the bound is handed out iff more are needed than are free below it. */
  lemma {:induction false} AllocateBeyond(taken: set<nat>, bound: nat, limit: int, idx: nat, needed: nat)
    requires idx <= bound < limit
    ensures SomeBeyond(Allocate(taken, {}, limit, idx, needed), bound) <==> needed > |Free(taken, idx, bound)|
    decreases needed
  {
    hide Free, Range, Allocate, NextIndex, SomeBeyond;
    AllocateStep(taken, {}, limit, idx, needed);
    var i := NextIndex(taken, limit, idx);
    FreeMember(taken, idx, bound);
    if needed == 0 {
      BeyondStep(0, [], bound);
    } else {
      var rest := Allocate(taken, {}, limit, i + 1, needed - 1);
      assert Allocate(taken, {}, limit, idx, needed) == [i] + rest;
      BeyondStep(i, rest, bound);
      if x :| x in Free(taken, idx, bound) {
        NextIndexLeastFree(taken, limit, idx, x);
        FreeFrom(taken, idx, i, bound);
        FreeStep(taken, i, bound);
        AllocateBeyond(taken, bound, limit, i + 1, needed - 1);
      } else {
        NextIndexPast(taken, limit, idx, bound);
        assert |Free(taken, idx, bound)| == 0;
      }
    }
  }

  lemma FreeMember(taken: set<nat>, lo: nat, hi: nat)
    ensures forall x: nat :: x in Free(taken, lo, hi) <==> lo <= x < hi && x !in taken
  {
  }

  // ---------- The phase ----------

  predicate Active(pi: Instance)
  {
    (pi.state == Unset || pi.state == Pending || pi.state == Provisioning || pi.state == Running) && !pi.deleting
  }

  function ActiveCount(pis: seq<Instance>): nat
  {
    if pis == [] then 0
    else ActiveCount(pis[..|pis| - 1]) + if Active(pis[|pis| - 1]) then 1 else 0
  }

  ghost predicate HasTerminated(pis: seq<Instance>)
  {
    exists pi :: pi in pis && pi.state == Terminated && pi.notice
  }

  /** Indices of the instances that are not preempted. */
  function Taken(pis: seq<Instance>): set<nat>
  {
    set k | 0 <= k < |pis| && !Preempted(pis[k]) && pis[k].index.Some? :: pis[k].index.value
  }

  lemma TakenSnoc(pis: seq<Instance>)
    requires pis != [] && pis[|pis| - 1].index.Some?
    ensures var k := |pis| - 1;
      Taken(pis) == Taken(pis[..k]) + (if !Preempted(pis[k]) then {pis[k].index.value} else {})
        && |Taken(pis)| <= |Taken(pis[..k])| + if !Preempted(pis[k]) then 1 else 0
  {
    var k := |pis| - 1;
    var init := pis[..k];
    forall i | i in Taken(init) ensures i in Taken(pis) {
      var j :| 0 <= j < k && !Preempted(init[j]) && init[j].index.Some? && init[j].index.value == i;
      assert pis[j] == init[j];
    }
    forall i | i in Taken(pis) ensures i in Taken(init) || (!Preempted(pis[k]) && i == pis[k].index.value) {
      var j :| 0 <= j < |pis| && !Preempted(pis[j]) && pis[j].index.Some? && pis[j].index.value == i;
      if j < k { assert init[j] == pis[j]; }
    }
    assert Preempted(pis[k]) ==> Taken(pis) == Taken(init);
    OneMore(Taken(init), pis[k].index.value);
  }

  lemma OneMore(a: set<nat>, i: nat)
    ensures |a + {i}| <= |a| + 1
  {
    if i in a { assert a + {i} == a; }
  }

  lemma TakenNone()
    ensures Taken([]) == {}
  {
  }

  function FreshInstance(spec: Spec, i: nat, t: nat): Instance
  {
    Instance(InstanceName(spec.name, spec.template, i, t), Some(i), t, false, false, Unset, None, "", "", false, false)
  }

  function FreshInstances(spec: Spec, ixs: seq<nat>, t: nat): (r: seq<Instance>)
    ensures |r| == |ixs|
    ensures forall k :: 0 <= k < |r| ==> r[k] == FreshInstance(spec, ixs[k], t)
  {
    seq(|ixs|, k requires 0 <= k < |ixs| => FreshInstance(spec, ixs[k], t))
  }

  function NewIndices(s: State, refused: set<nat>): seq<nat>
  {
    var active := ActiveCount(s.pis);
    if active < Desired(s.spec) then
      Allocate(Taken(s.pis), refused, IndexLimit(s.spec), 0, Desired(s.spec) - active)
    else []
  }

  ghost function WithInstances(s: State, refused: set<nat>): State
  {
    if HasTerminated(s.pis) && ActiveCount(s.pis) < Desired(s.spec) && HasPending(s.checkpoints) then s
    else s.(pis := s.pis + FreshInstances(s.spec, NewIndices(s, refused), s.clock))
  }

  method CountInstances(c: Cluster) returns (active: nat, terminated: bool)
    ensures active == ActiveCount(c.pis)
    ensures terminated <==> HasTerminated(c.pis)
  {
    active, terminated := 0, false;
    for k := 0 to |c.pis|
      invariant active == ActiveCount(c.pis[..k])
      invariant terminated <==> exists j :: 0 <= j < k && c.pis[j].state == Terminated && c.pis[j].notice
    {
      var pi := c.pis[k];
      assert c.pis[..k + 1][..k] == c.pis[..k];
      if (pi.state == Unset || pi.state == Pending || pi.state == Provisioning || pi.state == Running) && !pi.deleting {
        active := active + 1;
      }
      if pi.state == Terminated && pi.notice {
        terminated := true;
      }
    }
    assert c.pis[..|c.pis|] == c.pis;
  }

  method TakenIndices(c: Cluster) returns (taken: set<nat>)
    ensures taken == Taken(c.pis)
  {
    taken := {};
    for k := 0 to |c.pis|
      invariant taken == set j | 0 <= j < k && !Preempted(c.pis[j]) && c.pis[j].index.Some? :: c.pis[j].index.value
    {
      var pi := c.pis[k];
      if pi.notice || pi.state == Terminated || pi.state == Stopping { continue; }
      if pi.index.Some? {
        taken := taken + {pi.index.value};
      }
    }
  }

  method ReconcileProvisionedInstances(c: Cluster, refused: set<nat>)
    modifies c`pis
    ensures c.View() == old(WithInstances(c.View(), refused))
  {
    ghost var s := c.View();
    var desired := Desired(c.spec);
    var active, terminated := CountInstances(c);
    if terminated && active < desired {
      var pending := HasPendingCheckpoints(c);
      if pending { return; }
    }
    var taken := TakenIndices(c);
    if active < desired {
      CreateMissing(c, taken, refused, desired - active);
    } else {
      assert NewIndices(s, refused) == [];
      assert s.pis + [] == s.pis;
    }
  }

  /** The inner loop: `known` holds the taken indices and those created so far, all behind `from`. */
  method NextFree(known: set<nat>, limit: int, from: nat, ghost taken: set<nat>) returns (index: nat)
    requires forall x :: x >= from ==> (x in known <==> x in taken)
    ensures index == NextIndex(taken, limit, from)
  {
    index := from;
    while index in known
      invariant index >= from
      invariant NextIndex(taken, limit, from) == NextIndex(taken, limit, index)
      decreases limit - index
    {
      index := index + 1;
      if index >= limit { break; }
    }
  }

  /** The allocation loop terminates after any finite number of failing creations. */
  method CreateMissing(c: Cluster, taken: set<nat>, refused: set<nat>, needed: nat)
    modifies c`pis
    ensures c.pis == old(c.pis)
      + FreshInstances(c.spec, Allocate(taken, refused, IndexLimit(c.spec), 0, needed), c.clock)
  {
    hide NextIndex, FreshInstance, FreshInstances, IndexLimit, Allocate, From;
    var limit := IndexLimit(c.spec);
    NoInstances(c.pis, c.spec, c.clock);
    ghost var all := Allocate(taken, refused, limit, 0, needed);
    ghost var ixs: seq<nat> := [];
    var known := taken;
    var index: nat, created: nat := 0, 0;
    while created < needed
      invariant created <= needed
      invariant all == ixs + Allocate(taken, refused, limit, index, needed - created)
      invariant c.pis == old(c.pis) + FreshInstances(c.spec, ixs, c.clock)
      invariant forall x :: x >= index ==> (x in known <==> x in taken)
      decreases needed - created, |From(refused, index)|
    {
      ghost var start := index;
      index := NextFree(known, limit, index, taken);
      NextIndexIncreases(taken, limit, start);
      FromShrinks(refused, start, index);
      FromShrinks(refused, index, index + 1);
      AllocateStep(taken, refused, limit, start, needed - created);
      if index in refused {
        index := index + 1;
        continue;
      }
      OneMoreInstance(old(c.pis), c.spec, ixs, index, c.clock);
      Regroup(ixs, index, Allocate(taken, refused, limit, index + 1, needed - created - 1));
      c.pis := c.pis + [FreshInstance(c.spec, index, c.clock)];
      ixs := ixs + [index];
      known := known + {index};
      index := index + 1;
      created := created + 1;
    }
    AllocateStep(taken, refused, limit, index, 0);
    assert ixs == all;
  }

  lemma NoInstances(pis: seq<Instance>, spec: Spec, t: nat)
    ensures pis + FreshInstances(spec, [], t) == pis
  {
  }

  lemma OneMoreInstance(pis: seq<Instance>, spec: Spec, ixs: seq<nat>, i: nat, t: nat)
    ensures pis + FreshInstances(spec, ixs + [i], t) == pis + FreshInstances(spec, ixs, t) + [FreshInstance(spec, i, t)]
  {
    hide FreshInstance;
    assert FreshInstances(spec, ixs + [i], t) == FreshInstances(spec, ixs, t) + [FreshInstance(spec, i, t)];
  }

  lemma Regroup(ixs: seq<nat>, i: nat, rest: seq<nat>)
    ensures ixs + ([i] + rest) == (ixs + [i]) + rest
  {
  }

  /** With room below the limit, the new instances get the smallest free indices, all below the bound. */
  lemma NewIndicesSmallestFree(s: State, refused: set<nat>)
    requires 0 <= Desired(s.spec) - ActiveCount(s.pis)
    requires |Taken(s.pis) + refused| + (Desired(s.spec) - ActiveCount(s.pis)) <= IndexLimit(s.spec)
    ensures SmallestFree(NewIndices(s, refused), Taken(s.pis) + refused, 0, Desired(s.spec) - ActiveCount(s.pis))
    ensures forall i :: i in NewIndices(s, refused) ==>
      i < |Taken(s.pis) + refused| + (Desired(s.spec) - ActiveCount(s.pis))
  {
    FromZero(Taken(s.pis) + refused);
    AllocateSmallestFree(Taken(s.pis), refused, IndexLimit(s.spec), 0, Desired(s.spec) - ActiveCount(s.pis));
  }

  function Below(taken: set<nat>, hi: nat): set<nat>
  {
    Range(0, hi) * taken
  }

  lemma BelowAtMost(taken: set<nat>, hi: nat)
    ensures |Below(taken, hi)| <= hi
  {
    SubsetSize(Below(taken, hi), Range(0, hi));
  }

  lemma FreeCount(taken: set<nat>, hi: nat)
    ensures |Free(taken, 0, hi)| == hi - |Below(taken, hi)|
  {
    var all := Range(0, hi);
    assert all == Free(taken, 0, hi) + Below(taken, hi);
    assert Free(taken, 0, hi) !! Below(taken, hi);
  }

  /**
    Exactly when the phase provisions beyond the replica count: when more indices below it are taken than
    instances are active. Every taken instance that is not active adds to that; with the documented VM states
    there is none but those being deleted.
  */
  lemma OverProvisionsIff(s: State)
    requires 0 <= Desired(s.spec) < 0x4000_0000
    ensures (exists i :: i in NewIndices(s, {}) && i >= Desired(s.spec))
      <==> ActiveCount(s.pis) < |Below(Taken(s.pis), Desired(s.spec))|
  {
    hide Taken, ActiveCount, Allocate, Free, Range;
    var d: nat := Desired(s.spec);
    IndexLimitFits(s.spec);
    FreeCount(Taken(s.pis), d);
    BelowAtMost(Taken(s.pis), d);
    if ActiveCount(s.pis) < d {
      AllocateBeyond(Taken(s.pis), d, IndexLimit(s.spec), 0, d - ActiveCount(s.pis));
      assert NewIndices(s, {}) == Allocate(Taken(s.pis), {}, IndexLimit(s.spec), 0, d - ActiveCount(s.pis));
      assert SomeBeyond(NewIndices(s, {}), d) <==> d - ActiveCount(s.pis) > |Free(Taken(s.pis), 0, d)|;
    } else {
      assert NewIndices(s, {}) == [];
    }
  }

  /** A VM state outside the documented alphabet is neither active nor preempted, so it leads there. */
  lemma UndocumentedStateOverProvisions(s: State, k: nat)
    requires k < |s.pis| && s.pis[k].state.Other? && !s.pis[k].notice
    ensures !Active(s.pis[k]) && (s.pis[k].index.Some? ==> s.pis[k].index.value in Taken(s.pis))
  {
  }

  /** One replica, whose VM is being staged. */
  const STAGING := State(Spec("job", "template", Some(1), "repo", [], None),
    [Instance("i", Some(0), 0, false, true, Other("STAGING"), Some(0), "i", "", false, false)],
    map[], [], [], map[], [Vm("i", 0, Other("STAGING"))], 1, multiset{}, {})

  /** There the phase provisions a second instance. */
  lemma StagingOverProvisions()
    ensures exists i :: i in NewIndices(STAGING, {}) && i >= Desired(STAGING.spec)
  {
    OverProvisionsIff(STAGING);
    UndocumentedStateOverProvisions(STAGING, 0);
    assert ActiveCount(STAGING.pis[..0]) == 0;
    assert STAGING.pis[0].index == Some(0) && 0 in Taken(STAGING.pis);
    assert Below(Taken(STAGING.pis), 1) == {0};
  }
}
