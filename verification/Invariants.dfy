/** What every reachable state satisfies, and why each phase and each step of the system keeps it. */
module Invariants {
  import opened Names
  import opened Objects
  import opened InstanceAllocation
  import opened JobFilling
  import opened Controller
  import opened Lifecycle
  import InstanceRuns

  // ---------- Instances ----------

  ghost predicate InstanceOk(pi: Instance, spec: Spec, now: int)
  {
    && pi.index.Some? && UnixTime(pi.stamp) && 0 <= pi.stamp <= now && !pi.deleting
    && pi.name == InstanceName(spec.name, spec.template, pi.index.value, pi.stamp)
    && StatusOk(pi) && (pi.instanceName == "" || pi.instanceName == pi.name)
  }

  ghost predicate AllInstancesOk(pis: seq<Instance>, spec: Spec, now: int)
  {
    forall k :: 0 <= k < |pis| ==> InstanceOk(pis[k], spec, now)
  }

  /** Instances without a preemption notice carry pairwise distinct replica indices. */
  ghost predicate DistinctIndices(pis: seq<Instance>)
  {
    forall j, k :: 0 <= j < k < |pis| && !pis[j].notice && !pis[k].notice ==> pis[j].index != pis[k].index
  }

  /** Every VM belongs to an instance. */
  ghost predicate VmsOwned(vms: seq<Vm>, pis: seq<Instance>)
  {
    DocumentedVms(vms) && forall vm :: vm in vms ==> exists k :: 0 <= k < |pis| && pis[k].name == vm.name
  }

  ghost predicate InstancesInv(s: State)
  {
    && AllInstancesOk(s.pis, s.spec, s.clock) && UniqueInstances(s.pis) && DistinctIndices(s.pis)
    && VmsOwned(s.vms, s.pis)
  }

  ghost predicate SpecOk(spec: Spec)
  {
    0 <= Desired(spec) < 0x4000_0000
  }

  /** Pigeonhole: no more taken indices than active instances, so the loop never reaches its limit. */
  lemma {:induction false} TakenAtMostActive(pis: seq<Instance>, spec: Spec, now: int)
    requires AllInstancesOk(pis, spec, now)
    ensures |Taken(pis)| <= ActiveCount(pis)
  {
    hide InstanceName, Taken;
    if pis == [] {
      TakenNone();
    } else {
      var n := |pis| - 1;
      assert InstanceOk(pis[n], spec, now);
      TakenAtMostActive(pis[..n], spec, now);
      TakenSnoc(pis);
    }
  }

  lemma RefusedRoom(pis: seq<Instance>, spec: Spec, now: int, refused: set<nat>)
    requires AllInstancesOk(pis, spec, now) && SpecOk(spec)
    requires |refused| <= Desired(spec) && ActiveCount(pis) <= Desired(spec)
    ensures |Taken(pis) + refused| + (Desired(spec) - ActiveCount(pis)) <= IndexLimit(spec)
    ensures |Taken(pis) + refused| <= ActiveCount(pis) + |refused|
  {
    TakenAtMostActive(pis, spec, now);
    IndexLimitFits(spec);
    UnionSize(Taken(pis), refused);
  }

  lemma UnionSize(a: set<nat>, b: set<nat>)
    ensures |a + b| <= |a| + |b|
  {
    assert a + b == a + (b - a);
    SubsetSize(b - a, b);
  }

  /** The API server refuses a second object of the same name. */
  ghost predicate RefusesDuplicates(s: State, refused: set<nat>)
  {
    forall i: nat, k :: 0 <= k < |s.pis| && s.pis[k].name == InstanceName(s.spec.name, s.spec.template, i, s.clock) ==>
      i in refused
  }

  /** What is created gets an index nobody un-noticed has; without failures it is below the replica count. */
  lemma NewIndicesFresh(s: State, refused: set<nat>)
    requires InstancesInv(s) && SpecOk(s.spec) && |refused| <= Desired(s.spec)
    ensures Increasing(NewIndices(s, refused))
    ensures forall i :: i in NewIndices(s, refused) ==>
      i !in Taken(s.pis) && i !in refused && i < Desired(s.spec) + |refused|
  {
    hide Taken, ActiveCount, InstanceOk, IndexLimit, Allocate;
    if ActiveCount(s.pis) < Desired(s.spec) {
      RefusedRoom(s.pis, s.spec, s.clock, refused);
      NewIndicesSmallestFree(s, refused);
    } else {
      NoIndices();
    }
  }

  /**
    For every int32 replica count: the new indices are all free unless the doubled count overflows and two
    adjacent taken indices are within reach.
  */
  lemma NewIndicesFreshIff(s: State)
    requires InstancesInv(s) && 0 <= Desired(s.spec) < 0x8000_0000
    ensures (forall i :: i in NewIndices(s, {}) ==> i !in Taken(s.pis))
      <==> Desired(s.spec) < 0x4000_0000 || !AdjacentWithin(Taken(s.pis), 0, Desired(s.spec) - ActiveCount(s.pis))
  {
    hide Taken, ActiveCount, InstanceOk, Allocate, AdjacentAt, Free;
    if Desired(s.spec) < 0x4000_0000 {
      NewIndicesFresh(s, {});
    } else {
      OverflowLimit(s.spec);
      if ActiveCount(s.pis) < Desired(s.spec) {
        AllocateOverflows(Taken(s.pis), IndexLimit(s.spec), 0, Desired(s.spec) - ActiveCount(s.pis));
      } else {
        NoneWithin(Taken(s.pis), Desired(s.spec) - ActiveCount(s.pis));
      }
    }
  }

  lemma NoneWithin(taken: set<nat>, needed: int)
    requires needed <= 0
    ensures !AdjacentWithin(taken, 0, needed)
  {
  }

  const HUGE := Spec("job", "template", Some(0x4000_0000), "repo", [], None)

  function RunningAt(i: nat, t: nat): Instance
  {
    var name := InstanceName(HUGE.name, HUGE.template, i, t);
    Instance(name, Some(i), t, false, true, Running, Some(i), name, name, true, false)
  }

  /** Two running instances, and a replica count that overflows when it is doubled. */
  const CROWDED :=
    var pis := [RunningAt(0, 1_500_000_000), RunningAt(1, 1_500_000_000)];
    State(HUGE, pis, map[], [], [], map[], [Vm(pis[0].name, 0, Running), Vm(pis[1].name, 1, Running)],
      1_500_000_001, multiset{}, {})

  lemma CrowdedOk()
    ensures InstancesInv(CROWDED) && Taken(CROWDED.pis) == {0, 1} && ActiveCount(CROWDED.pis) == 2
  {
    hide InstanceName;
    var a, b := CROWDED.pis[0], CROWDED.pis[1];
    NameNotEmpty(HUGE, 0, a.stamp);
    NameNotEmpty(HUGE, 1, b.stamp);
    InstanceNamePrefix(HUGE.name, HUGE.template, 0, a.stamp, 1, b.stamp);
    assert ActiveCount(CROWDED.pis[..1][..0]) == 0;
    assert CROWDED.pis[..1] == [a];
    assert 0 in Taken(CROWDED.pis) && 1 in Taken(CROWDED.pis) by {
      assert CROWDED.pis[0].index == Some(0) && CROWDED.pis[1].index == Some(1);
    }
  }

  /** There the instance loop hands out an index that is taken. */
  lemma OverflowHandsOutTaken()
    ensures InstancesInv(CROWDED) && exists i :: i in NewIndices(CROWDED, {}) && i in Taken(CROWDED.pis)
  {
    hide Taken, ActiveCount, InstanceOk, Allocate, Free;
    CrowdedOk();
    NothingFree(Taken(CROWDED.pis), 0);
    assert AdjacentAt(Taken(CROWDED.pis), 0, Desired(HUGE) - 2, 0);
    NewIndicesFreshIff(CROWDED);
  }

  lemma WithInstancesKeeps(s: State, refused: set<nat>)
    requires InstancesInv(s) && SpecOk(s.spec) && UnixTime(s.clock)
    requires |refused| <= Desired(s.spec) && RefusesDuplicates(s, refused)
    ensures InstancesInv(WithInstances(s, refused))
  {
    hide NewIndices, InstanceName, Taken, ActiveCount;
    NewIndicesFresh(s, refused);
    var t := WithInstances(s, refused);
    if t != s {
      var ixs := NewIndices(s, refused);
      assert forall k :: 0 <= k < |ixs| ==> ixs[k] in ixs;
      AppendInstances(s, ixs, refused, t);
    }
  }

  /** `t` is `s` with fresh instances at indices that are neither taken nor refused. */
  ghost predicate Appended(s: State, ixs: seq<nat>, refused: set<nat>, t: State)
  {
    && InstancesInv(s) && UnixTime(s.clock) && RefusesDuplicates(s, refused) && Increasing(ixs)
    && (forall k :: 0 <= k < |ixs| ==> ixs[k] !in Taken(s.pis) && ixs[k] !in refused)
    && t == s.(pis := t.pis) && |t.pis| == |s.pis| + |ixs|
    && (forall k :: 0 <= k < |s.pis| ==> t.pis[k] == s.pis[k])
    && (forall k :: |s.pis| <= k < |t.pis| ==> t.pis[k] == FreshInstance(s.spec, ixs[k - |s.pis|], s.clock))
  }

  lemma AppendedNames(s: State, ixs: seq<nat>, refused: set<nat>, t: State, j: nat, k: nat)
    requires Appended(s, ixs, refused, t) && j < k < |t.pis|
    ensures t.pis[j].name != t.pis[k].name
  {
    hide InstanceName, Taken, VmsOwned, DistinctIndices, AllInstancesOk;
    var n := |s.pis|;
    if k >= n {
      assert ixs[k - n] !in refused;
      if j >= n {
        assert ixs[j - n] < ixs[k - n];
        InstanceNameExact(s.spec.name, s.spec.template, ixs[j - n], s.clock, ixs[k - n], s.clock);
      }
    }
  }

  lemma AppendedIndices(s: State, ixs: seq<nat>, refused: set<nat>, t: State, j: nat, k: nat)
    requires Appended(s, ixs, refused, t) && j < k < |t.pis| && !t.pis[j].notice && !t.pis[k].notice
    ensures t.pis[j].index != t.pis[k].index
  {
    hide InstanceName, Taken, VmsOwned, UniqueInstances;
    var n := |s.pis|;
    if k >= n {
      assert ixs[k - n] !in Taken(s.pis);
      if j >= n {
        assert ixs[j - n] < ixs[k - n];
      } else {
        UnnoticedIsTaken(s, j);
        assert InstanceOk(s.pis[j], s.spec, s.clock);
      }
    }
  }

  lemma AppendInstances(s: State, ixs: seq<nat>, refused: set<nat>, t: State)
    requires Appended(s, ixs, refused, t)
    ensures InstancesInv(t)
  {
    hide InstanceName, Taken;
    var n := |s.pis|;
    forall k | 0 <= k < |t.pis| ensures InstanceOk(t.pis[k], t.spec, t.clock) {
      if k >= n {
        NameNotEmpty(s.spec, ixs[k - n], s.clock);
      } else {
        assert InstanceOk(s.pis[k], s.spec, s.clock);
      }
    }
    forall j, k | 0 <= j < k < |t.pis| ensures t.pis[j].name != t.pis[k].name {
      AppendedNames(s, ixs, refused, t, j, k);
    }
    forall j, k | 0 <= j < k < |t.pis| && !t.pis[j].notice && !t.pis[k].notice
      ensures t.pis[j].index != t.pis[k].index
    {
      AppendedIndices(s, ixs, refused, t, j, k);
    }
    forall vm | vm in t.vms ensures exists k :: 0 <= k < |t.pis| && t.pis[k].name == vm.name {
      var k :| 0 <= k < n && s.pis[k].name == vm.name;
      assert t.pis[k] == s.pis[k];
    }
  }

  lemma NameNotEmpty(spec: Spec, i: nat, t: nat)
    ensures InstanceName(spec.name, spec.template, i, t) != ""
  {
  }

  lemma UnnoticedIsTaken(s: State, j: nat)
    requires AllInstancesOk(s.pis, s.spec, s.clock) && j < |s.pis| && !s.pis[j].notice
    ensures s.pis[j].index.value in Taken(s.pis)
  {
    assert InstanceOk(s.pis[j], s.spec, s.clock);
  }

  // ---------- Adoption by prefix ----------

  /** The prefix search of an instance finds no VM but its own. */
  lemma PrefixFindsOwnVm(s: State, k: nat, vm: Vm)
    requires InstancesInv(s) && k < |s.pis| && vm in s.vms && s.pis[k].name <= vm.name
    ensures vm.name == s.pis[k].name
  {
    hide InstanceName;
    var q :| 0 <= q < |s.pis| && s.pis[q].name == vm.name;
    assert InstanceOk(s.pis[k], s.spec, s.clock) && InstanceOk(s.pis[q], s.spec, s.clock);
    InstanceNameExact(s.spec.name, s.spec.template, s.pis[k].index.value, s.pis[k].stamp,
      s.pis[q].index.value, s.pis[q].stamp);
  }

  /** The VMs after a pass of the instance reconciler: the same, or one more with the instance's name. */
  lemma ReconcileVms(s: State, k: nat, f: Faults)
    requires InstancesInv(s) && k < |s.pis| && DocumentedInsert(f)
    ensures var o := Lifecycle.Reconcile(s.pis[k], s.vms, s.nodes, f);
      && o.pi.Some? && StatusOk(o.pi.value) && Grows(s.pis[k], o.pi.value)
      && (o.pi.value.instanceName == "" || o.pi.value.instanceName == o.pi.value.name)
      && DocumentedVms(o.vms) && forall vm :: vm in o.vms ==> vm in s.vms || vm.name == s.pis[k].name
  {
    hide Provision, CheckStatus, InstanceName;
    var pi := s.pis[k];
    assert InstanceOk(pi, s.spec, s.clock);
    NameNotEmpty(s.spec, pi.index.value, pi.stamp);
    ReconcileKeepsStatus(pi, s.vms, s.nodes, f);
    var p := pi.(finalizer := true);
    var q := if p.state == Unset then p.(state := InstanceState.Pending) else p;
    forall vm | vm in s.vms && pi.name <= vm.name ensures vm.name == pi.name {
      PrefixFindsOwnVm(s, k, vm);
    }
    if pi.instanceName == "" {
      InstanceRuns.ProvisionOutcome(q, s.vms, s.nodes, f);
      ProvisionVms(q, s.vms, s.nodes, f);
    } else {
      InstanceRuns.CheckLeavesVms(q, s.vms, s.nodes, f);
    }
  }

  lemma ProvisionVms(pi: Instance, vms: seq<Vm>, nodes: map<string, bool>, f: Faults)
    ensures forall vm :: vm in Provision(pi, vms, nodes, f).vms ==> vm in vms || vm.name == pi.name
  {
    hide WithPrefix;
  }

  lemma InstanceStepKeeps(s: State, k: nat, f: Faults)
    requires InstancesInv(s) && k < |s.pis| && DocumentedInsert(f)
    ensures InstancesInv(InstanceStep(s, k, f))
  {
    hide Lifecycle.Reconcile, InstanceName;
    ReconcileVms(s, k, f);
    var t := InstanceStep(s, k, f);
    assert InstanceOk(s.pis[k], s.spec, s.clock);
    forall j | 0 <= j < |t.pis| ensures InstanceOk(t.pis[j], t.spec, t.clock) {
      assert InstanceOk(s.pis[j], s.spec, s.clock);
    }
    forall vm | vm in t.vms ensures exists q :: 0 <= q < |t.pis| && t.pis[q].name == vm.name {
      if vm in s.vms {
        var q :| 0 <= q < |s.pis| && s.pis[q].name == vm.name;
        assert t.pis[q].name == vm.name;
      } else {
        assert t.pis[k].name == vm.name;
      }
    }
  }
}
