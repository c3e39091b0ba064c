/** From the VM to the Job: what a preemption leads to, one pass of each reconciler after the other. */
module Answers {
  import opened Objects
  import opened Checkpoints
  import opened Restore
  import opened Preemption
  import opened Controller
  import opened Lifecycle
  import opened Observations
  import opened Reactions
  import opened Replacements

  /** The VM of the instance at position `k` is stopping, has terminated or is gone. */
  ghost predicate VmEnds(s: State, k: nat)
  {
    && k < |s.pis| && StatusOk(s.pis[k]) && s.pis[k].instanceName != "" && !s.pis[k].deleting
    && forall vm :: vm in s.vms && vm.name == s.pis[k].instanceName ==> vm.state == Stopping || vm.state == Terminated
  }

  lemma EndNoticed(s: State, k: nat, f: Faults)
    requires VmEnds(s, k) && NoCallFails(f) && UniqueInstances(s.pis)
    ensures var t := InstanceStep(s, k, f);
      && t == s.(pis := t.pis, nodes := t.nodes) && |t.pis| == |s.pis| && UniqueInstances(t.pis)
      && t.pis[k].notice && Grows(s.pis[k], t.pis[k])
      && forall j :: 0 <= j < |s.pis| && j != k ==> t.pis[j] == s.pis[j]
  {
    hide Lifecycle.Reconcile;
    PreemptionNoticed(s.pis[k], s.vms, s.nodes, f);
    OthersUntouched(s, k, f);
    EndKeepsVms(s.pis[k], s.vms, s.nodes, f);
  }

  lemma EndKeepsVms(pi: Instance, vms: seq<Vm>, nodes: map<string, bool>, f: Faults)
    requires StatusOk(pi) && pi.instanceName != "" && !pi.deleting
    ensures var o := Lifecycle.Reconcile(pi, vms, nodes, f); o.vms == vms && o.pi.Some? && Grows(pi, o.pi.value)
  {
    hide FindVm;
  }

  /**
    A replica whose VM ends, with another one alive: after one pass over its instance the next pass of the
    controller replaces its Job, provided nothing is pending, the Job has not been restored before and is not
    being deleted, and some completed checkpoint was not taken of it. Nothing else can hold that up.
  */
  lemma EndedReplicaReplaced(s: State, k: nat, f: Faults, n: string)
    requires VmEnds(s, k) && NoCallFails(f) && UniqueInstances(s.pis)
    requires forall cp :: cp in s.checkpoints ==> cp.phase != InProgress
    requires exists j :: 0 <= j < |s.pis| && j != k && s.pis[j].state == Running && !s.pis[j].notice
    requires n in s.jobs && s.jobs[n].index != None && s.jobs[n].index == s.pis[k].index
    ensures Lookup(AfterPreemption(InstanceStep(s, k, f)).jobs, n) != Some(s.jobs[n]) <==>
      !s.jobs[n].annotated && s.jobs[n].deletedAt == None
      && exists c :: 0 <= c < |s.checkpoints| && CanRestore(s.checkpoints[c], n)
  {
    hide AfterPreemption, InstanceStep, UniqueInstances, CanRestore;
    EndNoticed(s, k, f);
    var t := InstanceStep(s, k, f);
    ReplacedIff(t, n);
    assert OfLost(t, n, t.pis[k]);
    var j :| 0 <= j < |s.pis| && j != k && s.pis[j].state == Running && !s.pis[j].notice;
    assert t.pis[j] == s.pis[j];
  }

  /** With no other replica alive, a restore is launched for every Job named by a pod on its node. */
  lemma EndedLastReplicaLaunches(s: State, k: nat, f: Faults, p: int, n: string)
    requires VmEnds(s, k) && NoCallFails(f) && UniqueInstances(s.pis) && s.pis[k].joined
    requires forall cp :: cp in s.checkpoints ==> cp.phase != InProgress
    requires forall j :: 0 <= j < |s.pis| && j != k && s.pis[j].state == Running ==> s.pis[j].notice
    requires 0 <= p < |s.pods| && s.pods[p].node == s.pis[k].nodeName && PodNames(s.pods[p], n)
    ensures n in AfterPreemption(InstanceStep(s, k, f)).launched
  {
    hide AfterPreemption, InstanceStep, UniqueInstances, PodNames;
    EndNoticed(s, k, f);
    var t := InstanceStep(s, k, f);
    LaunchedIff(t, n);
    assert NodeLost(t.pis, 0, t.pods[p]) by { assert t.pis[k].notice && t.pis[k].nodeName == t.pods[p].node; }
  }

  // ---------- One lost instance ----------

  ghost predicate OnlyLost(pis: seq<Instance>, k: nat)
  {
    k < |pis| && forall j :: 0 <= j < |pis| ==>
      (j == k <==> pis[j].notice || pis[j].state == Stopping || pis[j].state == Terminated)
  }

  lemma {:induction false} OnlyOneHandled(s: State, k: nat, j: nat)
    requires OnlyLost(s.pis, k) && j <= k
    ensures HandleFrom(s, j, {}) == HandleOne(s, s.pis[k], Affected(s, s.pis[k]))
    decreases k - j
  {
    hide Affected, HandleOne;
    if j < k {
      OnlyOneHandled(s, k, j + 1);
    } else {
      assert {} + Affected(s, s.pis[k]) == Affected(s, s.pis[k]);
      NothingPreempted(HandleOne(s, s.pis[k], Affected(s, s.pis[k])), k + 1, Affected(s, s.pis[k]));
    }
  }

  /** The state after the restores of the phase: with the deletions logged and their time gone by. */
  ghost predicate Restoring(s: State, t: State, r: State)
  {
    && r == s.(jobs := t.jobs, deletes := t.deletes, clock := r.clock)
    && r.clock == s.clock + 2 * (|t.deletes| - |s.deletes|)
  }

  /**
    The whole reaction to a single loss with another replica alive: the restores, and then at most one
    checkpoint, exactly if there is no answer yet, and the first live pod off the lost node names a Job that
    may be checkpointed.
  */
  lemma SingleLossExactly(s: State, k: nat)
    requires OnlyLost(s.pis, k) && forall cp :: cp in s.checkpoints ==> cp.phase != InProgress
    requires exists j ::
      0 <= j < |s.pis| && s.pis[j].name != s.pis[k].name && s.pis[j].state == Running && !s.pis[j].notice
    ensures var t := AfterPreemption(s);
      exists r :: Restoring(s, t, r)
        && (Answered(r) ==> t == r)
        && (!Answered(r) ==>
              forall p, job :: FirstAway(s.pods, s.nodes, s.pis[k].nodeName, p) && PodNames(s.pods[p], job) ==>
                t == WithCheckpoint(r, job))
        && ((forall p, job :: FirstAway(s.pods, s.nodes, s.pis[k].nodeName, p) ==> !PodNames(s.pods[p], job)) ==>
              t == r)
  {
    hide HandleOne, Affected, Answered, LivePod, PodNames, WithCheckpoint;
    var u := Affected(s, s.pis[k]);
    OnlyOneHandled(s, k, 0);
    var t, r := HandleOne(s, s.pis[k], u), ProcessCompleted(s, u);
    ReactionIff(s, s.pis[k], u);
    OneHandled(s, s.pis[k], u);
    assert Restoring(s, t, r);
  }

  lemma OneHandled(s: State, pi: Instance, u: set<string>)
    requires exists k :: 0 <= k < |s.pis| && s.pis[k].name != pi.name && s.pis[k].state == Running && !s.pis[k].notice
    ensures Restoring(s, HandleOne(s, pi, u), ProcessCompleted(s, u))
  {
    hide JobAfter, Deleted, FirstAlive, AlreadyHandled, Added;
    OthersAliveCount(s.pis, pi.name);
    assert |multiset(Deleted(s, u))| == |Deleted(s, u)|;
  }
}
