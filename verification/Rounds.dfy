/** A pass and whatever the environment does until the next one; what the creating phases amount to. */
module Rounds {
  import opened Names
  import opened Objects
  import opened Checkpoints
  import opened Restore
  import opened InstanceAllocation
  import opened JobFilling
  import opened Controller
  import opened Lifecycle
  import opened Invariants
  import opened JobInvariants
  import opened Runs

  // ---------- Between two passes ----------

  predicate Serving(pi: Instance)
  {
    Active(pi) && (pi.joined ==> pi.state == Running && pi.nodeName != "")
  }

  predicate Lost(pi: Instance)
  {
    pi.state == Stopping || pi.state == Terminated
  }

  /** A live instance gets ahead at its own pace and keeps its node; a noticed one stays lost. */
  ghost predicate Comes(pi: Instance, later: Instance)
  {
    && later.name == pi.name && later.index == pi.index && later.stamp == pi.stamp && later.notice == pi.notice
    && (if pi.notice then Lost(later) && later.nodeName == pi.nodeName
        else Serving(later) && (pi.joined ==> later.joined && later.nodeName == pi.nodeName))
  }

  ghost predicate Up(pi: Instance)
  {
    !pi.notice ==> pi.joined
  }

  ghost predicate AllUp(pis: seq<Instance>)
  {
    forall k :: 0 <= k < |pis| ==> Up(pis[k])
  }

  /** A Job that is not being deleted and takes its index. */
  predicate Counts(job: Job)
  {
    job.active > 0 || job.succeeded > 0 || job.annotated
  }

  ghost predicate Evolves(job: Job, later: Job)
  {
    later == job.(active := later.active, succeeded := later.succeeded)
  }

  /** The Job controller acknowledges a Job, unless it has lost its node. */
  ghost predicate Acknowledged(lost: set<string>, o: string, job: Job, later: Job)
  {
    Evolves(job, later) && (o !in lost ==> Counts(later))
  }

  /** A checkpoint in progress goes on or completes and reports its images; an ended one stays as it is. */
  ghost predicate Completes(cp: Checkpoint, later: Checkpoint)
  {
    CheckpointEvolves(cp, later) && (InFlight(later) || Restorable(later) || later == cp)
  }

  /** A checkpoint goes on or ends, with its images or failing; an ended one stays as it is. */
  ghost predicate Ends(cp: Checkpoint, later: Checkpoint)
  {
    CheckpointEvolves(cp, later) && (Successful(later) ==> later == cp || |Images(later)| > 0)
  }

  /**
    The environment between two passes. Any number of instances join and any number of checkpoints end,
    possibly none; of the Jobs only those of `lost` may stop counting. Pods, nodes and VMs are arbitrary.
  */
  ghost predicate Drifts(s: State, m: State, lost: set<string>)
  {
    && m.spec == s.spec && s.clock < m.clock && m.deletes == s.deletes && m.launched == s.launched
    && |m.pis| == |s.pis| && (forall k :: 0 <= k < |s.pis| ==> Comes(s.pis[k], m.pis[k]))
    && m.jobs.Keys == s.jobs.Keys && (forall o :: o in s.jobs ==> Acknowledged(lost, o, s.jobs[o], m.jobs[o]))
    && |m.checkpoints| == |s.checkpoints|
    && (forall k :: 0 <= k < |s.checkpoints| ==> Ends(s.checkpoints[k], m.checkpoints[k]))
  }

  /** Besides, no checkpoint fails. */
  ghost predicate Advances(s: State, m: State, lost: set<string>)
  {
    && Drifts(s, m, lost)
    && (forall k :: 0 <= k < |s.checkpoints| ==> Completes(s.checkpoints[k], m.checkpoints[k]))
  }

  /** One round: a pass, then whatever the environment does by the next one. */
  ghost predicate Round(s: State, m: State, lost: set<string>)
  {
    Advances(Pass(s, {}, {}), m, lost)
  }

  /** A round in which checkpoints may fail and Jobs may be refused. */
  ghost predicate RoughRound(s: State, m: State, lost: set<string>)
  {
    exists noJob :: Drifts(Pass(s, {}, noJob), m, lost)
  }

  // ---------- A fair environment ----------

  /** Every live instance joins some time. */
  ghost predicate AllJoin(r: nat -> State)
  {
    forall k: nat, j :: 0 <= j < |r(k).pis| ==> JoinsLater(r, k, j)
  }

  ghost predicate JoinsLater(r: nat -> State, k: nat, j: nat)
  {
    exists e: nat :: e >= k && j < |r(e).pis| && Up(r(e).pis[j])
  }

  /** Every checkpoint ends some time. */
  ghost predicate AllEnd(r: nat -> State)
  {
    forall k: nat, c :: 0 <= c < |r(k).checkpoints| ==> EndsLater(r, k, c)
  }

  ghost predicate EndsLater(r: nat -> State, k: nat, c: nat)
  {
    exists e: nat :: e >= k && c < |r(e).checkpoints| && !InFlight(r(e).checkpoints[c])
  }

  // ---------- What the instance reconciler contributes ----------

  /** No VM but the instance's own has its name as a prefix, and that one is not on its way out. */
  ghost predicate OwnVmRuns(pi: Instance, vms: seq<Vm>)
  {
    && (forall vm :: vm in vms && pi.name <= vm.name ==>
          vm.name == pi.name && (vm.state == Running || (vm.state == Provisioning && !pi.joined)))
    && (pi.instanceName != "" ==> Has(vms, pi.name))
  }

  /** While its VM is there, a live instance comes along in every pass of its reconciler, whatever call fails. */
  lemma LiveInstanceComes(pi: Instance, vms: seq<Vm>, nodes: map<string, bool>, f: Faults)
    requires StatusOk(pi) && !pi.notice && pi.name != "" && Serving(pi)
    requires pi.instanceName == "" || pi.instanceName == pi.name
    requires OwnVmRuns(pi, vms)
    ensures var later := Lifecycle.Reconcile(pi, vms, nodes, f).pi; later.Some? && Comes(pi, later.value)
  {
    hide WithPrefix, FindVm;
    WithPrefixExact(vms, pi.name);
    assert forall k :: 0 <= k < |WithPrefix(vms, pi.name)| ==> WithPrefix(vms, pi.name)[k] in WithPrefix(vms, pi.name);
    assert FindVm(vms, pi.name).Some? ==> FindVm(vms, pi.name).value in vms;
  }

  /** A noticed instance whose VM is stopping, terminated or gone stays lost in every pass of its reconciler. */
  lemma LostInstanceComes(pi: Instance, vms: seq<Vm>, nodes: map<string, bool>, f: Faults)
    requires StatusOk(pi) && pi.notice && Lost(pi) && !pi.deleting && pi.instanceName == pi.name
    requires forall vm :: vm in vms && vm.name == pi.name ==> vm.state == Stopping || vm.state == Terminated
    ensures var later := Lifecycle.Reconcile(pi, vms, nodes, f).pi; later.Some? && Comes(pi, later.value)
  {
    hide WithPrefix, FindVm;
    assert FindVm(vms, pi.name).Some? ==> FindVm(vms, pi.name).value in vms;
  }

  /** One pass of the instance reconciler brings an instance up once its VM runs and its node is there. */
  lemma InstanceJoins(pi: Instance, vms: seq<Vm>, nodes: map<string, bool>, id: nat)
    requires StatusOk(pi) && !pi.notice && Serving(pi) && pi.name != ""
    requires pi.instanceName == "" || pi.instanceName == pi.name
    requires forall vm :: vm in vms ==> (pi.name <= vm.name <==> vm == Vm(pi.name, id, Running))
    requires Vm(pi.name, id, Running) in vms && pi.name in nodes
    ensures forall f: Faults :: NoCallFails(f) ==>
      var later := Lifecycle.Reconcile(pi, vms, nodes, f).pi;
      later.Some? && Comes(pi, later.value) && Up(later.value) && later.value.nodeName == pi.name
  {
    hide WithPrefix, FindVm;
    WithPrefixExact(vms, pi.name);
    var own := Vm(pi.name, id, Running);
    assert own in WithPrefix(vms, pi.name);
    assert WithPrefix(vms, pi.name)[0] in WithPrefix(vms, pi.name);
    assert Has(vms, pi.name);
    assert FindVm(vms, pi.name).value in vms;
  }

  // ---------- The fleet ----------

  /** Every instance has an index below `n`; the live ones have distinct indices, the noticed ones are gone. */
  ghost predicate FleetOk(pis: seq<Instance>, n: nat)
  {
    && (forall k :: 0 <= k < |pis| ==> MemberOk(pis[k], n))
    && DistinctIndices(pis)
  }

  ghost predicate MemberOk(pi: Instance, n: nat)
  {
    && pi.index.Some? && pi.index.value < n
    && (if pi.notice then Lost(pi) else Serving(pi))
  }

  /** Every index below `n` has a live instance. */
  ghost predicate Staffed(pis: seq<Instance>, n: nat)
  {
    forall i: nat {:trigger i in Taken(pis)} :: i < n ==> i in Taken(pis)
  }

  lemma StaffedExact(pis: seq<Instance>, n: nat)
    requires FleetOk(pis, n)
    ensures Staffed(pis, n) <==> Taken(pis) == Range(0, n)
  {
    hide Taken, FleetOk;
    LiveCount(pis, n);
    assert Staffed(pis, n) ==> forall i: nat :: i in Range(0, n) ==> i in Taken(pis);
    assert Taken(pis) == Range(0, n) ==> forall i: nat :: i < n ==> i in Taken(pis);
  }

  lemma InRange(n: nat)
    ensures forall i: nat :: i in Range(0, n) <==> i < n
  {
  }

  lemma LastNotTaken(pis: seq<Instance>, n: nat)
    requires FleetOk(pis, n) && pis != [] && !pis[|pis| - 1].notice
    ensures pis[|pis| - 1].index.Some? && pis[|pis| - 1].index.value !in Taken(pis[..|pis| - 1])
  {
    var k := |pis| - 1;
    assert forall j :: 0 <= j <= k ==> MemberOk(pis[j], n);
    assert forall j :: 0 <= j < k ==> pis[..k][j] == pis[j];
  }

  lemma FleetInit(pis: seq<Instance>, n: nat)
    requires FleetOk(pis, n) && pis != []
    ensures FleetOk(pis[..|pis| - 1], n) && MemberOk(pis[|pis| - 1], n)
  {
    hide MemberOk;
  }

  lemma {:induction false} LiveCount(pis: seq<Instance>, n: nat)
    requires FleetOk(pis, n)
    ensures ActiveCount(pis) == |Taken(pis)| && Taken(pis) <= Range(0, n)
  {
    hide Range, Taken, FleetOk;
    if pis == [] {
      TakenNone();
    } else {
      FleetInit(pis, n);
      LiveCount(pis[..|pis| - 1], n);
      TakenSnoc(pis);
      if !pis[|pis| - 1].notice { LastNotTaken(pis, n); }
    }
  }

  function Elements(ixs: seq<nat>): set<nat>
  {
    set i | i in ixs
  }

  lemma {:induction false} IncreasingSize(ixs: seq<nat>)
    requires Increasing(ixs)
    ensures |Elements(ixs)| == |ixs|
  {
    if ixs != [] {
      var k := |ixs| - 1;
      var init := ixs[..k];
      IncreasingSize(init);
      assert Elements(ixs) == Elements(init) + {ixs[k]};
    } else {
      assert Elements(ixs) == {};
    }
  }

  lemma FillsRange(ixs: seq<nat>, taken: set<nat>, n: nat)
    requires Increasing(ixs) && taken <= Range(0, n) && |ixs| == n - |taken|
    requires forall i :: i in ixs ==> i < n && i !in taken
    ensures Elements(ixs) == Range(0, n) - taken
  {
    hide Range;
    IncreasingSize(ixs);
    assert Elements(ixs) <= Range(0, n) - taken;
    SubsetSize(taken, Range(0, n));
    assert |Range(0, n) - taken| == |Range(0, n)| - |taken|;
    SubsetSize(Elements(ixs), Range(0, n) - taken);
  }

  /** With successful creations the missing indices below the replica count are filled, all of them at once. */
  lemma MissingInstances(s: State, n: nat)
    requires FleetOk(s.pis, n) && Desired(s.spec) == n && SpecOk(s.spec)
    ensures Increasing(NewIndices(s, {}))
    ensures Elements(NewIndices(s, {})) == Range(0, n) - Taken(s.pis)
  {
    hide Range, Taken, ActiveCount, Allocate, IndexLimit;
    LiveCount(s.pis, n);
    SubsetSize(Taken(s.pis), Range(0, n));
    var ixs := NewIndices(s, {});
    assert Taken(s.pis) + {} == Taken(s.pis);
    if ActiveCount(s.pis) < n {
      IndexLimitFits(s.spec);
      NewIndicesSmallestFree(s, {});
      FillsRange(ixs, Taken(s.pis), n);
    } else {
      NoIndices();
      FillsRange(ixs, Taken(s.pis), n);
    }
  }

  /** `all` is the fleet with fresh instances at every index that was missing. */
  ghost predicate Filled(s: State, n: nat, ixs: seq<nat>, all: seq<Instance>)
  {
    && FleetOk(s.pis, n) && Increasing(ixs) && Elements(ixs) == Range(0, n) - Taken(s.pis)
    && |all| == |s.pis| + |ixs|
    && (forall k :: 0 <= k < |s.pis| ==> all[k] == s.pis[k])
    && (forall k :: |s.pis| <= k < |all| ==> all[k] == FreshInstance(s.spec, ixs[k - |s.pis|], s.clock))
  }

  lemma FilledMember(s: State, n: nat, ixs: seq<nat>, all: seq<Instance>, k: nat)
    requires Filled(s, n, ixs, all) && k < |all|
    ensures MemberOk(all[k], n)
    ensures k >= |s.pis| ==> all[k].index == Some(ixs[k - |s.pis|]) && ixs[k - |s.pis|] !in Taken(s.pis)
  {
    hide InstanceName, Taken, Range, DistinctIndices;
    if k < |s.pis| {
      assert MemberOk(s.pis[k], n);
    } else {
      assert ixs[k - |s.pis|] in Elements(ixs);
    }
  }

  lemma FilledDistinct(s: State, n: nat, ixs: seq<nat>, all: seq<Instance>, j: nat, k: nat)
    requires Filled(s, n, ixs, all) && j < k < |all| && !all[j].notice && !all[k].notice
    ensures all[j].index != all[k].index
  {
    hide InstanceName, Elements, Range;
    FilledMember(s, n, ixs, all, k);
    FilledMember(s, n, ixs, all, j);
    var c := |s.pis|;
    if k >= c {
      if j >= c {
        assert ixs[j - c] < ixs[k - c];
      } else {
        assert s.pis[j].index.value in Taken(s.pis);
      }
    }
  }

  lemma FilledTaken(s: State, n: nat, ixs: seq<nat>, all: seq<Instance>, i: nat)
    requires Filled(s, n, ixs, all) && i < n
    ensures i in Taken(all)
  {
    hide InstanceName, Range, DistinctIndices, FleetOk, Increasing;
    var c := |s.pis|;
    if i in Taken(s.pis) {
      var j :| 0 <= j < c && !Preempted(s.pis[j]) && s.pis[j].index.Some? && s.pis[j].index.value == i;
      assert all[j] == s.pis[j];
    } else {
      assert i in Elements(ixs);
      var k :| 0 <= k < |ixs| && ixs[k] == i;
      assert all[c + k] == FreshInstance(s.spec, i, s.clock);
    }
  }

  /** Afterwards every index below `n` has exactly one live instance. */
  lemma FleetGrows(s: State, n: nat, ixs: seq<nat>, all: seq<Instance>)
    requires Filled(s, n, ixs, all)
    ensures FleetOk(all, n) && Taken(all) == Range(0, n)
  {
    hide Filled, Range, Taken, MemberOk;
    forall k | 0 <= k < |all| ensures MemberOk(all[k], n) {
      FilledMember(s, n, ixs, all, k);
    }
    forall j, k | 0 <= j < k < |all| && !all[j].notice && !all[k].notice ensures all[j].index != all[k].index {
      FilledDistinct(s, n, ixs, all, j, k);
    }
    LiveCount(all, n);
    forall i | i in Range(0, n) ensures i in Taken(all) {
      FilledTaken(s, n, ixs, all, i);
    }
  }

  lemma FleetComes(pis: seq<Instance>, later: seq<Instance>, n: nat)
    requires FleetOk(pis, n) && |later| == |pis| && forall k :: 0 <= k < |pis| ==> Comes(pis[k], later[k])
    ensures FleetOk(later, n) && Taken(later) == Taken(pis)
  {
    forall k | 0 <= k < |pis| ensures MemberOk(later[k], n) && (Preempted(later[k]) <==> Preempted(pis[k])) {
      assert MemberOk(pis[k], n) && Comes(pis[k], later[k]);
    }
  }

  // ---------- The Jobs ----------

  ghost predicate JobFits(job: Job, n: nat)
  {
    job.index.Some? && job.index.value < n && job.deletedAt.None?
  }

  ghost predicate JobsFit(jobs: map<string, Job>, n: nat)
  {
    forall o :: o in jobs ==> JobFits(jobs[o], n)
  }

  ghost predicate AllCount(jobs: map<string, Job>, lost: set<string>)
  {
    forall o :: o in jobs && o !in lost ==> Counts(jobs[o])
  }

  /** No Job carries the current time in its name. */
  ghost predicate StampsPast(jobs: map<string, Job>, now: int)
  {
    forall o :: o in jobs ==> jobs[o].stamp < now
  }

  lemma JobsInRange(jobs: map<string, Job>, n: nat, now: int)
    requires JobsFit(jobs, n)
    ensures TakenByJobs(jobs, now) <= Range(0, n)
    ensures forall i :: i in TakenByJobs(jobs, now) <==>
      exists o :: o in jobs && jobs[o].index == Some(i) && Counts(jobs[o])
  {
    forall i | i in TakenByJobs(jobs, now) ensures i in Range(0, n) {
      var o :| o in jobs && Counted(jobs[o], now) && jobs[o].index.value == i;
      assert JobFits(jobs[o], n);
    }
    forall i | i in TakenByJobs(jobs, now)
      ensures exists o :: o in jobs && jobs[o].index == Some(i) && Counts(jobs[o])
    {
      var o :| o in jobs && Counted(jobs[o], now) && jobs[o].index.value == i;
      assert JobFits(jobs[o], n);
    }
    forall i, o | o in jobs && jobs[o].index == Some(i) && Counts(jobs[o]) ensures i in TakenByJobs(jobs, now) {
      assert JobFits(jobs[o], n) && Counted(jobs[o], now);
    }
  }

  lemma ReadyIsTaken(pis: seq<Instance>, n: nat, i: nat)
    requires FleetOk(pis, n) && Ready(pis, i)
    ensures i < n && i in Taken(pis)
  {
    hide FirstActive;
    var gate := FirstActive(pis, i).value;
    var k :| 0 <= k < |pis| && pis[k] == gate;
    assert MemberOk(pis[k], n);
  }

  lemma NoneRefusedTaken(s: State, noJob: set<nat>, i: nat)
    requires i in NewJobIndices(s, noJob)
    ensures i !in TakenByJobs(s.jobs, s.clock) && Ready(s.pis, i)
  {
    hide Eligible, TakenByJobs, Ready, IndexLimit;
    NewJobIndexIff(s, noJob, i);
  }

  /** A pass creates a Job at every index below the replica count that lacks one and whose instance has joined. */
  lemma MissingJobs(s: State, n: nat)
    requires FleetOk(s.pis, n) && JobsFit(s.jobs, n) && Desired(s.spec) == n && SpecOk(s.spec)
    ensures forall i: nat :: i in NewJobIndices(s, {}) <==>
      i < n && i !in TakenByJobs(s.jobs, s.clock) && Ready(s.pis, i)
  {
    hide Range, TakenByJobs, Ready, Eligible, IndexLimit, FleetOk, JobsFit;
    var taken := TakenByJobs(s.jobs, s.clock);
    JobsInRange(s.jobs, n, s.clock);
    SubsetSize(taken, Range(0, n));
    NewJobIndicesFirst(s, {});
    IndexLimitFits(s.spec);
    var ixs := NewJobIndices(s, {});
    forall i: nat | Fillable(s.pis, taken, {}, i) ensures i < n {
      ReadyIsTaken(s.pis, n, i);
    }
    if |ixs| == n - |taken| {
      FillsRange(ixs, taken, n);
      assert forall i :: i in Elements(ixs) ==> i in ixs;
    }
    assert forall i: nat :: i < n && Fillable(s.pis, taken, {}, i) ==> i in ixs;
  }

  /** A name the pass generates is not in use. */
  lemma NewNameFree(s: State, i: nat)
    requires JobsOk(s) && StampsPast(s.jobs, s.clock)
    ensures JobName(s.spec.name, i, s.clock) !in s.jobs
  {
    hide JobName;
    forall o | o in s.jobs ensures o != JobName(s.spec.name, i, s.clock) {
      assert JobOk(o, s.jobs[o], s.spec, s.clock);
      if o == JobName(s.spec.name, i, s.clock) {
        JobNameInjective(s.spec.name, i, s.clock, s.jobs[o].index.value, s.jobs[o].stamp);
      }
    }
  }

  lemma DriftsKeepJobs(s: State, m: State, lost: set<string>)
    requires JobsInv(s) && Drifts(s, m, lost)
    ensures JobsInv(m) && StampsPast(m.jobs, m.clock)
  {
    hide JobName, Spent, Comes, Counts;
    forall o | o in m.jobs ensures JobOk(o, m.jobs[o], m.spec, m.clock) && m.jobs[o].stamp < m.clock {
      assert JobOk(o, s.jobs[o], s.spec, s.clock) && Acknowledged(lost, o, s.jobs[o], m.jobs[o]);
    }
    forall o | o in m.deletes
      ensures m.deletes[o] == 1 && Spent(o, m.spec, m.clock) && (o in m.jobs ==> m.jobs[o].annotated)
    {
      SpentLater(o, s.spec, s.clock, m.clock);
      assert o in m.jobs ==> Acknowledged(lost, o, s.jobs[o], m.jobs[o]);
    }
    assert forall k :: 0 <= k < |s.checkpoints| ==> Ends(s.checkpoints[k], m.checkpoints[k]);
  }

  // ---------- Nothing missing ----------

  ghost predicate Complete(s: State, n: nat)
  {
    && FleetOk(s.pis, n) && JobsFit(s.jobs, n) && Desired(s.spec) == n && !HasPending(s.checkpoints)
    && Staffed(s.pis, n) && TakenByJobs(s.jobs, s.clock) == Range(0, n)
  }

  /** Once every index has its instance and its Job, a pass creates nothing. */
  lemma NothingMissing(s: State, n: nat, noInstance: set<nat>, noJob: set<nat>)
    requires Complete(s, n)
    ensures WithJobs(AfterInstances(s, noInstance), noJob) == s
  {
    hide Range, TakenByJobs, Taken, ActiveCount, Eligible, JobsFit;
    StaffedExact(s.pis, n);
    LiveCount(s.pis, n);
    assert NewIndices(s, noInstance) == [];
    assert s.pis + FreshInstances(s.spec, [], s.clock) == s.pis;
    assert NewJobIndices(s, noJob) == [];
    NoJobs(s.jobs, s.spec, s.pis, s.clock);
  }

  /** A pass changes nothing, whatever creations would be refused. */
  ghost predicate AtRest(s: State)
  {
    forall noInstance, noJob :: Pass(s, noInstance, noJob) == s
  }

  // ---------- When the creation of an instance is refused ----------

  /**
    The indices that a pass gives to new instances are all below the replica count exactly when none of those
    that are missing is refused.
  */
  lemma RefusedCreationIff(s: State, n: nat, refused: set<nat>)
    requires FleetOk(s.pis, n) && Desired(s.spec) == n && SpecOk(s.spec) && |refused| <= n
    ensures (forall j :: j in NewIndices(s, refused) ==> j < n) <==> refused !! Range(0, n) - Taken(s.pis)
    ensures |NewIndices(s, refused)| == n - |Taken(s.pis)|
    ensures forall j :: j in NewIndices(s, refused) ==> j !in Taken(s.pis) && j !in refused
  {
    hide Range, Taken, ActiveCount, Allocate, IndexLimit, FleetOk;
    var taken, ixs := Taken(s.pis), NewIndices(s, refused);
    LiveCount(s.pis, n);
    InRange(n);
    SubsetSize(taken, Range(0, n));
    RefusedIndices(s, n, refused);
    if forall j :: j in ixs ==> j < n {
      FillsRange(ixs, taken, n);
      assert forall j :: j in Elements(ixs) ==> j in ixs;
    }
    if refused !! Range(0, n) - taken {
      NoneBeyond(s, n, refused);
    }
  }

  lemma RefusedIndices(s: State, n: nat, refused: set<nat>)
    requires ActiveCount(s.pis) == |Taken(s.pis)| <= n && Desired(s.spec) == n && SpecOk(s.spec) && |refused| <= n
    ensures SmallestFree(NewIndices(s, refused), Taken(s.pis) + refused, 0, n - |Taken(s.pis)|)
  {
    hide Taken, ActiveCount, Allocate, IndexLimit;
    IndexLimitFits(s.spec);
    UnionSize(Taken(s.pis), refused);
    NewIndicesSmallestFree(s, refused);
    if ActiveCount(s.pis) == n { assert NewIndices(s, refused) == []; }
  }

  /** A missing index is not passed over, so with an index beyond there would be one too many. */
  lemma NoneBeyond(s: State, n: nat, refused: set<nat>)
    requires Taken(s.pis) <= Range(0, n) && |Taken(s.pis)| <= n && refused !! Range(0, n) - Taken(s.pis)
    requires SmallestFree(NewIndices(s, refused), Taken(s.pis) + refused, 0, n - |Taken(s.pis)|)
    ensures forall j :: j in NewIndices(s, refused) ==> j < n
  {
    hide Range, Taken, NewIndices, SmallestFree;
    SmallestFreeCount(NewIndices(s, refused), Taken(s.pis) + refused, n - |Taken(s.pis)|);
    forall j | j in NewIndices(s, refused) ensures j < n {
      if j >= n { OneTooMany(NewIndices(s, refused), Taken(s.pis), refused, n, j); }
    }
  }

  lemma SmallestFreeCount(ixs: seq<nat>, blocked: set<nat>, n: nat)
    requires SmallestFree(ixs, blocked, 0, n)
    ensures |ixs| == n
  {
  }

  lemma OneTooMany(ixs: seq<nat>, taken: set<nat>, refused: set<nat>, n: nat, j: nat)
    requires taken <= Range(0, n) && |taken| <= n && refused !! Range(0, n) - taken
    requires SmallestFree(ixs, taken + refused, 0, |ixs|) && j in ixs && j >= n
    ensures |ixs| > n - |taken|
  {
    hide Range;
    InRange(n);
    var k :| 0 <= k < |ixs| && ixs[k] == j;
    forall i | i in Range(0, n) - taken ensures i in Elements(ixs) - {j} {
      assert i < ixs[k] && i !in taken + refused;
    }
    IncreasingSize(ixs);
    SubsetSize(Range(0, n) - taken, Elements(ixs) - {j});
    SubsetSize(taken, Range(0, n));
  }

  lemma {:induction false} FreshCount(pis: seq<Instance>, added: seq<Instance>)
    requires forall k :: 0 <= k < |added| ==> Active(added[k])
    ensures ActiveCount(pis + added) == ActiveCount(pis) + |added|
  {
    if added == [] {
      assert pis + added == pis;
    } else {
      var k := |added| - 1;
      FreshCount(pis, added[..k]);
      assert (pis + added)[..|pis + added| - 1] == pis + added[..k];
    }
  }

  /**
    A missing index whose creation has been refused stays without an instance: the substitute beyond the
    replica count makes the fleet complete, and no later pass creates anything until another instance is lost.
  */
  lemma RefusedStaysMissing(s: State, n: nat, refused: set<nat>, i: nat)
    requires FleetOk(s.pis, n) && Desired(s.spec) == n && SpecOk(s.spec) && |refused| <= n
    requires !HasPending(s.checkpoints) && i < n && i !in Taken(s.pis) && i in refused
    ensures var t := WithInstances(s, refused);
      i !in Taken(t.pis) && (exists j :: j in NewIndices(s, refused) && j >= n)
      && forall u: State, again :: u.pis == t.pis && u.spec == t.spec ==> NewIndices(u, again) == []
  {
    hide Range, Taken, NewIndices, ActiveCount, FleetOk, InstanceName;
    var ixs := NewIndices(s, refused);
    LiveCount(s.pis, n);
    InRange(n);
    RefusedCreationIff(s, n, refused);
    var added := FreshInstances(s.spec, ixs, s.clock);
    FreshCount(s.pis, added);
    NotAmongThem(s.pis, added, ixs, s, i);
    FullCreatesNothing(WithInstances(s, refused), n);
  }

  /** Two replicas, of which the first has been lost. */
  const ONE_LOST := CROWDED.(
    spec := HUGE.(replicas := Some(2)),
    pis := [CROWDED.pis[0].(state := Terminated, notice := true), CROWDED.pis[1]])

  /** One refusal is enough: index 2 gets an instance, and index 0 never again. */
  lemma OneRefusalIsEnough()
    ensures var t := WithInstances(ONE_LOST, {0});
      0 !in Taken(t.pis) && (exists j :: j in NewIndices(ONE_LOST, {0}) && j >= 2)
      && forall u: State, again :: u.pis == t.pis && u.spec == t.spec ==> NewIndices(u, again) == []
  {
    hide InstanceName, NewIndices;
    NameNotEmpty(HUGE, 1, ONE_LOST.pis[1].stamp);
    assert FleetOk(ONE_LOST.pis, 2) by {
      assert MemberOk(ONE_LOST.pis[0], 2) && MemberOk(ONE_LOST.pis[1], 2);
    }
    assert 0 !in Taken(ONE_LOST.pis);
    RefusedStaysMissing(ONE_LOST, 2, {0}, 0);
  }

  lemma NotAmongThem(pis: seq<Instance>, added: seq<Instance>, ixs: seq<nat>, s: State, i: nat)
    requires i !in Taken(pis) && i !in ixs && added == FreshInstances(s.spec, ixs, s.clock)
    ensures i !in Taken(pis + added)
  {
    hide InstanceName;
    var all := pis + added;
    assert forall k :: 0 <= k < |ixs| ==> ixs[k] in ixs;
    forall k | 0 <= k < |all| && !Preempted(all[k]) ensures all[k].index != Some(i) {
      assert k < |pis| ==> all[k] == pis[k];
    }
  }

  lemma FullCreatesNothing(s: State, n: nat)
    requires ActiveCount(s.pis) >= n && Desired(s.spec) == n
    ensures forall u: State, again :: u.pis == s.pis && u.spec == s.spec ==> NewIndices(u, again) == []
  {
    hide ActiveCount;
  }

  // ---------- What creation amounts to ----------

  ghost predicate CanGrow(s: State, n: nat)
  {
    && FleetOk(s.pis, n) && JobsFit(s.jobs, n) && JobsOk(s) && StampsPast(s.jobs, s.clock)
    && Desired(s.spec) == n && SpecOk(s.spec) && !HasPending(s.checkpoints)
  }

  ghost predicate FleetGrown(s: State, t: State, n: nat)
  {
    && FleetOk(t.pis, n) && Staffed(t.pis, n)
    && |s.pis| <= |t.pis| && (forall k :: 0 <= k < |s.pis| ==> t.pis[k] == s.pis[k])
    && (forall k :: |s.pis| <= k < |t.pis| ==>
          t.pis[k].index.Some? && t.pis[k] == FreshInstance(s.spec, t.pis[k].index.value, s.clock))
    && (Staffed(s.pis, n) ==> t.pis == s.pis)
  }

  ghost predicate NewcomerOk(s: State, t: State, o: string, n: nat)
    requires o in t.jobs
  {
    && t.jobs[o].index.Some? && t.jobs[o].index.value < n && t.jobs[o].index.value !in TakenByJobs(s.jobs, s.clock)
    && Ready(t.pis, t.jobs[o].index.value)
    && t.jobs[o] == FreshJob(s.spec, t.pis, t.jobs[o].index.value, s.clock)
    && o == JobName(s.spec.name, t.jobs[o].index.value, s.clock)
  }

  /** Every index has its live instance; fresh Jobs go to ready indices that no Job takes, and nothing else changes. */
  ghost predicate Grown(s: State, t: State, n: nat)
  {
    && t == s.(pis := t.pis, jobs := t.jobs) && FleetGrown(s, t, n)
    && (forall o :: o in s.jobs ==> o in t.jobs && t.jobs[o] == s.jobs[o])
    && (forall o :: o in t.jobs && o !in s.jobs ==> NewcomerOk(s, t, o, n))
  }

  /** Each ready index that no Job takes gets one. */
  ghost predicate FillsReady(s: State, t: State, n: nat)
  {
    forall i: nat :: i < n && Ready(t.pis, i) && i !in TakenByJobs(s.jobs, s.clock) ==>
      exists o :: o in t.jobs && o !in s.jobs && t.jobs[o].index == Some(i)
  }

  lemma FleetGrowth(s: State, n: nat)
    requires CanGrow(s, n)
    ensures var u := AfterInstances(s, {}); u == s.(pis := u.pis) && FleetGrown(s, u, n)
  {
    hide Range, Taken, NewIndices, InstanceName, JobsFit, JobsOk, ActiveCount, Staffed;
    MissingInstances(s, n);
    var u := AfterInstances(s, {});
    FleetGrows(s, n, NewIndices(s, {}), u.pis);
    LiveCount(s.pis, n);
    StaffedExact(s.pis, n);
    StaffedExact(u.pis, n);
    if Staffed(s.pis, n) { NoneMissing(s, n); }
  }

  lemma GrownFleetOk(s: State, t: State, n: nat)
    requires FleetGrown(s, t, n)
    ensures FleetOk(t.pis, n) && Staffed(t.pis, n)
    ensures forall u: State :: u.pis == t.pis ==> FleetGrown(s, u, n)
  {
  }

  lemma NoneMissing(s: State, n: nat)
    requires CanGrow(s, n) && Taken(s.pis) == Range(0, n) && ActiveCount(s.pis) == |Taken(s.pis)|
    ensures AfterInstances(s, {}).pis == s.pis
  {
    hide Range, Taken, ActiveCount, Allocate;
    assert NewIndices(s, {}) == [];
    assert s.pis + FreshInstances(s.spec, [], s.clock) == s.pis;
  }

  /** With successful creations; Jobs may be refused, and then their indices stay as they are. */
  lemma Growth(s: State, n: nat, noJob: set<nat>)
    requires CanGrow(s, n)
    ensures Grown(s, WithJobs(AfterInstances(s, {}), noJob), n)
    ensures noJob == {} ==> FillsReady(s, WithJobs(AfterInstances(s, {}), noJob), n)
  {
    hide Range, Taken, JobName, FreshJob, TakenByJobs, Ready, FleetOk, JobsFit, JobsOk, AfterInstances, FleetGrown;
    FleetGrowth(s, n);
    var u := AfterInstances(s, {});
    GrownFleetOk(s, u, n);
    var t := WithJobs(u, noJob);
    var ixs := NewJobIndices(u, noJob);
    NewJobsExact(u, noJob);
    forall i | i in ixs
      ensures JobName(s.spec.name, i, s.clock) !in s.jobs && i < n && i !in TakenByJobs(s.jobs, s.clock)
      ensures Ready(u.pis, i)
    {
      NewNameFree(s, i);
      NoneRefusedTaken(u, noJob, i);
      ReadyIsTaken(u.pis, n, i);
    }
    forall o | o in t.jobs && o !in s.jobs ensures NewcomerOk(s, t, o, n) {
      var i :| i in ixs && o == JobName(s.spec.name, i, s.clock);
      FreshIndex(s.spec, u.pis, i, s.clock);
    }
    if noJob == {} {
      MissingJobs(u, n);
      forall i: nat | i < n && Ready(t.pis, i) && i !in TakenByJobs(s.jobs, s.clock)
        ensures exists o :: o in t.jobs && o !in s.jobs && t.jobs[o].index == Some(i)
      {
        var o := JobName(s.spec.name, i, s.clock);
        FreshIndex(s.spec, u.pis, i, s.clock);
        assert o in t.jobs && o !in s.jobs && t.jobs[o].index == Some(i);
      }
    }
  }

  /** The gate of an index is open exactly when it has a usable instance. */
  lemma ReadyIsUsable(pis: seq<Instance>, n: nat)
    requires FleetOk(pis, n)
    ensures forall i: nat :: Ready(pis, i) <==> FirstUsable(pis, i).Some?
    ensures forall i: nat :: FirstUsable(pis, i).Some? ==> i in Taken(pis)
  {
    hide FirstActive, FirstUsable;
    forall i: nat | Ready(pis, i) ensures FirstUsable(pis, i).Some? {
      var gate := FirstActive(pis, i).value;
      var j :| 0 <= j < |pis| && pis[j] == gate;
      assert MemberOk(pis[j], n) && Usable(gate, i);
    }
    forall i: nat | FirstUsable(pis, i).Some? ensures Ready(pis, i) && i in Taken(pis) {
      var pi := FirstUsable(pis, i).value;
      var k :| 0 <= k < |pis| && pis[k] == pi;
      var gate := FirstActive(pis, i).value;
      var j :| 0 <= j < |pis| && pis[j] == gate;
      assert MemberOk(pis[k], n) && MemberOk(pis[j], n);
    }
  }

  lemma AllReady(pis: seq<Instance>, n: nat)
    requires AllUp(pis) && FleetOk(pis, n)
    ensures forall i :: i in Taken(pis) ==> Ready(pis, i)
  {
    hide FirstActive, FirstUsable, Ready;
    ReadyIsUsable(pis, n);
    forall i | i in Taken(pis) ensures FirstUsable(pis, i).Some? {
      var k :| 0 <= k < |pis| && !Preempted(pis[k]) && pis[k].index.Some? && pis[k].index.value == i;
      assert pis[k] in pis && Up(pis[k]) && MemberOk(pis[k], n) && Usable(pis[k], i);
    }
  }

  /** A usable instance stays usable, also when others are added. */
  lemma UsableStays(pis: seq<Instance>, later: seq<Instance>, n: nat, i: nat)
    requires FleetOk(pis, n) && |pis| <= |later| && FirstUsable(pis, i).Some?
    requires forall k :: 0 <= k < |pis| ==> Comes(pis[k], later[k])
    ensures FirstUsable(later, i).Some?
  {
    hide FirstUsable;
    var k :| 0 <= k < |pis| && pis[k] == FirstUsable(pis, i).value;
    assert MemberOk(pis[k], n) && Comes(pis[k], later[k]);
    assert later[k] in later && Usable(later[k], i);
  }

  lemma ComesItself(pis: seq<Instance>, n: nat)
    requires FleetOk(pis, n)
    ensures forall k :: 0 <= k < |pis| ==> Comes(pis[k], pis[k])
  {
    forall k | 0 <= k < |pis| ensures Comes(pis[k], pis[k]) {
      assert MemberOk(pis[k], n);
    }
  }

  /** New Jobs are acknowledged and count; the old ones still fit. */
  lemma GrownFits(s: State, t: State, m: State, n: nat, lost: set<string>)
    requires Grown(s, t, n) && FillsReady(s, t, n) && Advances(t, m, lost) && JobsFit(s.jobs, n)
    requires forall o :: o in t.jobs && o !in s.jobs ==> o !in lost
    ensures JobsFit(m.jobs, n) && AllCount(m.jobs, lost)
    ensures forall o :: o in s.jobs ==> o in m.jobs && Acknowledged(lost, o, s.jobs[o], m.jobs[o])
    ensures forall i: nat :: i < n && Ready(t.pis, i) && i !in TakenByJobs(s.jobs, s.clock) ==>
      i in TakenByJobs(m.jobs, m.clock)
  {
    hide JobName, Ready, TakenByJobs, ReplicaLabels, PinnedNode, FleetGrown, Comes, Counts;
    forall o | o in m.jobs ensures JobFits(m.jobs[o], n) {
      assert Acknowledged(lost, o, t.jobs[o], m.jobs[o]);
      assert o in s.jobs ==> JobFits(s.jobs[o], n);
      assert o !in s.jobs ==> NewcomerOk(s, t, o, n);
    }
    assert forall o :: o in t.jobs ==> Acknowledged(lost, o, t.jobs[o], m.jobs[o]);
    JobsInRange(m.jobs, n, m.clock);
  }
}
