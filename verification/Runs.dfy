/** The system of both reconcilers and their environment, and what holds of all its runs. */
module Runs {
  import opened Names
  import opened Objects
  import opened Checkpoints
  import opened Restore
  import opened Preemption
  import opened InstanceAllocation
  import opened JobFilling
  import opened Controller
  import opened Lifecycle
  import opened Invariants
  import opened RestoreSafety
  import opened JobInvariants

  // ---------- Steps ----------

  ghost predicate RefusesDuplicateJobs(s: State, refused: set<nat>)
  {
    forall i: nat :: JobName(s.spec.name, i, s.clock) in s.jobs ==> i in refused
  }

  /** The controller may be refused up to as many creations as there are replicas, duplicates always. */
  ghost predicate Admissible(s: State, noInstance: set<nat>, noJob: set<nat>)
  {
    && |noInstance| <= Desired(s.spec) && RefusesDuplicates(AfterPreemption(s), noInstance)
    && RefusesDuplicateJobs(AfterPreemption(s), noJob)
  }

  /** One pass of the SpotInstanceJob reconciler. */
  ghost predicate ControllerStep(s: State, t: State)
  {
    exists noInstance, noJob :: Admissible(s, noInstance, noJob) && t == Pass(s, noInstance, noJob)
  }

  /** One pass of the ProvisionedInstance reconciler over instance `k`, or the part of it before a crash. */
  ghost predicate InstancePassStep(s: State, t: State)
  {
    exists k: nat, f :: k < |s.pis| && DocumentedInsert(f) && t == InstanceStep(s, k, f)
  }

  /** One asynchronous restore that an earlier pass has launched. */
  ghost predicate AsyncRestoreStep(s: State, t: State)
  {
    exists job :: job in s.launched && LatestRestore(s, job, t)
  }

  /** The Job controller and users: counters change, a Job starts to be deleted, a Job goes. */
  ghost predicate JobsEvolve(jobs: map<string, Job>, later: map<string, Job>)
  {
    forall n :: n in later ==> n in jobs && JobEvolves(jobs[n], later[n])
  }

  ghost predicate JobEvolves(job: Job, later: Job)
  {
    && later == job.(active := later.active, succeeded := later.succeeded, deletedAt := later.deletedAt)
    && (job.deletedAt.Some? ==> later.deletedAt == job.deletedAt)
  }

  /** The checkpoint agent: a checkpoint in progress moves on, one that has ended stays as it is. */
  ghost predicate CheckpointsEvolve(cps: seq<Checkpoint>, later: seq<Checkpoint>)
  {
    |later| == |cps| && forall k :: 0 <= k < |cps| ==> CheckpointEvolves(cps[k], later[k])
  }

  ghost predicate CheckpointEvolves(cp: Checkpoint, later: Checkpoint)
  {
    && later == cp.(phase := later.phase, completionTime := later.completionTime,
                    reported := later.reported, built := later.built)
    && (!InFlight(cp) ==> later == cp)
  }

  /** GCP: VMs change state within the documented alphabet or disappear. */
  ghost predicate VmsEvolve(vms: seq<Vm>, later: seq<Vm>)
  {
    DocumentedVms(later) && forall vm :: vm in later ==> Has(vms, vm.name)
  }

  /** Everything else moves, including the requested number of replicas; pods and nodes are arbitrary. */
  ghost predicate EnvironmentStep(s: State, t: State)
  {
    && t.spec == s.spec.(replicas := t.spec.replicas) && SpecOk(t.spec)
    && t.pis == s.pis && JobsEvolve(s.jobs, t.jobs) && CheckpointsEvolve(s.checkpoints, t.checkpoints)
    && VmsEvolve(s.vms, t.vms) && s.clock <= t.clock
    && t.deletes == s.deletes && t.launched == s.launched
  }

  ghost predicate Step(s: State, t: State)
  {
    UnixTime(t.clock)
    && (ControllerStep(s, t) || InstancePassStep(s, t) || AsyncRestoreStep(s, t) || EnvironmentStep(s, t))
  }

  ghost predicate Initial(s: State)
  {
    && SpecOk(s.spec) && UnixTime(s.clock) && s.pis == [] && s.jobs == map[] && s.checkpoints == []
    && s.vms == [] && s.deletes == multiset{} && s.launched == {}
  }

  ghost predicate Run(r: seq<State>)
  {
    |r| > 0 && Initial(r[0]) && forall k :: 0 <= k < |r| - 1 ==> Step(r[k], r[k + 1])
  }

  // ---------- The invariant is inductive ----------

  ghost predicate Inv(s: State)
  {
    SpecOk(s.spec) && UnixTime(s.clock) && InstancesInv(s) && JobsInv(s)
  }

  lemma LaterClock(s: State, t: State)
    requires InstancesInv(s) && s.clock <= t.clock && t.pis == s.pis
    requires t.spec.name == s.spec.name && t.spec.template == s.spec.template
    requires DocumentedVms(t.vms) && forall vm :: vm in t.vms ==> Has(s.vms, vm.name)
    ensures InstancesInv(t)
  {
    hide InstanceName;
    forall k | 0 <= k < |t.pis| ensures InstanceOk(t.pis[k], t.spec, t.clock) {
      assert InstanceOk(s.pis[k], s.spec, s.clock);
    }
    forall vm | vm in t.vms ensures exists k :: 0 <= k < |t.pis| && t.pis[k].name == vm.name {
      var own :| own in s.vms && own.name == vm.name;
    }
  }

  lemma SameVms(vms: seq<Vm>)
    ensures forall vm :: vm in vms ==> Has(vms, vm.name)
  {
  }

  lemma ClockMonotone(s: State)
    ensures s.clock <= AfterPreemption(s).clock
    ensures SameButJobs(s, AfterPreemption(s))
  {
    hide AllAffected, AfterPreemption;
    PreemptionRestores(s);
  }

  lemma ControllerKeepsInv(s: State, noInstance: set<nat>, noJob: set<nat>)
    requires Inv(s) && Admissible(s, noInstance, noJob) && UnixTime(Pass(s, noInstance, noJob).clock)
    ensures Inv(Pass(s, noInstance, noJob))
  {
    hide AfterPreemption, InstancesInv, JobsInv, NewJobIndices, NewIndices, ActiveCount, RefusesDuplicates,
      RefusesDuplicateJobs;
    var m := AfterPreemption(s);
    ClockMonotone(s);
    SameVms(s.vms);
    InvVms(s);
    LaterClock(s, m);
    PassKeepsJobs(s, noInstance, noJob);
    if !HasPending(m.checkpoints) {
      WithInstancesKeeps(m, noInstance);
    }
    JobsDoNotMatter(AfterInstances(m, noInstance), Pass(s, noInstance, noJob));
  }

  lemma InvVms(s: State)
    requires InstancesInv(s)
    ensures DocumentedVms(s.vms)
  {
  }

  lemma JobsDoNotMatter(s: State, t: State)
    requires InstancesInv(s) && t.pis == s.pis && t.vms == s.vms && t.spec == s.spec && t.clock == s.clock
    ensures InstancesInv(t)
  {
    hide InstanceOk;
  }

  lemma EnvironmentKeepsInv(s: State, t: State)
    requires Inv(s) && EnvironmentStep(s, t) && UnixTime(t.clock)
    ensures Inv(t)
  {
    hide InstancesInv, JobName, Spent;
    LaterClock(s, t);
    forall n | n in t.jobs ensures JobOk(n, t.jobs[n], t.spec, t.clock) {
      assert JobOk(n, s.jobs[n], s.spec, s.clock);
    }
    forall n | n in t.deletes
      ensures t.deletes[n] == 1 && Spent(n, t.spec, t.clock) && (n in t.jobs ==> t.jobs[n].annotated)
    {
      SpentLaterSpec(n, s, t);
    }
    assert forall k :: 0 <= k < |s.checkpoints| ==> CheckpointEvolves(s.checkpoints[k], t.checkpoints[k]);
  }

  lemma SpentLaterSpec(n: string, s: State, t: State)
    requires Spent(n, s.spec, s.clock) && t.spec.name == s.spec.name && s.clock <= t.clock
    ensures Spent(n, t.spec, t.clock)
  {
    hide JobName;
    var i: nat, u: nat :| u < s.clock && n == JobName(s.spec.name, i, u);
    assert u < t.clock && n == JobName(t.spec.name, i, u);
  }

  /** A restore deletes only an un-annotated Job, which was never deleted before. */
  lemma UpdateKeepsInv(s: State, name: string, images: seq<Container>)
    requires Inv(s) && UnixTime(UpdateJob(s, name, images).clock)
    ensures Inv(UpdateJob(s, name, images))
  {
    hide InstancesInv, JobName, Spent, FirstUsable, ImageMap, ReplicaLabels, OneLivePerSource, SourcesKnown;
    var t := UpdateJob(s, name, images);
    SameVms(s.vms);
    InvVms(s);
    LaterClock(s, t);
    if t != s {
      assert JobOk(name, s.jobs[name], s.spec, s.clock);
      NowSpent(name, s.jobs[name], s.spec, s.clock, t.clock);
      forall n | n in t.jobs ensures JobOk(n, t.jobs[n], t.spec, t.clock) {
        assert JobOk(n, s.jobs[n], s.spec, s.clock);
      }
      forall n | n in t.deletes
        ensures t.deletes[n] == 1 && Spent(n, t.spec, t.clock) && (n in t.jobs ==> t.jobs[n].annotated)
      {
        if n != name { SpentLater(n, s.spec, s.clock, t.clock); }
      }
    }
  }

  lemma StepKeepsInv(s: State, t: State)
    requires Inv(s) && Step(s, t)
    ensures Inv(t)
  {
    hide Inv, Pass, UpdateJob, InstanceStep, Admissible;
    if ControllerStep(s, t) {
      var noInstance, noJob :| Admissible(s, noInstance, noJob) && t == Pass(s, noInstance, noJob);
      ControllerKeepsInv(s, noInstance, noJob);
    } else if InstancePassStep(s, t) {
      var k: nat, f :| k < |s.pis| && DocumentedInsert(f) && t == InstanceStep(s, k, f);
      InstancePassKeepsInv(s, k, f);
    } else if AsyncRestoreStep(s, t) {
      var job :| job in s.launched && LatestRestore(s, job, t);
      if t != s {
        var k: nat :| IsLatest(s.checkpoints, k) && t == UpdateJob(s, job, Images(s.checkpoints[k]));
        UpdateKeepsInv(s, job, Images(s.checkpoints[k]));
      }
    } else {
      EnvironmentKeepsInv(s, t);
    }
  }

  lemma InstancePassKeepsInv(s: State, k: nat, f: Faults)
    requires Inv(s) && k < |s.pis| && DocumentedInsert(f)
    ensures Inv(InstanceStep(s, k, f))
  {
    hide Lifecycle.Reconcile, InstancesInv;
    InstanceStepKeeps(s, k, f);
  }

  lemma {:induction false} RunKeepsInv(r: seq<State>, k: nat)
    requires Run(r) && k < |r|
    ensures Inv(r[k])
  {
    hide Step, Inv;
    if k > 0 {
      RunKeepsInv(r, k - 1);
      StepKeepsInv(r[k - 1], r[k]);
    } else {
      InitialInv(r[0]);
    }
  }

  lemma InitialInv(s: State)
    requires Initial(s)
    ensures Inv(s)
  {
  }
}
