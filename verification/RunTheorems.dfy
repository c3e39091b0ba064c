/** Safety over whole runs of the system. */
module RunTheorems {
  import opened Names
  import opened Objects
  import opened Checkpoints
  import opened Restore
  import opened Preemption
  import opened InstanceAllocation
  import opened JobFilling
  import opened Controller
  import opened Lifecycle
  import opened Invariants
  import opened RestoreSafety
  import opened JobInvariants
  import opened Runs

  // ---------- Replica indices ----------

  /**
    In every reachable state, however often the replica count has changed, the instances without a
    preemption notice have pairwise distinct indices, and each has adopted no VM but its own.
  */
  lemma IndicesDistinct(r: seq<State>, k: nat, a: nat, b: nat)
    requires Run(r) && k < |r| && a < b < |r[k].pis|
    ensures r[k].pis[a].name != r[k].pis[b].name
    ensures !r[k].pis[a].notice && !r[k].pis[b].notice ==> r[k].pis[a].index != r[k].pis[b].index
    ensures r[k].pis[a].instanceName != "" ==> r[k].pis[a].instanceName != r[k].pis[b].instanceName
  {
    hide Run, InstanceName;
    RunKeepsInv(r, k);
    assert InstanceOk(r[k].pis[a], r[k].spec, r[k].clock) && InstanceOk(r[k].pis[b], r[k].spec, r[k].clock);
  }

  /** A pass none of whose creations fails gives every new instance an index below the replica count. */
  lemma NewInstancesBelowReplicas(s: State, noJob: set<nat>, k: nat)
    requires Inv(s) && Admissible(s, {}, noJob) && UnixTime(AfterPreemption(s).clock)
    requires |s.pis| <= k < |Pass(s, {}, noJob).pis|
    ensures Pass(s, {}, noJob).pis[k].index.Some? && Pass(s, {}, noJob).pis[k].index.value < Desired(s.spec)
  {
    hide AfterPreemption, NewIndices, InstancesInv, InstanceName, NewJobIndices, AddJobs;
    var m := AfterPreemption(s);
    ClockMonotone(s);
    SameVms(s.vms);
    InvVms(s);
    LaterClock(s, m);
    NewIndicesFresh(m, {});
    var ixs := NewIndices(m, {});
    assert Pass(s, {}, noJob).pis[k] == FreshInstance(m.spec, ixs[k - |s.pis|], m.clock);
    assert ixs[k - |s.pis|] in ixs;
  }

  /**
    Exactly when an index that has Jobs gets another one: when none of them counts, the index is ready, its
    creation is not refused, and fewer indices before it get Jobs than are missing.
  */
  lemma SecondJobIff(s: State, noJob: set<nat>, i: nat)
    requires RefusesDuplicateJobs(s, noJob)
    ensures (exists n :: n in WithJobs(s, noJob).jobs && n !in s.jobs && WithJobs(s, noJob).jobs[n].index == Some(i))
      <==>
        && !HasPending(s.checkpoints) && i < IndexLimit(s.spec) && Ready(s.pis, i) && i !in noJob
        && (forall o :: o in s.jobs && s.jobs[o].index == Some(i) ==> !Counted(s.jobs[o], s.clock))
        && |Eligible(s.pis, TakenByJobs(s.jobs, s.clock), noJob, 0, i)|
             < Desired(s.spec) - |TakenByJobs(s.jobs, s.clock)|
  {
    hide Eligible, Ready, IndexLimit, NewJobIndices, JobName, FreshJob, WithJobs;
    NewJobsExact(s, noJob);
    NewJobIndexIff(s, noJob, i);
    if !HasPending(s.checkpoints) {
      var t, ixs := WithJobs(s, noJob), NewJobIndices(s, noJob);
      forall j | j in ixs ensures FreshJob(s.spec, s.pis, j, s.clock).index == Some(j) && j !in noJob {
        FreshIndex(s.spec, s.pis, j, s.clock);
        NewJobIndexIff(s, noJob, j);
      }
      if i in ixs {
        var n := JobName(s.spec.name, i, s.clock);
        assert n in t.jobs && n !in s.jobs && t.jobs[n].index == Some(i);
      }
      forall n | n in t.jobs && n !in s.jobs && t.jobs[n].index == Some(i) ensures i in ixs {
        var j :| j in ixs && n == JobName(s.spec.name, j, s.clock);
      }
    }
  }

  /** One replica, whose Job has been created and not been acknowledged yet. */
  const UNACKNOWLEDGED :=
    var spec := HUGE.(replicas := Some(1));
    State(spec, [RunningAt(0, 1_500_000_000)],
      map[JobName(spec.name, 0, 1_500_000_000) := FreshJob(spec, [RunningAt(0, 1_500_000_000)], 0, 1_500_000_000)],
      [], [], map[], [], 1_500_000_001, multiset{}, {})

  /** There the next pass creates a second Job for the index. */
  lemma SecondJobHappens()
    ensures var s := UNACKNOWLEDGED;
      exists n :: n in WithJobs(s, {}).jobs && n !in s.jobs && WithJobs(s, {}).jobs[n].index == Some(0)
  {
    hide JobName, InstanceName, PinnedNode, ReplicaLabels, WithJobs, TakenByJobs, Eligible;
    var s := UNACKNOWLEDGED;
    forall i: nat ensures JobName(s.spec.name, i, s.clock) !in s.jobs {
      if JobName(s.spec.name, i, s.clock) in s.jobs {
        JobNameInjective(s.spec.name, i, s.clock, 0, 1_500_000_000);
      }
    }
    assert TakenByJobs(s.jobs, s.clock) == {} by { NothingCounts(s); }
    EligibleEnd(s.pis, {}, {}, 0, 0);
    NameNotEmpty(HUGE, 0, 1_500_000_000);
    SecondJobIff(s, {}, 0);
  }

  lemma NothingCounts(s: State)
    requires forall n :: n in s.jobs ==> !Counted(s.jobs[n], s.clock)
    ensures TakenByJobs(s.jobs, s.clock) == {}
  {
  }

  // ---------- Checkpoints ----------

  /** For each source Job at most one CheckpointBackup is in progress or successfully completed. */
  lemma OneLiveCheckpoint(r: seq<State>, k: nat, a: nat, b: nat)
    requires Run(r) && k < |r| && a < b < |r[k].checkpoints|
    requires r[k].checkpoints[a].source == r[k].checkpoints[b].source
    ensures !(Live(r[k].checkpoints[a]) && Live(r[k].checkpoints[b]))
  {
    hide Run, InstancesInv;
    RunKeepsInv(r, k);
  }

  /** What a step may do to the list of checkpoints: let them evolve, or, in a pass, append. */
  lemma StepCheckpoints(s: State, t: State)
    requires Step(s, t)
    ensures |s.checkpoints| <= |t.checkpoints|
    ensures forall j :: 0 <= j < |s.checkpoints| ==> CheckpointEvolves(s.checkpoints[j], t.checkpoints[j])
    ensures |s.checkpoints| < |t.checkpoints| ==>
      ControllerStep(s, t) && !HasPending(s.checkpoints) && Extends(s, t, PreemptedFrom(s.pis, 0))
  {
    hide Pass, UpdateJob, InstanceStep, Admissible;
    if ControllerStep(s, t) {
      var noInstance, noJob :| Admissible(s, noInstance, noJob) && t == Pass(s, noInstance, noJob);
      PassExtends(s, noInstance, noJob);
      if HasPending(s.checkpoints) { PendingFreezes(s, noInstance, noJob); }
    } else if AsyncRestoreStep(s, t) {
      var job :| job in s.launched && LatestRestore(s, job, t);
      if t != s {
        var k: nat :| IsLatest(s.checkpoints, k) && t == UpdateJob(s, job, Images(s.checkpoints[k]));
        UpdateLeavesCheckpoints(s, job, Images(s.checkpoints[k]));
      }
    } else if InstancePassStep(s, t) {
      var k: nat, f :| k < |s.pis| && DocumentedInsert(f) && t == InstanceStep(s, k, f);
      InstanceStepLeaves(s, k, f);
    }
  }

  lemma UpdateLeavesCheckpoints(s: State, name: string, images: seq<Container>)
    ensures UpdateJob(s, name, images).checkpoints == s.checkpoints && UpdateJob(s, name, images).pis == s.pis
  {
    hide Replacement;
  }

  lemma InstanceStepLeaves(s: State, k: nat, f: Faults)
    requires k < |s.pis|
    ensures var t := InstanceStep(s, k, f); t == s.(pis := t.pis, vms := t.vms, nodes := t.nodes)
  {
    hide Lifecycle.Reconcile;
  }

  /** All pending checkpoints stem from one pass, and are no more than the instances it found preempted. */
  ghost predicate OneBatch(r: seq<State>, k: nat)
    requires k < |r|
  {
    HasPending(r[k].checkpoints) ==> exists j :: 0 <= j < k && Batch(r, j, k)
  }

  ghost predicate Batch(r: seq<State>, j: nat, k: nat)
    requires j < k < |r|
  {
    && !HasPending(r[j].checkpoints) && ControllerStep(r[j], r[j + 1])
    && |r[j].checkpoints| <= |r[j + 1].checkpoints| <= |r[j].checkpoints| + PreemptedFrom(r[j].pis, 0)
    && (forall c :: 0 <= c < |r[k].checkpoints| && InFlight(r[k].checkpoints[c]) ==>
          |r[j].checkpoints| <= c < |r[j + 1].checkpoints|)
  }

  lemma {:induction false} PendingFromOnePass(r: seq<State>, k: nat)
    requires Run(r) && k < |r|
    ensures OneBatch(r, k)
  {
    hide Step, ControllerStep, Inv, PreemptedFrom;
    if k == 0 {
      assert !HasPending([]);
    } else {
      PendingFromOnePass(r, k - 1);
      var s, t := r[k - 1], r[k];
      StepCheckpoints(s, t);
      if HasPending(t.checkpoints) {
        if |s.checkpoints| < |t.checkpoints| {
          OldPending(s, t);
          assert Batch(r, k - 1, k);
        } else {
          var cp :| cp in t.checkpoints && InFlight(cp);
          var c :| 0 <= c < |t.checkpoints| && t.checkpoints[c] == cp;
          assert CheckpointEvolves(s.checkpoints[c], t.checkpoints[c]);
          assert s.checkpoints[c] in s.checkpoints;
          var j :| 0 <= j < k - 1 && Batch(r, j, k - 1);
          assert forall d :: 0 <= d < |t.checkpoints| ==> CheckpointEvolves(s.checkpoints[d], t.checkpoints[d]);
          assert Batch(r, j, k);
        }
      }
    }
  }

  lemma OldPending(s: State, t: State)
    requires |s.checkpoints| <= |t.checkpoints|
    requires forall j :: 0 <= j < |s.checkpoints| ==> CheckpointEvolves(s.checkpoints[j], t.checkpoints[j])
    ensures forall c :: 0 <= c < |s.checkpoints| && InFlight(t.checkpoints[c]) ==> HasPending(s.checkpoints)
  {
    forall c | 0 <= c < |s.checkpoints| && InFlight(t.checkpoints[c]) ensures HasPending(s.checkpoints) {
      assert CheckpointEvolves(s.checkpoints[c], t.checkpoints[c]);
      assert s.checkpoints[c] in s.checkpoints;
    }
  }

  // ---------- Deletions ----------

  /** In every run the controller deletes each Job name at most once. */
  lemma AtMostOneDelete(r: seq<State>, k: nat, n: string)
    requires Run(r) && k < |r|
    ensures r[k].deletes[n] <= 1
    ensures n in r[k].deletes && n in r[k].jobs ==> r[k].jobs[n].annotated
  {
    hide Run, InstancesInv, Spent;
    RunKeepsInv(r, k);
  }

  /** The later phases of a pass neither delete nor alter a Job they find, names being refused twice. */
  lemma LaterPhasesDeleteNothing(s: State, noInstance: set<nat>, noJob: set<nat>)
    ensures Pass(s, noInstance, noJob).deletes == AfterPreemption(s).deletes
    ensures forall n :: n in AfterPreemption(s).jobs ==> n in Pass(s, noInstance, noJob).jobs
  {
    hide AfterPreemption, NewJobIndices, NewIndices, JobName;
    NewJobsExact(AfterInstances(AfterPreemption(s), noInstance), noJob);
  }

  /**
    Restore safety: a Job that a pass deletes is not annotated, is not being deleted, has the replica index
    of an instance with a preemption notice, and a completed checkpoint was taken from another Job. As long as
    creations after a deletion succeed, it is gone afterwards only if its index has no usable instance; the
    code deletes before it looks for one.
  */
  lemma DeletedForCause(s: State, noInstance: set<nat>, noJob: set<nat>, n: string)
    requires Inv(s) && Pass(s, noInstance, noJob).deletes[n] != s.deletes[n]
    ensures n in s.jobs && !s.jobs[n].annotated && s.jobs[n].deletedAt.None?
    ensures Pass(s, noInstance, noJob).deletes[n] == s.deletes[n] + 1
    ensures exists k :: 0 <= k < |s.pis| && s.pis[k].notice && s.pis[k].index == s.jobs[n].index
    ensures HasApplicable(s, n)
    ensures n !in Pass(s, noInstance, noJob).jobs ==> FirstUsable(s.pis, IndexOrZero(s.jobs[n])).None?
  {
    hide AfterPreemption, AllAffected, Pass, InstanceName, JobName, JobsInv, RestoredBy, HasApplicable, FirstUsable;
    LaterPhasesDeleteNothing(s, noInstance, noJob);
    PreemptionRestores(s);
    var m := AfterPreemption(s);
    assert Changed(s, m, n) && Justified(s, m, AllAffected(s), n);
    AffectedByNotice(s, n);
  }

  lemma AffectedByNotice(s: State, n: string)
    requires InstancesInv(s) && n in AllAffected(s) && n in s.jobs
    ensures exists k :: 0 <= k < |s.pis| && s.pis[k].notice && s.pis[k].index == s.jobs[n].index
  {
    hide InstanceName;
    var k :| 0 <= k < |s.pis| && Preempted(s.pis[k]) && n in Affected(s, s.pis[k]);
    assert InstanceOk(s.pis[k], s.spec, s.clock);
  }

  ghost predicate EverNoticed(r: seq<State>, k: nat, i: nat)
    requires k < |r|
  {
    exists j, p :: 0 <= j <= k && 0 <= p < |r[j].pis| && r[j].pis[p].notice && r[j].pis[p].index == Some(i)
  }

  /**
    In any run in which no asynchronous restore has been launched, a Job is deleted only if its index has
    had an instance with a preemption notice: the other replicas' Jobs are never deleted.
  */
  lemma {:induction false} DeletedOnlyAfterNotice(r: seq<State>, k: nat, i: nat, t: nat)
    requires Run(r) && k < |r| && r[k].launched == {}
    ensures JobName(r[k].spec.name, i, t) in r[k].deletes ==> EverNoticed(r, k, i)
    ensures r[k].spec.name == r[0].spec.name
  {
    hide Inv, JobName, Pass, InstanceStep, EverNoticed;
    if k > 0 {
      var s, u := r[k - 1], r[k];
      assert Step(s, u);
      StepMonotone(s, u);
      NoticedLater(r, k, i);
      DeletedOnlyAfterNotice(r, k - 1, i, t);
      RunKeepsInv(r, k - 1);
      var n := JobName(s.spec.name, i, t);
      if n in u.deletes && n !in s.deletes {
        var noInstance, noJob :| Admissible(s, noInstance, noJob) && u == Pass(s, noInstance, noJob);
        DeletedForCause(s, noInstance, noJob, n);
        JobIndex(s, n, i, t);
        NoticedNow(r, k - 1, i);
      }
    }
  }

  lemma NoticedNow(r: seq<State>, k: nat, i: nat)
    requires k < |r| && exists p :: 0 <= p < |r[k].pis| && r[k].pis[p].notice && r[k].pis[p].index == Some(i)
    ensures EverNoticed(r, k, i)
  {
  }

  lemma NoticedLater(r: seq<State>, k: nat, i: nat)
    requires 0 < k < |r|
    ensures EverNoticed(r, k - 1, i) ==> EverNoticed(r, k, i)
  {
    if EverNoticed(r, k - 1, i) {
      var j, p :| 0 <= j <= k - 1 && 0 <= p < |r[j].pis| && r[j].pis[p].notice && r[j].pis[p].index == Some(i);
      assert 0 <= j <= k && r[j].pis[p].notice;
    }
  }

  lemma JobIndex(s: State, n: string, i: nat, t: nat)
    requires Inv(s) && n in s.jobs && n == JobName(s.spec.name, i, t)
    ensures s.jobs[n].index == Some(i)
  {
    hide JobName, InstancesInv;
    assert JobOk(n, s.jobs[n], s.spec, s.clock);
    JobNameInjective(s.spec.name, i, t, s.jobs[n].index.value, s.jobs[n].stamp);
  }

  /** Launched restores stay launched; without one only a pass adds to the deletion log. */
  lemma StepMonotone(s: State, t: State)
    requires Step(s, t)
    ensures s.launched <= t.launched && t.spec.name == s.spec.name
    ensures s.launched == {} && t.deletes != s.deletes ==> ControllerStep(s, t)
  {
    hide Pass, UpdateJob, InstanceStep, Admissible;
    if ControllerStep(s, t) {
      var noInstance, noJob :| Admissible(s, noInstance, noJob) && t == Pass(s, noInstance, noJob);
      PassMonotone(s, noInstance, noJob);
    } else if AsyncRestoreStep(s, t) {
      var job :| job in s.launched && LatestRestore(s, job, t);
      if t != s {
        var k: nat :| IsLatest(s.checkpoints, k) && t == UpdateJob(s, job, Images(s.checkpoints[k]));
        UpdateMonotone(s, job, Images(s.checkpoints[k]));
      }
    } else if InstancePassStep(s, t) {
      var k: nat, f :| k < |s.pis| && DocumentedInsert(f) && t == InstanceStep(s, k, f);
      InstanceStepLeaves(s, k, f);
    }
  }

  lemma UpdateMonotone(s: State, name: string, images: seq<Container>)
    ensures UpdateJob(s, name, images).launched == s.launched && UpdateJob(s, name, images).spec == s.spec
  {
    hide Replacement;
  }

  lemma {:induction false} HandleFromLaunched(s: State, k: nat, update: set<string>)
    ensures s.launched <= HandleFrom(s, k, update).launched
    decreases |s.pis| - k
  {
    hide Deleted, JobAfter, FirstAlive, Added, AlreadyHandled, Affected, JobsOnNode;
    if k < |s.pis| {
      if Preempted(s.pis[k]) {
        var u := update + Affected(s, s.pis[k]);
        HandleFromLaunched(HandleOne(s, s.pis[k], u), k + 1, u);
      } else {
        HandleFromLaunched(s, k + 1, update);
      }
    }
  }

  lemma PassMonotone(s: State, noInstance: set<nat>, noJob: set<nat>)
    ensures s.launched <= Pass(s, noInstance, noJob).launched && Pass(s, noInstance, noJob).spec == s.spec
  {
    hide HandleFrom, NewIndices, NewJobIndices, AddJobs;
    HandleFromLaunched(s, 0, {});
  }
}
