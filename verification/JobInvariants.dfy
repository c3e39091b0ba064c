/** Invariants of the Jobs, of the deletion log and of the CheckpointBackups. */
module JobInvariants {
  import opened Names
  import opened Objects
  import opened Checkpoints
  import opened Restore
  import opened Preemption
  import opened InstanceAllocation
  import opened JobFilling
  import opened Controller
  import opened RestoreSafety

  ghost predicate JobOk(n: string, job: Job, spec: Spec, now: int)
  {
    && job.name == n && job.index.Some? && job.restoredFrom.None? && 0 <= job.stamp <= now
    && n == JobName(spec.name, job.index.value, job.stamp)
  }

  ghost predicate JobsOk(s: State)
  {
    forall n :: n in s.jobs ==> JobOk(n, s.jobs[n], s.spec, s.clock)
  }

  /** A name whose time stamp has passed: it cannot be generated again. */
  ghost predicate Spent(n: string, spec: Spec, now: int)
  {
    exists i: nat, t: nat :: t < now && n == JobName(spec.name, i, t)
  }

  /** Each name is deleted at most once; a deleted name is gone for good or carries the annotation. */
  ghost predicate DeletedOnce(s: State)
  {
    forall n :: n in s.deletes ==>
      s.deletes[n] == 1 && Spent(n, s.spec, s.clock) && (n in s.jobs ==> s.jobs[n].annotated)
  }

  ghost predicate SourcesKnown(cps: seq<Checkpoint>)
  {
    forall k :: 0 <= k < |cps| ==> cps[k].source.Some?
  }

  ghost predicate JobsInv(s: State)
  {
    JobsOk(s) && DeletedOnce(s) && OneLivePerSource(s.checkpoints) && SourcesKnown(s.checkpoints)
  }

  lemma SpentLater(n: string, spec: Spec, now: int, later: int)
    requires Spent(n, spec, now) && now <= later
    ensures Spent(n, spec, later)
  {
    hide JobName;
    var i: nat, t: nat :| t < now && n == JobName(spec.name, i, t);
    assert t < later && n == JobName(spec.name, i, t);
  }

  // ---------- Preemption handling ----------

  lemma RestoredJobOk(s: State, n: string, before: Job, after: Job)
    requires RestoredBy(s, n, before, after) && before.index.Some?
    ensures after.annotated && after.name == before.name && after.index == before.index && after.stamp == before.stamp
      && after.restoredFrom.None?
  {
  }

  lemma RestoresKeepJobs(s: State, t: State, affected: set<string>)
    requires Restores(s, t, affected) && JobsOk(s) && DeletedOnce(s)
    ensures JobsOk(t) && DeletedOnce(t)
  {
    hide JobName, RestoredBy, Spent;
    forall n | n in t.jobs ensures JobOk(n, t.jobs[n], t.spec, t.clock) {
      assert JobOk(n, s.jobs[n], s.spec, s.clock);
      if Changed(s, t, n) {
        assert Justified(s, t, affected, n);
        RestoredJobOk(s, n, s.jobs[n], t.jobs[n]);
      }
    }
    forall n | n in t.deletes
      ensures t.deletes[n] == 1 && Spent(n, t.spec, t.clock) && (n in t.jobs ==> t.jobs[n].annotated)
    {
      if Changed(s, t, n) {
        assert Justified(s, t, affected, n);
        assert JobOk(n, s.jobs[n], s.spec, s.clock);
        NowSpent(n, s.jobs[n], s.spec, s.clock, t.clock);
        if n in t.jobs { RestoredJobOk(s, n, s.jobs[n], t.jobs[n]); }
      } else {
        assert t.deletes[n] == s.deletes[n] && n in s.deletes;
        SpentLater(n, s.spec, s.clock, t.clock);
      }
    }
  }

  /** Two seconds after a deletion the name has passed. */
  lemma NowSpent(n: string, job: Job, spec: Spec, now: int, later: int)
    requires JobOk(n, job, spec, now) && now < later
    ensures Spent(n, spec, later)
  {
    hide JobName;
    assert job.stamp < later && n == JobName(spec.name, job.index.value, job.stamp);
  }

  lemma CheckpointAliveKeeps(s: State, lost: string)
    requires NoneRecreated(s.jobs) && OneLivePerSource(s.checkpoints) && SourcesKnown(s.checkpoints)
    ensures OneLivePerSource(CheckpointAlive(s, lost).checkpoints) && SourcesKnown(CheckpointAlive(s, lost).checkpoints)
  {
    hide FirstAlive, OneLivePerSource, FirstOfJob, MayCheckpoint;
    var pod := FirstAlive(s.pods, s.nodes, lost);
    if pod.Some? { CheckpointKeepsOneLive(s, JobOf(pod.value)); }
  }

  lemma HandleOneKeeps(s: State, pi: Instance, update: set<string>)
    requires JobsInv(s)
    ensures JobsInv(HandleOne(s, pi, update))
  {
    hide OneLivePerSource, SourcesKnown, DeletedOnce, JobOk, CheckpointAlive, ProcessCompleted, Restores, FirstAlive;
    var t := HandleOne(s, pi, update);
    HandleOneRestores(s, pi, update);
    RestoresKeepJobs(s, t, update);
    if OthersAlive(s.pis, pi.name) > 0 {
      var r := ProcessCompleted(s, update);
      ProcessCompletedRestores(s, update);
      RestoresKeepJobs(s, r, update);
      SameCheckpoints(s, update);
      JobsOkNoneRecreated(r);
      CheckpointAliveKeeps(r, pi.nodeName);
    }
  }

  lemma SameCheckpoints(s: State, update: set<string>)
    ensures ProcessCompleted(s, update).checkpoints == s.checkpoints
  {
  }

  lemma JobsOkNoneRecreated(s: State)
    requires JobsOk(s)
    ensures NoneRecreated(s.jobs)
  {
    forall n | n in s.jobs ensures s.jobs[n].restoredFrom.None? {
      assert JobOk(n, s.jobs[n], s.spec, s.clock);
    }
  }

  lemma {:induction false} HandleFromKeeps(s: State, k: nat, update: set<string>)
    requires JobsInv(s)
    ensures JobsInv(HandleFrom(s, k, update))
    decreases |s.pis| - k
  {
    hide JobsInv, HandleOne, Affected;
    if k < |s.pis| {
      if Preempted(s.pis[k]) {
        var u := update + Affected(s, s.pis[k]);
        HandleOneKeeps(s, s.pis[k], u);
        HandleFromKeeps(HandleOne(s, s.pis[k], u), k + 1, u);
      } else {
        HandleFromKeeps(s, k + 1, update);
      }
    }
  }

  // ---------- Job creation ----------

  /** A new name carries the current time, so it was never deleted. */
  lemma NewNameNotDeleted(s: State, i: nat)
    requires DeletedOnce(s)
    ensures JobName(s.spec.name, i, s.clock) !in s.deletes
  {
    hide JobName;
    var n := JobName(s.spec.name, i, s.clock);
    if n in s.deletes {
      var j: nat, t: nat :| t < s.clock && n == JobName(s.spec.name, j, t);
      JobNameInjective(s.spec.name, i, s.clock, j, t);
    }
  }

  lemma WithJobsKeeps(s: State, refused: set<nat>)
    requires JobsInv(s)
    ensures JobsInv(WithJobs(s, refused))
  {
    hide JobName, NewJobIndices, Spent, OneLivePerSource, SourcesKnown, FreshJob;
    var ixs := NewJobIndices(s, refused);
    NewJobsExact(s, refused);
    var t := WithJobs(s, refused);
    if HasPending(s.checkpoints) { return; }
    forall n | n in t.jobs ensures JobOk(n, t.jobs[n], t.spec, t.clock) {
      if i :| i in ixs && n == JobName(s.spec.name, i, s.clock) {
        FreshJobOk(s, i);
      } else {
        assert JobOk(n, s.jobs[n], s.spec, s.clock);
      }
    }
    forall n | n in t.deletes
      ensures t.deletes[n] == 1 && Spent(n, t.spec, t.clock) && (n in t.jobs ==> t.jobs[n].annotated)
    {
      forall i | i in ixs ensures n != JobName(s.spec.name, i, s.clock) {
        NewNameNotDeleted(s, i);
      }
    }
  }

  lemma FreshJobOk(s: State, i: nat)
    ensures JobOk(JobName(s.spec.name, i, s.clock), FreshJob(s.spec, s.pis, i, s.clock), s.spec, s.clock)
  {
  }

  /** Fresh Jobs at the indices `ixs`, everything else as it was. */
  ghost predicate JobsCreated(s: State, ixs: seq<nat>, t: State)
  {
    && t == s.(jobs := t.jobs)
    && (forall n :: n in t.jobs <==> n in s.jobs || exists i :: i in ixs && n == JobName(s.spec.name, i, s.clock))
    && (forall i :: i in ixs ==>
          Lookup(t.jobs, JobName(s.spec.name, i, s.clock)) == Some(FreshJob(s.spec, s.pis, i, s.clock)))
    && (forall n :: n in s.jobs && (forall i :: i in ixs ==> n != JobName(s.spec.name, i, s.clock)) ==>
      t.jobs[n] == s.jobs[n])
  }

  lemma NewJobsExact(s: State, refused: set<nat>)
    ensures HasPending(s.checkpoints) ==> WithJobs(s, refused) == s
    ensures !HasPending(s.checkpoints) ==> JobsCreated(s, NewJobIndices(s, refused), WithJobs(s, refused))
  {
    hide JobName, FreshJob, TakenByJobs;
    var ixs := NewJobIndices(s, refused);
    NewIndicesIncrease(s, refused);
    AddJobsExact(s.jobs, s.spec, s.pis, ixs, s.clock);
  }

  lemma NewIndicesIncrease(s: State, refused: set<nat>)
    ensures Increasing(NewJobIndices(s, refused))
  {
    hide Eligible, TakenByJobs;
    var taken := TakenByJobs(s.jobs, s.clock);
    if |taken| < Desired(s.spec) {
      EligibleExact(s.pis, taken, refused, 0, IndexLimit(s.spec));
      TakeFirst(Eligible(s.pis, taken, refused, 0, IndexLimit(s.spec)), Desired(s.spec) - |taken|);
    }
  }

  // ---------- Whole pass ----------

  lemma PassKeepsJobs(s: State, noInstance: set<nat>, noJob: set<nat>)
    requires JobsInv(s)
    ensures JobsInv(Pass(s, noInstance, noJob))
  {
    hide HandleFrom, WithJobs, OneLivePerSource, SourcesKnown, NewIndices;
    HandleFromKeeps(s, 0, {});
    var m := AfterPreemption(s);
    var u := AfterInstances(m, noInstance);
    assert u == m.(pis := u.pis);
    WithJobsKeeps(u, noJob);
  }
}
