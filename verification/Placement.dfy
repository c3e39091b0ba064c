/** Where restored and fresh Jobs run, and what becomes of a Job once it has been restored. */
module Placement {
  import opened Names
  import opened Objects
  import opened Checkpoints
  import opened Restore
  import opened Preemption
  import opened InstanceAllocation
  import opened JobFilling
  import opened Controller
  import opened Lifecycle
  import opened Invariants
  import opened RestoreSafety
  import opened JobInvariants
  import opened Replacements
  import opened Runs

  /** The Jobs present after preemption handling are not touched by the rest of the pass. */
  lemma RestOfPass(s: State, noInstance: set<nat>, noJob: set<nat>, n: string)
    requires Admissible(s, noInstance, noJob) && n in AfterPreemption(s).jobs
    ensures n in Pass(s, noInstance, noJob).jobs && Pass(s, noInstance, noJob).jobs[n] == AfterPreemption(s).jobs[n]
  {
    hide AfterPreemption, NewIndices, JobName, FreshJob, RefusesDuplicates;
    var u := AfterInstances(AfterPreemption(s), noInstance);
    NewJobsExact(u, noJob);
    if !HasPending(u.checkpoints) {
      forall i | i in NewJobIndices(u, noJob) ensures n != JobName(u.spec.name, i, u.clock) {
        NotRefused(u, noJob, i);
      }
    }
  }

  lemma NotRefused(s: State, noJob: set<nat>, i: nat)
    requires i in NewJobIndices(s, noJob)
    ensures i !in noJob && i !in TakenByJobs(s.jobs, s.clock) && Ready(s.pis, i)
  {
    hide Eligible, TakenByJobs, Ready;
    var taken := TakenByJobs(s.jobs, s.clock);
    EligibleExact(s.pis, taken, noJob, 0, IndexLimit(s.spec));
    TakeFirst(Eligible(s.pis, taken, noJob, 0, IndexLimit(s.spec)), Desired(s.spec) - |taken|);
  }

  // ---------- Placement ----------

  /** A live instance of the Job's index, on whose node the Job now runs. */
  ghost predicate RunsOn(s: State, k: int, job: Job)
  {
    && 0 <= k < |s.pis| && s.pis[k].index == job.index && !s.pis[k].notice
    && s.pis[k].state == Running && s.pis[k].joined && job.node == s.pis[k].nodeName == s.pis[k].name
  }

  /** The images of the first completed checkpoint that has some and was not taken from the Job itself. */
  ghost predicate ImagesFrom(s: State, n: string, c: int, containers: seq<Container>)
  {
    && n in s.jobs && FirstToRestore(s.checkpoints, n, c)
    && ImagesOf(s.spec.imageRepo, s.checkpoints[c], s.jobs[n].containers, containers)
  }

  /** The pod labels: the controller's two, with the user's kept or dropped. */
  ghost predicate Labelled(spec: Spec, job: Job, keepsUser: bool)
  {
    && SPOT_JOB_LABEL in job.podLabels && job.podLabels[SPOT_JOB_LABEL] == spec.name
    && job.index.Some? && REPLICA_LABEL in job.podLabels && job.podLabels[REPLICA_LABEL] == Decimal(job.index.value)
    && forall k :: k != SPOT_JOB_LABEL && k != REPLICA_LABEL ==>
         (k in job.podLabels <==> keepsUser && k in UserLabels(spec))
         && (k in job.podLabels ==> job.podLabels[k] == UserLabels(spec)[k])
  }

  /**
    A Job that a pass restores keeps its name, its index and its containers up to their images, and runs
    on a live instance of its index: not on the node of any preempted instance. The user's pod labels are lost.
  */
  lemma RestoredPlacement(s: State, noInstance: set<nat>, noJob: set<nat>, n: string)
    requires Inv(s) && Admissible(s, noInstance, noJob)
    requires n in s.jobs && !s.jobs[n].annotated
    requires n in Pass(s, noInstance, noJob).jobs && Pass(s, noInstance, noJob).jobs[n] != s.jobs[n]
    ensures var job := Pass(s, noInstance, noJob).jobs[n];
      && job.annotated && job.name == n && job.index == s.jobs[n].index
      && (exists k :: RunsOn(s, k, job))
      && (exists c :: ImagesFrom(s, n, c, job.containers)) && Labelled(s.spec, job, false)
      && (forall q :: 0 <= q < |s.pis| && Preempted(s.pis[q]) ==> s.pis[q].nodeName != job.node)
  {
    hide AfterPreemption, Pass, AllAffected, InstancesInv, JobsInv, RestoredBy, Admissible;
    PreemptionRestores(s);
    var m := AfterPreemption(s);
    if n in m.jobs {
      RestOfPass(s, noInstance, noJob, n);
      assert Changed(s, m, n) && Justified(s, m, AllAffected(s), n);
      RestoredJobPlacement(s, n, m.jobs[n]);
    } else {
      RecreatedInPass(s, noInstance, noJob, n);
    }
  }

  /** A Job that was lost does not come back under its name in the same pass: two seconds have passed. */
  lemma RecreatedInPass(s: State, noInstance: set<nat>, noJob: set<nat>, n: string)
    requires Inv(s) && n in s.jobs && n !in AfterPreemption(s).jobs
    ensures n !in Pass(s, noInstance, noJob).jobs
  {
    hide AfterPreemption, AllAffected, InstancesInv, NewIndices, JobName, FreshJob, NewJobIndices;
    var m := AfterPreemption(s);
    var u := AfterInstances(m, noInstance);
    PreemptionRestores(s);
    assert Changed(s, m, n);
    NewJobsExact(u, noJob);
    assert JobOk(n, s.jobs[n], s.spec, s.clock);
    forall i: nat | n == JobName(u.spec.name, i, u.clock) ensures false {
      JobNameInjective(s.spec.name, i, u.clock, s.jobs[n].index.value, s.jobs[n].stamp);
    }
  }

  lemma RestoredJobPlacement(s: State, n: string, after: Job)
    requires Inv(s) && n in s.jobs && RestoredBy(s, n, s.jobs[n], after)
    ensures after.annotated && after.name == n && after.index == s.jobs[n].index
    ensures exists k :: RunsOn(s, k, after)
    ensures exists c :: ImagesFrom(s, n, c, after.containers)
    ensures Labelled(s.spec, after, false)
    ensures forall q :: 0 <= q < |s.pis| && Preempted(s.pis[q]) ==> s.pis[q].nodeName != after.node
  {
    hide InstanceName, JobName, ImageMap, ReplicaLabels, VmsOwned, DistinctIndices, DeletedOnce, ImagesOf, CanRestore,
      Images, FirstApplicable, FirstUsable;
    assert JobOk(n, s.jobs[n], s.spec, s.clock);
    var cp, pi :|
      FirstApplicable(s.checkpoints, n) == Some(cp) && FirstUsable(s.pis, IndexOrZero(s.jobs[n])) == Some(pi)
      && after == RestoredJob(s.spec, s.jobs[n], Images(cp), pi.nodeName);
    var k :| 0 <= k < |s.pis| && s.pis[k] == pi;
    assert InstanceOk(s.pis[k], s.spec, s.clock);
    assert RunsOn(s, k, after);
    LabelsOf(s.spec, map[], s.jobs[n].index.value);
    ToRestoreExact(s.checkpoints, n);
    var c :| FirstToRestore(s.checkpoints, n, c) && FirstApplicable(s.checkpoints, n) == Some(s.checkpoints[c]);
    MappedImages(s.spec.imageRepo, cp, s.jobs[n].containers);
    assert ImagesFrom(s, n, c, after.containers);
    forall q | 0 <= q < |s.pis| && Preempted(s.pis[q]) ensures s.pis[q].nodeName != after.node {
      assert InstanceOk(s.pis[q], s.spec, s.clock) && q != k;
    }
  }

  /** A fresh Job has the index of a joined instance, and runs on its node if that is running. */
  lemma FreshPlacement(s: State, noInstance: set<nat>, noJob: set<nat>, n: string)
    requires Inv(s) && n !in s.jobs && n in Pass(s, noInstance, noJob).jobs
    ensures var t, job := Pass(s, noInstance, noJob), Pass(s, noInstance, noJob).jobs[n];
      && job.index.Some? && !job.annotated && job.containers == s.spec.containers && Labelled(s.spec, job, true)
      && Ready(t.pis, job.index.value)
      && var gate := FirstActive(t.pis, job.index.value).value;
         gate.state == Running ==> job.node == gate.nodeName
  {
    hide AfterPreemption, AllAffected, InstancesInv, NewIndices, JobName, NewJobIndices, JobsInv, FirstActive,
      FirstUsable, ReplicaLabels;
    var m := AfterPreemption(s);
    var u := AfterInstances(m, noInstance);
    PreemptionRestores(s);
    NewJobsExact(u, noJob);
    var i :| i in NewJobIndices(u, noJob) && n == JobName(u.spec.name, i, u.clock);
    NotRefused(u, noJob, i);
    LabelsOf(s.spec, UserLabels(s.spec), i);
    if FirstActive(u.pis, i).value.state == Running { PinnedToGate(u.pis, i); }
  }

  // ---------- One recovery per index ----------

  /** Job `n` is there, restored and not being deleted. */
  ghost predicate Restored(s: State, n: string)
  {
    n in s.jobs && s.jobs[n].annotated && s.jobs[n].deletedAt.None? && s.jobs[n].index.Some?
  }

  lemma RestoredIsCounted(s: State, n: string)
    requires Restored(s, n)
    ensures s.jobs[n].index.value in TakenByJobs(s.jobs, s.clock)
  {
  }

  /** No pass touches a restored Job or creates another one for its index, whatever its instance does. */
  lemma PassLeavesRestored(s: State, noInstance: set<nat>, noJob: set<nat>, n: string)
    requires Restored(s, n) && Admissible(s, noInstance, noJob)
    ensures var t := Pass(s, noInstance, noJob);
      && n in t.jobs && t.jobs[n] == s.jobs[n] && t.deletes[n] == s.deletes[n]
      && forall o :: o in t.jobs && o !in s.jobs ==> t.jobs[o].index != s.jobs[n].index
  {
    hide AfterPreemption, AllAffected, NewIndices, JobName, NewJobIndices, TakenByJobs, Admissible;
    var m := AfterPreemption(s);
    var u := AfterInstances(m, noInstance);
    PreemptionRestores(s);
    assert !Changed(s, m, n);
    RestOfPass(s, noInstance, noJob, n);
    RestoredIsCounted(u, n);
    NewJobsExact(u, noJob);
    var t := Pass(s, noInstance, noJob);
    forall o | o in t.jobs && o !in s.jobs ensures t.jobs[o].index != s.jobs[n].index {
      var i :| i in NewJobIndices(u, noJob) && o == JobName(u.spec.name, i, u.clock);
      NotRefused(u, noJob, i);
    }
  }

  /** Job `n` of `s` as it was restored, and no Job for its index that `s` does not have. */
  ghost predicate StillOnly(s: State, t: State, n: string)
    requires n in s.jobs
  {
    && n in t.jobs && t.jobs[n].annotated && t.jobs[n].index == s.jobs[n].index
    && t.jobs[n].node == s.jobs[n].node && t.jobs[n].containers == s.jobs[n].containers
    && (forall o :: o in t.jobs && t.jobs[o].index == s.jobs[n].index ==> o in s.jobs)
  }

  lemma StepLeavesRestored(s: State, t: State, n: string)
    requires Inv(s) && Step(s, t) && Restored(s, n) && n in t.jobs
    ensures t.jobs[n].annotated && t.jobs[n].index == s.jobs[n].index
      && t.jobs[n].node == s.jobs[n].node && t.jobs[n].containers == s.jobs[n].containers
    ensures forall o :: o in t.jobs && t.jobs[o].index == s.jobs[n].index ==>
      o in s.jobs && s.jobs[o].index == s.jobs[n].index
  {
    hide Inv, Pass, InstanceStep, Admissible;
    if ControllerStep(s, t) {
      var noInstance, noJob :| Admissible(s, noInstance, noJob) && t == Pass(s, noInstance, noJob);
      PassLeavesRestored(s, noInstance, noJob, n);
      PassKeepsIndices(s, noInstance, noJob);
    } else if InstancePassStep(s, t) {
      var k: nat, f :| k < |s.pis| && DocumentedInsert(f) && t == InstanceStep(s, k, f);
      InstanceStepJobs(s, k, f);
    } else if AsyncRestoreStep(s, t) {
      var job :| job in s.launched && LatestRestore(s, job, t);
      if t != s {
        var k: nat :| IsLatest(s.checkpoints, k) && t == UpdateJob(s, job, Images(s.checkpoints[k]));
        UpdateIndices(s, job, Images(s.checkpoints[k]));
      }
    }
  }

  lemma InstanceStepJobs(s: State, k: nat, f: Faults)
    requires k < |s.pis|
    ensures InstanceStep(s, k, f).jobs == s.jobs
  {
    hide Lifecycle.Reconcile;
  }

  lemma UpdateIndices(s: State, name: string, images: seq<Container>)
    requires Inv(s)
    ensures forall o :: o in UpdateJob(s, name, images).jobs ==>
      o in s.jobs && UpdateJob(s, name, images).jobs[o].index == s.jobs[o].index
    ensures forall o :: o in s.jobs && s.jobs[o].annotated ==>
      Lookup(UpdateJob(s, name, images).jobs, o) == Some(s.jobs[o])
  {
    hide InstancesInv, JobName, FirstUsable, ImageMap, ReplicaLabels, DeletedOnce;
    if name in s.jobs { assert JobOk(name, s.jobs[name], s.spec, s.clock); }
  }

  lemma PassKeepsIndices(s: State, noInstance: set<nat>, noJob: set<nat>)
    requires Inv(s) && Admissible(s, noInstance, noJob)
    ensures forall o :: o in s.jobs && o in Pass(s, noInstance, noJob).jobs ==>
      Pass(s, noInstance, noJob).jobs[o].index == s.jobs[o].index
  {
    hide InstancesInv, JobsInv, Pass, Admissible;
    forall o | o in s.jobs && o in Pass(s, noInstance, noJob).jobs
      ensures Pass(s, noInstance, noJob).jobs[o].index == s.jobs[o].index
    {
      IndexInPass(s, noInstance, noJob, o);
    }
  }

  lemma IndexInPass(s: State, noInstance: set<nat>, noJob: set<nat>, o: string)
    requires Inv(s) && Admissible(s, noInstance, noJob) && o in s.jobs && o in Pass(s, noInstance, noJob).jobs
    ensures Pass(s, noInstance, noJob).jobs[o].index == s.jobs[o].index
  {
    hide AfterPreemption, AllAffected, Pass, InstancesInv, JobName, RestoredBy, DeletedOnce, Admissible;
    PreemptionRestores(s);
    var m := AfterPreemption(s);
    if o in m.jobs {
      RestOfPass(s, noInstance, noJob, o);
      if Changed(s, m, o) {
        assert Justified(s, m, AllAffected(s), o) && JobOk(o, s.jobs[o], s.spec, s.clock);
        RestoredJobOk(s, o, s.jobs[o], m.jobs[o]);
      }
    } else {
      RecreatedInPass(s, noInstance, noJob, o);
    }
  }

  /**
    A second preemption of an index is never recovered. As long as a restored Job is not removed by
    somebody else it stays pinned to the node of its first recovery with the images of its first
    recovery, and its index gets no other Job, even when that node's instance is lost.
  */
  lemma {:induction false} RestoredIsFinal(r: seq<State>, j: nat, k: nat, n: string)
    requires Run(r) && j <= k < |r|
    requires forall l :: j <= l <= k ==> n in r[l].jobs && r[l].jobs[n].deletedAt.None?
    requires r[j].jobs[n].annotated
    ensures StillOnly(r[j], r[k], n)
    decreases k
  {
    hide Step, Inv;
    RunKeepsInv(r, j);
    IndexKnown(r[j], n);
    if j < k {
      RestoredIsFinal(r, j, k - 1, n);
      RunKeepsInv(r, k - 1);
      IndexKnown(r[k - 1], n);
      StepLeavesRestored(r[k - 1], r[k], n);
    }
  }

  lemma IndexKnown(s: State, n: string)
    requires Inv(s) && n in s.jobs
    ensures s.jobs[n].index.Some?
  {
    hide InstancesInv, JobName;
    assert JobOk(n, s.jobs[n], s.spec, s.clock);
  }
}
