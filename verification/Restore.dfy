/** Restoring Jobs from completed checkpoints: delete, then recreate with the checkpoint's images. */
module Restore {
  import opened Names
  import opened Objects
  import opened ImageReferences
  import opened Checkpoints

  // ---------- Images ----------

  /** Container name to checkpoint image; a later entry for a name replaces an earlier one. */
  function ImageMap(repo: string, images: seq<Container>): map<string, string>
  {
    if images == [] then map[]
    else
      var n := |images| - 1;
      ImageMap(repo, images[..n])[images[n].name := RestoredImage(repo, images[n].image)]
  }

  function WithImage(container: Container, images: map<string, string>): Container
  {
    if container.name in images then container.(image := images[container.name]) else container
  }

  function WithImages(containers: seq<Container>, images: map<string, string>): (r: seq<Container>)
    ensures |r| == |containers|
    ensures forall k :: 0 <= k < |r| ==> r[k] == WithImage(containers[k], images)
  {
    seq(|containers|, k requires 0 <= k < |containers| => WithImage(containers[k], images))
  }

  method ReplaceImages(repo: string, containers: seq<Container>, images: seq<Container>) returns (r: seq<Container>)
    ensures r == WithImages(containers, ImageMap(repo, images))
  {
    var registry := RestoreRegistry(repo);
    var m: map<string, string> := map[];
    for k := 0 to |images|
      invariant m == ImageMap(repo, images[..k])
    {
      assert images[..k + 1][..k] == images[..k];
      m := m[images[k].name := registry + "/" + images[k].image];
    }
    assert images[..|images|] == images;
    r := containers;
    for k := 0 to |containers|
      invariant |r| == |containers|
      invariant forall j :: 0 <= j < k ==> r[j] == WithImage(containers[j], m)
      invariant forall j :: k <= j < |r| ==> r[j] == containers[j]
    {
      if r[k].name in m {
        r := r[k := r[k].(image := m[r[k].name])];
      }
    }
  }

  // ---------- updateJobWithCheckpoint ----------

  /** A missing or unreadable replica label counts as index 0 here. */
  function IndexOrZero(job: Job): nat
  {
    if job.index.Some? then job.index.value else 0
  }

  /** The pod template labels: the user's, with the two controller labels on top. */
  function ReplicaLabels(spec: Spec, user: map<string, string>, i: nat): map<string, string>
  {
    user[SPOT_JOB_LABEL := spec.name][REPLICA_LABEL := Decimal(i)]
  }

  function RestoredJob(spec: Spec, job: Job, images: seq<Container>, node: string): Job
  {
    Job(job.name, Some(IndexOrZero(job)), job.stamp, true, None, None, 0, 0,
      WithImages(job.containers, ImageMap(spec.imageRepo, images)), node,
      ReplicaLabels(spec, map[], IndexOrZero(job)))
  }

  /** What is left of a Job once it has been deleted: nothing unless its index has a usable instance. */
  function Replacement(spec: Spec, pis: seq<Instance>, job: Job, images: seq<Container>): Option<Job>
  {
    var pi := FirstUsable(pis, IndexOrZero(job));
    if pi.Some? then Some(RestoredJob(spec, job, images, pi.value.nodeName)) else None
  }

  function Put(jobs: map<string, Job>, name: string, job: Option<Job>): map<string, Job>
  {
    if job.Some? then jobs[name := job.value] else jobs - {name}
  }

  function UpdateJob(s: State, name: string, images: seq<Container>): State
  {
    if name !in s.jobs || s.jobs[name].annotated then s
    else s.(
      jobs := Put(s.jobs, name, Replacement(s.spec, s.pis, s.jobs[name], images)),
      deletes := s.deletes + multiset{name}, clock := s.clock + 2)
  }

  /** `ok` is false when the deletion went through but no instance was ready for the new Job. */
  method UpdateJobWithCheckpoint(c: Cluster, name: string, images: seq<Container>) returns (ok: bool)
    modifies c`jobs, c`deletes, c`clock
    ensures c.View() == old(UpdateJob(c.View(), name, images))
    ensures ok <==> name !in old(c.jobs) || name in c.jobs
    ensures name in c.jobs ==> c.jobs[name].annotated
    ensures forall n :: n in old(c.jobs) && n != name ==> n in c.jobs && c.jobs[n] == old(c.jobs)[n]
  {
    if name !in c.jobs { return true; }
    var job := c.jobs[name];
    if job.annotated { return true; }
    var containers := ReplaceImages(c.spec.imageRepo, job.containers, images);
    var index: nat := 0;
    if job.index.Some? { index := job.index.value; }

    c.DeleteJob(name);

    var pi := FindUsable(c, index);
    if pi.None? { return false; }
    c.jobs := c.jobs[name := Job(job.name, Some(index), job.stamp, true, None, None, 0, 0, containers,
      pi.value.nodeName, ReplicaLabels(c.spec, map[], index))];
    assert c.jobs == old(c.jobs)[name := c.jobs[name]];
    return true;
  }

  // ---------- processCompletedCheckpoints ----------

  /** A checkpoint restores every job but the one it was taken from. */
  predicate Applicable(cp: Checkpoint, name: string)
  {
    Restorable(cp) && !(cp.source == Some(name) && name != "")
  }

  function FirstApplicable(cps: seq<Checkpoint>, name: string): (r: Option<Checkpoint>)
    ensures r.Some? ==> r.value in cps && Applicable(r.value, name)
    ensures r.None? <==> forall cp :: cp in cps ==> !Applicable(cp, name)
  {
    if cps == [] then None
    else if Applicable(cps[0], name) then Some(cps[0])
    else FirstApplicable(cps[1..], name)
  }

  lemma {:induction false} FirstApplicableSnoc(cps: seq<Checkpoint>, cp: Checkpoint, name: string)
    ensures FirstApplicable(cps + [cp], name) ==
      if FirstApplicable(cps, name).Some? then FirstApplicable(cps, name)
      else if Applicable(cp, name) then Some(cp) else None
  {
    if cps != [] {
      assert (cps + [cp])[1..] == cps[1..] + [cp];
      FirstApplicableSnoc(cps[1..], cp, name);
    }
  }

  /** The jobs of `update` that these checkpoints replace. */
  predicate Hit(s: State, update: set<string>, cps: seq<Checkpoint>, n: string)
  {
    && n in update && n in s.jobs && !s.jobs[n].annotated && s.jobs[n].deletedAt.None?
    && FirstApplicable(cps, n).Some?
  }

  function JobAfter(s: State, update: set<string>, cps: seq<Checkpoint>, n: string): Option<Job>
  {
    if n !in s.jobs then None
    else if Hit(s, update, cps, n) then Replacement(s.spec, s.pis, s.jobs[n], Images(FirstApplicable(cps, n).value))
    else Some(s.jobs[n])
  }

  function Deleted(s: State, update: set<string>): set<string>
  {
    set n | n in s.jobs && Hit(s, update, s.checkpoints, n)
  }

  /** All of `update` at once: the outcome does not depend on the order in which jobs are visited. */
  function ProcessCompleted(s: State, update: set<string>): State
  {
    s.(
      jobs := map n | n in s.jobs && JobAfter(s, update, s.checkpoints, n).Some?
        :: JobAfter(s, update, s.checkpoints, n).value,
      deletes := s.deletes + multiset(Deleted(s, update)),
      clock := s.clock + 2 * |Deleted(s, update)|)
  }

  function Lookup(jobs: map<string, Job>, n: string): Option<Job>
  {
    if n in jobs then Some(jobs[n]) else None
  }

  /** Job `n` is as it should be after the checkpoints `cps`. */
  ghost predicate Settled(s: State, update: set<string>, t: State, deleted: set<string>, cps: seq<Checkpoint>,
                          n: string)
  {
    (n in deleted <==> Hit(s, update, cps, n)) && Lookup(t.jobs, n) == JobAfter(s, update, cps, n)
  }

  ghost predicate AllSettled(s: State, update: set<string>, t: State, deleted: set<string>, cps: seq<Checkpoint>)
  {
    && t == s.(jobs := t.jobs, deletes := s.deletes + multiset(deleted), clock := s.clock + 2 * |deleted|)
    && forall n {:trigger n in deleted} {:trigger Lookup(t.jobs, n)} :: Settled(s, update, t, deleted, cps, n)
  }

  /** Every job is settled, those of `done` already with respect to one more checkpoint. */
  ghost predicate Progress(s: State, update: set<string>, t: State, deleted: set<string>,
                           cps: seq<Checkpoint>, cp: Checkpoint, done: set<string>)
  {
    && t == s.(jobs := t.jobs, deletes := s.deletes + multiset(deleted), clock := s.clock + 2 * |deleted|)
    && forall n {:trigger n in deleted} {:trigger Lookup(t.jobs, n)} ::
         Settled(s, update, t, deleted, if n in done then cps + [cp] else cps, n)
  }

  /** Checkpoint `cp` leaves `name` alone: it is the source, gone, already restored, or being deleted. */
  lemma SkipJob(s: State, update: set<string>, t: State, deleted: set<string>,
                cps: seq<Checkpoint>, cp: Checkpoint, done: set<string>, name: string)
    requires Progress(s, update, t, deleted, cps, cp, done) && name !in done
    requires !Applicable(cp, name) || name !in t.jobs || t.jobs[name].annotated || t.jobs[name].deletedAt.Some?
    ensures Progress(s, update, t, deleted, cps, cp, done + {name})
  {
    hide Hit, JobAfter;
    SkipOne(s, update, t, deleted, cps, cp, done, name);
    forall n ensures Settled(s, update, t, deleted, if n in done + {name} then cps + [cp] else cps, n) {
      assert Settled(s, update, t, deleted, if n in done then cps + [cp] else cps, n);
    }
  }

  lemma SkipOne(s: State, update: set<string>, t: State, deleted: set<string>,
                cps: seq<Checkpoint>, cp: Checkpoint, done: set<string>, name: string)
    requires Progress(s, update, t, deleted, cps, cp, done) && name !in done
    requires !Applicable(cp, name) || name !in t.jobs || t.jobs[name].annotated || t.jobs[name].deletedAt.Some?
    ensures Settled(s, update, t, deleted, cps + [cp], name)
  {
    FirstApplicableSnoc(cps, cp, name);
    assert Settled(s, update, t, deleted, cps, name);
  }

  lemma AddToMultiset(deleted: set<string>, name: string)
    requires name !in deleted
    ensures multiset(deleted + {name}) == multiset(deleted) + multiset{name}
  {
  }

  lemma PutOther(jobs: map<string, Job>, name: string, job: Option<Job>, n: string)
    ensures Lookup(Put(jobs, name, job), n) == if n == name then job else Lookup(jobs, n)
  {
  }

  lemma FirstHit(s: State, update: set<string>, t: State, deleted: set<string>,
                 cps: seq<Checkpoint>, cp: Checkpoint, name: string)
    requires Settled(s, update, t, deleted, cps, name) && name in update
    requires Applicable(cp, name) && name in t.jobs && !t.jobs[name].annotated && t.jobs[name].deletedAt.None?
    ensures name !in deleted && name in s.jobs && s.jobs[name] == t.jobs[name]
    ensures Hit(s, update, cps + [cp], name)
    ensures JobAfter(s, update, cps + [cp], name) == Replacement(s.spec, s.pis, s.jobs[name], Images(cp))
  {
    FirstApplicableSnoc(cps, cp, name);
  }

  lemma ReplaceJob(s: State, update: set<string>, t: State, deleted: set<string>,
                   cps: seq<Checkpoint>, cp: Checkpoint, done: set<string>, name: string)
    requires Progress(s, update, t, deleted, cps, cp, done) && name !in done && name in update
    requires Applicable(cp, name) && name in t.jobs && !t.jobs[name].annotated && t.jobs[name].deletedAt.None?
    ensures name !in deleted
    ensures Progress(s, update, UpdateJob(t, name, Images(cp)), deleted + {name}, cps, cp, done + {name})
  {
    hide RestoredJob, FirstApplicable, FirstUsable, Replacement, Hit, JobAfter;
    var u := UpdateJob(t, name, Images(cp));
    var r := Replacement(t.spec, t.pis, t.jobs[name], Images(cp));
    assert Settled(s, update, t, deleted, cps, name);
    FirstHit(s, update, t, deleted, cps, cp, name);
    AddToMultiset(deleted, name);
    assert u == t.(jobs := Put(t.jobs, name, r), deletes := t.deletes + multiset{name}, clock := t.clock + 2);
    assert r == Replacement(s.spec, s.pis, s.jobs[name], Images(cp));
    forall n
      ensures Settled(s, update, u, deleted + {name}, if n in done + {name} then cps + [cp] else cps, n)
    {
      PutOther(t.jobs, name, r, n);
      assert Settled(s, update, t, deleted, if n in done then cps + [cp] else cps, n);
    }
  }

  lemma BeginCheckpoint(s: State, update: set<string>, t: State, deleted: set<string>,
                        cps: seq<Checkpoint>, cp: Checkpoint)
    requires AllSettled(s, update, t, deleted, cps)
    ensures Progress(s, update, t, deleted, cps, cp, {})
  {
    hide Hit, JobAfter;
    var done: set<string> := {};
    forall n ensures Settled(s, update, t, deleted, if n in done then cps + [cp] else cps, n) {
      assert Settled(s, update, t, deleted, cps, n);
    }
  }

  /** A job outside `update` is not hit by any checkpoint. */
  lemma EndCheckpoint(s: State, update: set<string>, t: State, deleted: set<string>,
                      cps: seq<Checkpoint>, cp: Checkpoint)
    requires Progress(s, update, t, deleted, cps, cp, update)
    ensures AllSettled(s, update, t, deleted, cps + [cp])
  {
    forall n ensures Settled(s, update, t, deleted, cps + [cp], n) {
      assert Settled(s, update, t, deleted, if n in update then cps + [cp] else cps, n);
    }
  }

  ghost predicate AllAnnotated(c: Cluster, names: set<string>)
    reads c
  {
    forall n :: n in names ==> n in c.jobs && c.jobs[n].annotated
  }

  /** One job under one checkpoint. */
  method VisitJob(c: Cluster, update: set<string>, cp: Checkpoint, name: string, before: set<string>,
                  ghost s: State, ghost cps: seq<Checkpoint>, ghost done: set<string>, ghost deleted0: set<string>)
    returns (processed: set<string>, ghost deleted: set<string>)
    requires Progress(s, update, c.View(), deleted0, cps, cp, done)
    requires Restorable(cp) && name in update && name !in done && AllAnnotated(c, before)
    modifies c`jobs, c`deletes, c`clock
    ensures Progress(s, update, c.View(), deleted, cps, cp, done + {name})
    ensures AllAnnotated(c, processed)
  {
    hide RestoredJob, FirstApplicable, FirstUsable, Replacement, Hit, JobAfter, UpdateJob, Settled, Progress;
    processed, deleted := before, deleted0;
    var isSource := cp.source.Some? && cp.source.value != "" && name == cp.source.value;
    if isSource || name in processed || name !in c.jobs {
      SkipJob(s, update, c.View(), deleted, cps, cp, done, name);
      return;
    }
    if c.jobs[name].annotated {
      processed := processed + {name};
      SkipJob(s, update, c.View(), deleted, cps, cp, done, name);
      return;
    }
    if c.jobs[name].deletedAt.Some? {
      SkipJob(s, update, c.View(), deleted, cps, cp, done, name);
      return;
    }
    ReplaceJob(s, update, c.View(), deleted, cps, cp, done, name);
    var ok := UpdateJobWithCheckpoint(c, name, Images(cp));
    deleted := deleted + {name};
    if ok {
      processed := processed + {name};
    }
  }

  /** One checkpoint: jobs are visited in an arbitrary order, as Go ranges over the map. */
  method ApplyCheckpoint(c: Cluster, update: set<string>, cp: Checkpoint, before: set<string>,
                         ghost s: State, ghost cps: seq<Checkpoint>, ghost deleted0: set<string>)
    returns (processed: set<string>, ghost deleted: set<string>)
    requires AllSettled(s, update, c.View(), deleted0, cps)
    requires Restorable(cp) && AllAnnotated(c, before)
    modifies c`jobs, c`deletes, c`clock
    ensures AllSettled(s, update, c.View(), deleted, cps + [cp])
    ensures AllAnnotated(c, processed)
  {
    hide Settled, AllSettled, Progress, AllAnnotated;
    processed, deleted := before, deleted0;
    BeginCheckpoint(s, update, c.View(), deleted, cps, cp);
    var left := update;
    ghost var done: set<string> := {};
    while left != {}
      invariant done + left == update && done * left == {}
      invariant Progress(s, update, c.View(), deleted, cps, cp, done)
      invariant AllAnnotated(c, processed)
      decreases left
    {
      var name :| name in left;
      processed, deleted := VisitJob(c, update, cp, name, processed, s, cps, done, deleted);
      left, done := left - {name}, done + {name};
    }
    assert done == update;
    EndCheckpoint(s, update, c.View(), deleted, cps, cp);
  }

  lemma SkipCheckpoint(s: State, update: set<string>, t: State, deleted: set<string>,
                       cps: seq<Checkpoint>, cp: Checkpoint)
    requires AllSettled(s, update, t, deleted, cps) && !Restorable(cp)
    ensures AllSettled(s, update, t, deleted, cps + [cp])
  {
    forall n ensures Settled(s, update, t, deleted, cps + [cp], n) {
      FirstApplicableSnoc(cps, cp, n);
      assert Settled(s, update, t, deleted, cps, n);
    }
  }

  lemma NothingProcessed(s: State, update: set<string>)
    ensures AllSettled(s, update, s, {}, [])
    ensures AllSettled(s, {}, s, {}, s.checkpoints)
  {
    forall n ensures Settled(s, update, s, {}, [], n) && Settled(s, {}, s, {}, s.checkpoints, n) {
    }
  }

  lemma AllProcessed(s: State, update: set<string>, t: State, deleted: set<string>)
    requires AllSettled(s, update, t, deleted, s.checkpoints)
    ensures t == ProcessCompleted(s, update)
  {
    forall n ensures Settled(s, update, t, deleted, s.checkpoints, n) {
    }
    assert deleted == Deleted(s, update);
    assert forall n :: n in t.jobs <==> Lookup(t.jobs, n).Some?;
    assert t.jobs == ProcessCompleted(s, update).jobs;
  }

  method ProcessCompletedCheckpoints(c: Cluster, update: set<string>)
    modifies c`jobs, c`deletes, c`clock
    ensures c.View() == old(ProcessCompleted(c.View(), update))
  {
    hide RestoredJob, FirstApplicable, FirstUsable, Replacement, Hit, JobAfter, ProcessCompleted, Settled, AllSettled;
    ghost var s := c.View();
    ghost var deleted: set<string> := {};
    NothingProcessed(s, update);
    if update == {} {
      AllProcessed(s, update, s, deleted);
      return;
    }
    var processed: set<string> := {};
    var k := 0;
    while k < |c.checkpoints|
      invariant c.checkpoints == s.checkpoints && 0 <= k <= |c.checkpoints|
      invariant AllSettled(s, update, c.View(), deleted, s.checkpoints[..k])
      invariant AllAnnotated(c, processed)
    {
      var cp := c.checkpoints[k];
      ghost var cps := s.checkpoints[..k];
      assert s.checkpoints[..k + 1] == cps + [cp];
      if (cp.phase == Completed || cp.phase == CompletedPodDeleted) && |Images(cp)| != 0 {
        processed, deleted := ApplyCheckpoint(c, update, cp, processed, s, cps, deleted);
      } else {
        SkipCheckpoint(s, update, c.View(), deleted, cps, cp);
      }
      k := k + 1;
    }
    assert s.checkpoints[..k] == s.checkpoints;
    AllProcessed(s, update, c.View(), deleted);
  }

  // ---------- What a restore keeps ----------

  /** The checkpoint image of a container is that of the last entry with its name. */
  ghost predicate LastEntry(images: seq<Container>, name: string, k: int)
  {
    0 <= k < |images| && images[k].name == name && forall j :: k < j < |images| ==> images[j].name != name
  }

  lemma {:induction false} ImageMapEntries(repo: string, images: seq<Container>, name: string)
    ensures name !in ImageMap(repo, images) ==> forall j :: 0 <= j < |images| ==> images[j].name != name
    ensures name in ImageMap(repo, images) ==> exists k ::
      LastEntry(images, name, k) && ImageMap(repo, images)[name] == RestoredImage(repo, images[k].image)
  {
    hide RestoredImage;
    if images != [] {
      var n := |images| - 1;
      var init := images[..n];
      ImageMapEntries(repo, init, name);
      assert forall j :: 0 <= j < n ==> init[j] == images[j];
      if images[n].name == name {
        assert LastEntry(images, name, n);
      } else if name in ImageMap(repo, images) {
        var k :| LastEntry(init, name, k) && ImageMap(repo, init)[name] == RestoredImage(repo, init[k].image);
        assert LastEntry(images, name, k);
      }
    }
  }

  lemma {:induction false} RequestedImage(repo: string, names: seq<string>, t: nat, name: string)
    ensures var m := ImageMap(repo, Requested(repo, names, t));
      if name in names then name in m && m[name] == Normalise(repo) + ":" + Tag(name, t) else name !in m
  {
    if names != [] {
      var n := |names| - 1;
      RequestedImage(repo, names[..n], t, name);
      ImageRoundTrip(repo, names[n], t);
      var images := Requested(repo, names, t);
      assert images[..n] == Requested(repo, names[..n], t);
      assert names == names[..n] + [names[n]];
    }
  }

  /**
    Checkpoint, then restore: with the images its checkpoint asked for, a container of the checkpointed pod
    runs the repository in full form tagged with its own name and the checkpoint time; others are unchanged.
  */
  lemma CheckpointThenRestore(spec: Spec, job: string, pod: Pod, t: nat, before: Job, node: string, k: nat)
    requires k < |before.containers|
    ensures var after := RestoredJob(spec, before, NewCheckpoint(spec, job, pod, t).requested, node);
      var c := before.containers[k];
      && |after.containers| == |before.containers|
      && after.containers[k] ==
        if c.name in pod.containers then c.(image := Normalise(spec.imageRepo) + ":" + Tag(c.name, t)) else c
  {
    RequestedImage(spec.imageRepo, pod.containers, t, before.containers[k].name);
  }

  /**
    What a checkpoint is told to push, registry and image together, is what a restore later runs; and its
    registry and repository together are the image repository in full form.
  */
  lemma CheckpointTarget(spec: Spec, job: string, pod: Pod, t: nat, k: nat)
    requires k < |pod.containers|
    ensures var cp := NewCheckpoint(spec, job, pod, t);
      && '/' !in cp.registry && cp.registry + "/" + cp.repository == Normalise(spec.imageRepo)
      && |cp.requested| == |pod.containers| && cp.requested[k].name == pod.containers[k]
      && cp.registry + "/" + cp.requested[k].image == RestoredImage(spec.imageRepo, cp.requested[k].image)
      && cp.source == Some(job) && cp.pod == pod.name && InFlight(cp)
  {
    SplitRegistryHasNoSlash(spec.imageRepo);
  }

  /** The two labels of the controller, and the user's as they were. */
  lemma LabelsOf(spec: Spec, user: map<string, string>, i: nat)
    ensures var labels := ReplicaLabels(spec, user, i);
      && SPOT_JOB_LABEL in labels && labels[SPOT_JOB_LABEL] == spec.name
      && REPLICA_LABEL in labels && labels[REPLICA_LABEL] == Decimal(i)
      && forall k :: k != SPOT_JOB_LABEL && k != REPLICA_LABEL ==>
           (k in labels <==> k in user) && (k in user ==> labels[k] == user[k])
  {
    assert SPOT_JOB_LABEL[24] != REPLICA_LABEL[24];
  }
}
