/** Which Jobs are replaced and what by, read off the instances and checkpoints in the store. */
module Replacements {
  import opened Names
  import opened Objects
  import opened ImageReferences
  import opened Checkpoints
  import opened Restore
  import opened Preemption
  import opened Controller
  import opened RestoreSafety
  import opened LostReplicas
  import opened Reactions

  // ---------- Images ----------

  /** `after` runs the image of the last entry with its name, behind the registry; without one it is unchanged. */
  ghost predicate ImageFrom(repo: string, entries: seq<Container>, before: Container, after: Container)
  {
    && after.name == before.name
    && (forall e :: LastEntry(entries, before.name, e) ==>
          after.image == RestoreRegistry(repo) + "/" + entries[e].image)
    && ((forall e :: 0 <= e < |entries| ==> entries[e].name != before.name) ==> after.image == before.image)
  }

  /** The images are those of `reported`; those of `built` only if there are none. */
  ghost predicate ImagesOf(repo: string, cp: Checkpoint, before: seq<Container>, after: seq<Container>)
  {
    && |after| == |before|
    && (cp.reported != [] ==> forall k :: 0 <= k < |before| ==> ImageFrom(repo, cp.reported, before[k], after[k]))
    && (cp.reported == [] ==> forall k :: 0 <= k < |before| ==> ImageFrom(repo, cp.built, before[k], after[k]))
  }

  lemma MappedImage(repo: string, entries: seq<Container>, before: Container)
    ensures ImageFrom(repo, entries, before, WithImage(before, ImageMap(repo, entries)))
  {
    ImageMapEntries(repo, entries, before.name);
    forall d, e | LastEntry(entries, before.name, d) && LastEntry(entries, before.name, e) ensures d == e {
    }
  }

  lemma MappedImages(repo: string, cp: Checkpoint, before: seq<Container>)
    ensures ImagesOf(repo, cp, before, WithImages(before, ImageMap(repo, Images(cp))))
  {
    hide ImageMap, ImageFrom;
    forall k | 0 <= k < |before| {
      MappedImage(repo, Images(cp), before[k]);
    }
  }

  // ---------- The checkpoint and the instance that are chosen ----------

  /** It has completed with images and was not taken of this Job. */
  ghost predicate CanRestore(cp: Checkpoint, n: string)
  {
    && (cp.phase == Completed || cp.phase == CompletedPodDeleted) && (cp.reported != [] || cp.built != [])
    && (cp.source == Some(n) ==> n == "")
  }

  ghost predicate FirstToRestore(cps: seq<Checkpoint>, n: string, c: int)
  {
    0 <= c < |cps| && CanRestore(cps[c], n) && forall d :: 0 <= d < c ==> !CanRestore(cps[d], n)
  }

  ghost predicate Home(pi: Instance, i: nat)
  {
    pi.index == Some(i) && pi.state == Running && !pi.notice && pi.joined && pi.nodeName != ""
  }

  ghost predicate FirstHome(pis: seq<Instance>, i: nat, q: int)
  {
    0 <= q < |pis| && Home(pis[q], i) && forall r :: 0 <= r < q ==> !Home(pis[r], i)
  }

  lemma {:induction false} ToRestoreExact(cps: seq<Checkpoint>, n: string)
    ensures FirstApplicable(cps, n).None? <==> forall c :: 0 <= c < |cps| ==> !CanRestore(cps[c], n)
    ensures FirstApplicable(cps, n).Some? ==>
      exists c :: FirstToRestore(cps, n, c) && FirstApplicable(cps, n) == Some(cps[c])
  {
    if cps != [] {
      ToRestoreExact(cps[1..], n);
      if CanRestore(cps[0], n) {
        assert FirstToRestore(cps, n, 0);
      } else {
        assert forall c :: 0 < c < |cps| ==> cps[c] == cps[1..][c - 1];
        if FirstApplicable(cps[1..], n).Some? {
          var c :| FirstToRestore(cps[1..], n, c) && FirstApplicable(cps[1..], n) == Some(cps[1..][c]);
          assert FirstToRestore(cps, n, c + 1);
        }
      }
    }
  }

  lemma {:induction false} HomeExact(pis: seq<Instance>, i: nat)
    ensures FirstUsable(pis, i).None? <==> forall q :: 0 <= q < |pis| ==> !Home(pis[q], i)
    ensures FirstUsable(pis, i).Some? ==> exists q :: FirstHome(pis, i, q) && FirstUsable(pis, i) == Some(pis[q])
  {
    if pis != [] {
      HomeExact(pis[1..], i);
      if Home(pis[0], i) {
        assert FirstHome(pis, i, 0);
      } else {
        assert forall q :: 0 < q < |pis| ==> pis[q] == pis[1..][q - 1];
        if FirstUsable(pis[1..], i).Some? {
          var q :| FirstHome(pis[1..], i, q) && FirstUsable(pis[1..], i) == Some(pis[1..][q]);
          assert FirstHome(pis, i, q + 1);
        }
      }
    }
  }

  // ---------- The new Job ----------

  /** Job `later` is `job` with the images of a checkpoint, on the node of an instance of its index. */
  ghost predicate Renews(spec: Spec, job: Job, cp: Checkpoint, pi: Instance, i: nat, later: Job)
  {
    && later.name == job.name && later.index == Some(i) && later.stamp == job.stamp && later.annotated
    && later.restoredFrom == None && later.deletedAt == None && later.active == 0 && later.succeeded == 0
    && ImagesOf(spec.imageRepo, cp, job.containers, later.containers) && later.node == pi.nodeName
    && later.podLabels == map[SPOT_JOB_LABEL := spec.name, REPLICA_LABEL := Decimal(i)]
  }

  /** A Job without a readable replica label counts as the one of index 0. */
  ghost predicate IndexFor(job: Job, i: nat)
  {
    job.index == Some(i) || (job.index == None && i == 0)
  }

  /** The Job is gone if no instance of its index is ready, and otherwise on the first that is. */
  ghost predicate ReplacedBy(s: State, n: string, cp: Checkpoint, later: Option<Job>)
    requires n in s.jobs
  {
    forall i: nat :: IndexFor(s.jobs[n], i) ==>
      (later == None <==> forall q :: 0 <= q < |s.pis| ==> !Home(s.pis[q], i))
      && (later != None ==>
            exists q :: FirstHome(s.pis, i, q) && Renews(s.spec, s.jobs[n], cp, s.pis[q], i, later.value))
  }

  lemma ReplacementExact(s: State, n: string, cp: Checkpoint)
    requires n in s.jobs
    ensures ReplacedBy(s, n, cp, Replacement(s.spec, s.pis, s.jobs[n], Images(cp)))
  {
    hide Home, FirstUsable, Images, ImagesOf, ImageMap, Decimal;
    var i := IndexOrZero(s.jobs[n]);
    HomeExact(s.pis, i);
    MappedImages(s.spec.imageRepo, cp, s.jobs[n].containers);
  }

  // ---------- Restores in a pass ----------

  /** The Job is of the index of a lost instance or, if that has none, is named by a pod on its node. */
  ghost predicate OfLost(s: State, n: string, pi: Instance)
  {
    && (pi.notice || pi.state == Stopping || pi.state == Terminated)
    && n in s.jobs
    && (if pi.index != None then s.jobs[n].index == pi.index
        else exists p :: 0 <= p < |s.pods| && PodNames(s.pods[p], n) && s.pods[p].node == pi.nodeName != "")
  }

  /** It was lost, is not being deleted, has not been restored before, and some checkpoint can restore it. */
  ghost predicate Replaceable(s: State, n: string)
  {
    && n in s.jobs && !s.jobs[n].annotated && s.jobs[n].deletedAt == None
    && (exists k :: 0 <= k < |s.pis| && OfLost(s, n, s.pis[k]))
    && exists c :: 0 <= c < |s.checkpoints| && CanRestore(s.checkpoints[c], n)
  }

  lemma ReplaceableIff(s: State, n: string)
    ensures Replaceable(s, n) <==> n in AllAffected(s) && Due(s, n)
  {
    hide CanRestore, Applicable;
    CanRestoreIff(s, n);
    if n in s.jobs && !s.jobs[n].annotated && s.jobs[n].deletedAt == None {
      forall k | 0 <= k < |s.pis|
        ensures OfLost(s, n, s.pis[k]) <==> Preempted(s.pis[k]) && n in Affected(s, s.pis[k])
      {
        OfLostIff(s, n, s.pis[k]);
      }
    }
  }

  lemma CanRestoreIff(s: State, n: string)
    ensures HasApplicable(s, n) <==> exists c :: 0 <= c < |s.checkpoints| && CanRestore(s.checkpoints[c], n)
  {
    if HasApplicable(s, n) {
      var cp :| cp in s.checkpoints && Applicable(cp, n);
      var c :| 0 <= c < |s.checkpoints| && s.checkpoints[c] == cp;
      assert CanRestore(s.checkpoints[c], n);
    }
    if c :| 0 <= c < |s.checkpoints| && CanRestore(s.checkpoints[c], n) {
      assert s.checkpoints[c] in s.checkpoints && Applicable(s.checkpoints[c], n);
    }
  }

  lemma OfLostIff(s: State, n: string, pi: Instance)
    requires n in s.jobs && !s.jobs[n].annotated && s.jobs[n].deletedAt == None
    ensures OfLost(s, n, pi) <==> Preempted(pi) && n in Affected(s, pi)
  {
    hide Affected, PodNames;
    AffectedIff(s, pi, n);
  }

  /** The Jobs collected for a lost instance: with an index those that are fit to be replaced, else all on its node. */
  lemma AffectedIff(s: State, pi: Instance, n: string)
    ensures n in Affected(s, pi) <==>
      if pi.index != None
      then n in s.jobs && s.jobs[n].index == pi.index && s.jobs[n].deletedAt == None && !s.jobs[n].annotated
      else exists p :: 0 <= p < |s.pods| && PodNames(s.pods[p], n) && s.pods[p].node == pi.nodeName != ""
  {
    assert forall pod: Pod :: PodNames(pod, n) <==> pod.owned && JobOf(pod) == n && n != "";
  }

  lemma AllServed(s: State)
    requires UniqueInstances(s.pis) && SomeAlive(s.pis) && !HasPending(s.checkpoints)
    ensures Served(s, AfterPreemption(s), |s.pis|)
  {
    hide HandleFrom, AllAffected, Affected, Due;
    RestoresNothing(s, s, AllAffected(s));
    HandleFromServes(s, s, 0, {});
  }

  /**
    Exactly which Jobs preemption handling replaces: with nothing pending and some replica alive, those that are
    lost, not restored before and not being deleted, provided some completed checkpoint was not taken of them.
  */
  lemma ReplacedIff(s: State, n: string)
    requires UniqueInstances(s.pis) && n in s.jobs
    ensures Lookup(AfterPreemption(s).jobs, n) != Some(s.jobs[n]) <==>
      (forall cp :: cp in s.checkpoints ==> cp.phase != InProgress)
      && (exists k :: 0 <= k < |s.pis| && s.pis[k].state == Running && !s.pis[k].notice)
      && Replaceable(s, n)
  {
    hide AfterPreemption, Replaceable, AllAffected, Affected, Due, UniqueInstances, Justified;
    ReplaceableIff(s, n);
    PreemptionRestores(s);
    var t := AfterPreemption(s);
    assert SomeAlive(s.pis) <==> exists k :: 0 <= k < |s.pis| && s.pis[k].state == Running && !s.pis[k].notice;
    if Changed(s, t, n) { ChangedNeeds(s, n); }
    if !HasPending(s.checkpoints) && SomeAlive(s.pis) && Replaceable(s, n) {
      AllServed(s);
      AffectedSomewhere(s, n);
      assert Changed(s, t, n);
    }
  }

  lemma ChangedNeeds(s: State, n: string)
    requires UniqueInstances(s.pis) && Changed(s, AfterPreemption(s), n)
    ensures !HasPending(s.checkpoints) && SomeAlive(s.pis) && n in AllAffected(s) && Due(s, n)
  {
    hide HandlePreemption, AllAffected, UniqueInstances, RestoredBy, HasApplicable, FirstUsable;
    PreemptionRestores(s);
    UniformDecision(s);
    assert Justified(s, AfterPreemption(s), AllAffected(s), n);
  }

  /**
    What a replaced Job becomes: gone, if its index has no instance that is ready; else the Job as it was, on
    the first of these, with the images of the first checkpoint that can restore it. It is deleted once.
  */
  lemma ReplacedExactly(s: State, n: string)
    requires n in s.jobs && Lookup(AfterPreemption(s).jobs, n) != Some(s.jobs[n])
    ensures AfterPreemption(s).deletes[n] == s.deletes[n] + 1
    ensures var later := Lookup(AfterPreemption(s).jobs, n);
      exists c :: FirstToRestore(s.checkpoints, n, c) && ReplacedBy(s, n, s.checkpoints[c], later)
  {
    hide AfterPreemption, AllAffected, CanRestore, Applicable, ReplacedBy, RestoredJob, FirstUsable, FirstApplicable;
    var t := AfterPreemption(s);
    PreemptionRestores(s);
    assert Changed(s, t, n) && Justified(s, t, AllAffected(s), n);
    ToRestoreExact(s.checkpoints, n);
    var cp :| cp in s.checkpoints && Applicable(cp, n);
    assert FirstApplicable(s.checkpoints, n).Some?;
    var c :| FirstToRestore(s.checkpoints, n, c) && FirstApplicable(s.checkpoints, n) == Some(s.checkpoints[c]);
    ReplacementExact(s, n, s.checkpoints[c]);
    assert Lookup(t.jobs, n) == Replacement(s.spec, s.pis, s.jobs[n], Images(s.checkpoints[c]));
  }

  // ---------- Restores without a live replica ----------

  /** The dated checkpoint with images that completed last, the first of these on a tie. */
  ghost predicate CompletedLast(cps: seq<Checkpoint>, c: int)
  {
    && 0 <= c < |cps| && DatedWithImages(cps[c])
    && forall d :: 0 <= d < |cps| && DatedWithImages(cps[d]) ==>
         if d < c then cps[d].completionTime.time < cps[c].completionTime.time
         else cps[d].completionTime.time <= cps[c].completionTime.time
  }

  ghost predicate DatedWithImages(cp: Checkpoint)
  {
    && (cp.phase == Completed || cp.phase == CompletedPodDeleted) && (cp.reported != [] || cp.built != [])
    && cp.completionTime.At?
  }

  lemma CompletedLastIff(cps: seq<Checkpoint>, c: nat)
    ensures CompletedLast(cps, c) <==> IsLatest(cps, c)
  {
    assert forall cp: Checkpoint :: DatedWithImages(cp) <==> Dated(cp);
  }

  /**
    The asynchronous restore replaces a Job that has not been restored before, even its own checkpoint's source
    or one that is being deleted, by the checkpoint that completed last; otherwise it does nothing.
  */
  lemma LatestRestoreExactly(s: State, n: string, t: State)
    requires LatestRestore(s, n, t)
    ensures
      if n in s.jobs && !s.jobs[n].annotated && exists c :: CompletedLast(s.checkpoints, c)
      then t == s.(jobs := t.jobs, deletes := s.deletes + multiset{n}, clock := s.clock + 2)
        && (forall o :: o != n ==> Lookup(t.jobs, o) == Lookup(s.jobs, o))
        && exists c :: CompletedLast(s.checkpoints, c) && ReplacedBy(s, n, s.checkpoints[c], Lookup(t.jobs, n))
      else t == s
  {
    hide IsLatest, CompletedLast, ReplacedBy, Replacement, Images;
    forall c: int
      ensures CompletedLast(s.checkpoints, c) <==> 0 <= c < |s.checkpoints| && IsLatest(s.checkpoints, c)
      ensures c >= 0 && IsLatest(s.checkpoints, c) ==> c < |s.checkpoints|
    {
      LastInRange(s.checkpoints, c);
      if c >= 0 { CompletedLastIff(s.checkpoints, c); }
    }
    if n in s.jobs && exists c :: CompletedLast(s.checkpoints, c) {
      var c0 :| CompletedLast(s.checkpoints, c0);
      assert exists k: nat :: IsLatest(s.checkpoints, k);
      var k: nat :| IsLatest(s.checkpoints, k) && t == UpdateJob(s, n, Images(s.checkpoints[k]));
      LastInRange(s.checkpoints, k);
      ReplacementExact(s, n, s.checkpoints[k]);
    }
  }

  lemma LastInRange(cps: seq<Checkpoint>, c: int)
    ensures CompletedLast(cps, c) ==> 0 <= c < |cps|
  {
  }

  // ---------- Deletions take time ----------

  lemma {:induction false} DeletionsFrom(s: State, k: nat, update: set<string>)
    ensures HandleFrom(s, k, update).clock == s.clock + 2 * (|HandleFrom(s, k, update).deletes| - |s.deletes|)
    decreases |s.pis| - k
  {
    hide HandleOne, Affected;
    if k < |s.pis| {
      if Preempted(s.pis[k]) {
        var u := update + Affected(s, s.pis[k]);
        DeletionsOfOne(s, s.pis[k], u);
        DeletionsFrom(HandleOne(s, s.pis[k], u), k + 1, u);
      } else {
        DeletionsFrom(s, k + 1, update);
      }
    }
  }

  lemma DeletionsOfOne(s: State, pi: Instance, update: set<string>)
    ensures HandleOne(s, pi, update).clock == s.clock + 2 * (|HandleOne(s, pi, update).deletes| - |s.deletes|)
  {
    hide Deleted, JobAfter, FirstAlive, AlreadyHandled, Added;
    assert |multiset(Deleted(s, update))| == |Deleted(s, update)|;
  }

  /** Each deletion of a pass costs two seconds, and nothing else does. */
  lemma TwoSecondsEach(s: State, noInstance: set<nat>, noJob: set<nat>)
    ensures var t := Pass(s, noInstance, noJob); t.clock == s.clock + 2 * (|t.deletes| - |s.deletes|)
  {
    hide HandleFrom;
    DeletionsFrom(s, 0, {});
  }
}
