/** handlePreemption: per lost instance, checkpoint a live replica or restore from the latest checkpoint. */
module Preemption {
  import opened Objects
  import opened Checkpoints
  import opened Restore

  /** The un-restored jobs a lost instance stands for: those of its index, else those with a pod on its node. */
  function Affected(s: State, pi: Instance): set<string>
  {
    if pi.index.Some? then
      set n | n in s.jobs && s.jobs[n].index == pi.index && s.jobs[n].deletedAt.None? && !s.jobs[n].annotated
    else if pi.nodeName != "" then JobsOnNode(s.pods, pi.nodeName)
    else {}
  }

  predicate Alive(pi: Instance)
  {
    pi.state == Running && !pi.notice
  }

  /** Running, un-noticed instances other than the named one. */
  function OthersAlive(pis: seq<Instance>, name: string): nat
  {
    if pis == [] then 0
    else
      var n := |pis| - 1;
      OthersAlive(pis[..n], name) + if pis[n].name != name && Alive(pis[n]) then 1 else 0
  }

  /** Checkpoints the job of the first live pod away from the lost node. */
  ghost function CheckpointAlive(s: State, lost: string): State
  {
    var pod := FirstAlive(s.pods, s.nodes, lost);
    if pod.None? || JobOf(pod.value) == "" then s else WithCheckpoint(s, JobOf(pod.value))
  }

  /** A completed checkpoint whose restores are visible, or recent enough that they may still come. */
  ghost predicate AlreadyHandled(s: State)
  {
    HasCompleted(s.checkpoints) && (HasRestored(s.jobs) || CompletedRecently(s.checkpoints, s.clock))
  }

  /** The reaction to one lost instance, `update` being the jobs collected so far. */
  ghost function HandleOne(s: State, pi: Instance, update: set<string>): (t: State)
    ensures t == s.(jobs := t.jobs, checkpoints := t.checkpoints, clock := t.clock,
                    deletes := t.deletes, launched := t.launched)
  {
    if OthersAlive(s.pis, pi.name) > 0 then
      var r := ProcessCompleted(s, update);
      if AlreadyHandled(r) then r else CheckpointAlive(r, pi.nodeName)
    else if pi.nodeName != "" then
      s.(launched := s.launched + JobsOnNode(s.pods, pi.nodeName))
    else s
  }

  /** The instances from position `k` on. */
  ghost function HandleFrom(s: State, k: nat, update: set<string>): (t: State)
    ensures t == s.(jobs := t.jobs, checkpoints := t.checkpoints, clock := t.clock,
                    deletes := t.deletes, launched := t.launched)
    decreases |s.pis| - k
  {
    if k >= |s.pis| then s
    else if !Preempted(s.pis[k]) then HandleFrom(s, k + 1, update)
    else
      var u := update + Affected(s, s.pis[k]);
      HandleFrom(HandleOne(s, s.pis[k], u), k + 1, u)
  }

  ghost function HandlePreemption(s: State): State
  {
    HandleFrom(s, 0, {})
  }

  // ---------- The reconciler's method ----------

  method AffectedJobs(c: Cluster, pi: Instance) returns (r: set<string>)
    ensures r == Affected(c.View(), pi)
  {
    r := {};
    if pi.index.Some? {
      var left := c.jobs.Keys;
      while left != {}
        invariant left <= c.jobs.Keys
        invariant r == set n | n in c.jobs && n !in left && c.jobs[n].index == pi.index
          && c.jobs[n].deletedAt.None? && !c.jobs[n].annotated
        decreases left
      {
        var n :| n in left;
        left := left - {n};
        var job := c.jobs[n];
        if job.index != pi.index { continue; }
        if job.deletedAt.Some? { continue; }
        if job.annotated { continue; }
        r := r + {n};
      }
    } else if pi.nodeName != "" {
      r := FindJobsOnNode(c, pi.nodeName);
    }
  }

  method HandlePreemptedInstances(c: Cluster)
    modifies c`jobs, c`checkpoints, c`deletes, c`clock, c`launched
    ensures c.View() == old(HandlePreemption(c.View()))
  {
    ghost var s := c.View();
    var update: set<string> := {};
    var k := 0;
    while k < |c.pis|
      invariant 0 <= k <= |c.pis|
      invariant HandleFrom(s, 0, {}) == HandleFrom(c.View(), k, update)
    {
      var pi := c.pis[k];
      if pi.notice || pi.state == Terminated || pi.state == Stopping {
        var affected := AffectedJobs(c, pi);
        update := update + affected;
        ReactTo(c, pi, update);
      }
      k := k + 1;
    }
  }

  /** The body of the loop, after the jobs of this instance have been collected. */
  method ReactTo(c: Cluster, pi: Instance, update: set<string>)
    modifies c`jobs, c`checkpoints, c`deletes, c`clock, c`launched
    ensures c.View() == old(HandleOne(c.View(), pi, update))
  {
    hide ProcessCompleted, WithCheckpoint, FirstAlive;
    var others := 0;
    for j := 0 to |c.pis|
      invariant others == OthersAlive(c.pis[..j], pi.name)
    {
      assert c.pis[..j + 1][..j] == c.pis[..j];
      if c.pis[j].name != pi.name && c.pis[j].state == Running && !c.pis[j].notice {
        others := others + 1;
      }
    }
    assert c.pis[..|c.pis|] == c.pis;
    if others > 0 {
      ProcessCompletedCheckpoints(c, update);
      var completed, recently := HasCompletedCheckpoint(c);
      if completed {
        var restored := HasRestoredJobs(c);
        if restored { return; }
        if recently { return; }
      }
      var pod := FindAlive(c, pi.nodeName);
      if pod.Some? {
        var job := JobOf(pod.value);
        if job != "" {
          CreateCheckpointForJob(c, job);
        }
      }
    } else if pi.nodeName != "" {
      var jobs := FindJobsOnNode(c, pi.nodeName);
      c.launched := c.launched + jobs;
    }
  }

  // ---------- recreateJobFromLatestCheckpoint, started for each launched job ----------

  ghost predicate LatestRestore(s: State, job: string, t: State)
  {
    if job in s.jobs && exists k: nat :: IsLatest(s.checkpoints, k)
    then exists k: nat :: IsLatest(s.checkpoints, k) && t == UpdateJob(s, job, Images(s.checkpoints[k]))
    else t == s
  }

  predicate RestoredFrom(s: State, before: Job, k: nat, after: Job)
    requires k < |s.checkpoints|
  {
    var pi := FirstUsable(s.pis, IndexOrZero(before));
    pi.Some? && after == RestoredJob(s.spec, before, Images(s.checkpoints[k]), pi.value.nodeName)
  }

  /**
    Without a live replica all depends on the replacement being there already: the Job is deleted in any case,
    and comes back, with the images of the latest checkpoint, exactly if its index has a usable instance.
  */
  lemma LatestRestoreIff(s: State, job: string, t: State)
    requires LatestRestore(s, job, t) && job in s.jobs && !s.jobs[job].annotated
    requires exists k: nat :: IsLatest(s.checkpoints, k)
    ensures t.deletes[job] == s.deletes[job] + 1 && forall n :: n != job ==> Lookup(t.jobs, n) == Lookup(s.jobs, n)
    ensures job in t.jobs <==> FirstUsable(s.pis, IndexOrZero(s.jobs[job])).Some?
    ensures job in t.jobs ==>
      exists k: nat :: IsLatest(s.checkpoints, k) && RestoredFrom(s, s.jobs[job], k, t.jobs[job])
  {
    hide FirstUsable, RestoredJob, IsLatest;
  }

  method RecreateJobFromLatestCheckpoint(c: Cluster, job: string)
    modifies c`jobs, c`deletes, c`clock
    ensures LatestRestore(old(c.View()), job, c.View())
  {
    hide UpdateJob;
    var latest := LatestCheckpoint(c.checkpoints);
    if latest.None? { return; }
    if job !in c.jobs { return; }
    var images := Images(c.checkpoints[latest.value]);
    var ok := UpdateJobWithCheckpoint(c, job, images);
  }
}
