/** CheckpointBackups: scanning, and creation for a live job. */
module Checkpoints {
  import opened Names
  import opened Objects
  import opened ImageReferences

  predicate InFlight(cp: Checkpoint)
  {
    cp.phase == InProgress
  }

  predicate Successful(cp: Checkpoint)
  {
    cp.phase == Completed || cp.phase == CompletedPodDeleted
  }

  /** In progress or successfully completed: what blocks another checkpoint of the same job. */
  predicate Live(cp: Checkpoint)
  {
    InFlight(cp) || Successful(cp)
  }

  ghost predicate HasPending(cps: seq<Checkpoint>)
  {
    exists cp :: cp in cps && InFlight(cp)
  }

  ghost predicate HasCompleted(cps: seq<Checkpoint>)
  {
    exists cp :: cp in cps && Successful(cp)
  }

  const RECENT := 300

  /** Completed less than five minutes ago; without a completion time the creation time counts. */
  predicate Recent(cp: Checkpoint, now: int)
  {
    match cp.completionTime
    case At(t) => now - t < RECENT
    case Unparsable => false
    case Missing => now - cp.createdAt < RECENT
  }

  ghost predicate CompletedRecently(cps: seq<Checkpoint>, now: int)
  {
    exists cp :: cp in cps && Successful(cp) && Recent(cp, now)
  }

  ghost predicate HasRestored(jobs: map<string, Job>)
  {
    exists n :: n in jobs && jobs[n].annotated
  }

  method HasPendingCheckpoints(c: Cluster) returns (r: bool)
    ensures r <==> HasPending(c.checkpoints)
  {
    for k := 0 to |c.checkpoints|
      invariant forall j :: 0 <= j < k ==> !InFlight(c.checkpoints[j])
    {
      var phase := c.checkpoints[k].phase;
      if phase != Completed && phase != CompletedPodDeleted && phase != CompletedWithError && phase != Failed {
        assert c.checkpoints[k] in c.checkpoints;
        return true;
      }
    }
    return false;
  }

  method HasCompletedCheckpoint(c: Cluster) returns (completed: bool, recently: bool)
    ensures completed <==> HasCompleted(c.checkpoints)
    ensures recently <==> CompletedRecently(c.checkpoints, c.clock)
  {
    completed, recently := false, false;
    for k := 0 to |c.checkpoints|
      invariant completed <==> exists j :: 0 <= j < k && Successful(c.checkpoints[j])
      invariant recently <==>
        exists j :: 0 <= j < k && Successful(c.checkpoints[j]) && Recent(c.checkpoints[j], c.clock)
    {
      var cp := c.checkpoints[k];
      if cp.phase == Completed || cp.phase == CompletedPodDeleted {
        completed := true;
        match cp.completionTime {
          case At(t) => if c.clock - t < RECENT { recently := true; }
          case Unparsable =>
          case Missing => if c.clock - cp.createdAt < RECENT { recently := true; }
        }
      }
    }
  }

  method HasRestoredJobs(c: Cluster) returns (r: bool)
    ensures r <==> HasRestored(c.jobs)
  {
    var left := c.jobs.Keys;
    while left != {}
      invariant left <= c.jobs.Keys
      invariant forall n :: n in c.jobs && n !in left ==> !c.jobs[n].annotated
      decreases left
    {
      var n :| n in left;
      if c.jobs[n].annotated { return true; }
      left := left - {n};
    }
    return false;
  }

  // ---------- Pods and nodes ----------

  /** The `job-name` label, or its newer spelling. */
  function JobOf(pod: Pod): string
  {
    if pod.jobLabel.Some? then pod.jobLabel.value
    else if pod.altLabel.Some? then pod.altLabel.value
    else ""
  }

  function JobsOnNode(pods: seq<Pod>, node: string): set<string>
  {
    set k | 0 <= k < |pods| && pods[k].node == node && pods[k].owned && JobOf(pods[k]) != "" :: JobOf(pods[k])
  }

  method FindJobsOnNode(c: Cluster, node: string) returns (found: set<string>)
    ensures found == JobsOnNode(c.pods, node)
  {
    found := {};
    for k := 0 to |c.pods|
      invariant found == JobsOnNode(c.pods[..k], node)
    {
      var pod := c.pods[k];
      assert c.pods[..k + 1][..k] == c.pods[..k];
      AddPod(c.pods[..k], pod, node);
      assert c.pods[..k + 1] == c.pods[..k] + [pod];
      if pod.node == node && pod.owned && JobOf(pod) != "" {
        found := found + {JobOf(pod)};
      }
    }
    assert c.pods[..|c.pods|] == c.pods;
  }

  lemma AddPod(pods: seq<Pod>, pod: Pod, node: string)
    ensures JobsOnNode(pods + [pod], node) == JobsOnNode(pods, node)
      + (if pod.node == node && pod.owned && JobOf(pod) != "" then {JobOf(pod)} else {})
  {
    var all := pods + [pod];
    assert all[|pods|] == pod && forall k :: 0 <= k < |pods| ==> all[k] == pods[k];
    forall n | n in JobsOnNode(pods, node) ensures n in JobsOnNode(all, node) {
      var k :| 0 <= k < |pods| && pods[k].node == node && pods[k].owned && JobOf(pods[k]) != "" && n == JobOf(pods[k]);
      assert all[k] == pods[k];
    }
  }

  /** Scheduled on a node that exists and is ready. */
  predicate OnReadyNode(pod: Pod, nodes: map<string, bool>)
  {
    pod.node != "" && pod.node in nodes && nodes[pod.node]
  }

  predicate AliveOff(pod: Pod, nodes: map<string, bool>, lost: string)
  {
    pod.owned && !(lost != "" && pod.node == lost) && OnReadyNode(pod, nodes)
  }

  /** The first live pod of the SpotInstanceJob away from the lost node. */
  function FirstAlive(pods: seq<Pod>, nodes: map<string, bool>, lost: string): (r: Option<Pod>)
    ensures r.Some? ==> r.value in pods && AliveOff(r.value, nodes, lost)
    ensures r.None? ==> forall pod :: pod in pods ==> !AliveOff(pod, nodes, lost)
  {
    if pods == [] then None
    else if AliveOff(pods[0], nodes, lost) then Some(pods[0])
    else FirstAlive(pods[1..], nodes, lost)
  }

  predicate AliveFor(pod: Pod, nodes: map<string, bool>, job: string)
  {
    pod.jobLabel == Some(job) && OnReadyNode(pod, nodes)
  }

  /** The first live pod of one job. */
  function FirstOfJob(pods: seq<Pod>, nodes: map<string, bool>, job: string): (r: Option<Pod>)
    ensures r.Some? ==> r.value in pods && AliveFor(r.value, nodes, job)
    ensures r.None? ==> forall pod :: pod in pods ==> !AliveFor(pod, nodes, job)
  {
    if pods == [] then None
    else if AliveFor(pods[0], nodes, job) then Some(pods[0])
    else FirstOfJob(pods[1..], nodes, job)
  }

  method FindAlive(c: Cluster, lost: string) returns (r: Option<Pod>)
    ensures r == FirstAlive(c.pods, c.nodes, lost)
  {
    assert c.pods[0..] == c.pods;
    for k := 0 to |c.pods|
      invariant FirstAlive(c.pods, c.nodes, lost) == FirstAlive(c.pods[k..], c.nodes, lost)
    {
      var pod := c.pods[k];
      assert c.pods[k..][1..] == c.pods[k + 1..];
      if !pod.owned || pod.node == "" { continue; }
      if lost != "" && pod.node == lost { continue; }
      if pod.node in c.nodes && c.nodes[pod.node] { return Some(pod); }
    }
    return None;
  }

  method FindOfJob(c: Cluster, job: string) returns (r: Option<Pod>)
    ensures r == FirstOfJob(c.pods, c.nodes, job)
  {
    assert c.pods[0..] == c.pods;
    for k := 0 to |c.pods|
      invariant FirstOfJob(c.pods, c.nodes, job) == FirstOfJob(c.pods[k..], c.nodes, job)
    {
      var pod := c.pods[k];
      assert c.pods[k..][1..] == c.pods[k + 1..];
      if pod.jobLabel != Some(job) || pod.node == "" { continue; }
      if pod.node in c.nodes && c.nodes[pod.node] { return Some(pod); }
    }
    return None;
  }

  // ---------- createCheckpointForJob ----------

  ghost predicate SourcePending(cps: seq<Checkpoint>, job: string)
  {
    exists cp :: cp in cps && cp.source == Some(job) && InFlight(cp)
  }

  ghost predicate SourceCompleted(cps: seq<Checkpoint>, job: string)
  {
    exists cp :: cp in cps && cp.source == Some(job) && Successful(cp)
  }

  /** The job, or a job created to replace it, carries the `restored-from` label. */
  ghost predicate Recreated(jobs: map<string, Job>, job: string)
  {
    if job in jobs then jobs[job].deletedAt.None? && jobs[job].restoredFrom.Some?
    else exists n :: n in jobs && jobs[n].restoredFrom == Some(job)
  }

  ghost predicate MayCheckpoint(cps: seq<Checkpoint>, jobs: map<string, Job>, job: string)
  {
    !SourcePending(cps, job) && (SourceCompleted(cps, job) ==> Recreated(jobs, job))
  }

  function Requested(repo: string, names: seq<string>, t: nat): (r: seq<Container>)
    ensures |r| == |names|
    ensures forall k :: 0 <= k < |names| ==> r[k] == Container(names[k], CheckpointImage(repo, names[k], t))
  {
    if names == [] then []
    else
      var n := |names| - 1;
      Requested(repo, names[..n], t) + [Container(names[n], CheckpointImage(repo, names[n], t))]
  }

  function NewCheckpoint(spec: Spec, job: string, pod: Pod, t: nat): Checkpoint
  {
    Checkpoint(CheckpointName(spec.name, pod.name, t), pod.name, Some(job), t,
      Split(spec.imageRepo).0, Split(spec.imageRepo).1, Requested(spec.imageRepo, pod.containers, t),
      InProgress, Missing, [], [])
  }

  ghost predicate NameUsed(cps: seq<Checkpoint>, name: string)
  {
    exists cp :: cp in cps && cp.name == name
  }

  /** What one call adds to the list of CheckpointBackups: nothing, or one. */
  ghost function Added(s: State, job: string): (r: seq<Checkpoint>)
    ensures |r| <= 1
    ensures r != [] ==> MayCheckpoint(s.checkpoints, s.jobs, job)
  {
    var pod := FirstOfJob(s.pods, s.nodes, job);
    if MayCheckpoint(s.checkpoints, s.jobs, job) && pod.Some?
       && !NameUsed(s.checkpoints, NewCheckpoint(s.spec, job, pod.value, s.clock).name)
    then [NewCheckpoint(s.spec, job, pod.value, s.clock)]
    else []
  }

  ghost function WithCheckpoint(s: State, job: string): State
  {
    s.(checkpoints := s.checkpoints + Added(s, job))
  }

  method MayCheckpointJob(c: Cluster, job: string) returns (allowed: bool)
    ensures allowed <==> MayCheckpoint(c.checkpoints, c.jobs, job)
  {
    var inProgress, completed := false, false;
    for k := 0 to |c.checkpoints|
      invariant inProgress <==>
        exists j :: 0 <= j < k && c.checkpoints[j].source == Some(job) && InFlight(c.checkpoints[j])
      invariant completed <==>
        exists j :: 0 <= j < k && c.checkpoints[j].source == Some(job) && Successful(c.checkpoints[j])
    {
      var cp := c.checkpoints[k];
      if cp.source == Some(job) {
        if cp.phase == InProgress {
          inProgress := true;
        } else if cp.phase == Completed || cp.phase == CompletedPodDeleted {
          completed := true;
        }
      }
    }
    if inProgress { return false; }
    if !completed { return true; }
    if job in c.jobs {
      if c.jobs[job].deletedAt.Some? { return false; }
      return c.jobs[job].restoredFrom.Some?;
    }
    var left := c.jobs.Keys;
    while left != {}
      invariant left <= c.jobs.Keys
      invariant forall n :: n in c.jobs && n !in left ==> c.jobs[n].restoredFrom != Some(job)
      decreases left
    {
      var n :| n in left;
      if c.jobs[n].restoredFrom == Some(job) { return true; }
      left := left - {n};
    }
    return false;
  }

  method CreateCheckpointForJob(c: Cluster, job: string)
    modifies c`checkpoints
    ensures c.View() == old(WithCheckpoint(c.View(), job))
  {
    var allowed := MayCheckpointJob(c, job);
    if !allowed { return; }
    var pod := FindOfJob(c, job);
    if pod.None? { return; }

    var t := c.clock;
    var name := CheckpointName(c.spec.name, pod.value.name, t);
    var (registry, repository) := Split(c.spec.imageRepo);
    var requested := [];
    for k := 0 to |pod.value.containers|
      invariant requested == Requested(c.spec.imageRepo, pod.value.containers[..k], t)
    {
      var container := pod.value.containers[k];
      assert pod.value.containers[..k + 1][..k] == pod.value.containers[..k];
      requested := requested + [Container(container, repository + ":" + Tag(container, t))];
    }
    assert pod.value.containers[..|pod.value.containers|] == pod.value.containers;

    for k := 0 to |c.checkpoints|
      invariant forall j :: 0 <= j < k ==> c.checkpoints[j].name != name
    {
      if c.checkpoints[k].name == name { return; }
    }
    c.checkpoints := c.checkpoints
      + [Checkpoint(name, pod.value.name, Some(job), t, registry, repository, requested, InProgress, Missing, [], [])];
  }

  // ---------- At most one live checkpoint per source job ----------

  ghost predicate NoneRecreated(jobs: map<string, Job>)
  {
    forall n :: n in jobs ==> jobs[n].restoredFrom.None?
  }

  ghost predicate OneLivePerSource(cps: seq<Checkpoint>)
  {
    forall a, b :: 0 <= a < b < |cps| && cps[a].source.Some? && cps[a].source == cps[b].source ==>
      !(Live(cps[a]) && Live(cps[b]))
  }

  /** Creation is refused for a source that has a live checkpoint, as nothing carries `restored-from`. */
  lemma CheckpointKeepsOneLive(s: State, job: string)
    requires OneLivePerSource(s.checkpoints) && NoneRecreated(s.jobs)
    ensures OneLivePerSource(WithCheckpoint(s, job).checkpoints)
  {
    var cps := WithCheckpoint(s, job).checkpoints;
    forall a, b | 0 <= a < b < |cps| && cps[a].source.Some? && cps[a].source == cps[b].source
      ensures !(Live(cps[a]) && Live(cps[b]))
    {
      if b == |s.checkpoints| {
        assert MayCheckpoint(s.checkpoints, s.jobs, job) && !Recreated(s.jobs, job);
        assert cps[a] == s.checkpoints[a];
      }
    }
  }

  /**
    A job whose checkpoint has once completed is never checkpointed again: every later preemption
    is answered from that first checkpoint.
  */
  lemma CompletedSourceIsFinal(s: State, job: string)
    requires NoneRecreated(s.jobs)
    ensures SourceCompleted(s.checkpoints, job) ==> WithCheckpoint(s, job) == s
  {
    if SourceCompleted(s.checkpoints, job) {
      assert !Recreated(s.jobs, job);
      assert s.checkpoints + [] == s.checkpoints;
    }
  }

  // ---------- Latest completed checkpoint ----------

  /** The images a completed checkpoint reports, with the older field as fallback. */
  function Images(cp: Checkpoint): seq<Container>
  {
    if |cp.reported| > 0 then cp.reported else cp.built
  }

  predicate Restorable(cp: Checkpoint)
  {
    Successful(cp) && |Images(cp)| > 0
  }

  predicate Dated(cp: Checkpoint)
  {
    Restorable(cp) && cp.completionTime.At?
  }

  /** Position `k` holds the dated checkpoint with the greatest completion time, the first on a tie. */
  ghost predicate IsLatest(cps: seq<Checkpoint>, k: nat)
  {
    && k < |cps| && Dated(cps[k])
    && (forall j :: 0 <= j < |cps| && Dated(cps[j]) ==> cps[j].completionTime.time <= cps[k].completionTime.time)
    && (forall j :: 0 <= j < k && Dated(cps[j]) ==> cps[j].completionTime.time < cps[k].completionTime.time)
  }

  /** The scan of recreateJobFromLatestCheckpoint. */
  method LatestCheckpoint(cps: seq<Checkpoint>) returns (latest: Option<nat>)
    ensures latest.None? <==> forall k :: 0 <= k < |cps| ==> !Dated(cps[k])
    ensures latest.Some? ==> IsLatest(cps, latest.value)
  {
    latest := None;
    for k := 0 to |cps|
      invariant latest.None? <==> forall j :: 0 <= j < k ==> !Dated(cps[j])
      invariant latest.Some? ==> latest.value < k && Dated(cps[latest.value])
      invariant latest.Some? ==> forall j :: 0 <= j < k && Dated(cps[j]) ==>
        cps[j].completionTime.time <= cps[latest.value].completionTime.time
      invariant latest.Some? ==> forall j :: 0 <= j < latest.value && Dated(cps[j]) ==>
        cps[j].completionTime.time < cps[latest.value].completionTime.time
    {
      var cp := cps[k];
      if cp.phase != Completed && cp.phase != CompletedPodDeleted { continue; }
      if !cp.completionTime.At? { continue; }
      if |Images(cp)| > 0 {
        if latest.None? || cps[latest.value].completionTime.time < cp.completionTime.time {
          latest := Some(k);
        }
      }
    }
  }
}
