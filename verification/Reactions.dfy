/** The reaction to lost instances, read off the instances, pods, nodes and checkpoints in the store. */
module Reactions {
  import opened Names
  import opened Objects
  import opened Checkpoints
  import opened Restore
  import opened Preemption
  import opened Controller
  import opened JobFilling

  // ---------- Without a live replica ----------

  /** A pod of the SpotInstanceJob that carries the name of its Job; the older label is the one that counts. */
  ghost predicate PodNames(pod: Pod, job: string)
  {
    pod.owned && job != "" && (pod.jobLabel == Some(job) || (pod.jobLabel == None && pod.altLabel == Some(job)))
  }

  /** The pod is on the node of an instance, from position `k` on, that has a notice or is stopping or terminated. */
  ghost predicate NodeLost(pis: seq<Instance>, k: nat, pod: Pod)
  {
    exists j :: k <= j < |pis| && (pis[j].notice || pis[j].state == Stopping || pis[j].state == Terminated)
      && pis[j].nodeName == pod.node && pod.node != ""
  }

  ghost predicate NamedOnLostNode(s: State, k: nat, job: string)
  {
    exists p :: 0 <= p < |s.pods| && PodNames(s.pods[p], job) && NodeLost(s.pis, k, s.pods[p])
  }

  lemma NodeLostStep(pis: seq<Instance>, k: nat, pod: Pod)
    requires k < |pis|
    ensures NodeLost(pis, k, pod) <==>
      NodeLost(pis, k + 1, pod) || (Preempted(pis[k]) && pis[k].nodeName == pod.node && pod.node != "")
  {
  }

  lemma {:induction false} LaunchedFrom(s: State, k: nat, update: set<string>, job: string)
    requires UniqueInstances(s.pis) && !SomeAlive(s.pis)
    ensures job in HandleFrom(s, k, update).launched <==> job in s.launched || NamedOnLostNode(s, k, job)
    decreases |s.pis| - k
  {
    hide Affected, SomeAlive, NodeLost, PodNames, UniqueInstances;
    if k < |s.pis| {
      forall p | 0 <= p < |s.pods| { NodeLostStep(s.pis, k, s.pods[p]); }
      if Preempted(s.pis[k]) {
        SameDecision(s.pis, k);
        var u := update + Affected(s, s.pis[k]);
        var t := HandleOne(s, s.pis[k], u);
        LaunchedFrom(t, k + 1, u, job);
        LaunchedByOne(s, k, u, job);
      } else {
        LaunchedFrom(s, k + 1, update, job);
      }
    } else {
      assert forall pod :: !NodeLost(s.pis, k, pod) by { NoneLost(s.pis, k); }
    }
  }

  lemma NoneLost(pis: seq<Instance>, k: nat)
    requires k >= |pis|
    ensures forall pod :: !NodeLost(pis, k, pod)
  {
  }

  lemma LaunchedByOne(s: State, k: nat, update: set<string>, job: string)
    requires k < |s.pis| && OthersAlive(s.pis, s.pis[k].name) == 0
    ensures HandleOne(s, s.pis[k], update) == s.(launched := HandleOne(s, s.pis[k], update).launched)
    ensures job in HandleOne(s, s.pis[k], update).launched <==>
      job in s.launched ||
      exists p :: 0 <= p < |s.pods| && PodNames(s.pods[p], job) && s.pis[k].nodeName == s.pods[p].node != ""
  {
    forall pod: Pod ensures PodNames(pod, job) <==> pod.owned && JobOf(pod) == job && job != "" {
    }
  }

  /**
    Restores are launched exactly when nothing is pending and no replica is alive: then for every Job named by a
    pod on the node of a lost instance, and for no other.
  */
  lemma LaunchedIff(s: State, job: string)
    requires UniqueInstances(s.pis)
    ensures job in AfterPreemption(s).launched <==>
      job in s.launched ||
      ((forall cp :: cp in s.checkpoints ==> cp.phase != InProgress)
        && (forall k :: 0 <= k < |s.pis| && s.pis[k].state == Running ==> s.pis[k].notice)
        && exists p :: 0 <= p < |s.pods| && PodNames(s.pods[p], job) && NodeLost(s.pis, 0, s.pods[p]))
  {
    hide PodNames, NodeLost, UniqueInstances, HandleFrom;
    assert SomeAlive(s.pis) <==> exists k :: 0 <= k < |s.pis| && s.pis[k].state == Running && !s.pis[k].notice;
    UniformDecision(s);
    if !SomeAlive(s.pis) { LaunchedFrom(s, 0, {}, job); }
  }

  // ---------- Which pod is checkpointed ----------

  ghost predicate LivePod(pod: Pod, nodes: map<string, bool>)
  {
    pod.node != "" && pod.node in nodes && nodes[pod.node]
  }

  /** At position `p` is the first live pod of the SpotInstanceJob that is not on the lost node. */
  ghost predicate FirstAway(pods: seq<Pod>, nodes: map<string, bool>, lost: string, p: int)
  {
    && 0 <= p < |pods| && pods[p].owned && pods[p].node != lost && LivePod(pods[p], nodes)
    && forall q :: 0 <= q < p && pods[q].owned && pods[q].node != lost ==> !LivePod(pods[q], nodes)
  }

  /** At position `p` is the first live pod with the older label of the Job. */
  ghost predicate FirstPodOf(pods: seq<Pod>, nodes: map<string, bool>, job: string, p: int)
  {
    && 0 <= p < |pods| && pods[p].jobLabel == Some(job) && LivePod(pods[p], nodes)
    && forall q :: 0 <= q < p && pods[q].jobLabel == Some(job) ==> !LivePod(pods[q], nodes)
  }

  /** The pod chosen off the lost node is the first live one; there is none exactly if no pod is alive there. */
  lemma {:induction false} AwayExact(pods: seq<Pod>, nodes: map<string, bool>, lost: string)
    ensures FirstAlive(pods, nodes, lost).None? <==>
      forall p :: 0 <= p < |pods| && pods[p].owned && pods[p].node != lost ==> !LivePod(pods[p], nodes)
    ensures FirstAlive(pods, nodes, lost).Some? ==>
      exists p :: FirstAway(pods, nodes, lost, p) && FirstAlive(pods, nodes, lost) == Some(pods[p])
  {
    if pods != [] {
      AwayExact(pods[1..], nodes, lost);
      if pods[0].owned && pods[0].node != lost && LivePod(pods[0], nodes) {
        assert FirstAway(pods, nodes, lost, 0);
      } else {
        assert forall p :: 0 < p < |pods| ==> pods[p] == pods[1..][p - 1];
        if FirstAlive(pods[1..], nodes, lost).Some? {
          var p :| FirstAway(pods[1..], nodes, lost, p) && FirstAlive(pods[1..], nodes, lost) == Some(pods[1..][p]);
          assert FirstAway(pods, nodes, lost, p + 1);
        }
      }
    }
  }

  /** Likewise for the pod of one Job. */
  lemma {:induction false} PodOfJobExact(pods: seq<Pod>, nodes: map<string, bool>, job: string)
    ensures FirstOfJob(pods, nodes, job).None? <==>
      forall p :: 0 <= p < |pods| && pods[p].jobLabel == Some(job) ==> !LivePod(pods[p], nodes)
    ensures FirstOfJob(pods, nodes, job).Some? ==>
      exists p :: FirstPodOf(pods, nodes, job, p) && FirstOfJob(pods, nodes, job) == Some(pods[p])
  {
    if pods != [] {
      PodOfJobExact(pods[1..], nodes, job);
      if pods[0].jobLabel == Some(job) && LivePod(pods[0], nodes) {
        assert FirstPodOf(pods, nodes, job, 0);
      } else {
        assert forall p :: 0 < p < |pods| ==> pods[p] == pods[1..][p - 1];
        if FirstOfJob(pods[1..], nodes, job).Some? {
          var p :| FirstPodOf(pods[1..], nodes, job, p) && FirstOfJob(pods[1..], nodes, job) == Some(pods[1..][p]);
          assert FirstPodOf(pods, nodes, job, p + 1);
        }
      }
    }
  }

  lemma OneFirst(pods: seq<Pod>, nodes: map<string, bool>, lost: string, job: string)
    ensures forall p, q :: FirstAway(pods, nodes, lost, p) && FirstAway(pods, nodes, lost, q) ==> p == q
    ensures forall p, q :: FirstPodOf(pods, nodes, job, p) && FirstPodOf(pods, nodes, job, q) ==> p == q
  {
    hide LivePod;
  }

  // ---------- When a checkpoint is created ----------

  /** The Job has not been checkpointed with success, or it, or what replaced it, says so. */
  ghost predicate MayStart(s: State, job: string)
  {
    && (forall cp :: cp in s.checkpoints && cp.source == Some(job) ==> cp.phase != InProgress)
    && ((exists cp :: cp in s.checkpoints && cp.source == Some(job)
           && (cp.phase == Completed || cp.phase == CompletedPodDeleted)) ==>
        if job in s.jobs then s.jobs[job].deletedAt == None && s.jobs[job].restoredFrom != None
        else exists n :: n in s.jobs && s.jobs[n].restoredFrom == Some(job))
  }

  /** The checkpoint of a Job's pod: what is asked for, for each of its containers, and nothing reported yet. */
  ghost predicate Requests(cp: Checkpoint, spec: Spec, job: string, pod: Pod, now: nat)
  {
    && cp.name == CheckpointName(spec.name, pod.name, now) && cp.pod == pod.name && cp.source == Some(job)
    && cp.createdAt == now && cp.phase == InProgress && cp.completionTime == Missing
    && cp.reported == [] && cp.built == [] && |cp.requested| == |pod.containers|
    && forall k :: 0 <= k < |pod.containers| ==> cp.requested[k].name == pod.containers[k]
  }

  lemma MayStartIff(s: State, job: string)
    ensures MayStart(s, job) <==> MayCheckpoint(s.checkpoints, s.jobs, job)
  {
  }

  /** A checkpoint is created exactly if the Job may have one, has a live pod, and the name is not in use. */
  lemma StartedIff(s: State, job: string)
    ensures var t := WithCheckpoint(s, job);
      if exists p :: FirstPodOf(s.pods, s.nodes, job, p) && MayStart(s, job)
           && forall cp :: cp in s.checkpoints ==> cp.name != CheckpointName(s.spec.name, s.pods[p].name, s.clock)
      then |t.checkpoints| == |s.checkpoints| + 1
        && t == s.(checkpoints := s.checkpoints + [t.checkpoints[|s.checkpoints|]])
        && exists p :: FirstPodOf(s.pods, s.nodes, job, p)
             && Requests(t.checkpoints[|s.checkpoints|], s.spec, job, s.pods[p], s.clock)
      else t == s
  {
    hide MayStart, MayCheckpoint, CheckpointName, FirstOfJob;
    MayStartIff(s, job);
    PodOfJobExact(s.pods, s.nodes, job);
    assert s.checkpoints + [] == s.checkpoints;
    OneFirst(s.pods, s.nodes, "", job);
  }

  // ---------- Waiting or starting ----------

  /** Five minutes: completed less than 300 seconds ago, or created then if no completion time is known. */
  ghost predicate JustCompleted(cp: Checkpoint, now: int)
  {
    && (cp.phase == Completed || cp.phase == CompletedPodDeleted)
    && ((exists t :: cp.completionTime == At(t) && now - t < 300)
        || (cp.completionTime == Missing && now - cp.createdAt < 300))
  }

  /** Something has been restored from a checkpoint, or still may be. */
  ghost predicate Answered(s: State)
  {
    && (exists cp :: cp in s.checkpoints && (cp.phase == Completed || cp.phase == CompletedPodDeleted))
    && ((exists n :: n in s.jobs && s.jobs[n].annotated)
        || exists cp :: cp in s.checkpoints && JustCompleted(cp, s.clock))
  }

  lemma AnsweredIff(s: State)
    ensures Answered(s) <==> AlreadyHandled(s)
  {
    assert forall cp: Checkpoint :: JustCompleted(cp, s.clock) <==> Successful(cp) && Recent(cp, s.clock);
  }

  /**
    With a live replica the reaction is to restore what is due, and then, unless that answers the loss already,
    to checkpoint the Job named by the first live pod off the lost node.
  */
  lemma ReactionIff(s: State, pi: Instance, update: set<string>)
    requires exists k :: 0 <= k < |s.pis| && s.pis[k].name != pi.name && s.pis[k].state == Running && !s.pis[k].notice
    ensures var r, t := ProcessCompleted(s, update), HandleOne(s, pi, update);
      && (Answered(r) ==> t == r)
      && (!Answered(r) ==>
            forall p, job :: FirstAway(s.pods, s.nodes, pi.nodeName, p) && PodNames(s.pods[p], job) ==>
              t == WithCheckpoint(r, job))
      && ((forall p, job :: FirstAway(s.pods, s.nodes, pi.nodeName, p) ==> !PodNames(s.pods[p], job)) ==> t == r)
  {
    hide ProcessCompleted, AlreadyHandled, Answered, WithCheckpoint, FirstAlive;
    var r := ProcessCompleted(s, update);
    ProcessLeaves(s, update);
    AnsweredIff(r);
    OthersAliveCount(s.pis, pi.name);
    AwayExact(s.pods, s.nodes, pi.nodeName);
    var pod := FirstAlive(s.pods, s.nodes, pi.nodeName);
    if pod.Some? {
      var p :| FirstAway(s.pods, s.nodes, pi.nodeName, p) && pod == Some(s.pods[p]);
      OneFirst(s.pods, s.nodes, pi.nodeName, "");
      if JobOf(s.pods[p]) != "" {
        assert PodNames(s.pods[p], JobOf(s.pods[p]));
      }
    }
  }

  lemma ProcessLeaves(s: State, update: set<string>)
    ensures var r := ProcessCompleted(s, update); r == s.(jobs := r.jobs, deletes := r.deletes, clock := r.clock)
  {
  }

  // ---------- The checkpoints of a pass ----------

  /** A checkpoint of the Job named by the first live pod away from a lost node, taken of that Job's first live pod. */
  ghost predicate TakenAway(s: State, cp: Checkpoint)
  {
    exists k, p, job :: 0 <= k < |s.pis| && TakenFor(s, cp, s.pis[k], p, job)
  }

  ghost predicate TakenFor(s: State, cp: Checkpoint, pi: Instance, p: int, job: string)
  {
    && (pi.notice || pi.state == Stopping || pi.state == Terminated)
    && FirstAway(s.pods, s.nodes, pi.nodeName, p) && PodNames(s.pods[p], job) && cp.createdAt >= s.clock
    && exists q :: FirstPodOf(s.pods, s.nodes, job, q)
         && Requests(cp, s.spec, job, s.pods[q], cp.createdAt)
  }

  ghost predicate NewTakenAway(s: State, t: State)
  {
    forall c :: |s.checkpoints| <= c < |t.checkpoints| ==> TakenAway(s, t.checkpoints[c])
  }

  lemma OneTakenAway(s: State, m: State, k: nat, update: set<string>)
    requires k < |s.pis| && Preempted(s.pis[k])
    requires m == s.(jobs := m.jobs, checkpoints := m.checkpoints, clock := m.clock, deletes := m.deletes,
                     launched := m.launched)
    requires s.clock <= m.clock && |s.checkpoints| <= |m.checkpoints| && NewTakenAway(s, m)
    ensures var t := HandleOne(m, s.pis[k], update);
      m.clock <= t.clock && |s.checkpoints| <= |t.checkpoints| && NewTakenAway(s, t)
  {
    hide TakenAway, FirstAlive, Answered, WithCheckpoint, LivePod, PodNames, JobAfter, Deleted;
    var t := HandleOne(m, s.pis[k], update);
    if OthersAlive(m.pis, s.pis[k].name) > 0 {
      OthersAliveCount(m.pis, s.pis[k].name);
      ReactionIff(m, s.pis[k], update);
      var r := ProcessCompleted(m, update);
      if t != r {
        var p, job :| FirstAway(s.pods, s.nodes, s.pis[k].nodeName, p) && PodNames(s.pods[p], job);
        assert t == WithCheckpoint(r, job);
        AddedTakenAway(s, m, r, k, p, job);
      }
    }
  }

  lemma AddedTakenAway(s: State, m: State, r: State, k: nat, p: int, job: string)
    requires k < |s.pis| && Preempted(s.pis[k])
    requires r.checkpoints == m.checkpoints && r.spec == s.spec && r.pods == s.pods && r.nodes == s.nodes
    requires s.clock <= r.clock && |s.checkpoints| <= |m.checkpoints| && NewTakenAway(s, m)
    requires FirstAway(s.pods, s.nodes, s.pis[k].nodeName, p) && PodNames(s.pods[p], job)
    ensures var t := WithCheckpoint(r, job); |s.checkpoints| <= |t.checkpoints| && NewTakenAway(s, t)
    ensures WithCheckpoint(r, job).clock == r.clock
  {
    hide WithCheckpoint, FirstAway, PodNames, LivePod, Requests, MayStart, CheckpointName;
    StartedIff(r, job);
    var t, n := WithCheckpoint(r, job), |r.checkpoints|;
    if t != r {
      assert |t.checkpoints| == n + 1;
      var cp := t.checkpoints[n];
      var q :| FirstPodOf(r.pods, r.nodes, job, q) && Requests(cp, r.spec, job, r.pods[q], r.clock);
      assert cp.createdAt == r.clock by { RequestTime(cp, r.spec, job, r.pods[q], r.clock); }
      assert TakenFor(s, cp, s.pis[k], p, job);
      assert forall c :: 0 <= c < n ==> t.checkpoints[c] == m.checkpoints[c];
    }
  }

  lemma RequestTime(cp: Checkpoint, spec: Spec, job: string, pod: Pod, now: nat)
    requires Requests(cp, spec, job, pod, now)
    ensures cp.createdAt == now
  {
  }

  lemma {:induction false} FromTakenAway(s: State, m: State, k: nat, update: set<string>)
    requires m == s.(jobs := m.jobs, checkpoints := m.checkpoints, clock := m.clock, deletes := m.deletes,
                     launched := m.launched)
    requires s.clock <= m.clock && |s.checkpoints| <= |m.checkpoints| && NewTakenAway(s, m)
    ensures NewTakenAway(s, HandleFrom(m, k, update))
    decreases |s.pis| - k
  {
    hide NewTakenAway, Affected, HandleOne;
    if k < |s.pis| {
      if Preempted(s.pis[k]) {
        var u := update + Affected(m, m.pis[k]);
        OneTakenAway(s, m, k, u);
        FromTakenAway(s, HandleOne(m, m.pis[k], u), k + 1, u);
      } else {
        FromTakenAway(s, m, k + 1, update);
      }
    }
  }

  /**
    Only live replicas are checkpointed: each checkpoint a pass creates is of the Job named by the first pod that
    is on a ready node other than that of a lost instance.
  */
  lemma CheckpointSources(s: State, noInstance: set<nat>, noJob: set<nat>, c: nat)
    requires |s.checkpoints| <= c < |Pass(s, noInstance, noJob).checkpoints|
    ensures TakenAway(s, Pass(s, noInstance, noJob).checkpoints[c])
  {
    hide HandleFrom, TakenAway, NewJobIndices;
    FromTakenAway(s, s, 0, {});
  }
}
