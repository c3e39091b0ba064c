/** The SpotInstanceJob reconciler: the order of its phases, and what holds of one whole pass. */
module Controller {
  import opened Objects
  import opened Checkpoints
  import opened Restore
  import opened Preemption
  import opened InstanceAllocation
  import opened JobFilling

  ghost function AfterPreemption(s: State): State
  {
    if HasPending(s.checkpoints) then s else HandlePreemption(s)
  }

  ghost function AfterInstances(s: State, refused: set<nat>): State
  {
    if HasPending(s.checkpoints) then s else WithInstances(s, refused)
  }

  /** One pass; creation of an instance (a Job) fails at the indices of `noInstance` (`noJob`). */
  ghost function Pass(s: State, noInstance: set<nat>, noJob: set<nat>): State
  {
    WithJobs(AfterInstances(AfterPreemption(s), noInstance), noJob)
  }

  method Reconcile(c: Cluster, noInstance: set<nat>, noJob: set<nat>)
    modifies c`jobs, c`checkpoints, c`deletes, c`clock, c`launched, c`pis
    ensures c.View() == old(Pass(c.View(), noInstance, noJob))
  {
    hide HandlePreemption, WithInstances, WithJobs;
    var pending := HasPendingCheckpoints(c);
    if !pending {
      HandlePreemptedInstances(c);
    }
    pending := HasPendingCheckpoints(c);
    if !pending {
      ReconcileProvisionedInstances(c, noInstance);
    }
    ReconcileJobReplicas(c, noJob);
  }

  // ---------- Pending freezes the world ----------

  /** While a checkpoint is in progress a pass changes nothing at all. */
  lemma PendingFreezes(s: State, noInstance: set<nat>, noJob: set<nat>)
    requires HasPending(s.checkpoints)
    ensures Pass(s, noInstance, noJob) == s
  {
  }

  /** A pass that has started a checkpoint creates no instance and no Job. */
  lemma CheckpointPostponesCreation(s: State, noInstance: set<nat>, noJob: set<nat>)
    requires HasPending(AfterPreemption(s).checkpoints)
    ensures Pass(s, noInstance, noJob) == AfterPreemption(s)
  {
  }

  lemma {:induction false} NothingPreempted(s: State, k: nat, update: set<string>)
    requires forall j :: k <= j < |s.pis| ==> !Preempted(s.pis[j])
    ensures HandleFrom(s, k, update) == s
    decreases |s.pis| - k
  {
    if k < |s.pis| { NothingPreempted(s, k + 1, update); }
  }

  // ---------- Checkpoints of one pass ----------

  function PreemptedFrom(pis: seq<Instance>, k: nat): nat
    decreases |pis| - k
  {
    if k >= |pis| then 0 else (if Preempted(pis[k]) then 1 else 0) + PreemptedFrom(pis, k + 1)
  }

  /** `t` has the checkpoints of `s` and at most `n` more, all of them pending. */
  ghost predicate Extends(s: State, t: State, n: nat)
  {
    && |s.checkpoints| <= |t.checkpoints| <= |s.checkpoints| + n
    && (forall j :: 0 <= j < |s.checkpoints| ==> t.checkpoints[j] == s.checkpoints[j])
    && (forall j :: |s.checkpoints| <= j < |t.checkpoints| ==> InFlight(t.checkpoints[j]))
  }

  lemma HandleOneExtends(s: State, pi: Instance, update: set<string>)
    ensures Extends(s, HandleOne(s, pi, update), 1)
  {
    hide Deleted, JobAfter, FirstAlive, FirstOfJob;
  }

  lemma {:induction false} HandleFromExtends(s: State, k: nat, update: set<string>)
    ensures Extends(s, HandleFrom(s, k, update), PreemptedFrom(s.pis, k))
    decreases |s.pis| - k
  {
    hide HandleOne, Affected;
    if k < |s.pis| {
      if Preempted(s.pis[k]) {
        var u := update + Affected(s, s.pis[k]);
        HandleOneExtends(s, s.pis[k], u);
        HandleFromExtends(HandleOne(s, s.pis[k], u), k + 1, u);
      } else {
        HandleFromExtends(s, k + 1, update);
      }
    }
  }

  /** One pass adds at most one CheckpointBackup for each preempted instance, and alters none. */
  lemma PassExtends(s: State, noInstance: set<nat>, noJob: set<nat>)
    ensures Extends(s, Pass(s, noInstance, noJob), PreemptedFrom(s.pis, 0))
  {
    HandleFromExtends(s, 0, {});
  }

  // ---------- Uniform decision ----------

  ghost predicate UniqueInstances(pis: seq<Instance>)
  {
    forall j, k :: 0 <= j < k < |pis| ==> pis[j].name != pis[k].name
  }

  ghost predicate SomeAlive(pis: seq<Instance>)
  {
    exists k :: 0 <= k < |pis| && Alive(pis[k])
  }

  lemma {:induction false} OthersAliveCount(pis: seq<Instance>, name: string)
    ensures OthersAlive(pis, name) > 0 <==> exists k :: 0 <= k < |pis| && Alive(pis[k]) && pis[k].name != name
  {
    if pis != [] {
      var n := |pis| - 1;
      OthersAliveCount(pis[..n], name);
      if OthersAlive(pis, name) > 0 && !(Alive(pis[n]) && pis[n].name != name) {
        var k :| 0 <= k < n && Alive(pis[..n][k]) && pis[..n][k].name != name;
        assert Alive(pis[k]);
      }
    }
  }

  /** A preempted instance never counts itself as alive, so all of them see the same count. */
  lemma SameDecision(pis: seq<Instance>, k: nat)
    requires UniqueInstances(pis) && k < |pis| && Preempted(pis[k])
    ensures OthersAlive(pis, pis[k].name) > 0 <==> SomeAlive(pis)
  {
    OthersAliveCount(pis, pis[k].name);
    if SomeAlive(pis) {
      var j :| 0 <= j < |pis| && Alive(pis[j]);
      assert j != k && pis[j].name != pis[k].name;
    }
  }

  lemma {:induction false} UniformFrom(s: State, k: nat, update: set<string>)
    requires UniqueInstances(s.pis)
    ensures SomeAlive(s.pis) ==> HandleFrom(s, k, update).launched == s.launched
    ensures !SomeAlive(s.pis) ==> HandleFrom(s, k, update) == s.(launched := HandleFrom(s, k, update).launched)
    decreases |s.pis| - k
  {
    hide Deleted, JobAfter, FirstAlive, Added, AlreadyHandled, Affected, SomeAlive;
    if k < |s.pis| {
      if Preempted(s.pis[k]) {
        SameDecision(s.pis, k);
        var u := update + Affected(s, s.pis[k]);
        UniformFrom(HandleOne(s, s.pis[k], u), k + 1, u);
      } else {
        UniformFrom(s, k + 1, update);
      }
    }
  }

  /**
    All preempted instances of one pass are handled alike: with a live replica no asynchronous restore
    is launched; without one no Job is replaced and no checkpoint is started.
  */
  lemma UniformDecision(s: State)
    requires UniqueInstances(s.pis)
    ensures SomeAlive(s.pis) ==> AfterPreemption(s).launched == s.launched
    ensures !SomeAlive(s.pis) ==> AfterPreemption(s) == s.(launched := AfterPreemption(s).launched)
  {
    UniformFrom(s, 0, {});
  }
}
