/** The theorems on runs speak of something: real runs, fair to all, from an empty store and from every loss. */
module Existence {
  import opened Names
  import opened Objects
  import opened Checkpoints
  import opened InstanceAllocation
  import opened JobFilling
  import opened Controller
  import opened Lifecycle
  import opened Invariants
  import opened JobInvariants
  import opened Rounds
  import opened Startup
  import opened Reactions
  import opened LostReplicas
  import opened Recovery
  import opened RecoveryRuns
  import opened OneLoss
  import opened FirstLoss

  // ---------- Instances with their VMs ----------

  function VmOf(pi: Instance): Vm
  {
    Vm(pi.name, if pi.instanceID.Some? then pi.instanceID.value else 0, pi.state)
  }

  function VmsOf(pis: seq<Instance>): (vms: seq<Vm>)
    ensures |vms| == |pis| && forall k :: 0 <= k < |pis| ==> vms[k] == VmOf(pis[k])
  {
    seq(|pis|, k requires 0 <= k < |pis| => VmOf(pis[k]))
  }

  /** The status is consistent and the instance has its own VM, node and name, as in every run of its reconciler. */
  ghost predicate RealInstance(pi: Instance)
  {
    StatusOk(pi) && pi.name != "" && pi.instanceName == pi.name && !pi.deleting
  }

  ghost predicate Real(s: State)
  {
    s.vms == VmsOf(s.pis) && forall k :: 0 <= k < |s.pis| ==> RealInstance(s.pis[k])
  }

  /** Real, or just created. */
  ghost predicate Nascent(pi: Instance)
  {
    && StatusOk(pi) && pi.name != "" && !pi.deleting && (pi.instanceName == "" || pi.instanceName == pi.name)
    && (pi.notice || pi.joined ==> pi.instanceName == pi.name)
  }

  ghost predicate AllNascent(pis: seq<Instance>)
  {
    forall k :: 0 <= k < |pis| ==> Nascent(pis[k])
  }

  /** The VM of the instance runs, and the node with its name has joined. */
  function Risen(pi: Instance): Instance
  {
    if pi.notice || pi.joined then pi
    else
      pi.(state := Running, joined := true, finalizer := true, nodeName := pi.name, instanceName := pi.name,
        instanceID := Some(if pi.instanceID.Some? then pi.instanceID.value else 0))
  }

  function AllRisen(pis: seq<Instance>): (risen: seq<Instance>)
    ensures |risen| == |pis| && forall k :: 0 <= k < |pis| ==> risen[k] == Risen(pis[k])
  {
    seq(|pis|, k requires 0 <= k < |pis| => Risen(pis[k]))
  }

  // ---------- A pod of a Job on its own node ----------

  function NodeOf(pis: seq<Instance>, jobs: map<string, Job>, b: string): string
  {
    if b in jobs && jobs[b].index.Some? && FirstUsable(pis, jobs[b].index.value).Some?
    then FirstUsable(pis, jobs[b].index.value).value.nodeName
    else ""
  }

  /** One pod, of Job `b`; the nodes of the joined instances are ready, those of lost ones are gone. */
  function WithPod(s: State, b: string): State
  {
    var node := NodeOf(s.pis, s.jobs, b);
    s.(pods := if node == "" then [] else [Pod("pod", true, node, Some(b), None, [])],
      nodes := map pi | pi in s.pis && !pi.notice && pi.joined :: pi.nodeName := true)
  }

  lemma PodThere(s: State, l: Loss, b: string)
    requires Real(s) && UniqueInstances(s.pis) && b in s.jobs && b != "" && !StillLost(s, l, b)
    requires s.jobs[b].index.Some? && FirstUsable(s.pis, s.jobs[b].index.value).Some?
    ensures PodsOk(WithPod(s, b), l)
  {
    hide FirstUsable, StillLost;
    var m := WithPod(s, b);
    var pi := FirstUsable(s.pis, s.jobs[b].index.value).value;
    var j :| 0 <= j < |s.pis| && s.pis[j] == pi;
    assert RealInstance(s.pis[j]);
    forall k | 0 <= k < |m.pis| && m.pis[k].notice
      ensures exists p :: FirstAway(m.pods, m.nodes, m.pis[k].nodeName, p) && PodOk(m, l, m.pods[p])
    {
      assert RealInstance(s.pis[k]) && k != j;
      assert FirstAway(m.pods, m.nodes, m.pis[k].nodeName, 0);
      assert StillLost(m, l, b) == StillLost(s, l, b) by { SameStillLost(s, m, l, b); }
    }
  }

  lemma SameStillLost(s: State, m: State, l: Loss, b: string)
    requires m.jobs == s.jobs
    ensures StillLost(m, l, b) == StillLost(s, l, b)
  {
  }

  // ---------- An environment that catches up ----------

  function Ended(cp: Checkpoint): Checkpoint
  {
    if InFlight(cp) then cp.(phase := Completed, reported := [Container("main", "image")]) else cp
  }

  function Continued(job: Job, stopped: bool): Job
  {
    job.(active := if stopped then 0 else 1, succeeded := 0)
  }

  /** Everything but the pods catches up in one second; the Jobs of `stopped` have no pods any more. */
  function Risings(p: State, stopped: set<string>): State
  {
    p.(
      clock := p.clock + 1, pis := AllRisen(p.pis), vms := VmsOf(AllRisen(p.pis)),
      jobs := map o | o in p.jobs :: Continued(p.jobs[o], o in stopped),
      checkpoints := seq(|p.checkpoints|, c requires 0 <= c < |p.checkpoints| => Ended(p.checkpoints[c])))
  }

  function CaughtUp(p: State, b: string, stopped: set<string>): State
  {
    WithPod(Risings(p, stopped), b)
  }

  lemma CatchesUp(p: State, n: nat, b: string, stopped: set<string>, lost: set<string>)
    requires FleetOk(p.pis, n) && AllNascent(p.pis) && stopped <= lost
    ensures Advances(p, CaughtUp(p, b, stopped), lost)
    ensures AllUp(CaughtUp(p, b, stopped).pis) && !HasPending(CaughtUp(p, b, stopped).checkpoints)
    ensures Real(CaughtUp(p, b, stopped))
  {
    hide NodeOf;
    var m := CaughtUp(p, b, stopped);
    forall k | 0 <= k < |p.pis| ensures Comes(p.pis[k], m.pis[k]) && Up(m.pis[k]) && RealInstance(m.pis[k]) {
      assert MemberOk(p.pis[k], n) && Nascent(p.pis[k]);
    }
  }

  /** The run in which it always does. */
  ghost function Iterated(s: State, b: string, stopped: set<string>, k: nat): State
  {
    if k == 0 then s else CaughtUp(Pass(Iterated(s, b, stopped, k - 1), {}, {}), b, stopped)
  }

  ghost function RunOf(s: State, b: string, stopped: set<string>): (r: nat -> State)
    ensures r(0) == s && forall k: nat :: r(k) == Iterated(s, b, stopped, k)
    ensures forall k: nat :: r(k + 1) == CaughtUp(Pass(r(k), {}, {}), b, stopped)
  {
    (k: nat) => Iterated(s, b, stopped, k)
  }

  ghost predicate CatchUp(s: State, m: State)
  {
    AllUp(m.pis) && !HasPending(m.checkpoints) && |s.pis| <= |m.pis| && |s.checkpoints| <= |m.checkpoints|
  }

  /** Everything that is there at one round has caught up by the next. */
  lemma CaughtUpIsFair(r: nat -> State)
    requires forall k: nat :: CatchUp(r(k), r(k + 1))
    ensures Fair(r)
  {
    forall k: nat, j | 0 <= j < |r(k).pis| ensures JoinsLater(r, k, j) {
      assert CatchUp(r(k), r(k + 1)) && Up(r(k + 1).pis[j]);
    }
    forall k: nat, c | 0 <= c < |r(k).checkpoints| ensures EndsLater(r, k, c) {
      assert CatchUp(r(k), r(k + 1)) && r(k + 1).checkpoints[c] in r(k + 1).checkpoints;
    }
  }

  // ---------- A healthy cluster ----------

  const NOTHING := State(Spec("job", "template", Some(2), "repo", [Container("main", "image")], None),
    [], map[], [], [], map[], [], 1_500_000_000, multiset{}, {})

  lemma GrownNascent(s: State, t: State, p: State, n: nat)
    requires Real(s) && t.pis == s.pis && FleetGrown(t, p, n)
    ensures AllNascent(p.pis)
  {
    hide InstanceName, FleetOk, Staffed;
    forall k | 0 <= k < |p.pis| ensures Nascent(p.pis[k]) {
      if k < |s.pis| {
        assert RealInstance(s.pis[k]);
      } else {
        NameNotEmpty(t.spec, p.pis[k].index.value, t.clock);
      }
    }
  }

  lemma CleanStep(s: State, n: nat)
    requires Clean(s, n) && Real(s)
    ensures var m := CaughtUp(Pass(s, {}, {}), "", {});
      Round(s, m, {}) && CatchUp(s, m) && Real(m)
  {
    hide Starting, Pass, NamesOk, FleetOk, InstanceName, Taken, NewcomerOk, CaughtUp, Advances, AllUp, Real, AllNascent;
    PassGrows(s, n);
    var p := Pass(s, {}, {});
    GrownFleetOk(s, p, n);
    GrownNascent(s, s, p, n);
    CatchesUp(p, n, "", {}, {});
    SameLengths(p, "", {});
  }

  lemma SameLengths(p: State, b: string, stopped: set<string>)
    ensures |CaughtUp(p, b, stopped).pis| == |p.pis| && |CaughtUp(p, b, stopped).checkpoints| == |p.checkpoints|
  {
  }

  lemma {:induction false} CleanIterated(k: nat)
    ensures Clean(Iterated(NOTHING, "", {}, k), 2) && Real(Iterated(NOTHING, "", {}, k))
  {
    hide Clean, Pass, CaughtUp, Round, Real;
    if k == 0 {
      EmptyIsClean(NOTHING, 2);
      NothingReal();
    } else {
      CleanIterated(k - 1);
      var s := Iterated(NOTHING, "", {}, k - 1);
      CleanStep(s, 2);
      CleanRound(s, Iterated(NOTHING, "", {}, k), 2);
    }
  }

  lemma NothingReal()
    ensures Real(NOTHING)
  {
    assert VmsOf([]) == [];
  }

  ghost predicate AlwaysReal(r: nat -> State)
  {
    forall k: nat :: Real(r(k))
  }

  /** The start-up of two replicas from an empty store, and a round in which they are healthy. */
  lemma HealthyExists() returns (r: nat -> State, k: nat)
    ensures r(0) == NOTHING && StartupRun(r, 2) && AllJoin(r) && AlwaysReal(r)
    ensures Healthy(r(k), 2) && Clean(r(k), 2)
  {
    hide Clean, Pass, Healthy, CaughtUp, Round, Iterated, Starting, CatchUp, Real;
    r := RunOf(NOTHING, "", {});
    forall j: nat ensures Clean(r(j), 2) && Real(r(j)) && Round(r(j), r(j + 1), {}) && CatchUp(r(j), r(j + 1)) {
      CleanIterated(j);
      CleanStep(r(j), 2);
    }
    CaughtUpIsFair(r);
    assert StartupRun(r, 2) by { CleanStarts(r(0)); }
    StartupHealthy(r, 2);
    k :| Healthy(r(k), 2) && Clean(r(k), 2);
  }

  lemma CleanStarts(s: State)
    requires Clean(s, 2)
    ensures Starting(s, 2)
  {
  }

  // ---------- Fair runs ----------

  /** A Job away from the lost indices, to have a pod. */
  ghost predicate Witness(s: State, l: Loss, b: string)
  {
    Base(s, l) && Real(s) && b in s.jobs && b != "" && !AtLost(s, l, b)
  }

  lemma WitnessPod(s: State, l: Loss, b: string)
    requires Witness(s, l, b)
    ensures PodsOk(WithPod(s, b), l)
  {
    hide CheckpointBase, JobsInv, AllCount, StampsPast, Spent, FirstUsable, FleetOk, NameOk, Real, PodsOk;
    assert JobFits(s.jobs[b], l.n);
    assert FirstUsable(s.pis, s.jobs[b].index.value).Some?;
    PodThere(s, l, b);
  }

  lemma StepOn(s: State, l: Loss, b: string, stopped: set<string>)
    requires Witness(s, l, b) && PodsOk(s, l) && stopped <= l.jobs
    ensures var m := CaughtUp(Pass(s, {}, {}), b, stopped);
      Round(s, m, l.jobs) && Witness(m, l, b) && PodsOk(m, l) && CatchUp(s, m)
  {
    hide Base, Pass, AfterPreemption, PodsOk, CaughtUp, Advances, OthersKept, AllNewOk, Went, AllUp, FleetOk, JobsInv,
      Real, AllNascent;
    var p := Pass(s, {}, {});
    var m := CaughtUp(p, b, stopped);
    PassFleet(s, l);
    PassNascent(s, l);
    CatchesUp(p, l.n, b, stopped, l.jobs);
    RoundGoes(s, l, m);
    CheckpointsLater(s, l, AfterPreemption(s), p, m);
    PassPrefix(s, l, AfterPreemption(s), p);
    SameLengths(p, b, stopped);
    KeptWitness(s, l, m, b);
    WitnessPod(m, l, b);
    PodTwice(p, b, stopped);
  }

  lemma PassNascent(s: State, l: Loss)
    requires Base(s, l) && Real(s)
    ensures AllNascent(Pass(s, {}, {}).pis)
  {
    hide Base, AfterPreemption, Pass, Real, AllNascent, JobOutcome, FleetGrown, NewcomerOk, JobsFit, JobsInv;
    var t, p := AfterPreemption(s), Pass(s, {}, {});
    PassWent(s, l, {});
    PassPrefix(s, l, t, p);
    if HasPending(t.checkpoints) {
      RealNascent(s);
    } else {
      GrownNascent(s, t, p, l.n);
    }
  }

  lemma RealNascent(s: State)
    requires Real(s)
    ensures AllNascent(s.pis)
  {
    forall k | 0 <= k < |s.pis| ensures Nascent(s.pis[k]) {
      assert RealInstance(s.pis[k]);
    }
  }

  lemma PodTwice(p: State, b: string, stopped: set<string>)
    ensures WithPod(CaughtUp(p, b, stopped), b) == CaughtUp(p, b, stopped)
  {
    hide NodeOf, Risings;
  }

  lemma KeptWitness(s: State, l: Loss, m: State, b: string)
    requires OthersKept(s, l, m) && b in s.jobs && !AtLost(s, l, b)
    ensures b in m.jobs && !AtLost(m, l, b)
  {
  }

  lemma {:induction false} StepsOn(s: State, l: Loss, b: string, stopped: set<string>, k: nat)
    requires Witness(s, l, b) && PodsOk(s, l) && stopped <= l.jobs
    ensures Witness(Iterated(s, b, stopped, k), l, b) && PodsOk(Iterated(s, b, stopped, k), l)
  {
    hide Witness, PodsOk, Pass, CaughtUp, Round, CatchUp;
    if k > 0 {
      StepsOn(s, l, b, stopped, k - 1);
      StepOn(Iterated(s, b, stopped, k - 1), l, b, stopped);
    }
  }

  /** From every situation with a loss there is a fair run, whichever lost Jobs stop. */
  lemma FairRunExists(s: State, l: Loss, b: string, stopped: set<string>) returns (r: nat -> State)
    requires Witness(s, l, b) && PodsOk(s, l) && stopped <= l.jobs
    ensures r == RunOf(s, b, stopped) && r(0) == s && RecoveryRun(r, l) && Fair(r) && AlwaysReal(r)
  {
    hide PodsOk, Pass, CaughtUp, Round, CatchUp, Iterated, Base, Real;
    r := RunOf(s, b, stopped);
    forall k: nat ensures PodsOk(r(k), l) && Round(r(k), r(k + 1), l.jobs) && CatchUp(r(k), r(k + 1)) && Real(r(k)) {
      StepsOn(s, l, b, stopped, k);
      StepOn(r(k), l, b, stopped);
    }
    CaughtUpIsFair(r);
  }

  /** In a blocked situation the instance comes, and then the Job is found stopped if it has stopped. */
  lemma FoundStopped(s: State, n: nat, i: nat, o: string, b: string, r: nat -> State)
    requires RecoveryRun(r, Loss(n, {i}, {o})) && r == RunOf(s, b, {o}) && AlwaysReal(r)
    requires OwnOnly(s, n, i, o) && HasRestored(s.jobs)
    ensures exists k: nat :: Stopped(r(k), i, o)
  {
    hide RecoveryRun, OwnOnly, Pass, CaughtUp, Iterated, HasRestored, RunOf, Stopped, Real;
    if forall k: nat :: !Stopped(r(k), i, o) {
      BlockedStays(r, n, i, o, 1);
      assert r(1) == CaughtUp(Pass(r(0), {}, {}), b, {o});
      assert r(2) == CaughtUp(Pass(r(1), {}, {}), b, {o});
      BlockedStays(r, n, i, o, 2);
      RestoredHandles(r(1), n, i, o);
      OwnIsIdle(r(1), n, i, o);
      StoppedThere(r(1), n, i, o, b, r(2), r(0));
    }
  }

  lemma StoppedThere(s: State, n: nat, i: nat, o: string, b: string, m: State, before: State)
    requires OwnOnly(s, n, i, o) && OwnOnly(before, n, i, o) && OwnOnly(m, n, i, o) && AfterPreemption(s) == s
    requires Real(before) && Real(s)
    requires s == CaughtUp(Pass(before, {}, {}), b, {o}) && m == CaughtUp(Pass(s, {}, {}), b, {o})
    ensures Stopped(m, i, o)
  {
    hide Pass, AfterPreemption, JobBase, CheckpointBase, HasLive, NamesOk, FirstUsable, Noticed, Ready, NodeOf, Staffed,
      JobOutcome, NewcomerOk, JobsFit, JobsInv, FleetOk, AllUp, Comes, Completes, Real, AllNascent;
    var l := Loss(n, {i}, {o});
    var p := Pass(s, {}, {});
    PassFleet(before, l);
    PassNascent(before, l);
    PassNascent(s, l);
    CatchesUp(Pass(before, {}, {}), n, b, {o}, {o});
    PassWent(s, l, {});
    GrownFleetOk(s, p, n);
    CatchesUp(p, n, b, {o}, {o});
    FleetComes(p.pis, m.pis, n);
    StillStaffed(p.pis, m.pis, n);
    IndexBelow(s, l, i);
    AllReady(m.pis, n);
  }

  lemma StillStaffed(pis: seq<Instance>, later: seq<Instance>, n: nat)
    requires Staffed(pis, n) && Taken(later) == Taken(pis)
    ensures forall i: nat :: i < n ==> i in Taken(later)
  {
    hide Taken;
  }

  /** While the Job goes on it is never found stopped. */
  lemma NeverStopped(s: State, n: nat, i: nat, o: string, b: string, r: nat -> State, k: nat)
    requires r == RunOf(s, b, {}) && i !in Taken(s.pis) && FleetOk(s.pis, n)
    ensures !Stopped(r(k), i, o)
  {
    hide Pass, Iterated, Taken, Ready, FleetOk, NodeOf;
    if k == 0 {
      NotTakenNotReady(s, n, i);
    } else {
      assert r(k - 1 + 1) == CaughtUp(Pass(r(k - 1), {}, {}), b, {});
    }
  }

  lemma NotTakenNotReady(s: State, n: nat, i: nat)
    requires FleetOk(s.pis, n) && i !in Taken(s.pis)
    ensures !Ready(s.pis, i)
  {
    hide Ready, Taken, FleetOk;
    if Ready(s.pis, i) { ReadyIsTaken(s.pis, n, i); }
  }

  /** Where all live checkpoints are the lost Job's own and something was restored before, both outcomes happen. */
  lemma BothHappen(s: State, n: nat, i: nat, o: string, b: string) returns (r: nat -> State, q: nat -> State)
    requires JustLost(s, n, i, o) && Blocked(s, o) && !s.jobs[o].annotated
    requires b in s.jobs && b != "" && b != o && PodsOk(s, Loss(n, {i}, {o})) && Real(s)
    ensures r(0) == s && RecoveryRun(r, Loss(n, {i}, {o})) && Fair(r) && AlwaysReal(r)
    ensures exists k: nat :: RestoredSince(s, r(k), i)
    ensures q(0) == s && RecoveryRun(q, Loss(n, {i}, {o})) && Fair(q) && AlwaysReal(q)
    ensures !exists k: nat :: RestoredSince(s, q(k), i)
  {
    hide Base, RecoveryRun, Fair, RestoredSince, Stopped, RunOf, OwnOnly, Taken, PodsOk, HasLive, Live, HasRestored,
      OneJobPerIndex, Real;
    var l := Loss(n, {i}, {o});
    OnlyOne(s, n, i, o);
    assert Witness(s, l, b);
    OwnAtOnce(s, n, i, o);
    r := FairRunExists(s, l, b, {o});
    FoundStopped(s, n, i, o, b, r);
    RecoversIff(r, n, i, o);
    q := FairRunExists(s, l, b, {});
    BaseFits(s, l);
    forall k: nat ensures !Stopped(q(k), i, o) {
      NeverStopped(s, n, i, o, b, q, k);
    }
    RecoversIff(q, n, i, o);
  }
}
