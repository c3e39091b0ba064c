/** Start-up: without preemption the cluster grows to one instance and one Job for each index, and rests there. */
module Startup {
  import opened Names
  import opened Objects
  import opened Checkpoints
  import opened Preemption
  import opened InstanceAllocation
  import opened JobFilling
  import opened Controller
  import opened Invariants
  import opened JobInvariants
  import opened Rounds
  import opened Liveness

  ghost predicate NoNotice(pis: seq<Instance>)
  {
    forall k :: 0 <= k < |pis| ==> !pis[k].notice
  }

  ghost predicate OneJobPerIndex(jobs: map<string, Job>)
  {
    forall a, b :: a in jobs && b in jobs && a != b ==> jobs[a].index != jobs[b].index
  }

  /** Instances and Jobs at arbitrary indices below the replica count `n`, none lost, no checkpoint in progress. */
  ghost predicate Starting(s: State, n: nat)
  {
    && FleetOk(s.pis, n) && NoNotice(s.pis) && JobsFit(s.jobs, n) && AllCount(s.jobs, {}) && StampsPast(s.jobs, s.clock)
    && OneJobPerIndex(s.jobs) && JobsInv(s)
    && Desired(s.spec) == n && SpecOk(s.spec) && !HasPending(s.checkpoints)
  }

  /** A pass leaves preemption handling at once. */
  lemma PassGrows(s: State, n: nat)
    requires Starting(s, n)
    ensures AfterPreemption(s) == s && Grown(s, Pass(s, {}, {}), n) && FillsReady(s, Pass(s, {}, {}), n)
  {
    hide HandleFrom, DistinctIndices, JobsFit, JobsOk, OneJobPerIndex, DeletedOnce, Grown, AfterInstances, WithJobs;
    assert forall k :: 0 <= k < |s.pis| ==> MemberOk(s.pis[k], n);
    NothingPreempted(s, 0, {});
    Growth(s, n, {});
  }

  /** Fresh Jobs go to indices that have none, so no index gets a second one. */
  lemma StillOnePerIndex(s: State, t: State, m: State, n: nat)
    requires OneJobPerIndex(s.jobs) && JobsFit(s.jobs, n) && AllCount(s.jobs, {}) && Grown(s, t, n)
    requires Advances(t, m, {})
    ensures OneJobPerIndex(m.jobs)
  {
    hide JobName, FreshJob, TakenByJobs, Ready, JobsFit, FleetGrown, Comes;
    JobsInRange(s.jobs, n, s.clock);
    forall a, b | a in m.jobs && b in m.jobs && a != b ensures m.jobs[a].index != m.jobs[b].index {
      assert Acknowledged({}, a, t.jobs[a], m.jobs[a]) && Acknowledged({}, b, t.jobs[b], m.jobs[b]);
      assert a !in s.jobs ==> NewcomerOk(s, t, a, n);
      assert b !in s.jobs ==> NewcomerOk(s, t, b, n);
    }
  }

  lemma NoticesStay(s: State, t: State, m: State, n: nat)
    requires NoNotice(s.pis) && FleetGrown(s, t, n) && Advances(t, m, {})
    ensures NoNotice(m.pis)
  {
    hide FleetOk, InstanceName, Taken, Range;
    assert forall k :: 0 <= k < |t.pis| ==> Comes(t.pis[k], m.pis[k]);
  }

  /** One pass and whatever joins by then: the fleet is complete, and every index that was ready has its Job. */
  lemma StartupRound(s: State, m: State, n: nat)
    requires Starting(s, n) && Round(s, m, {})
    ensures Starting(m, n) && Taken(m.pis) == Range(0, n)
    ensures AllUp(s.pis) && Taken(s.pis) == Range(0, n) ==> TakenByJobs(m.jobs, m.clock) == Range(0, n)
    ensures forall o :: o in s.jobs ==> o in m.jobs && Acknowledged({}, o, s.jobs[o], m.jobs[o])
    ensures forall i: nat :: i < n && Ready(Pass(s, {}, {}).pis, i) ==> i in TakenByJobs(m.jobs, m.clock)
  {
    hide Pass, Range, Taken, TakenByJobs, JobName, FreshJob, Ready, JobsInv, FleetOk, Comes, NewcomerOk, Staffed,
      Counts;
    var t := Pass(s, {}, {});
    PassGrows(s, n);
    PassKeepsJobs(s, {}, {});
    DriftsKeepJobs(t, m, {});
    FleetComes(t.pis, m.pis, n);
    GrownFits(s, t, m, n, {});
    StillTaken(s, t, m, n);
    StillOnePerIndex(s, t, m, n);
    NoticesStay(s, t, m, n);
    NoneInFlight(t, m);
    StaffedExact(s.pis, n);
    StaffedExact(t.pis, n);
    if AllUp(s.pis) && Taken(s.pis) == Range(0, n) {
      AllReady(s.pis, n);
      InRange(n);
      JobsInRange(m.jobs, n, m.clock);
    }
  }

  lemma StillTaken(s: State, t: State, m: State, n: nat)
    requires Grown(s, t, n) && Advances(t, m, {}) && JobsFit(s.jobs, n) && JobsFit(m.jobs, n)
    ensures forall i :: i in TakenByJobs(s.jobs, s.clock) ==> i in TakenByJobs(m.jobs, m.clock)
  {
    hide TakenByJobs, Counts, FleetGrown, NewcomerOk, Comes, Ready, JobsFit;
    JobsInRange(s.jobs, n, s.clock);
    JobsInRange(m.jobs, n, m.clock);
    forall i | i in TakenByJobs(s.jobs, s.clock) ensures i in TakenByJobs(m.jobs, m.clock) {
      var o :| o in s.jobs && s.jobs[o].index == Some(i) && Counts(s.jobs[o]);
      assert Acknowledged({}, o, t.jobs[o], m.jobs[o]);
    }
  }

  lemma NoneInFlight(t: State, m: State)
    requires Advances(t, m, {}) && !HasPending(t.checkpoints)
    ensures !HasPending(m.checkpoints)
  {
    forall c | 0 <= c < |m.checkpoints| ensures !InFlight(m.checkpoints[c]) {
      assert Completes(t.checkpoints[c], m.checkpoints[c]) && t.checkpoints[c] in t.checkpoints;
    }
  }

  /** Passes interleaved with whatever joins in between: each Job is acknowledged before the next pass. */
  ghost predicate StartupRun(r: nat -> State, n: nat)
  {
    Starting(r(0), n) && forall k: nat :: Round(r(k), r(k + 1), {})
  }

  lemma {:induction false} StartupKeeps(r: nat -> State, n: nat, k: nat)
    requires StartupRun(r, n)
    ensures Starting(r(k), n)
    ensures k > 0 ==> Taken(r(k).pis) == Range(0, n)
    ensures forall o :: o in r(0).jobs ==> o in r(k).jobs && r(k).jobs[o].index == r(0).jobs[o].index
  {
    hide Starting, Round, Range, Taken;
    if k > 0 {
      StartupKeeps(r, n, k - 1);
      assert Round(r(k - 1), r(k - 1 + 1), {});
      StartupRound(r(k - 1), r(k), n);
    }
  }

  /** One live instance and one Job for each index below the replica count; a pass would change nothing. */
  ghost predicate Started(s: State, n: nat)
  {
    && Taken(s.pis) == Range(0, n) && TakenByJobs(s.jobs, s.clock) == Range(0, n) && OneJobPerIndex(s.jobs)
    && AtRest(s)
  }

  /** Once all instances have joined, the next pass completes the Jobs, one for each index, and then passes rest. */
  lemma StartupCompletes(r: nat -> State, n: nat, k: nat)
    requires StartupRun(r, n) && k > 0 && AllUp(r(k).pis)
    ensures Started(r(k + 1), n)
  {
    hide Round, Pass, Range, Taken, TakenByJobs, FleetOk, JobsFit, JobsInv, AllUp;
    StartupKeeps(r, n, k);
    StartupKeeps(r, n, k + 1);
    StartupRound(r(k), r(k + 1), n);
    Rests(r(k + 1), n);
  }

  lemma Rests(s: State, n: nat)
    requires Starting(s, n) && Taken(s.pis) == Range(0, n) && TakenByJobs(s.jobs, s.clock) == Range(0, n)
    ensures AtRest(s)
  {
    hide HandleFrom, Range, Taken, TakenByJobs, JobsFit, JobsInv, OneJobPerIndex, AfterInstances, WithJobs, Grown;
    PassGrows(s, n);
    StaffedExact(s.pis, n);
    forall noInstance, noJob ensures Pass(s, noInstance, noJob) == s {
      NothingMissing(s, n, noInstance, noJob);
    }
  }

  // ---------- Start-up converges ----------

  function Unjoined(pis: seq<Instance>): set<nat>
  {
    set k | 0 <= k < |pis| && !pis[k].notice && !pis[k].joined
  }

  function UnjoinedCount(r: nat -> State): (f: nat -> nat)
    ensures forall k: nat :: f(k) == |Unjoined(r(k + 1).pis)|
  {
    (k: nat) => |Unjoined(r(k + 1).pis)|
  }

  /** After the first round the fleet only comes along. */
  lemma LaterFleet(r: nat -> State, n: nat, k: nat)
    requires StartupRun(r, n) && k > 0
    ensures |r(k + 1).pis| == |r(k).pis| && forall j :: 0 <= j < |r(k).pis| ==> Comes(r(k).pis[j], r(k + 1).pis[j])
  {
    hide Starting, Range, Taken, Comes, Grown, Pass;
    StartupKeeps(r, n, k);
    assert Round(r(k), r(k + 1), {});
    SameFleet(r(k), n);
  }

  lemma SameFleet(s: State, n: nat)
    requires Starting(s, n) && Taken(s.pis) == Range(0, n)
    ensures Pass(s, {}, {}).pis == s.pis
  {
    hide FleetOk, Range, Taken, Pass, JobsFit, JobsInv, OneJobPerIndex;
    PassGrows(s, n);
    StaffedExact(s.pis, n);
  }

  lemma UnjoinedShrinks(pis: seq<Instance>, later: seq<Instance>)
    requires |later| == |pis| && forall j :: 0 <= j < |pis| ==> Comes(pis[j], later[j])
    ensures Unjoined(later) <= Unjoined(pis) && |Unjoined(later)| <= |Unjoined(pis)|
    ensures |Unjoined(later)| == |Unjoined(pis)| ==> Unjoined(later) == Unjoined(pis)
  {
    assert forall j :: 0 <= j < |pis| ==> Comes(pis[j], later[j]);
    SubsetSize(Unjoined(later), Unjoined(pis));
  }

  lemma {:induction false} UnjoinedConstant(r: nat -> State, n: nat, start: nat, k: nat)
    requires StartupRun(r, n) && 0 < start <= k
    requires forall j: nat :: j >= start ==> |Unjoined(r(j).pis)| == |Unjoined(r(start).pis)|
    ensures Unjoined(r(k).pis) == Unjoined(r(start).pis) && |r(k).pis| == |r(start).pis|
  {
    hide StartupRun, Unjoined;
    if k > start {
      UnjoinedConstant(r, n, start, k - 1);
      LaterFleet(r, n, k - 1);
      UnjoinedShrinks(r(k - 1).pis, r(k).pis);
    }
  }

  /** From round `start` on start-up is complete. */
  ghost predicate StartedFrom(r: nat -> State, n: nat, start: nat)
  {
    forall k: nat :: k >= start ==> Started(r(k), n) && AllUp(r(k).pis)
  }

  /**
    Start-up converges: when every instance joins some time, then from some round on the live instances and the
    Jobs have exactly the indices below the replica count, one each, and a pass changes nothing, whatever
    creations would be refused.
  */
  lemma StartupConverges(r: nat -> State, n: nat)
    requires StartupRun(r, n) && AllJoin(r)
    ensures exists start: nat :: StartedFrom(r, n, start)
  {
    hide StartupRun, Starting, Started, Unjoined, UnjoinedCount;
    var f := UnjoinedCount(r);
    forall k: nat ensures f(k + 1) <= f(k) {
      LaterFleet(r, n, k + 1);
      UnjoinedShrinks(r(k + 1).pis, r(k + 2).pis);
    }
    var base := ConstantInTheEnd(f, 0);
    var start := base + 1;
    forall k: nat | k >= start ensures |Unjoined(r(k).pis)| == |Unjoined(r(start).pis)| {
      assert f(k - 1) == f(base);
    }
    forall k: nat | k >= start + 1 ensures Started(r(k), n) && AllUp(r(k).pis) {
      JoinedAt(r, n, start, k - 1);
      JoinedAt(r, n, start, k);
      StartupCompletes(r, n, k - 1);
    }
    assert StartedFrom(r, n, start + 1);
  }

  ghost predicate TwoFrom(r: nat -> State, start: nat)
  {
    forall k: nat :: k >= start ==> Taken(r(k).pis) == {0, 1} && TakenByJobs(r(k).jobs, r(k).clock) == {0, 1}
  }

  /** A SpotInstanceJob that does not say how many replicas it wants gets two. */
  lemma DefaultConverges(r: nat -> State, n: nat)
    requires StartupRun(r, n) && AllJoin(r) && r(0).spec.replicas == None
    ensures n == 2 && exists start: nat :: TwoFrom(r, start)
  {
    hide StartupRun, AllJoin, AllUp, OneJobPerIndex, AtRest, Range;
    assert n == 2 by { StartupKeeps(r, n, 0); }
    StartupConverges(r, n);
    var start: nat :| StartedFrom(r, n, start);
    assert Range(0, 2) == {0, 1};
    forall k: nat | k >= start ensures Taken(r(k).pis) == {0, 1} && TakenByJobs(r(k).jobs, r(k).clock) == {0, 1} {
      assert Started(r(k), n);
    }
    assert TwoFrom(r, start);
  }

  lemma JoinedAt(r: nat -> State, n: nat, start: nat, k: nat)
    requires StartupRun(r, n) && AllJoin(r) && 0 < start <= k
    requires forall j: nat :: j >= start ==> |Unjoined(r(j).pis)| == |Unjoined(r(start).pis)|
    ensures AllUp(r(k).pis)
  {
    hide StartupRun;
    UnjoinedConstant(r, n, start, k);
    forall j | 0 <= j < |r(k).pis| ensures Up(r(k).pis[j]) {
      assert JoinsLater(r, k, j);
      var e: nat :| e >= k && j < |r(e).pis| && Up(r(e).pis[j]);
      UnjoinedConstant(r, n, start, e);
      assert j !in Unjoined(r(e).pis);
    }
  }
}
