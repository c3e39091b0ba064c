/** From an empty cluster through start-up to the recovery of the first loss. */
module FirstLoss {
  import opened Names
  import opened Objects
  import opened Checkpoints
  import opened InstanceAllocation
  import opened JobFilling
  import opened Controller
  import opened Invariants
  import opened JobInvariants
  import opened Rounds
  import opened Startup
  import opened LostReplicas
  import opened Recovery
  import opened RecoveryRuns
  import opened OneLoss

  /** Starting up, with nothing ever checkpointed or restored. */
  ghost predicate Clean(s: State, n: nat)
  {
    && Starting(s, n) && NamesOk(s.pis, s.spec, s.clock) && s.checkpoints == []
    && forall o :: o in s.jobs ==> !s.jobs[o].annotated && s.jobs[o].containers == s.spec.containers
  }

  lemma EmptyIsClean(s: State, n: nat)
    requires s.pis == [] && s.jobs == map[] && s.checkpoints == [] && s.deletes == multiset{}
    requires Desired(s.spec) == n && SpecOk(s.spec)
    ensures Clean(s, n)
  {
  }

  lemma CleanRound(s: State, m: State, n: nat)
    requires Clean(s, n) && Round(s, m, {})
    ensures Clean(m, n)
  {
    hide Starting, Pass, NameOk, FleetGrown, Comes, Counts, NewcomerOk, Taken;
    var t := Pass(s, {}, {});
    PassGrows(s, n);
    StartupRound(s, m, n);
    GrownNames(s, t, n, m.clock);
    LaterNames(t.pis, m.pis, s.spec, m.clock, m.clock);
    forall o | o in m.jobs ensures !m.jobs[o].annotated && m.jobs[o].containers == m.spec.containers {
      assert Acknowledged({}, o, t.jobs[o], m.jobs[o]);
      if o !in s.jobs { PlainFresh(s, t, o, n); }
    }
  }

  lemma PlainFresh(s: State, t: State, o: string, n: nat)
    requires o in t.jobs && NewcomerOk(s, t, o, n)
    ensures !t.jobs[o].annotated && t.jobs[o].containers == s.spec.containers
  {
    hide JobName, Ready, TakenByJobs, PinnedNode;
  }

  lemma {:induction false} CleanRun(r: nat -> State, n: nat, k: nat)
    requires StartupRun(r, n) && Clean(r(0), n)
    ensures Clean(r(k), n)
  {
    hide Clean, Starting, Round;
    if k > 0 {
      CleanRun(r, n, k - 1);
      assert Round(r(k - 1), r(k - 1 + 1), {});
      CleanRound(r(k - 1), r(k), n);
    }
  }

  lemma CleanIsHealthy(s: State, n: nat)
    requires Clean(s, n) && AllUp(s.pis) && Started(s, n)
    ensures Healthy(s, n)
  {
    hide FleetOk, NamesOk, JobsFit, JobsInv, TakenByJobs, Taken, FirstUsable, AtRest, AllUp, Ready, Range,
      OneJobPerIndex, Counts;
    JobsInRange(s.jobs, n, s.clock);
    AllReady(s.pis, n);
    ReadyIsUsable(s.pis, n);
    InRange(n);
    forall i: nat | i < n ensures HasJob(s, i) {
      assert i in TakenByJobs(s.jobs, s.clock);
    }
  }

  /** Started from nothing, in a fair environment, the cluster becomes healthy. */
  lemma StartupHealthy(r: nat -> State, n: nat)
    requires StartupRun(r, n) && Clean(r(0), n) && AllJoin(r)
    ensures exists k: nat :: Healthy(r(k), n) && Clean(r(k), n)
  {
    hide StartupRun, Clean, Healthy, Started, AllUp, Starting;
    StartupConverges(r, n);
    var k: nat :| StartedFrom(r, n, k);
    CleanRun(r, n, k);
    CleanIsHealthy(r(k), n);
  }

  /** Whichever of at least two healthy replicas is lost first, it is restored from the checkpoint of another one. */
  lemma FirstLossRecovered(s: State, n: nat, j: int, r: nat -> State, o: string)
    requires Healthy(s, n) && Clean(s, n) && n >= 2 && Preempts(s, j, r(0))
    requires o in s.jobs && s.jobs[o].index == s.pis[j].index
    requires RecoveryRun(r, Loss(n, {s.pis[j].index.value}, {o})) && Fair(r)
    ensures exists k: nat :: RestoredSince(r(0), r(k), s.pis[j].index.value)
  {
    hide Healthy, Starting, RecoveryRun, Fair, RestoredSince, Stopped, HasRestored, JustLost;
    HealthyLoss(s, n, j, r(0), o);
    NoLive(r(0), o);
    RecoversIff(r, n, s.pis[j].index.value, o);
  }

  lemma NoLive(s: State, o: string)
    requires s.checkpoints == []
    ensures !Blocked(s, o)
  {
  }
}
