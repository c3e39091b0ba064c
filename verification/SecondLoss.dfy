/** After a recovery the cluster is healthy again; with two replicas, what becomes of the next loss. */
module SecondLoss {
  import opened Names
  import opened Objects
  import opened Checkpoints
  import opened Restore
  import opened InstanceAllocation
  import opened JobFilling
  import opened Controller
  import opened RestoreSafety
  import opened JobInvariants
  import opened Rounds
  import opened Startup
  import opened LostReplicas
  import opened Recovery
  import opened Distance
  import opened RecoveryRuns
  import opened OneLoss

  // ---------- Healthy again ----------

  /** The lost indices have no instance yet and only their lost Jobs. */
  ghost predicate OldOnly(s: State, l: Loss)
  {
    (forall i :: i in l.indices ==> i !in Taken(s.pis)) && forall o :: AtLost(s, l, o) ==> o in l.jobs
  }

  /** The lost indices have only Jobs that came since, on usable instances. */
  ghost predicate NewOnly(s: State, l: Loss)
  {
    forall o :: AtLost(s, l, o) ==> o !in l.jobs && FirstUsable(s.pis, s.jobs[o].index.value).Some?
  }

  ghost predicate OldOrNew(s: State, l: Loss)
  {
    OldOnly(s, l) || NewOnly(s, l)
  }

  ghost predicate Tidy(s: State, l: Loss)
  {
    && OneJobPerIndex(s.jobs) && OldOrNew(s, l)
    && forall o :: o in s.jobs && !s.jobs[o].annotated ==> s.jobs[o].containers == s.spec.containers
  }

  /** While the lost indices have no instance, a pass that creates has deleted all their Jobs. */
  lemma OldGo(s: State, l: Loss, t: State, p: State)
    requires Recovering(s, l) && PodsOk(s, l) && t == AfterPreemption(s) && Went(s, l, t, p)
    requires !HasPending(t.checkpoints)
    requires OldOnly(s, l)
    ensures forall o :: AtLost(s, l, o) ==> o !in t.jobs
  {
    hide Base, AfterPreemption, PodsOk, Taken, FirstUsable, HasApplicable, Grown, JobsFit, JobsInv, RestoredBy, HasLive;
    if !HasPending(s.checkpoints) && Unsaved(s, l) { UnsavedStarts(s, l); }
    if HasPending(s.checkpoints) { PendingUntouched(s); }
    SavedApplies(s, l);
    BaseFits(s, l);
    ReadyIsUsable(s.pis, l.n);
    forall o | AtLost(s, l, o) ensures o !in t.jobs {
      assert JobOutcome(s, l, t, o);
      if s.jobs[o].annotated { HealedTaken(s, l, o); }
    }
  }

  lemma HealedTaken(s: State, l: Loss, o: string)
    requires Base(s, l) && AtLost(s, l, o) && Healed(s, o)
    ensures s.jobs[o].index.value in Taken(s.pis) && FirstUsable(s.pis, s.jobs[o].index.value).Some?
  {
    hide JobBase, CheckpointBase, FirstUsable, NamesOk, Noticed, ImageMap;
    var k :| OnInstance(s, k, s.jobs[o]);
    assert s.pis[k] in s.pis && Usable(s.pis[k], s.jobs[o].index.value);
  }

  /** Where a Job of `m` comes from: it was there, perhaps not restored, or it is fresh. */
  ghost predicate Origin(s: State, t: State, p: State, m: State, o: string, n: nat)
  {
    && o in m.jobs && o in p.jobs && Evolves(p.jobs[o], m.jobs[o])
    && (o in t.jobs ==> o in s.jobs && p.jobs[o] == t.jobs[o] && t.jobs[o].index == s.jobs[o].index)
    && (o in t.jobs && t.jobs[o] != s.jobs[o] ==> t.jobs[o].annotated)
    && (o !in t.jobs ==> NewcomerOk(t, p, o, n) && !HasPending(t.checkpoints))
  }

  lemma OriginOf(s: State, l: Loss, t: State, p: State, m: State, o: string)
    requires Goes(s, l, t, p, m) && o in m.jobs
    ensures Origin(s, t, p, m, o, l.n)
  {
    hide Base, AfterPreemption, Pass, Comes, Completes, FleetGrown, OthersKept, JobsFit, JobsInv, JobOutcome,
      NewcomerOk, Counts, AllNewOk;
    PassPrefix(s, l, t, p);
    assert Acknowledged(l.jobs, o, p.jobs[o], m.jobs[o]);
    if o in t.jobs {
      OutcomeKeepsIndex(s, l, t, o);
    } else {
      NewcomersAtLost(s, l, t, p, o);
    }
  }

  lemma OldOrNewNext(s: State, l: Loss, t: State, p: State, m: State)
    requires Recovering(s, l) && PodsOk(s, l) && Goes(s, l, t, p, m) && OldOrNew(s, l)
    ensures OldOrNew(m, l)
    ensures forall a, q :: a in p.jobs && a !in t.jobs && q in t.jobs ==> t.jobs[q].index != p.jobs[a].index
  {
    hide Base, AfterPreemption, Pass, PodsOk, Plain, RestoredOk, Saved, Unsaved, Comes, Completes, FleetGrown,
      OthersKept, JobsFit, JobsInv, JobOutcome, NewcomerOk, AllNewOk, Taken, FirstUsable, Went, OldOnly, NewOnly,
      Counts, FleetOk;
    WentFleet(s, l, t, p);
    FleetComes(p.pis, m.pis, l.n);
    forall q | AtLost(m, l, q)
      ensures AtLost(p, l, q) && (q in t.jobs ==> AtLost(s, l, q)) && (q !in t.jobs ==> q !in l.jobs)
    {
      LostJobsNext(s, l, t, p, m, q);
    }
    NewUsable(s, l, t, p, m);
    if HasPending(t.checkpoints) {
      SameTaken(s, l, t, p, m);
      PendingOld(s, l, t, p, m);
    } else if OldOnly(s, l) {
      OldGo(s, l, t, p);
      GrownNew(s, l, t, p, m);
    } else {
      NewStays(s, l, t, p, m);
    }
  }

  lemma SameTaken(s: State, l: Loss, t: State, p: State, m: State)
    requires Goes(s, l, t, p, m) && HasPending(t.checkpoints)
    ensures Taken(m.pis) == Taken(s.pis) && p == t
  {
    hide AfterPreemption, Pass, JobBase, CheckpointBase, NamesOk, FirstUsable, Noticed, Comes, Completes, OthersKept,
      AllNewOk, Taken, FleetOk, Acknowledged;
    PassPrefix(s, l, t, p);
    FleetComes(p.pis, m.pis, l.n);
  }

  lemma NewUsable(s: State, l: Loss, t: State, p: State, m: State)
    requires Goes(s, l, t, p, m)
    ensures forall i: nat :: FirstUsable(s.pis, i).Some? ==> FirstUsable(m.pis, i).Some?
    ensures forall q :: q in p.jobs && q !in t.jobs ==>
      p.jobs[q].index.Some? && FirstUsable(m.pis, p.jobs[q].index.value).Some?
  {
    hide AfterPreemption, Pass, JobBase, CheckpointBase, NamesOk, FirstUsable, Noticed, Comes, Completes, OthersKept,
      AllNewOk, FleetOk, Acknowledged, FleetGrown, NewcomerOk, JobOutcome, JobsFit, JobsInv;
    PassPrefix(s, l, t, p);
    WentFleet(s, l, t, p);
    EnvironmentFleet(p, m, l);
    forall i: nat | FirstUsable(s.pis, i).Some? ensures FirstUsable(m.pis, i).Some? {
      UsableStays(s.pis, m.pis, l.n, i);
    }
    forall q | q in p.jobs && q !in t.jobs
      ensures p.jobs[q].index.Some? && FirstUsable(m.pis, p.jobs[q].index.value).Some?
    {
      NewcomersAtLost(s, l, t, p, q);
      NewcomerReady(s, l, t, p, q);
    }
  }

  lemma PendingOld(s: State, l: Loss, t: State, p: State, m: State)
    requires Goes(s, l, t, p, m) && OldOrNew(s, l) && p == t && Taken(m.pis) == Taken(s.pis)
    requires forall q :: AtLost(m, l, q) ==> AtLost(p, l, q) && (q in t.jobs ==> AtLost(s, l, q))
    requires forall i: nat :: FirstUsable(s.pis, i).Some? ==> FirstUsable(m.pis, i).Some?
    ensures OldOrNew(m, l)
  {
    hide Base, AfterPreemption, Pass, Comes, Completes, OthersKept, Went, AllNewOk, Taken, FirstUsable;
    forall q | AtLost(m, l, q) ensures AtLost(s, l, q) && m.jobs[q].index == s.jobs[q].index {
      OriginOf(s, l, t, p, m, q);
    }
  }

  lemma GrownNew(s: State, l: Loss, t: State, p: State, m: State)
    requires Goes(s, l, t, p, m) && !HasPending(t.checkpoints)
    requires forall o :: AtLost(s, l, o) ==> o !in t.jobs
    requires forall q :: q in p.jobs && q !in t.jobs ==>
      p.jobs[q].index.Some? && FirstUsable(m.pis, p.jobs[q].index.value).Some?
    ensures OldOrNew(m, l)
    ensures forall a, q :: a in p.jobs && a !in t.jobs && q in t.jobs ==> t.jobs[q].index != p.jobs[a].index
  {
    hide Base, AfterPreemption, Pass, Comes, Completes, FleetGrown, OthersKept, JobsFit, JobsInv, JobOutcome,
      NewcomerOk, AllNewOk, Taken, FirstUsable, Counts;
    forall q | AtLost(m, l, q) ensures q !in l.jobs && FirstUsable(m.pis, m.jobs[q].index.value).Some? {
      LostJobsNext(s, l, t, p, m, q);
    }
    forall a, q | a in p.jobs && a !in t.jobs && q in t.jobs ensures t.jobs[q].index != p.jobs[a].index {
      NewcomersAtLost(s, l, t, p, a);
      OutcomeKeepsIndex(s, l, t, q);
    }
  }

  lemma NewStays(s: State, l: Loss, t: State, p: State, m: State)
    requires Goes(s, l, t, p, m) && !HasPending(t.checkpoints)
    requires NewOnly(s, l)
    requires forall i: nat :: FirstUsable(s.pis, i).Some? ==> FirstUsable(m.pis, i).Some?
    requires forall q :: q in p.jobs && q !in t.jobs ==>
      p.jobs[q].index.Some? && FirstUsable(m.pis, p.jobs[q].index.value).Some?
    ensures OldOrNew(m, l)
    ensures forall a, q :: a in p.jobs && a !in t.jobs && q in t.jobs ==> t.jobs[q].index != p.jobs[a].index
  {
    hide Base, AfterPreemption, Pass, Comes, Completes, FleetGrown, OthersKept, JobsFit, JobsInv, JobOutcome,
      NewcomerOk, AllNewOk, Taken, FirstUsable, Counts;
    forall q | AtLost(m, l, q) ensures q !in l.jobs && FirstUsable(m.pis, m.jobs[q].index.value).Some? {
      LostJobsNext(s, l, t, p, m, q);
      OriginOf(s, l, t, p, m, q);
    }
    forall a, q | a in p.jobs && a !in t.jobs && q in t.jobs ensures t.jobs[q].index != p.jobs[a].index {
      NewcomersAtLost(s, l, t, p, a);
      OutcomeKeepsIndex(s, l, t, q);
      if t.jobs[q].index == p.jobs[a].index { NewCounts(s, l, t, q); }
    }
  }

  lemma NewCounts(s: State, l: Loss, t: State, q: string)
    requires Base(s, l) && Handled(s, l, t) && q in t.jobs && AtLost(s, l, q) && q !in l.jobs
    ensures Counts(t.jobs[q])
  {
    hide FleetBase, CheckpointBase, JobsFit, JobsInv, LostNamed, JobOutcome, HasJob;
    OutcomeKeepsIndex(s, l, t, q);
  }

  lemma TidyNext(s: State, l: Loss, t: State, p: State, m: State)
    requires Recovering(s, l) && PodsOk(s, l) && Goes(s, l, t, p, m) && Tidy(s, l)
    ensures Tidy(m, l)
  {
    hide Base, Recovering, AfterPreemption, Pass, PodsOk, OldOrNew, Goes, NewcomerOk;
    OldOrNewNext(s, l, t, p, m);
    SpecNext(s, l, t, p, m);
    forall o | o in m.jobs
      ensures Origin(s, t, p, m, o, l.n) && (!m.jobs[o].annotated ==> m.jobs[o].containers == m.spec.containers)
    {
      OriginOf(s, l, t, p, m, o);
      if o !in t.jobs { FreshPlain(s, l, t, p, m, o); }
    }
    forall a, b | a in m.jobs && b in m.jobs && a != b ensures m.jobs[a].index != m.jobs[b].index {
      if a !in t.jobs && b !in t.jobs { NewDiffer(t, p, a, b, l.n); }
    }
  }

  lemma FreshPlain(s: State, l: Loss, t: State, p: State, m: State, o: string)
    requires Goes(s, l, t, p, m) && Origin(s, t, p, m, o, l.n) && o !in t.jobs
    ensures m.jobs[o].containers == m.spec.containers
  {
    hide Base, AfterPreemption, Pass, OthersKept, AllNewOk, Advances, JobName, Ready, TakenByJobs, PinnedNode,
      ReplicaLabels;
    PassPrefix(s, l, t, p);
    SpecNext(s, l, t, p, m);
  }

  lemma NewDiffer(t: State, p: State, a: string, b: string, n: nat)
    requires a in p.jobs && b in p.jobs && a != b && NewcomerOk(t, p, a, n) && NewcomerOk(t, p, b, n)
    ensures p.jobs[a].index != p.jobs[b].index
  {
    hide FreshJob, Ready, TakenByJobs;
  }

  lemma {:induction false} TidyRun(r: nat -> State, l: Loss, k: nat)
    requires RecoveryRun(r, l) && Recovering(r(0), l) && Tidy(r(0), l)
    ensures Tidy(r(k), l)
  {
    hide Recovering, PodsOk, Tidy, Goes, Pass, AfterPreemption, Round;
    if k > 0 {
      TidyRun(r, l, k - 1);
      RecoveringThroughout(r, l, k - 1);
      assert Round(r(k - 1), r(k - 1 + 1), l.jobs);
      RecoveringBase(r(k - 1), l);
      RoundGoes(r(k - 1), l, r(k));
      TidyNext(r(k - 1), l, AfterPreemption(r(k - 1)), Pass(r(k - 1), {}, {}), r(k));
    }
  }

  lemma RecoveringBase(s: State, l: Loss)
    requires Recovering(s, l)
    ensures Base(s, l)
  {
    hide Base, Plain, RestoredOk, Saved, Unsaved;
  }

  lemma RecoveredIsHealthy(s: State, l: Loss)
    requires Recovered(s, l) && Tidy(s, l)
    ensures Healthy(s, l.n)
  {
    hide FleetOk, NamesOk, JobsFit, JobsInv, CheckpointBase, OneJobPerIndex, OldOrNew, Staffed, HasCompleted,
      HasPending, FirstUsable, Spent, Down;
    AllUsable(s, l);
    HealedAnnotated(s, l);
    assert forall i: nat :: i < l.n ==> FirstUsable(s.pis, i).Some?;
    assert forall i: nat :: i < l.n ==> HasJob(s, i);
  }

  ghost predicate HealthyFrom(r: nat -> State, l: Loss, start: nat)
  {
    forall k: nat :: k >= start ==> Healthy(r(k), l.n) && Recovered(r(k), l)
  }

  lemma TidyAtFirst(h: State, n: nat, j: int, m: State, o: string)
    requires Healthy(h, n) && n >= 2 && Preempts(h, j, m) && o in h.jobs && h.jobs[o].index == h.pis[j].index
    ensures Tidy(m, Loss(n, {h.pis[j].index.value}, {o}))
  {
    hide FleetOk, NamesOk, JobsFit, JobsInv, CheckpointBase, FirstUsable, Taken, HasJob;
    NotTakenAfter(h, j, m, n);
  }

  /** A loss in a healthy cluster that has a checkpoint of another Job, or none at all, leaves it healthy again. */
  lemma HealthyAgain(h: State, n: nat, j: int, r: nat -> State, o: string)
    requires Healthy(h, n) && n >= 2 && Preempts(h, j, r(0)) && o in h.jobs && h.jobs[o].index == h.pis[j].index
    requires !h.jobs[o].annotated
    requires (exists cp :: cp in h.checkpoints && Live(cp) && cp.source != Some(o))
      || (forall cp :: cp in h.checkpoints ==> !Live(cp))
    requires RecoveryRun(r, Loss(n, {h.pis[j].index.value}, {o})) && Fair(r)
    ensures exists start: nat :: HealthyFrom(r, Loss(n, {h.pis[j].index.value}, {o}), start)
  {
    hide Recovering, Recovered, RecoveryRun, Fair, Healthy, JustLost, Tidy, AtRest, Live;
    var l := Loss(n, {h.pis[j].index.value}, {o});
    HealthyLoss(h, n, j, r(0), o);
    StartsRecovering(r(0), n, h.pis[j].index.value, o);
    TidyAtFirst(h, n, j, r(0), o);
    RecoveryConverges(r, l);
    var start: nat :| RecoveredFrom(r, l, start);
    forall k: nat | k >= start ensures Healthy(r(k), l.n) && Recovered(r(k), l) {
      TidyRun(r, l, k);
      RecoveredIsHealthy(r(k), l);
    }
    assert HealthyFrom(r, l, start);
  }

  // ---------- Two replicas ----------

  /** With one index lost, checkpoints are taken only of Jobs away from it. */
  lemma NewSources(s: State, l: Loss, i: nat)
    requires Recovering(s, l) && PodsOk(s, l) && Tidy(s, l) && l.indices == {i}
    ensures var t := AfterPreemption(s);
      |s.checkpoints| <= |t.checkpoints| && forall c :: |s.checkpoints| <= c < |t.checkpoints| ==>
        t.checkpoints[c].source.Some? && t.checkpoints[c].source.value in s.jobs
          && !AtLost(s, l, t.checkpoints[c].source.value)
  {
    hide Base, AfterPreemption, PodsOk, HasLive, CheckpointName, Plain, NothingApplies, Taken, FirstUsable, Healed,
      OneJobPerIndex, HasApplicable;
    var t := AfterPreemption(s);
    RecoveringBase(s, l);
    PhaseCheckpoints(s, l);
    if HasPending(s.checkpoints) {
      PendingUntouched(s);
    } else if Saved(s, l) {
      SavedApplies(s, l);
      if o :| AtLost(s, l, o) && !StillLost(s, l, o) {
        NewIsUsable(s, l, o);
        assert HasJob(s, i);
        PhaseRestores(s, l);
      }
    }
    forall c | |s.checkpoints| <= c < |t.checkpoints|
      ensures t.checkpoints[c].source.Some? && t.checkpoints[c].source.value in s.jobs
      ensures !AtLost(s, l, t.checkpoints[c].source.value)
    {
      assert NewOk(s, l, t.checkpoints[c], t.clock);
    }
  }

  lemma NewIsUsable(s: State, l: Loss, o: string)
    requires Recovering(s, l) && OldOrNew(s, l) && AtLost(s, l, o) && !StillLost(s, l, o)
    ensures FirstUsable(s.pis, s.jobs[o].index.value).Some?
  {
    hide Base, Taken, FirstUsable, Healed, Plain, Saved, Unsaved;
    if s.jobs[o].annotated { HealedTaken(s, l, o); }
  }

  /** `b` is the only Job away from the lost index, and the only one with a live checkpoint. */
  ghost predicate OnlyOther(s: State, l: Loss, b: string)
  {
    && (forall o :: o in s.jobs && !AtLost(s, l, o) ==> o == b)
    && (forall cp :: cp in s.checkpoints && Live(cp) ==> cp.source == Some(b))
  }

  lemma OnlyOtherNext(s: State, l: Loss, i: nat, m: State, b: string)
    requires Recovering(s, l) && PodsOk(s, l) && Tidy(s, l) && l.indices == {i} && Round(s, m, l.jobs)
    requires OnlyOther(s, l, b)
    ensures OnlyOther(m, l, b)
  {
    hide Recovering, PodsOk, AllNewOk, AfterPreemption, Pass, Advances, Went, Base, OthersKept, Tidy;
    var t, p := AfterPreemption(s), Pass(s, {}, {});
    RecoveringBase(s, l);
    RoundGoes(s, l, m);
    NewSources(s, l, i);
    CheckpointsLater(s, l, t, p, m);
    forall cp | cp in m.checkpoints && Live(cp) ensures cp.source == Some(b) {
      var c :| 0 <= c < |m.checkpoints| && m.checkpoints[c] == cp;
      assert Completes(t.checkpoints[c], m.checkpoints[c]);
      if c < |s.checkpoints| { assert s.checkpoints[c] in s.checkpoints; }
    }
    forall o | o in m.jobs && !AtLost(m, l, o) ensures o == b {
      OriginOf(s, l, t, p, m, o);
      if o !in t.jobs { NewcomersAtLost(s, l, t, p, o); }
    }
  }

  lemma {:induction false} OnlyOtherRun(r: nat -> State, l: Loss, i: nat, b: string, k: nat)
    requires RecoveryRun(r, l) && Recovering(r(0), l) && Tidy(r(0), l) && l.indices == {i} && OnlyOther(r(0), l, b)
    ensures OnlyOther(r(k), l, b)
  {
    hide Recovering, PodsOk, Round, OnlyOther, Tidy;
    if k > 0 {
      OnlyOtherRun(r, l, i, b, k - 1);
      RecoveringThroughout(r, l, k - 1);
      TidyRun(r, l, k - 1);
      assert Round(r(k - 1), r(k - 1 + 1), l.jobs);
      OnlyOtherNext(r(k - 1), l, i, r(k), b);
    }
  }

  lemma IndexBound(s: State, n: nat, j: int)
    requires Healthy(s, n) && 0 <= j < |s.pis|
    ensures s.pis[j].index.Some? && s.pis[j].index.value < n
  {
    assert MemberOk(s.pis[j], n);
  }

  lemma OtherOfTwo(s: State, i: nat, o: string) returns (b: string)
    requires Healthy(s, 2) && i < 2 && o in s.jobs && s.jobs[o].index == Some(i)
    ensures forall q :: q in s.jobs && s.jobs[q].index != Some(i) ==> q == b
  {
    hide FleetOk, NamesOk, JobsInv, CheckpointBase, FirstUsable;
    assert HasJob(s, 1 - i);
    b :| b in s.jobs && s.jobs[b].index == Some(1 - i);
    forall q | q in s.jobs && s.jobs[q].index != Some(i) ensures q == b {
      assert JobFits(s.jobs[q], 2);
    }
  }

  /** After the first recovery the other Job's is the only checkpoint, and there is a restored Job: blocked. */
  lemma SourceBlocked(s: State, l: Loss, b: string, o: string)
    requires Recovered(s, l) && OnlyOther(s, l, b) && o in s.jobs && !s.jobs[o].annotated
    ensures Blocked(s, o)
  {
    hide Base, Staffed, Down;
    var i := LostIndex(s, l);
    assert HasJob(s, i);
    var x :| x in s.jobs && s.jobs[x].index == Some(i);
    assert AtLost(s, l, x) && Healed(s, x);
    assert o == b by { assert AtLost(s, l, o) ==> Healed(s, o); }
    var cp :| cp in s.checkpoints && Successful(cp);
    assert HasLive(s.checkpoints, o);
  }

  lemma LostIndex(s: State, l: Loss) returns (i: nat)
    requires Base(s, l)
    ensures i in l.indices
  {
    hide JobBase, CheckpointBase, FleetOk, NamesOk;
    i :| i in l.indices;
  }

  /**
    Two replicas, the default. A healthy cluster without live checkpoints recovers from its first loss and is
    healthy again. Of the next loss: the replica restored before is never recovered; the other one exactly when
    its Job is found stopped by some pass after its replacement has joined.
  */
  lemma SecondLossIff(h: State, j: int, r: nat -> State, o: string, k: nat, j2: int, q: nat -> State, o2: string)
    requires Healthy(h, 2) && (forall cp :: cp in h.checkpoints ==> !Live(cp)) && Preempts(h, j, r(0))
    requires o in h.jobs && h.jobs[o].index == h.pis[j].index && !h.jobs[o].annotated
    requires RecoveryRun(r, Loss(2, {h.pis[j].index.value}, {o})) && Fair(r)
    requires HealthyFrom(r, Loss(2, {h.pis[j].index.value}, {o}), k)
    requires Preempts(r(k), j2, q(0)) && o2 in r(k).jobs && r(k).jobs[o2].index == r(k).pis[j2].index
    requires RecoveryRun(q, Loss(2, {r(k).pis[j2].index.value}, {o2})) && Fair(q)
    ensures (exists e: nat :: RestoredSince(q(0), q(e), r(k).pis[j2].index.value))
      <==> !r(k).jobs[o2].annotated && exists e: nat :: Stopped(q(e), r(k).pis[j2].index.value, o2)
  {
    hide Recovering, Recovered, RecoveryRun, Fair, Healthy, JustLost, Tidy, RestoredSince, Stopped, Blocked, OnlyOther;
    var i := h.pis[j].index.value;
    var l := Loss(2, {i}, {o});
    HealthyLoss(h, 2, j, r(0), o);
    StartsRecovering(r(0), 2, i, o);
    TidyAtFirst(h, 2, j, r(0), o);
    IndexBound(h, 2, j);
    var b := OtherOfTwo(h, i, o);
    OnlyAtFirst(h, r(0), l, i, b);
    OnlyOtherRun(r, l, i, b, k);
    HealthyLoss(r(k), 2, j2, q(0), o2);
    if !r(k).jobs[o2].annotated {
      SourceBlocked(r(k), l, b, o2);
      SameBlocked(r(k), q(0), o2);
    }
    RecoversIff(q, 2, r(k).pis[j2].index.value, o2);
  }

  lemma OnlyAtFirst(h: State, m: State, l: Loss, i: nat, b: string)
    requires m.jobs == h.jobs && m.checkpoints == h.checkpoints && l.indices == {i}
    requires forall cp :: cp in h.checkpoints ==> !Live(cp)
    requires forall q :: q in h.jobs && h.jobs[q].index != Some(i) ==> q == b
    ensures OnlyOther(m, l, b)
  {
  }

  lemma SameBlocked(s: State, m: State, o: string)
    requires m.jobs == s.jobs && m.checkpoints == s.checkpoints && Blocked(s, o)
    ensures Blocked(m, o)
  {
  }
}
