/** One replica is lost: exactly when is it recovered? */
module OneLoss {
  import opened Names
  import opened Objects
  import opened Checkpoints
  import opened Restore
  import opened Preemption
  import opened InstanceAllocation
  import opened JobFilling
  import opened Controller
  import opened Invariants
  import opened RestoreSafety
  import opened JobInvariants
  import opened Rounds
  import opened Startup
  import opened LostReplicas
  import opened Recovery
  import opened Distance
  import opened RecoveryRuns

  // ---------- From a healthy cluster ----------

  ghost predicate EarlierRestored(s: State)
  {
    forall k, o :: 0 <= k < |s.pis| && s.pis[k].notice && o in s.jobs && s.jobs[o].index == s.pis[k].index ==>
      s.jobs[o].annotated
  }

  ghost predicate HealthyJobs(s: State, n: nat)
  {
    && JobsFit(s.jobs, n) && AllCount(s.jobs, {}) && StampsPast(s.jobs, s.clock) && JobsInv(s)
    && OneJobPerIndex(s.jobs) && EarlierRestored(s)
    && (forall i: nat {:trigger HasJob(s, i)} :: i < n ==> HasJob(s, i))
    && (forall o :: o in s.jobs && !s.jobs[o].annotated ==> s.jobs[o].containers == s.spec.containers)
  }

  /** One usable instance and one Job for each of `n` indices, possibly after earlier recoveries. */
  ghost predicate Healthy(s: State, n: nat)
  {
    && Desired(s.spec) == n && SpecOk(s.spec) && FleetOk(s.pis, n) && NamesOk(s.pis, s.spec, s.clock)
    && (forall i: nat {:trigger FirstUsable(s.pis, i)} :: i < n ==> FirstUsable(s.pis, i).Some?)
    && HealthyJobs(s, n) && CheckpointBase(s)
  }

  /** The instance at position `k` is preempted. Pods, nodes and VMs are arbitrary. */
  ghost predicate Preempts(s: State, k: int, m: State)
  {
    && 0 <= k < |s.pis| && !s.pis[k].notice && s.pis[k].index.Some?
    && m.spec == s.spec && m.clock == s.clock && m.deletes == s.deletes
    && m.jobs == s.jobs && m.checkpoints == s.checkpoints
    && |m.pis| == |s.pis| && (forall j :: 0 <= j < |s.pis| && j != k ==> m.pis[j] == s.pis[j])
    && Serving(s.pis[k]) && (m.pis[k].state == Stopping || m.pis[k].state == Terminated)
    && m.pis[k] == s.pis[k].(state := m.pis[k].state, notice := true)
  }

  /** Index `i`, and with it Job `o`, has just been lost. */
  ghost predicate JustLost(s: State, n: nat, i: nat, o: string)
  {
    && Base(s, Loss(n, {i}, {o})) && i !in Taken(s.pis)
    && o in s.jobs && s.jobs[o].index == Some(i) && OneJobPerIndex(s.jobs)
    && (!s.jobs[o].annotated ==> s.jobs[o].containers == s.spec.containers)
  }

  lemma NotTakenAfter(s: State, k: int, m: State, n: nat)
    requires FleetOk(s.pis, n) && Preempts(s, k, m)
    ensures s.pis[k].index.value !in Taken(m.pis)
  {
    assert forall j :: 0 <= j < |s.pis| ==> MemberOk(s.pis[j], n);
    assert forall j :: 0 <= j < |m.pis| && j != k && !Preempted(m.pis[j]) ==> m.pis[j].index != s.pis[k].index;
  }

  lemma OthersUsable(s: State, k: int, m: State, n: nat, q: nat)
    requires FleetOk(s.pis, n) && Preempts(s, k, m) && FirstUsable(s.pis, q).Some? && s.pis[k].index != Some(q)
    ensures FirstUsable(m.pis, q).Some?
  {
    hide FirstUsable, FleetOk;
    var j :| 0 <= j < |s.pis| && s.pis[j] == FirstUsable(s.pis, q).value;
    assert m.pis[j] == s.pis[j] && m.pis[j] in m.pis && Usable(m.pis[j], q);
  }

  lemma FleetWithout(s: State, k: int, m: State, n: nat, lost: set<string>)
    requires Healthy(s, n) && Preempts(s, k, m) && n >= 2
    ensures FleetBase(m, Loss(n, {s.pis[k].index.value}, lost))
  {
    hide HealthyJobs, CheckpointBase, InstanceName, FirstUsable;
    var i := s.pis[k].index.value;
    forall j | 0 <= j < |m.pis| ensures MemberOk(m.pis[j], n) && NameOk(m.pis[j], m.spec, m.clock) {
      assert MemberOk(s.pis[j], n) && NameOk(s.pis[j], s.spec, s.clock);
    }
    forall q: nat | q < n && q != i ensures FirstUsable(m.pis, q).Some? {
      OthersUsable(s, k, m, n, q);
    }
    assert Noticed(m.pis, i);
    var other: nat := if i == 0 then 1 else 0;
    assert other < n && other !in Loss(n, {i}, lost).indices;
  }

  lemma JobsWithout(s: State, k: int, m: State, n: nat, o: string)
    requires Healthy(s, n) && Preempts(s, k, m) && o in s.jobs && s.jobs[o].index == s.pis[k].index
    ensures JobBase(m, Loss(n, {s.pis[k].index.value}, {o}))
  {
    hide NamesOk, FleetOk, CheckpointBase, FirstUsable, JobName, DeletedOnce;
    var l := Loss(n, {s.pis[k].index.value}, {o});
    assert JobOk(o, s.jobs[o], s.spec, s.clock);
    assert s.jobs[o].stamp < s.clock && o == JobName(s.spec.name, s.jobs[o].index.value, s.jobs[o].stamp);
    assert Spent(o, s.spec, s.clock);
    assert AtLost(m, l, o);
    forall q: nat | q < n ensures HasJob(m, q) {
      assert HasJob(s, q);
    }
    forall k2, q | 0 <= k2 < |m.pis| && m.pis[k2].notice && q in m.jobs && m.jobs[q].index == m.pis[k2].index
      ensures AtLost(m, l, q) || m.jobs[q].annotated
    {
      assert k2 != k ==> m.pis[k2] == s.pis[k2];
    }
    SameJobsInv(s, m);
  }

  lemma SameJobsInv(s: State, m: State)
    requires JobsInv(s) && m.jobs == s.jobs && m.deletes == s.deletes && m.checkpoints == s.checkpoints
    requires m.spec == s.spec && m.clock == s.clock
    ensures JobsInv(m)
  {
  }

  /** Losing one of at least two healthy replicas. */
  lemma HealthyLoss(s: State, n: nat, k: int, m: State, o: string)
    requires Healthy(s, n) && n >= 2 && Preempts(s, k, m) && o in s.jobs && s.jobs[o].index == s.pis[k].index
    ensures JustLost(m, n, s.pis[k].index.value, o)
  {
    hide FleetBase, JobBase, CheckpointOk, NamesOk, JobsFit, JobsInv, AllCount, EarlierRestored, Taken, HasJob,
      FirstUsable, FleetOk;
    FleetWithout(s, k, m, n, {o});
    JobsWithout(s, k, m, n, o);
    NotTakenAfter(s, k, m, n);
  }

  // ---------- The condition ----------

  /** All live checkpoints were taken from `o` itself, there is one, and something has been restored before. */
  ghost predicate Blocked(s: State, o: string)
  {
    && HasLive(s.checkpoints, o) && (forall cp :: cp in s.checkpoints && Live(cp) ==> cp.source == Some(o))
    && HasRestored(s.jobs)
  }

  /** At this pass the replacement of index `i` has joined and Job `o` takes the index no longer. */
  ghost predicate Stopped(s: State, i: nat, o: string)
  {
    !HasPending(s.checkpoints) && Ready(s.pis, i) && o in s.jobs && s.jobs[o].active == 0 && s.jobs[o].succeeded == 0
  }

  /** In `m` index `i` has a Job that runs restored on a live instance, and did not do so in `s`. */
  ghost predicate RestoredSince(s: State, m: State, i: nat)
  {
    exists o :: Healed(m, o) && m.jobs[o].index == Some(i) && !(o in s.jobs && s.jobs[o].annotated)
  }

  // ---------- Runs ----------

  lemma {:induction false} BaseThroughout(r: nat -> State, l: Loss, k: nat)
    requires RecoveryRun(r, l) && Base(r(0), l)
    ensures Base(r(k), l) && r(k).spec == r(0).spec
  {
    hide Base, Round, PodsOk, Pass, AfterPreemption, Went, AllNewOk, Advances, OthersKept;
    if k > 0 {
      BaseThroughout(r, l, k - 1);
      assert Round(r(k - 1), r(k - 1 + 1), l.jobs);
      RoundGoes(r(k - 1), l, r(k));
      SpecNext(r(k - 1), l, AfterPreemption(r(k - 1)), Pass(r(k - 1), {}, {}), r(k));
    }
  }

  /** A Job at the index that was there at the time of the loss is the lost one. */
  lemma OnlyThatJob(r: nat -> State, n: nat, i: nat, o: string, k: nat, q: string)
    requires RecoveryRun(r, Loss(n, {i}, {o})) && JustLost(r(0), n, i, o)
    requires q in r(k).jobs && r(k).jobs[q].index == Some(i)
    ensures q in r(0).jobs ==> q == o
  {
    hide FleetBase, CheckpointBase, RecoveryRun, Taken, JobName, DeletedOnce, LostNamed, JobsFit, HasJob;
    BaseThroughout(r, Loss(n, {i}, {o}), k);
    assert JobOk(q, r(k).jobs[q], r(k).spec, r(k).clock);
    if q in r(0).jobs {
      assert JobOk(q, r(0).jobs[q], r(0).spec, r(0).clock);
      JobNameInjective(r(0).spec.name, i, r(k).jobs[q].stamp, r(0).jobs[q].index.value, r(0).jobs[q].stamp);
    }
  }

  lemma RestoredIfHealed(r: nat -> State, n: nat, i: nat, o: string, k: nat, q: string)
    requires RecoveryRun(r, Loss(n, {i}, {o})) && JustLost(r(0), n, i, o) && !r(0).jobs[o].annotated
    requires Healed(r(k), q) && r(k).jobs[q].index == Some(i)
    ensures RestoredSince(r(0), r(k), i)
  {
    hide Base, RecoveryRun, Taken;
    OnlyThatJob(r, n, i, o, k, q);
  }

  /** Once a recovery is under way at some round, the index is restored. */
  lemma RecoversFrom(r: nat -> State, n: nat, i: nat, o: string, j: nat)
    requires RecoveryRun(r, Loss(n, {i}, {o})) && Fair(r) && JustLost(r(0), n, i, o) && !r(0).jobs[o].annotated
    requires Recovering(r(j), Loss(n, {i}, {o}))
    ensures exists k: nat :: RestoredSince(r(0), r(k), i)
  {
    hide JustLost, RecoveryRun, Fair, Recovering, Shifted, AtRest, Down, Base, Healed, RestoredSince;
    var l := Loss(n, {i}, {o});
    var q := Shifted(r, j);
    ShiftedRun(r, l, j);
    assert q(0) == r(j);
    RecoveryConverges(q, l);
    var start: nat :| RecoveredFrom(q, l, start);
    assert Recovered(q(start), l) && q(start) == r(j + start);
    var s := r(j + start);
    assert i in l.indices;
    assert HasJob(s, i);
    var x :| x in s.jobs && s.jobs[x].index == Some(i);
    assert AtLost(s, l, x) && Healed(s, x);
    RestoredIfHealed(r, n, i, o, j + start, x);
  }

  lemma StartsRecovering(s: State, n: nat, i: nat, o: string)
    requires JustLost(s, n, i, o) && !s.jobs[o].annotated
    requires (exists cp :: cp in s.checkpoints && Live(cp) && cp.source != Some(o))
      || (forall cp :: cp in s.checkpoints ==> !Live(cp))
    ensures Recovering(s, Loss(n, {i}, {o}))
  {
    hide FleetBase, JobBase, CheckpointOk, Taken;
    var l := Loss(n, {i}, {o});
    assert forall q :: AtLost(s, l, q) <==> q == o;
    if cp :| cp in s.checkpoints && Live(cp) && cp.source != Some(o) {
      var c :| 0 <= c < |s.checkpoints| && s.checkpoints[c] == cp;
      SourceKnown(s, c);
      assert Helpful(s, l, cp);
    } else {
      assert Unsaved(s, l);
    }
  }

  lemma SourceKnown(s: State, c: int)
    requires CheckpointBase(s) && 0 <= c < |s.checkpoints|
    ensures s.checkpoints[c].source.Some?
  {
    assert CheckpointOk(s.checkpoints[c], s.spec, s.clock);
  }

  // ---------- Only its own checkpoint ----------

  /** Job `o` is alone at the index, un-restored, and every live checkpoint is its own. */
  ghost predicate OwnOnly(s: State, n: nat, i: nat, o: string)
  {
    && Base(s, Loss(n, {i}, {o})) && o in s.jobs && !s.jobs[o].annotated && s.jobs[o].containers == s.spec.containers
    && (forall q :: AtLost(s, Loss(n, {i}, {o}), q) <==> q == o)
    && HasLive(s.checkpoints, o) && (forall cp :: cp in s.checkpoints && Live(cp) ==> cp.source == Some(o))
  }

  /** A fresh Job has taken the index, and the lost one's checkpoint applies to it. */
  ghost predicate Followed(s: State, n: nat, i: nat, f: string)
  {
    && f in s.jobs && s.jobs[f].index == Some(i) && !s.jobs[f].annotated && s.jobs[f].containers == s.spec.containers
    && HasApplicable(s, f) && FirstUsable(s.pis, i).Some? && !HasPending(s.checkpoints)
  }

  lemma OwnApplies(s: State, n: nat, i: nat, o: string)
    requires OwnOnly(s, n, i, o)
    ensures NothingApplies(s, Loss(n, {i}, {o})) && o != ""
    ensures !HasPending(s.checkpoints) ==> HasCompleted(s.checkpoints) && forall f :: f != o ==> HasApplicable(s, f)
  {
    hide FleetBase, HasJob, JobsFit, DeletedOnce, LostNamed, CheckpointName, Spent;
    assert JobOk(o, s.jobs[o], s.spec, s.clock);
    var cp :| cp in s.checkpoints && cp.source == Some(o) && Live(cp);
    var c :| 0 <= c < |s.checkpoints| && s.checkpoints[c] == cp;
    assert CheckpointOk(s.checkpoints[c], s.spec, s.clock);
    if !HasPending(s.checkpoints) {
      forall f | f != o ensures HasApplicable(s, f) {
        assert Applicable(cp, f);
      }
    }
  }

  ghost predicate Follows(s: State, p: State, m: State, n: nat, q: string)
  {
    && !HasPending(s.checkpoints) && q !in s.jobs && q in p.jobs && NewcomerOk(s, p, q, n)
    && q in m.jobs && Evolves(p.jobs[q], m.jobs[q])
  }

  /** The Jobs after a round that handles nothing: the same, and perhaps a fresh one at the index. */
  lemma OwnJobsNext(s: State, n: nat, i: nat, o: string, p: State, m: State)
    requires OwnOnly(s, n, i, o) && Goes(s, Loss(n, {i}, {o}), s, p, m)
    ensures o in m.jobs && Evolves(s.jobs[o], m.jobs[o])
    ensures forall q :: AtLost(m, Loss(n, {i}, {o}), q) && q != o ==> Follows(s, p, m, n, q)
  {
    hide Base, AfterPreemption, Pass, Comes, Completes, Counts, JobsFit, JobsInv, FleetGrown, NewcomerOk, OthersKept,
      AllNewOk, JobOutcome, HasLive;
    var l := Loss(n, {i}, {o});
    assert o in p.jobs && p.jobs[o] == s.jobs[o] && Acknowledged(l.jobs, o, p.jobs[o], m.jobs[o]);
    forall q | AtLost(m, l, q) && q != o
      ensures Follows(s, p, m, n, q)
    {
      LostJobsNext(s, l, s, p, m, q);
    }
  }

  lemma RestoredJobsNext(s: State, l: Loss, p: State, m: State)
    requires Goes(s, l, s, p, m)
    requires forall o :: AtLost(s, l, o) ==> !s.jobs[o].annotated
    ensures HasRestored(s.jobs) ==> HasRestored(m.jobs)
    ensures HasRestored(m.jobs) ==> HasRestored(s.jobs)
  {
    hide Base, AfterPreemption, Pass, Comes, Completes, Counts, JobsFit, JobsInv, FleetGrown, AllNewOk, JobOutcome,
      AtLost, FreshJob, JobName, Ready, TakenByJobs;
    if HasRestored(s.jobs) {
      var o :| o in s.jobs && s.jobs[o].annotated;
      assert Acknowledged(l.jobs, o, s.jobs[o], m.jobs[o]);
    }
    if HasRestored(m.jobs) {
      var o :| o in m.jobs && m.jobs[o].annotated;
      assert Acknowledged(l.jobs, o, p.jobs[o], m.jobs[o]);
      assert o !in s.jobs ==> NewcomerOk(s, p, o, l.n);
      if o !in s.jobs { FreshFits(s, p, o); }
    }
  }

  lemma OwnCheckpointsNext(s: State, n: nat, i: nat, o: string, p: State, m: State)
    requires OwnOnly(s, n, i, o) && Goes(s, Loss(n, {i}, {o}), s, p, m) && Advances(p, m, {o})
    ensures HasLive(m.checkpoints, o) && (forall cp :: cp in m.checkpoints && Live(cp) ==> cp.source == Some(o))
    ensures |m.checkpoints| == |s.checkpoints|
    ensures forall c :: 0 <= c < |s.checkpoints| ==> Completes(s.checkpoints[c], m.checkpoints[c])
    ensures !HasPending(s.checkpoints) ==> m.checkpoints == s.checkpoints
  {
    hide Base, AfterPreemption, Pass, Went, Advances, OthersKept, AllNewOk, AtLost, OwnOnly;
    CheckpointsLater(s, Loss(n, {i}, {o}), s, p, m);
    OwnLive(s, n, i, o);
    CompletedOwn(s.checkpoints, m.checkpoints, o);
  }

  lemma OwnLive(s: State, n: nat, i: nat, o: string)
    requires OwnOnly(s, n, i, o)
    ensures HasLive(s.checkpoints, o) && (forall cp :: cp in s.checkpoints && Live(cp) ==> cp.source == Some(o))
  {
  }

  lemma CompletedOwn(cps: seq<Checkpoint>, later: seq<Checkpoint>, o: string)
    requires |later| == |cps| && forall c :: 0 <= c < |cps| ==> Completes(cps[c], later[c])
    requires HasLive(cps, o) && forall cp :: cp in cps && Live(cp) ==> cp.source == Some(o)
    ensures HasLive(later, o) && forall cp :: cp in later && Live(cp) ==> cp.source == Some(o)
    ensures !HasPending(cps) ==> later == cps
  {
    var cp :| cp in cps && cp.source == Some(o) && Live(cp);
    var c :| 0 <= c < |cps| && cps[c] == cp;
    assert Completes(cps[c], later[c]);
    LiveAt(later, c, o);
    forall d | 0 <= d < |cps|
      ensures (Live(later[d]) ==> later[d].source == Some(o)) && (!InFlight(cps[d]) ==> later[d] == cps[d])
    {
      assert Completes(cps[d], later[d]) && cps[d] in cps;
    }
    if !HasPending(cps) {
      assert forall d :: 0 <= d < |cps| ==> cps[d] in cps;
    }
  }

  /** While preemption handling does nothing: nobody follows, or exactly at a pass that finds the Job stopped. */
  lemma OwnIdleRound(s: State, n: nat, i: nat, o: string, m: State)
    requires OwnOnly(s, n, i, o) && PodsOk(s, Loss(n, {i}, {o})) && Round(s, m, {o})
    requires AfterPreemption(s) == s
    ensures !Stopped(s, i, o) ==> OwnOnly(m, n, i, o)
    ensures Stopped(s, i, o) ==> exists f :: f != o && Followed(m, n, i, f)
    ensures HasRestored(m.jobs) <==> HasRestored(s.jobs)
    ensures |m.checkpoints| == |s.checkpoints|
    ensures forall c :: 0 <= c < |s.checkpoints| ==> Completes(s.checkpoints[c], m.checkpoints[c])
    ensures !HasPending(s.checkpoints) ==> m.checkpoints == s.checkpoints
  {
    hide Base, AfterPreemption, Pass, Comes, Completes, Counts, JobsFit, JobsInv, FleetGrown, NewcomerOk, OthersKept,
      AllNewOk, JobOutcome, HasLive, PodsOk, Ready, HasRestored, FirstUsable, HasApplicable;
    var l := Loss(n, {i}, {o});
    var p := Pass(s, {}, {});
    RoundGoes(s, l, m);
    OwnJobsNext(s, n, i, o, p, m);
    RestoredJobsNext(s, l, p, m);
    OwnCheckpointsNext(s, n, i, o, p, m);
    SpecNext(s, l, s, p, m);
    assert AtLost(s, l, o) && AtLost(m, l, o);
    if Stopped(s, i, o) {
      FollowedNext(s, n, i, o, p, m);
    } else {
      forall q | AtLost(m, l, q) ensures q == o {
        if q != o { NotStopped(s, n, i, o, p, q); }
      }
    }
  }

  /** A fresh Job at the index needs the replacement to have joined and the lost Job not to count. */
  lemma NotStopped(s: State, n: nat, i: nat, o: string, p: State, q: string)
    requires OwnOnly(s, n, i, o) && Went(s, Loss(n, {i}, {o}), s, p) && !HasPending(s.checkpoints)
    requires q in p.jobs && NewcomerOk(s, p, q, n) && q !in s.jobs
    ensures Stopped(s, i, o)
  {
    hide JobBase, CheckpointBase, JobsInv, JobOutcome, FleetBase, FirstUsable, HasLive, JobName, FreshJob,
      TakenByJobs, Ready, FleetGrown;
    var l := Loss(n, {i}, {o});
    NewcomersAtLost(s, l, s, p, q);
    BaseFits(s, l);
    NewcomerReady(s, l, s, p, q);
    ReadyIsUsable(s.pis, n);
    assert AtLost(s, l, o);
    assert !Counts(s.jobs[o]);
  }

  lemma FollowedNext(s: State, n: nat, i: nat, o: string, p: State, m: State)
    requires OwnOnly(s, n, i, o) && Goes(s, Loss(n, {i}, {o}), s, p, m) && Stopped(s, i, o) && Advances(p, m, {o})
    requires p == Pass(s, {}, {})
    ensures exists f :: f != o && Followed(m, n, i, f)
  {
    hide Base, AfterPreemption, Pass, Comes, Completes, JobsFit, JobsInv, FleetGrown, OthersKept, AllNewOk,
      JobOutcome, HasLive, Ready, FirstUsable, HasApplicable, TakenByJobs, NewcomerOk;
    var l := Loss(n, {i}, {o});
    BaseFits(s, l);
    IndexBelow(s, l, i);
    JobsInRange(s.jobs, n, s.clock);
    PassWent(s, l, {});
    assert i !in TakenByJobs(s.jobs, s.clock) by {
      forall q | q in s.jobs && s.jobs[q].index == Some(i) ensures !Counts(s.jobs[q]) {
        assert AtLost(s, l, q);
      }
    }
    GrownFleet(s, l, s, p);
    ReadyIsUsable(s.pis, n);
    PassFleet(s, l);
    ReadyIsUsable(p.pis, n);
    var f :| f in p.jobs && f !in s.jobs && p.jobs[f].index == Some(i);
    assert NewcomerOk(s, p, f, n);
    NewcomersAtLost(s, l, s, p, f);
    assert Acknowledged(l.jobs, f, p.jobs[f], m.jobs[f]);
    PlainNewcomer(s, p, m, l, f);
    SpecNext(s, l, s, p, m);
    EnvironmentFleet(p, m, l);
    OwnApplies(s, n, i, o);
    OwnCheckpointsNext(s, n, i, o, p, m);
    SameApplicable(s, m, f);
    assert HasApplicable(m, f) && f != o;
    assert FirstUsable(m.pis, i).Some?;
    assert Followed(m, n, i, f);
  }

  lemma SameApplicable(s: State, m: State, o: string)
    requires m.checkpoints == s.checkpoints
    ensures HasApplicable(m, o) <==> HasApplicable(s, o)
  {
  }

  lemma IndexBelow(s: State, l: Loss, i: nat)
    requires Base(s, l) && i in l.indices
    ensures i < l.n
  {
    hide JobBase, CheckpointBase, FleetOk, NamesOk, FirstUsable, Noticed;
    LostBelow(s, l);
  }

  lemma OwnIsIdle(s: State, n: nat, i: nat, o: string)
    requires OwnOnly(s, n, i, o) && (HasPending(s.checkpoints) || AlreadyHandled(s))
    ensures AfterPreemption(s) == s
  {
    hide AfterPreemption, Base, AlreadyHandled, HasLive;
    OwnApplies(s, n, i, o);
    if HasPending(s.checkpoints) {
      PendingUntouched(s);
    } else {
      PhaseIdle(s, Loss(n, {i}, {o}));
    }
  }

  lemma PendingUntouched(s: State)
    requires HasPending(s.checkpoints)
    ensures AfterPreemption(s) == s
  {
  }

  lemma StillLostOnly(s: State, n: nat, i: nat, o: string)
    requires OwnOnly(s, n, i, o)
    ensures forall q :: q in s.jobs && !StillLost(s, Loss(n, {i}, {o}), q) ==> !HasLive(s.checkpoints, q)
  {
    hide Base;
  }

  /** When the last checkpoint is no longer recent and nothing was restored, another Job gets a checkpoint. */
  lemma OwnBusyRound(s: State, n: nat, i: nat, o: string, m: State)
    requires OwnOnly(s, n, i, o) && PodsOk(s, Loss(n, {i}, {o})) && Round(s, m, {o})
    requires !HasPending(s.checkpoints) && !AlreadyHandled(s)
    ensures Recovering(m, Loss(n, {i}, {o})) && !OwnOnly(m, n, i, o)
  {
    hide Base, AfterPreemption, Pass, Advances, Went, OthersKept, JobsFit, JobsInv, AlreadyHandled, PodsOk, HasLive,
      NothingApplies, CheckpointName;
    var l := Loss(n, {i}, {o});
    var t, p := AfterPreemption(s), Pass(s, {}, {});
    RoundGoes(s, l, m);
    OwnApplies(s, n, i, o);
    StillLostOnly(s, n, i, o);
    PhaseStarts(s, l);
    CheckpointsLater(s, l, t, p, m);
    assert t.checkpoints != s.checkpoints;
    var c := |s.checkpoints|;
    assert NewOk(s, l, t.checkpoints[c], t.clock) && Completes(t.checkpoints[c], m.checkpoints[c]);
    var j := t.checkpoints[c].source.value;
    assert j in s.jobs && !AtLost(s, l, j);
    NewSourceStays(s, l, t, p, m, j);
    assert m.checkpoints[c] in m.checkpoints && Helpful(m, l, m.checkpoints[c]);
    OwnPlain(s, n, i, o, t, p, m);
  }

  lemma OwnPlain(s: State, n: nat, i: nat, o: string, t: State, p: State, m: State)
    requires OwnOnly(s, n, i, o) && Goes(s, Loss(n, {i}, {o}), t, p, m)
    ensures Plain(m, Loss(n, {i}, {o})) && RestoredOk(m, Loss(n, {i}, {o}))
  {
    hide Base, AfterPreemption, Pass, Advances, Went, OthersKept, AllNewOk, HasLive, Healed;
    var l := Loss(n, {i}, {o});
    assert Plain(s, l) && RestoredOk(s, l);
    forall q | AtLost(m, l, q)
      ensures m.jobs[q].annotated ==> Healed(m, q)
      ensures !m.jobs[q].annotated ==> m.jobs[q].containers == m.spec.containers
    {
      RestoredNext(s, l, t, p, m, q);
    }
  }

  /** The fresh Job is restored by the very next pass. */
  lemma FollowedRound(s: State, n: nat, i: nat, o: string, f: string, m: State)
    requires Base(s, Loss(n, {i}, {o})) && PodsOk(s, Loss(n, {i}, {o})) && Round(s, m, {o}) && Followed(s, n, i, f)
    ensures Healed(m, f) && m.jobs[f].index == Some(i)
  {
    hide Base, Pass, AfterPreemption, Went, OthersKept, AllNewOk, PodsOk, HasApplicable, FirstUsable, RestoredBy,
      Healed, Counts, Grown;
    var l := Loss(n, {i}, {o});
    var t, p := AfterPreemption(s), Pass(s, {}, {});
    RoundGoes(s, l, m);
    FollowedRestored(s, l, t, p, m, f);
    HealedAfter(s, l, t, p, m, f);
  }

  lemma FollowedRestored(s: State, l: Loss, t: State, p: State, m: State, f: string)
    requires Goes(s, l, t, p, m) && AtLost(s, l, f) && !s.jobs[f].annotated && HasApplicable(s, f)
    requires !HasPending(s.checkpoints)
    requires FirstUsable(s.pis, s.jobs[f].index.value).Some?
    ensures JobOutcome(s, l, t, f) && f in t.jobs && t.jobs[f] != s.jobs[f] && t.jobs[f].index == s.jobs[f].index
    ensures f in m.jobs && Evolves(t.jobs[f], m.jobs[f])
  {
    hide Base, Pass, AfterPreemption, OthersKept, AllNewOk, HasApplicable, FirstUsable, RestoredBy, Counts,
      FleetGrown, NewcomerOk, Comes, Completes, JobsFit, JobsInv;
    assert JobOutcome(s, l, t, f);
    RestoredIsAnnotated(s, f, s.jobs[f], t.jobs[f]);
    OutcomeKeepsIndex(s, l, t, f);
    assert p.jobs[f] == t.jobs[f] && Acknowledged(l.jobs, f, p.jobs[f], m.jobs[f]);
  }

  // ---------- Leaving that situation ----------

  ghost predicate Leaves(r: nat -> State, n: nat, i: nat, o: string, k: nat)
  {
    OwnOnly(r(k), n, i, o) && !OwnOnly(r(k + 1), n, i, o)
  }

  lemma {:induction false} LeavesBefore(r: nat -> State, n: nat, i: nat, o: string, k: nat)
    requires OwnOnly(r(0), n, i, o) && !OwnOnly(r(k), n, i, o)
    ensures exists j: nat :: Leaves(r, n, i, o, j)
  {
    hide OwnOnly;
    if OwnOnly(r(k - 1), n, i, o) {
      assert Leaves(r, n, i, o, k - 1);
    } else {
      LeavesBefore(r, n, i, o, k - 1);
    }
  }

  /** Whichever way the situation is left, the index is restored. */
  lemma LeavingRecovers(r: nat -> State, n: nat, i: nat, o: string, k: nat)
    requires RecoveryRun(r, Loss(n, {i}, {o})) && Fair(r) && JustLost(r(0), n, i, o) && !r(0).jobs[o].annotated
    requires Leaves(r, n, i, o, k)
    ensures exists j: nat :: RestoredSince(r(0), r(j), i)
  {
    hide OwnOnly, Round, PodsOk, Fair, Recovering, Followed, Healed, RestoredSince, Base, Taken;
    var l := Loss(n, {i}, {o});
    assert Round(r(k), r(k + 1), l.jobs) && Round(r(k + 1), r(k + 2), l.jobs);
    if HasPending(r(k).checkpoints) || AlreadyHandled(r(k)) {
      OwnIsIdle(r(k), n, i, o);
      OwnIdleRound(r(k), n, i, o, r(k + 1));
      var f :| f != o && Followed(r(k + 1), n, i, f);
      BaseThroughout(r, l, k + 1);
      FollowedRound(r(k + 1), n, i, o, f, r(k + 2));
      RestoredIfHealed(r, n, i, o, k + 2, f);
    } else {
      OwnBusyRound(r(k), n, i, o, r(k + 1));
      RecoversFrom(r, n, i, o, k + 1);
    }
  }

  /** While nobody follows, nothing has been restored for the index. */
  lemma OwnNotRestored(s: State, m: State, n: nat, i: nat, o: string)
    requires OwnOnly(m, n, i, o)
    ensures !RestoredSince(s, m, i)
  {
    hide Base, HasLive;
    assert forall q :: q in m.jobs && m.jobs[q].index == Some(i) ==> AtLost(m, Loss(n, {i}, {o}), q);
  }

  // ---------- Something was restored before ----------

  lemma {:induction false} BlockedStays(r: nat -> State, n: nat, i: nat, o: string, k: nat)
    requires RecoveryRun(r, Loss(n, {i}, {o})) && OwnOnly(r(0), n, i, o) && HasRestored(r(0).jobs)
    requires forall j: nat :: j < k ==> !Stopped(r(j), i, o)
    ensures OwnOnly(r(k), n, i, o) && HasRestored(r(k).jobs)
  {
    hide OwnOnly, Round, PodsOk, Stopped;
    if k > 0 {
      BlockedStays(r, n, i, o, k - 1);
      assert Round(r(k - 1), r(k - 1 + 1), {o});
      RestoredHandles(r(k - 1), n, i, o);
      OwnIsIdle(r(k - 1), n, i, o);
      OwnIdleRound(r(k - 1), n, i, o, r(k));
    }
  }

  lemma RestoredHandles(s: State, n: nat, i: nat, o: string)
    requires OwnOnly(s, n, i, o) && HasRestored(s.jobs)
    ensures HasPending(s.checkpoints) || AlreadyHandled(s)
  {
    hide Base, HasLive, OwnOnly, HasApplicable;
    OwnApplies(s, n, i, o);
  }

  lemma StoppedLeaves(r: nat -> State, n: nat, i: nat, o: string, k: nat)
    requires RecoveryRun(r, Loss(n, {i}, {o})) && OwnOnly(r(0), n, i, o) && HasRestored(r(0).jobs)
    requires Stopped(r(k), i, o)
    ensures exists j: nat :: Leaves(r, n, i, o, j)
  {
    hide OwnOnly, Round, PodsOk, Stopped, Followed;
    if j: nat :| j < k && Stopped(r(j), i, o) {
      StoppedLeaves(r, n, i, o, j);
    } else {
      BlockedStays(r, n, i, o, k);
      assert Round(r(k), r(k + 1), {o});
      RestoredHandles(r(k), n, i, o);
      OwnIsIdle(r(k), n, i, o);
      OwnIdleRound(r(k), n, i, o, r(k + 1));
      var f :| f != o && Followed(r(k + 1), n, i, f);
      FollowedIsLeft(r(k + 1), n, i, o, f);
      assert Leaves(r, n, i, o, k);
    }
  }

  lemma FollowedIsLeft(s: State, n: nat, i: nat, o: string, f: string)
    requires f != o && Followed(s, n, i, f)
    ensures !OwnOnly(s, n, i, o)
  {
    hide Base, HasLive, HasApplicable, FirstUsable;
    assert AtLost(s, Loss(n, {i}, {o}), f);
  }

  // ---------- Nothing was restored before ----------

  function Left(cp: Checkpoint, now: int): nat
  {
    var end :=
      if !Successful(cp) then now
      else
        match cp.completionTime
        case At(t) => t + RECENT
        case Unparsable => now
        case Missing => cp.createdAt + RECENT;
    if end > now then end - now else 0
  }

  /** How long completed checkpoints still count as recent. */
  function Wait(cps: seq<Checkpoint>, now: int): nat
  {
    if cps == [] then 0
    else
      var n := |cps| - 1;
      var rest := Wait(cps[..n], now);
      if Left(cps[n], now) > rest then Left(cps[n], now) else rest
  }

  lemma {:induction false} WaitIsRecent(cps: seq<Checkpoint>, now: int)
    ensures Wait(cps, now) > 0 <==> CompletedRecently(cps, now)
  {
    if cps != [] {
      var n := |cps| - 1;
      var init := cps[..n];
      WaitIsRecent(init, now);
      assert Left(cps[n], now) > 0 <==> Successful(cps[n]) && Recent(cps[n], now);
      assert forall cp :: cp in cps <==> cp in init || cp == cps[n];
    }
  }

  lemma {:induction false} WaitPasses(cps: seq<Checkpoint>, now: int, later: int)
    requires later >= now + Wait(cps, now)
    ensures Wait(cps, later) == 0
  {
    if cps != [] { WaitPasses(cps[..|cps| - 1], now, later); }
  }

  ghost predicate OwnThroughout(r: nat -> State, n: nat, i: nat, o: string)
  {
    forall k: nat :: OwnOnly(r(k), n, i, o)
  }

  /** One round after which nothing has changed but counters, the clock and, perhaps, the checkpoint. */
  lemma OwnThroughoutRound(r: nat -> State, n: nat, i: nat, o: string, k: nat)
    requires RecoveryRun(r, Loss(n, {i}, {o})) && OwnThroughout(r, n, i, o)
    ensures HasPending(r(k).checkpoints) || AlreadyHandled(r(k))
    ensures HasRestored(r(k + 1).jobs) <==> HasRestored(r(k).jobs)
    ensures |r(k + 1).checkpoints| == |r(k).checkpoints|
    ensures forall c :: 0 <= c < |r(k).checkpoints| ==> Completes(r(k).checkpoints[c], r(k + 1).checkpoints[c])
    ensures !HasPending(r(k).checkpoints) ==> r(k + 1).checkpoints == r(k).checkpoints
    ensures r(k).clock < r(k + 1).clock
  {
    hide OwnOnly, PodsOk, Completes, Round, Recovering;
    assert OwnOnly(r(k), n, i, o) && OwnOnly(r(k + 1), n, i, o) && Round(r(k), r(k + 1), {o});
    if !(HasPending(r(k).checkpoints) || AlreadyHandled(r(k))) {
      OwnBusyRound(r(k), n, i, o, r(k + 1));
    }
    OwnIsIdle(r(k), n, i, o);
    OwnIdleRound(r(k), n, i, o, r(k + 1));
    OwnClock(r(k), n, i, o, r(k + 1));
  }

  lemma OwnClock(s: State, n: nat, i: nat, o: string, m: State)
    requires OwnOnly(s, n, i, o) && PodsOk(s, Loss(n, {i}, {o})) && Round(s, m, {o})
    ensures s.clock < m.clock
  {
    hide Base, PodsOk, Pass, AfterPreemption, Went, AllNewOk, OthersKept, HasLive;
    var l := Loss(n, {i}, {o});
    RoundGoes(s, l, m);
    SpecNext(s, l, AfterPreemption(s), Pass(s, {}, {}), m);
  }

  lemma {:induction false} OwnThroughoutFrom(r: nat -> State, n: nat, i: nat, o: string, j: nat, k: nat)
    requires RecoveryRun(r, Loss(n, {i}, {o})) && OwnThroughout(r, n, i, o) && j <= k
    ensures |r(k).checkpoints| == |r(j).checkpoints| && (HasRestored(r(k).jobs) <==> HasRestored(r(j).jobs))
    ensures forall c :: 0 <= c < |r(j).checkpoints| ==> (Live(r(j).checkpoints[c]) ==> Live(r(k).checkpoints[c]))
    ensures !HasPending(r(j).checkpoints) ==> r(k).checkpoints == r(j).checkpoints
    ensures r(k).clock >= r(j).clock + (k - j)
  {
    hide OwnThroughout, RecoveryRun, AlreadyHandled;
    if j < k {
      OwnThroughoutFrom(r, n, i, o, j, k - 1);
      OwnThroughoutRound(r, n, i, o, k - 1);
      assert forall c :: 0 <= c < |r(k - 1).checkpoints| ==> Completes(r(k - 1).checkpoints[c], r(k).checkpoints[c]);
    }
  }

  lemma OwnEnds(r: nat -> State, n: nat, i: nat, o: string) returns (e: nat)
    requires RecoveryRun(r, Loss(n, {i}, {o})) && Fair(r) && OwnThroughout(r, n, i, o)
    ensures !HasPending(r(e).checkpoints)
  {
    hide RecoveryRun, Base;
    assert OwnOnly(r(0), n, i, o);
    var cp :| cp in r(0).checkpoints && cp.source == Some(o) && Live(cp);
    var c :| 0 <= c < |r(0).checkpoints| && r(0).checkpoints[c] == cp;
    assert EndsLater(r, 0, c);
    e :| e >= 0 && c < |r(e).checkpoints| && !InFlight(r(e).checkpoints[c]);
    OwnThroughoutFrom(r, n, i, o, 0, e);
    assert OwnOnly(r(e), n, i, o);
    OneOwn(r(e), n, i, o, c);
  }

  lemma OneOwn(s: State, n: nat, i: nat, o: string, c: nat)
    requires OwnOnly(s, n, i, o) && c < |s.checkpoints| && Live(s.checkpoints[c]) && !InFlight(s.checkpoints[c])
    ensures !HasPending(s.checkpoints)
  {
    hide FleetBase, CheckpointBase, JobsFit, JobsOk, DeletedOnce, LostNamed;
    assert OneLivePerSource(s.checkpoints) && s.checkpoints[c] in s.checkpoints;
    forall d | 0 <= d < |s.checkpoints| ensures !InFlight(s.checkpoints[d]) {
      assert s.checkpoints[d] in s.checkpoints;
    }
  }

  lemma WaitingEnds(r: nat -> State, n: nat, i: nat, o: string)
    requires RecoveryRun(r, Loss(n, {i}, {o})) && Fair(r) && OwnOnly(r(0), n, i, o) && !HasRestored(r(0).jobs)
    ensures exists k: nat :: !OwnOnly(r(k), n, i, o)
  {
    hide OwnOnly, RecoveryRun, HasRestored, CompletedRecently, Wait;
    if OwnThroughout(r, n, i, o) {
      var e := OwnEnds(r, n, i, o);
      var cps := r(e).checkpoints;
      var k := e + Wait(cps, r(e).clock);
      OwnThroughoutFrom(r, n, i, o, 0, k);
      OwnThroughoutFrom(r, n, i, o, e, k);
      WaitPasses(cps, r(e).clock, r(k).clock);
      WaitIsRecent(cps, r(k).clock);
      OwnThroughoutRound(r, n, i, o, k);
      assert false;
    }
  }

  // ---------- The exact condition ----------

  lemma OwnAtOnce(s: State, n: nat, i: nat, o: string)
    requires JustLost(s, n, i, o) && !s.jobs[o].annotated
    requires HasLive(s.checkpoints, o) && forall cp :: cp in s.checkpoints && Live(cp) ==> cp.source == Some(o)
    ensures OwnOnly(s, n, i, o)
  {
    hide Base, Taken;
  }

  lemma UnblockedRecovers(r: nat -> State, n: nat, i: nat, o: string)
    requires RecoveryRun(r, Loss(n, {i}, {o})) && Fair(r) && JustLost(r(0), n, i, o)
    requires !r(0).jobs[o].annotated && !Blocked(r(0), o)
    ensures exists k: nat :: RestoredSince(r(0), r(k), i)
  {
    hide Base, RecoveryRun, Fair, Recovering, RestoredSince, Taken, OwnOnly, HasRestored, Live, OneJobPerIndex;
    var s := r(0);
    if (exists cp :: cp in s.checkpoints && Live(cp) && cp.source != Some(o))
      || (forall cp :: cp in s.checkpoints ==> !Live(cp)) {
      StartsRecovering(s, n, i, o);
      RecoversFrom(r, n, i, o, 0);
    } else {
      OwnAtOnce(s, n, i, o);
      WaitingEnds(r, n, i, o);
      var k: nat :| !OwnOnly(r(k), n, i, o);
      LeavesBefore(r, n, i, o, k);
      var j: nat :| Leaves(r, n, i, o, j);
      LeavingRecovers(r, n, i, o, j);
    }
  }

  /** A restored Job is never recovered again: it keeps its index, and no other Job gets it. */
  lemma {:induction false} RestoredKept(r: nat -> State, n: nat, i: nat, o: string, k: nat)
    requires RecoveryRun(r, Loss(n, {i}, {o})) && JustLost(r(0), n, i, o) && r(0).jobs[o].annotated
    ensures Base(r(k), Loss(n, {i}, {o})) && o in r(k).jobs && r(k).jobs[o].annotated
    ensures forall q :: AtLost(r(k), Loss(n, {i}, {o}), q) <==> q == o
  {
    hide Base, Round, PodsOk, Pass, AfterPreemption, Taken, Went, Advances, AllNewOk, OthersKept, Counts, NewcomerOk,
      JobOutcome, OneJobPerIndex;
    var l := Loss(n, {i}, {o});
    if k == 0 {
      assert forall q :: AtLost(r(0), l, q) <==> q == o by { OnlyOne(r(0), n, i, o); }
    } else {
      RestoredKept(r, n, i, o, k - 1);
      assert Round(r(k - 1), r(k - 1 + 1), l.jobs);
      var t, p := AfterPreemption(r(k - 1)), Pass(r(k - 1), {}, {});
      RoundGoes(r(k - 1), l, r(k));
      AnnotatedNext(r(k - 1), l, t, p, r(k), o);
      forall q | AtLost(r(k), l, q) ensures q == o {
        LostJobsNext(r(k - 1), l, t, p, r(k), q);
        if q !in t.jobs { NewcomersAtLost(r(k - 1), l, t, p, q); }
      }
    }
  }

  lemma OnlyOne(s: State, n: nat, i: nat, o: string)
    requires JustLost(s, n, i, o)
    ensures forall q :: AtLost(s, Loss(n, {i}, {o}), q) <==> q == o
  {
    hide Base, Taken;
  }

  lemma AnnotatedNext(s: State, l: Loss, t: State, p: State, m: State, o: string)
    requires Goes(s, l, t, p, m) && AtLost(s, l, o) && s.jobs[o].annotated
    ensures o in t.jobs && t.jobs[o] == s.jobs[o] && Counts(t.jobs[o])
    ensures AtLost(m, l, o) && m.jobs[o].annotated
  {
    hide Base, Pass, AfterPreemption, AllNewOk, OthersKept, FleetGrown, NewcomerOk, Comes, Completes, JobsFit,
      JobsInv, RestoredBy, HasApplicable, FirstUsable;
    assert JobOutcome(s, l, t, o);
    assert p.jobs[o] == s.jobs[o] && Acknowledged(l.jobs, o, p.jobs[o], m.jobs[o]);
  }

  /**
    Exactly when a single loss is recovered in a fair run: the lost Job has not been restored before, and
    unless the live checkpoints are all its own and something has been restored already, that is enough;
    otherwise it must be found stopped, active and succeeded both zero, by a pass after its replacement has
    joined. A fresh Job then takes its place, and to that one its checkpoint applies.
  */
  lemma RecoversIff(r: nat -> State, n: nat, i: nat, o: string)
    requires RecoveryRun(r, Loss(n, {i}, {o})) && Fair(r) && JustLost(r(0), n, i, o)
    ensures (exists k: nat :: RestoredSince(r(0), r(k), i))
      <==> !r(0).jobs[o].annotated && (!Blocked(r(0), o) || exists k: nat :: Stopped(r(k), i, o))
  {
    hide Base, RecoveryRun, Fair, Recovering, RestoredSince, Taken, OwnOnly, HasRestored, Live, Stopped,
      OneJobPerIndex, HasLive;
    if r(0).jobs[o].annotated {
      forall k: nat ensures !RestoredSince(r(0), r(k), i) {
        RestoredKept(r, n, i, o, k);
        NothingNew(r(0), r(k), n, i, o);
      }
    } else if !Blocked(r(0), o) {
      UnblockedRecovers(r, n, i, o);
    } else {
      OwnAtOnce(r(0), n, i, o);
      if k: nat :| Stopped(r(k), i, o) {
        StoppedLeaves(r, n, i, o, k);
        var j: nat :| Leaves(r, n, i, o, j);
        LeavingRecovers(r, n, i, o, j);
      } else {
        forall k: nat ensures !RestoredSince(r(0), r(k), i) {
          BlockedStays(r, n, i, o, k);
          OwnNotRestored(r(0), r(k), n, i, o);
        }
      }
    }
  }

  lemma NothingNew(s: State, m: State, n: nat, i: nat, o: string)
    requires o in s.jobs && s.jobs[o].annotated && forall q :: AtLost(m, Loss(n, {i}, {o}), q) <==> q == o
    ensures !RestoredSince(s, m, i)
  {
    assert forall q :: q in m.jobs && m.jobs[q].index == Some(i) ==> AtLost(m, Loss(n, {i}, {o}), q);
  }
}
