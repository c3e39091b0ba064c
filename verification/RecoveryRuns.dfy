/** Recovery converges: in every fair run all lost replicas are restored in the end, and passes come to rest. */
module RecoveryRuns {
  import opened Names
  import opened Objects
  import opened Checkpoints
  import opened Restore
  import opened InstanceAllocation
  import opened JobFilling
  import opened Controller
  import opened RestoreSafety
  import opened Invariants
  import opened JobInvariants
  import opened Rounds
  import opened LostReplicas
  import opened Recovery
  import opened Distance
  import opened Liveness

  // ---------- One round ----------

  /** One round in full: `t` after preemption handling, `p` after the pass, `m` at the next one. */
  ghost predicate Goes(s: State, l: Loss, t: State, p: State, m: State)
  {
    && Base(s, l) && t == AfterPreemption(s) && Drifts(p, m, l.jobs)
    && AllNewOk(s, l, t) && Base(m, l) && OthersKept(s, l, m) && Went(s, l, t, p)
  }

  lemma RoughRoundGoes(s: State, l: Loss, noJob: set<nat>, m: State)
    requires Base(s, l) && PodsOk(s, l) && Drifts(Pass(s, {}, noJob), m, l.jobs)
    ensures Goes(s, l, AfterPreemption(s), Pass(s, {}, noJob), m)
  {
    hide Base, AfterPreemption, Pass, Went, OthersKept, AllNewOk, Drifts, PodsOk;
    PhaseCheckpoints(s, l);
    PassWent(s, l, noJob);
    RoundKeepsOthers(s, l, noJob, m);
    BaseNext(s, l, noJob, m);
  }

  lemma RoundGoes(s: State, l: Loss, m: State)
    requires Base(s, l) && PodsOk(s, l) && Round(s, m, l.jobs)
    ensures Goes(s, l, AfterPreemption(s), Pass(s, {}, {}), m) && Advances(Pass(s, {}, {}), m, l.jobs)
  {
    hide Base, AfterPreemption, Pass, Goes, PodsOk, Drifts;
    RoughRoundGoes(s, l, {}, m);
  }

  /** Checkpoints are only added, and one that has ended stays. */
  lemma CheckpointsStay(s: State, l: Loss, t: State, p: State, m: State)
    requires Goes(s, l, t, p, m)
    ensures |s.checkpoints| <= |t.checkpoints| == |m.checkpoints| && p.checkpoints == t.checkpoints
    ensures forall c :: 0 <= c < |s.checkpoints| ==> t.checkpoints[c] == s.checkpoints[c]
    ensures forall c :: 0 <= c < |t.checkpoints| ==> Ends(t.checkpoints[c], m.checkpoints[c])
    ensures forall cp :: cp in s.checkpoints && Successful(cp) ==> cp in m.checkpoints
  {
    hide Base, AfterPreemption, JobOutcome, Grown, Comes, OthersKept, JobsFit, JobsInv, Acknowledged, AllNewOk;
    PassPrefix(s, l, t, p);
    assert forall c :: 0 <= c < |t.checkpoints| ==> Ends(t.checkpoints[c], m.checkpoints[c]);
    forall cp | cp in s.checkpoints && Successful(cp) ensures cp in m.checkpoints {
      var c :| 0 <= c < |s.checkpoints| && s.checkpoints[c] == cp;
      assert Ends(t.checkpoints[c], m.checkpoints[c]);
      assert m.checkpoints[c] in m.checkpoints;
    }
  }

  lemma CheckpointsLater(s: State, l: Loss, t: State, p: State, m: State)
    requires Goes(s, l, t, p, m) && Advances(p, m, l.jobs)
    ensures |s.checkpoints| <= |t.checkpoints| == |m.checkpoints| && p.checkpoints == t.checkpoints
    ensures forall c :: 0 <= c < |s.checkpoints| ==> t.checkpoints[c] == s.checkpoints[c]
    ensures forall c :: 0 <= c < |t.checkpoints| ==> Completes(t.checkpoints[c], m.checkpoints[c])
  {
    hide Goes, Drifts, Completes;
    CheckpointsStay(s, l, t, p, m);
  }

  /** A Job at a lost index after the round was there before, or is new. */
  lemma LostJobsNext(s: State, l: Loss, t: State, p: State, m: State, o: string)
    requires Goes(s, l, t, p, m) && AtLost(m, l, o)
    ensures o in p.jobs && Acknowledged(l.jobs, o, p.jobs[o], m.jobs[o]) && AtLost(p, l, o)
    ensures o in t.jobs ==> AtLost(s, l, o) && p.jobs[o] == t.jobs[o] && JobOutcome(s, l, t, o)
    ensures o !in t.jobs ==> !HasPending(t.checkpoints) && NewcomerOk(t, p, o, l.n) && o !in l.jobs
  {
    hide Base, AfterPreemption, Pass, FleetGrown, Comes, Completes, OthersKept, JobsFit, JobsInv, NewcomerOk,
      RestoredBy, FirstUsable, HasApplicable, Counts, AllNewOk;
    assert Acknowledged(l.jobs, o, p.jobs[o], m.jobs[o]);
    if o in t.jobs {
      assert JobOutcome(s, l, t, o);
      OutcomeKeepsIndex(s, l, t, o);
    } else {
      NewcomersAtLost(s, l, t, p, o);
    }
  }

  /** A new Job's name has never been the source of a checkpoint. */
  lemma SourceNotNew(s: State, l: Loss, t: State, p: State, cp: Checkpoint)
    requires Base(s, l) && s.clock <= t.clock && t.spec == s.spec && cp in s.checkpoints
    ensures cp.source.Some? && forall o :: o in p.jobs && NewcomerOk(t, p, o, l.n) ==> o != cp.source.value
  {
    hide FleetBase, JobBase, JobName, CheckpointName, FreshJob, Ready, TakenByJobs;
    var c :| 0 <= c < |s.checkpoints| && s.checkpoints[c] == cp;
    assert CheckpointOk(s.checkpoints[c], s.spec, s.clock);
    var i: nat, u: nat :| u < s.clock && cp.source.value == JobName(s.spec.name, i, u);
    forall o | o in p.jobs && NewcomerOk(t, p, o, l.n) ensures o != cp.source.value {
      if o == cp.source.value {
        JobNameInjective(s.spec.name, i, u, p.jobs[o].index.value, t.clock);
      }
    }
  }

  lemma SavedStays(s: State, l: Loss, t: State, p: State, m: State)
    requires Goes(s, l, t, p, m) && Advances(p, m, l.jobs) && Saved(s, l)
    ensures Saved(m, l)
  {
    hide Base, AfterPreemption, Pass, JobOutcome, JobsFit, JobsInv, NewcomerOk, FleetGrown, Advances, OthersKept,
      AllNewOk;
    var cp :| cp in s.checkpoints && Helpful(s, l, cp);
    var c :| 0 <= c < |s.checkpoints| && s.checkpoints[c] == cp;
    CheckpointsLater(s, l, t, p, m);
    assert Completes(t.checkpoints[c], m.checkpoints[c]);
    SourceNotNew(s, l, t, p, cp);
    PassPrefix(s, l, t, p);
    var o := cp.source.value;
    forall q | AtLost(m, l, q) ensures q != o {
      LostJobsNext(s, l, t, p, m, q);
    }
    assert Helpful(m, l, m.checkpoints[c]) && m.checkpoints[c] in m.checkpoints;
  }

  /** Where nothing is saved yet the pass starts a checkpoint, of a Job that is not lost. */
  lemma UnsavedStarts(s: State, l: Loss)
    requires Base(s, l) && PodsOk(s, l) && Unsaved(s, l)
    ensures !HasPending(s.checkpoints) && HasPending(AfterPreemption(s).checkpoints)
  {
    hide Base, AfterPreemption, PodsOk, HasRestored;
    assert forall cp :: cp in s.checkpoints ==> !Applicable(cp, "") && !Live(cp);
    assert NothingApplies(s, l);
    assert !HasCompleted(s.checkpoints);
    forall o ensures !HasLive(s.checkpoints, o) {
    }
    PhaseStarts(s, l);
  }

  lemma UnsavedIsSaved(s: State, l: Loss, t: State, p: State, m: State)
    requires Goes(s, l, t, p, m) && Advances(p, m, l.jobs) && PodsOk(s, l) && Unsaved(s, l)
    ensures Saved(m, l)
  {
    hide Base, AfterPreemption, Pass, JobOutcome, JobsFit, JobsInv, NewcomerOk, FleetGrown, Advances, OthersKept,
      PodsOk, CheckpointName, HasLive;
    UnsavedStarts(s, l);
    CheckpointsLater(s, l, t, p, m);
    assert t.checkpoints != s.checkpoints;
    assert |t.checkpoints| > |s.checkpoints|;
    var c := |s.checkpoints|;
    assert NewOk(s, l, t.checkpoints[c], t.clock) && Completes(t.checkpoints[c], m.checkpoints[c]);
    NewSourceStays(s, l, t, p, m, t.checkpoints[c].source.value);
    assert m.checkpoints[c] in m.checkpoints;
  }

  lemma NewSourceStays(s: State, l: Loss, t: State, p: State, m: State, o: string)
    requires Goes(s, l, t, p, m) && o in s.jobs && !AtLost(s, l, o)
    ensures !AtLost(m, l, o)
  {
    hide Base, AfterPreemption, Pass, Went, Drifts, AllNewOk;
  }

  lemma RestoredNext(s: State, l: Loss, t: State, p: State, m: State, o: string)
    requires Goes(s, l, t, p, m) && Plain(s, l) && RestoredOk(s, l) && AtLost(m, l, o)
    ensures m.jobs[o].annotated ==> Healed(m, o)
    ensures !m.jobs[o].annotated ==> m.jobs[o].containers == m.spec.containers
  {
    hide Base, AfterPreemption, Pass, FleetGrown, Comes, Completes, OthersKept, JobsFit, JobsInv, NewcomerOk,
      RestoredBy, FirstUsable, HasApplicable, Counts, AllNewOk, Healed, Grown;
    LostJobsNext(s, l, t, p, m, o);
    PassPrefix(s, l, t, p);
    if o in t.jobs {
      OutcomeKeepsIndex(s, l, t, o);
      if t.jobs[o] == s.jobs[o] {
        if s.jobs[o].annotated { StillHealed(s, l, t, p, m, o); }
      } else {
        HealedAfter(s, l, t, p, m, o);
      }
    } else {
      PlainNewcomer(t, p, m, l, o);
    }
  }

  lemma PlainNewcomer(t: State, p: State, m: State, l: Loss, o: string)
    requires o in p.jobs && o in m.jobs && NewcomerOk(t, p, o, l.n) && Acknowledged(l.jobs, o, p.jobs[o], m.jobs[o])
    ensures !m.jobs[o].annotated && m.jobs[o].containers == t.spec.containers
  {
    hide JobName, Ready, TakenByJobs, PinnedNode, ReplicaLabels;
  }

  lemma InstanceNext(s: State, l: Loss, t: State, p: State, m: State, k: nat)
    requires Goes(s, l, t, p, m) && k < |s.pis| && !s.pis[k].notice && s.pis[k].joined
    ensures k < |m.pis| && m.pis[k].index == s.pis[k].index && !m.pis[k].notice && m.pis[k].joined
      && m.pis[k].state == Running && m.pis[k].nodeName == s.pis[k].nodeName != ""
  {
    hide Base, AfterPreemption, Pass, Went, OthersKept, AllNewOk, Completes, Acknowledged;
    PassPrefix(s, l, t, p);
    assert Comes(p.pis[k], m.pis[k]);
  }

  lemma StillHealed(s: State, l: Loss, t: State, p: State, m: State, o: string)
    requires Goes(s, l, t, p, m) && Healed(s, o) && o in m.jobs && Evolves(s.jobs[o], m.jobs[o])
    ensures Healed(m, o)
  {
    hide Base, AfterPreemption, Pass, Went, OthersKept, AllNewOk, Advances, ImageMap;
    var k :| OnInstance(s, k, s.jobs[o]);
    var cp :| RunsImages(s, o, cp);
    InstanceNext(s, l, t, p, m, k);
    CheckpointsStay(s, l, t, p, m);
    assert m.spec == s.spec by { SpecNext(s, l, t, p, m); }
    assert OnInstance(m, k, m.jobs[o]) && RunsImages(m, o, cp);
  }

  lemma SpecNext(s: State, l: Loss, t: State, p: State, m: State)
    requires Goes(s, l, t, p, m)
    ensures m.spec == s.spec && s.clock < m.clock
  {
    hide Base, AfterPreemption, Pass, Went, OthersKept, AllNewOk, Completes, Acknowledged, Comes;
    PassPrefix(s, l, t, p);
  }

  lemma HealedAfter(s: State, l: Loss, t: State, p: State, m: State, o: string)
    requires Goes(s, l, t, p, m) && o in s.jobs && o in t.jobs && o in m.jobs && t.jobs[o] != s.jobs[o]
    requires JobOutcome(s, l, t, o)
    requires s.jobs[o].containers == s.spec.containers && Evolves(t.jobs[o], m.jobs[o])
    ensures Healed(m, o)
  {
    hide Goes, RestoredBy, FirstUsable, HasApplicable, OnInstance, RunsImages;
    assert RestoredBy(s, o, s.jobs[o], t.jobs[o]);
    var cp, pi := RestoredFromBy(s, o, s.jobs[o], t.jobs[o]);
    IndexThere(s, l, t, p, m, o);
    HealedPlace(s, l, t, p, m, o, pi);
    HealedImages(s, l, t, p, m, o, cp);
    RestoredIsAnnotated(s, o, s.jobs[o], t.jobs[o]);
  }

  lemma RestoredFromBy(s: State, n: string, before: Job, after: Job) returns (cp: Checkpoint, pi: Instance)
    requires RestoredBy(s, n, before, after)
    ensures cp in s.checkpoints && Applicable(cp, n) && pi in s.pis && Usable(pi, IndexOrZero(before))
    ensures after.index == Some(IndexOrZero(before)) && after.node == pi.nodeName
    ensures after.containers == WithImages(before.containers, ImageMap(s.spec.imageRepo, Images(cp)))
  {
    hide ImageMap, ReplicaLabels, Images;
    cp, pi :| FirstApplicable(s.checkpoints, n) == Some(cp) && FirstUsable(s.pis, IndexOrZero(before)) == Some(pi)
      && after == RestoredJob(s.spec, before, Images(cp), pi.nodeName);
  }

  lemma HealedPlace(s: State, l: Loss, t: State, p: State, m: State, o: string, pi: Instance)
    requires Goes(s, l, t, p, m) && o in s.jobs && s.jobs[o].index.Some? && o in m.jobs
    requires pi in s.pis && Usable(pi, s.jobs[o].index.value)
    requires m.jobs[o].index == s.jobs[o].index && m.jobs[o].node == pi.nodeName
    ensures exists k :: OnInstance(m, k, m.jobs[o])
  {
    hide Goes;
    var k :| 0 <= k < |s.pis| && s.pis[k] == pi;
    InstanceNext(s, l, t, p, m, k);
    assert OnInstance(m, k, m.jobs[o]);
  }

  lemma HealedImages(s: State, l: Loss, t: State, p: State, m: State, o: string, cp: Checkpoint)
    requires Goes(s, l, t, p, m) && o in m.jobs && cp in s.checkpoints && Applicable(cp, o)
    requires m.jobs[o].containers == WithImages(s.spec.containers, ImageMap(s.spec.imageRepo, Images(cp)))
    ensures exists c :: RunsImages(m, o, c)
  {
    hide Goes, ImageMap, Images;
    SpecNext(s, l, t, p, m);
    CheckpointsStay(s, l, t, p, m);
    assert RunsImages(m, o, cp);
  }

  lemma IndexThere(s: State, l: Loss, t: State, p: State, m: State, o: string)
    requires Goes(s, l, t, p, m) && o in s.jobs
    ensures s.jobs[o].index.Some?
  {
    hide AfterPreemption, FleetBase, CheckpointBase, JobsInv, Went, Drifts, OthersKept, AllNewOk, LostNamed;
    assert JobFits(s.jobs[o], l.n);
  }

  lemma RecoveringNext(s: State, l: Loss, m: State)
    requires Recovering(s, l) && PodsOk(s, l) && Round(s, m, l.jobs)
    ensures Recovering(m, l)
  {
    hide Base, AfterPreemption, Pass, Went, OthersKept, AllNewOk, Advances, PodsOk, Saved, Unsaved, Healed;
    var t, p := AfterPreemption(s), Pass(s, {}, {});
    RoundGoes(s, l, m);
    forall o | AtLost(m, l, o)
      ensures m.jobs[o].annotated ==> Healed(m, o)
      ensures !m.jobs[o].annotated ==> m.jobs[o].containers == m.spec.containers
    {
      RestoredNext(s, l, t, p, m, o);
    }
    if Saved(s, l) { SavedStays(s, l, t, p, m); } else { UnsavedIsSaved(s, l, t, p, m); }
  }

  // ---------- Every round comes closer or rests ----------

  ghost predicate CompletesAt(p: State, m: State, c: nat)
  {
    && c < |p.checkpoints| && InFlight(p.checkpoints[c])
    && c < |m.checkpoints| && !InFlight(m.checkpoints[c])
  }

  /** The pass does something, or afterwards a checkpoint completes or a lost index gets a usable instance. */
  ghost predicate Effective(s: State, l: Loss, m: State)
  {
    var p := Pass(s, {}, {});
    || p != s
    || (exists c: nat :: CompletesAt(p, m, c))
    || (exists i: nat :: i in l.indices && FirstUsable(p.pis, i).None? && FirstUsable(m.pis, i).Some?)
  }

  lemma PassCloser(s: State, l: Loss)
    requires Recovering(s, l) && PodsOk(s, l)
    ensures var p := Pass(s, {}, {});
      DistanceOf(p, l) <= DistanceOf(s, l) && (p != s ==> DistanceOf(p, l) < DistanceOf(s, l))
  {
    hide Base, AfterPreemption, Pass, PodsOk, Saved, DistanceOf, Handled, Plain, RestoredOk;
    var t, p := AfterPreemption(s), Pass(s, {}, {});
    PhaseCloser(s, l);
    PassWent(s, l, {});
    if HasPending(s.checkpoints) {
      PendingFreezes(s, {}, {});
    } else if Saved(s, l) {
      if !HasPending(t.checkpoints) { CreationCloser(s, l, t, p); }
    } else {
      UnsavedStarts(s, l);
    }
  }

  lemma PassFleet(s: State, l: Loss)
    requires Base(s, l)
    ensures FleetOk(Pass(s, {}, {}).pis, l.n) && JobsInv(Pass(s, {}, {}))
  {
    hide AfterPreemption, Pass, JobBase, CheckpointBase, NamesOk, JobOutcome, JobsInv, NewcomerOk, Staffed, MemberOk,
      JobsFit;
    PassWent(s, l, {});
    PassPrefix(s, l, AfterPreemption(s), Pass(s, {}, {}));
  }

  /** No round takes a recovery further away, and every effective round brings it closer. */
  lemma RoundProgress(s: State, l: Loss, m: State)
    requires Recovering(s, l) && PodsOk(s, l) && Round(s, m, l.jobs)
    ensures Recovering(m, l)
    ensures DistanceOf(m, l) <= DistanceOf(s, l)
    ensures Effective(s, l, m) ==> DistanceOf(m, l) < DistanceOf(s, l)
  {
    hide Base, Pass, PodsOk, Saved, Unsaved, DistanceOf, Plain, RestoredOk, FirstUsable, FleetOk, JobsInv, Within;
    var p := Pass(s, {}, {});
    RecoveringNext(s, l, m);
    PassCloser(s, l);
    PassFleet(s, l);
    EnvironmentWithin(p, m, l);
    WithinIsCloser(p, m, l);
    BaseJobs(m, l);
    if c: nat :| CompletesAt(p, m, c) {
      CompletionCloser(p, m, l, c);
    }
    if i: nat :| i in l.indices && FirstUsable(p.pis, i).None? && FirstUsable(m.pis, i).Some? {
      JoinCloser(p, m, l, i);
    }
  }

  lemma BaseJobs(s: State, l: Loss)
    requires Base(s, l)
    ensures JobsInv(s)
  {
  }

  // ---------- Where it ends ----------

  /** Every lost index has a restored Job on a live instance, and none that is not restored. */
  ghost predicate Recovered(s: State, l: Loss)
  {
    && Base(s, l) && !HasPending(s.checkpoints) && HasCompleted(s.checkpoints) && Down(s, l) == {}
    && Staffed(s.pis, l.n)
    && (forall i {:trigger HasJob(s, i)} :: i in l.indices ==> HasJob(s, i))
    && (forall o :: AtLost(s, l, o) ==> Healed(s, o))
  }

  lemma AllIndicesCounted(s: State, l: Loss)
    requires Base(s, l) && forall i {:trigger HasJob(s, i)} :: i in l.indices ==> HasJob(s, i)
    requires forall o :: AtLost(s, l, o) ==> s.jobs[o].annotated
    ensures TakenByJobs(s.jobs, s.clock) == Range(0, l.n)
  {
    hide FleetBase, CheckpointBase, JobsInv, JobsFit, TakenByJobs, Range, Spent;
    JobsInRange(s.jobs, l.n, s.clock);
    InRange(l.n);
    forall i: nat | i < l.n ensures i in TakenByJobs(s.jobs, s.clock) {
      assert HasJob(s, i);
      var o :| o in s.jobs && s.jobs[o].index == Some(i);
      assert AtLost(s, l, o) || o !in l.jobs;
    }
  }

  lemma RecoveredHandled(s: State, l: Loss)
    requires Recovered(s, l)
    ensures AfterPreemption(s) == s
  {
    hide AfterPreemption, JobBase, CheckpointBase, FleetOk, NamesOk, Staffed, HasCompleted, CompletedRecently,
      FirstUsable, HasPending;
    var i :| i in l.indices;
    assert HasJob(s, i);
    var o :| o in s.jobs && s.jobs[o].index == Some(i);
    assert AtLost(s, l, o) && Healed(s, o);
    assert HasRestored(s.jobs);
    PhaseIdle(s, l);
  }

  /** A recovered cluster is a fixed point of the pass, whatever creations would be refused. */
  lemma RecoveredRests(s: State, l: Loss)
    requires Recovered(s, l)
    ensures AtRest(s)
  {
    hide AfterPreemption, AfterInstances, WithJobs, TakenByJobs, FleetBase, JobBase, CheckpointBase, Staffed, Healed,
      HasPending, Range;
    RecoveredHandled(s, l);
    assert forall o :: AtLost(s, l, o) ==> s.jobs[o].annotated by { HealedAnnotated(s, l); }
    AllIndicesCounted(s, l);
    BaseFits(s, l);
    forall noInstance, noJob ensures Pass(s, noInstance, noJob) == s {
      NothingMissing(s, l.n, noInstance, noJob);
    }
  }

  lemma HealedAnnotated(s: State, l: Loss)
    requires forall o :: AtLost(s, l, o) ==> Healed(s, o)
    ensures forall o :: AtLost(s, l, o) ==> s.jobs[o].annotated
  {
  }

  lemma BaseFits(s: State, l: Loss)
    requires Base(s, l)
    ensures FleetOk(s.pis, l.n) && JobsFit(s.jobs, l.n)
  {
  }

  /** When the pass has nothing to do, nothing is in progress and all instances are usable, the recovery is complete. */
  lemma RestIsRecovered(s: State, l: Loss)
    requires Recovering(s, l) && PodsOk(s, l) && !HasPending(s.checkpoints) && Down(s, l) == {} && Pass(s, {}, {}) == s
    ensures Recovered(s, l)
  {
    hide Base, AfterPreemption, Pass, PodsOk, Handled, FirstUsable, HasPending, Plain, JobsFit, JobsInv, NewcomerOk,
      Healed, HasApplicable, Down;
    var t := AfterPreemption(s);
    PassWent(s, l, {});
    if Unsaved(s, l) { UnsavedStarts(s, l); }
    SavedApplies(s, l);
    AllUsable(s, l);
    PhaseUndone(s, l);
    SameAfterPhase(s, l, t);
    GrownFleetOk(t, s, l.n);
    forall o | AtLost(s, l, o) ensures Healed(s, o) {
      RestoredAlready(s, l, t, o);
    }
    forall i | i in l.indices ensures HasJob(s, i) {
      JobThere(s, l, t, i);
    }
  }

  lemma AllUsable(s: State, l: Loss)
    requires Down(s, l) == {}
    ensures forall i :: i in l.indices ==> FirstUsable(s.pis, i).Some?
  {
    forall i | i in l.indices ensures FirstUsable(s.pis, i).Some? {
      assert i !in Down(s, l);
    }
  }

  /** A pass that changes nothing has not changed anything in between. */
  lemma PhaseUndone(s: State, l: Loss)
    requires Recovering(s, l) && PodsOk(s, l) && Pass(s, {}, {}) == s
    ensures AfterPreemption(s) == s
  {
    hide Base, AfterPreemption, PodsOk, Saved, DistanceOf, Handled, Plain, RestoredOk, Pass;
    var t := AfterPreemption(s);
    PhaseCloser(s, l);
    PassWent(s, l, {});
    if !HasPending(s.checkpoints) {
      if Saved(s, l) {
        if !HasPending(t.checkpoints) { CreationCloser(s, l, t, s); }
      } else {
        UnsavedStarts(s, l);
      }
    }
  }

  lemma SameAfterPhase(s: State, l: Loss, t: State)
    requires Went(s, l, t, s) && t == s && !HasPending(s.checkpoints)
    ensures Grown(s, s, l.n)
  {
  }

  lemma RestoredAlready(s: State, l: Loss, t: State, o: string)
    requires Base(s, l) && RestoredOk(s, l) && Went(s, l, t, s) && t == s && !HasPending(s.checkpoints)
    requires AtLost(s, l, o) && HasApplicable(s, o) && FirstUsable(s.pis, s.jobs[o].index.value).Some?
    ensures Healed(s, o)
  {
    hide Base, HasApplicable, FirstUsable, Healed, Grown, JobsFit, JobsInv, HasPending;
    assert JobOutcome(s, l, t, o);
    if !s.jobs[o].annotated { RestoredIsAnnotated(s, o, s.jobs[o], t.jobs[o]); }
  }

  lemma JobThere(s: State, l: Loss, t: State, i: nat)
    requires Base(s, l) && Grown(s, s, l.n) && FillsReady(s, s, l.n) && i in l.indices && FirstUsable(s.pis, i).Some?
    ensures HasJob(s, i)
  {
    hide JobBase, CheckpointBase, NamesOk, FirstUsable, Ready, NewcomerOk, TakenByJobs, FleetGrown;
    LostBelow(s, l);
    ReadyIsUsable(s.pis, l.n);
    if i in TakenByJobs(s.jobs, s.clock) {
      BaseFits(s, l);
      JobsInRange(s.jobs, l.n, s.clock);
    }
  }

  // ---------- Runs ----------

  /** Rounds of a recovery, one after the other; nothing is assumed about how fast the environment is. */
  ghost predicate RecoveryRun(r: nat -> State, l: Loss)
  {
    && (forall k: nat :: PodsOk(r(k), l))
    && (forall k: nat :: Round(r(k), r(k + 1), l.jobs))
  }

  ghost predicate Fair(r: nat -> State)
  {
    AllJoin(r) && AllEnd(r)
  }

  lemma {:induction false} RecoveringThroughout(r: nat -> State, l: Loss, k: nat)
    requires RecoveryRun(r, l) && Recovering(r(0), l)
    ensures Recovering(r(k), l)
  {
    hide Recovering, Round, PodsOk;
    if k > 0 {
      RecoveringThroughout(r, l, k - 1);
      assert Round(r(k - 1), r(k - 1 + 1), l.jobs);
      RoundProgress(r(k - 1), l, r(k));
    }
  }

  ghost function EffectiveRounds(r: nat -> State, l: Loss, k: nat): nat
  {
    if k == 0 then 0 else EffectiveRounds(r, l, k - 1) + if Effective(r(k - 1), l, r(k)) then 1 else 0
  }

  /** However a run goes, it has no more effective rounds than the distance at its start says. */
  lemma {:induction false} EffectiveRoundsBounded(r: nat -> State, l: Loss, k: nat)
    requires RecoveryRun(r, l) && Recovering(r(0), l)
    ensures EffectiveRounds(r, l, k) + DistanceOf(r(k), l) <= DistanceOf(r(0), l)
  {
    hide Recovering, Round, PodsOk, Effective, DistanceOf;
    if k > 0 {
      EffectiveRoundsBounded(r, l, k - 1);
      RecoveringThroughout(r, l, k - 1);
      assert Round(r(k - 1), r(k - 1 + 1), l.jobs);
      RoundProgress(r(k - 1), l, r(k));
    }
  }

  /** During the whole recovery the Jobs of all other replicas are neither deleted nor altered. */
  lemma {:induction false} OthersUntouched(r: nat -> State, l: Loss, k: nat, o: string)
    requires RecoveryRun(r, l) && Base(r(0), l) && o in r(0).jobs && !AtLost(r(0), l, o)
    ensures Base(r(k), l) && o in r(k).jobs && !AtLost(r(k), l, o) && r(k).deletes[o] == r(0).deletes[o]
    ensures Evolves(r(0).jobs[o], r(k).jobs[o])
  {
    hide Base, Round, PodsOk, Counts, Pass, AfterPreemption, Went, AllNewOk, Advances;
    if k > 0 {
      OthersUntouched(r, l, k - 1, o);
      assert Round(r(k - 1), r(k - 1 + 1), l.jobs);
      RoundGoes(r(k - 1), l, r(k));
    }
  }

  // ---------- Convergence ----------

  ghost function Distances(r: nat -> State, l: Loss): (f: nat -> nat)
    ensures forall k: nat :: f(k) == DistanceOf(r(k), l)
  {
    (k: nat) => DistanceOf(r(k), l)
  }

  ghost predicate SameParts(a: State, b: State, l: Loss)
  {
    Down(b, l) == Down(a, l) && BeingSaved(b) == BeingSaved(a)
  }

  /** While the distance stays the same, passes do nothing and nothing completes or joins. */
  lemma StillRound(s: State, l: Loss, m: State)
    requires Recovering(s, l) && PodsOk(s, l) && Round(s, m, l.jobs) && DistanceOf(m, l) == DistanceOf(s, l)
    ensures Pass(s, {}, {}) == s && Advances(s, m, l.jobs) && SameParts(s, m, l)
  {
    hide Recovering, Pass, PodsOk, DistanceOf, FleetOk, JobsInv, Effective, Down, BeingSaved, Advances;
    RoundProgress(s, l, m);
    NotEffective(s, l, m);
    PassFleetOk(s, l);
    EnvironmentWithin(s, m, l);
    WithinIsCloser(s, m, l);
  }

  lemma NotEffective(s: State, l: Loss, m: State)
    requires !Effective(s, l, m)
    ensures Pass(s, {}, {}) == s
  {
    hide Pass, FirstUsable;
  }

  lemma PassFleetOk(s: State, l: Loss)
    requires Recovering(s, l)
    ensures FleetOk(s.pis, l.n)
  {
    hide FleetOk, JobBase, CheckpointBase, Plain, RestoredOk, Saved, Unsaved, NamesOk, FirstUsable, Noticed;
  }

  /** From `start` on the distance stays the same. */
  ghost predicate Still(r: nat -> State, l: Loss, start: nat)
  {
    forall k: nat :: k >= start ==> DistanceOf(r(k), l) == DistanceOf(r(start), l)
  }

  ghost predicate SameFleet(a: State, b: State)
  {
    && |b.pis| == |a.pis| && |b.checkpoints| == |a.checkpoints|
    && (forall k :: 0 <= k < |a.pis| ==> b.pis[k].index == a.pis[k].index && b.pis[k].notice == a.pis[k].notice)
    && (forall c :: 0 <= c < |a.checkpoints| ==> b.checkpoints[c].source == a.checkpoints[c].source)
    && (forall c :: 0 <= c < |a.checkpoints| && Live(a.checkpoints[c]) ==> Live(b.checkpoints[c]))
  }

  lemma {:induction false} StillSame(r: nat -> State, l: Loss, start: nat, k: nat)
    requires RecoveryRun(r, l) && Recovering(r(0), l) && Still(r, l, start) && k >= start
    ensures SameParts(r(start), r(k), l) && SameFleet(r(start), r(k)) && Pass(r(k), {}, {}) == r(k)
  {
    hide Recovering, Round, PodsOk, DistanceOf, Down, BeingSaved, Pass, Advances;
    RecoveringThroughout(r, l, k);
    assert Round(r(k), r(k + 1), l.jobs);
    StillRound(r(k), l, r(k + 1));
    if k > start {
      StillSame(r, l, start, k - 1);
      RecoveringThroughout(r, l, k - 1);
      assert Round(r(k - 1), r(k - 1 + 1), l.jobs);
      StillRound(r(k - 1), l, r(k));
      AdvancesSame(r(k - 1), r(k), l.jobs);
    }
  }

  lemma AdvancesSame(s: State, m: State, lost: set<string>)
    requires Advances(s, m, lost)
    ensures SameFleet(s, m)
  {
    assert forall k :: 0 <= k < |s.pis| ==> Comes(s.pis[k], m.pis[k]);
    assert forall c :: 0 <= c < |s.checkpoints| ==> Completes(s.checkpoints[c], m.checkpoints[c]);
  }

  /** A checkpoint in progress would complete some time and so reduce the distance. */
  lemma NothingPending(r: nat -> State, l: Loss, start: nat, k: nat)
    requires RecoveryRun(r, l) && Recovering(r(0), l) && Still(r, l, start) && k >= start && AllEnd(r)
    ensures !HasPending(r(k).checkpoints)
  {
    hide Recovering, RecoveryRun, DistanceOf, Down, Still, Pass, JobsOk, DeletedOnce;
    forall c: nat | c < |r(k).checkpoints| ensures !InFlight(r(k).checkpoints[c]) {
      assert EndsLater(r, k, c);
      var e: nat :| e >= k && c < |r(e).checkpoints| && !InFlight(r(e).checkpoints[c]);
      StillSame(r, l, start, k);
      StillSame(r, l, start, e);
      StillFrom(r, l, start, k);
      StillSame(r, l, k, e);
      RecoveringThroughout(r, l, e);
      RecoveringThroughout(r, l, k);
      Ended(r(k), r(e), l, c);
    }
  }

  lemma StillFrom(r: nat -> State, l: Loss, start: nat, k: nat)
    requires Still(r, l, start) && k >= start
    ensures Still(r, l, k)
  {
    hide DistanceOf;
  }

  lemma Ended(a: State, b: State, l: Loss, c: nat)
    requires Recovering(a, l) && Recovering(b, l) && BeingSaved(b) == BeingSaved(a) && SameFleet(a, b)
    requires c < |a.checkpoints| && !InFlight(b.checkpoints[c])
    ensures !InFlight(a.checkpoints[c])
  {
    hide FleetBase, JobsFit, JobsOk, DeletedOnce, Plain, RestoredOk, Saved, Unsaved, CheckpointBase;
    var source := a.checkpoints[c].source;
    assert OneLivePerSource(b.checkpoints) && SourcesKnown(a.checkpoints);
    assert Live(a.checkpoints[c]) ==>
      forall d :: 0 <= d < |b.checkpoints| && InFlight(b.checkpoints[d]) ==> b.checkpoints[d].source != source;
    assert Live(a.checkpoints[c]) ==> source.value !in BeingSaved(b);
  }

  /** An instance that has not joined would do so some time and so reduce the distance. */
  lemma NothingDown(r: nat -> State, l: Loss, start: nat, k: nat)
    requires RecoveryRun(r, l) && Recovering(r(0), l) && Still(r, l, start) && k >= start && Fair(r)
    ensures Down(r(k), l) == {}
  {
    hide Recovering, RecoveryRun, DistanceOf, Down, Still, Pass, FirstUsable, AllEnd, BeingSaved;
    RecoveringThroughout(r, l, k);
    StillSame(r, l, start, k);
    NothingPending(r, l, start, k);
    StaffedAtRest(r(k), l);
    StillFrom(r, l, start, k);
    forall i | i in l.indices ensures i !in Down(r(k), l) {
      var j := LiveAtIndex(r(k), l, i);
      assert JoinsLater(r, k, j);
      var e: nat :| e >= k && j < |r(e).pis| && Up(r(e).pis[j]);
      StillSame(r, l, k, e);
      RecoveringThroughout(r, l, e);
      JoinedUsable(r(e), l, i, j);
    }
    DownLost(r(k), l);
  }

  lemma DownLost(s: State, l: Loss)
    ensures Down(s, l) <= l.indices
  {
  }

  lemma StaffedAtRest(s: State, l: Loss)
    requires Recovering(s, l) && !HasPending(s.checkpoints) && Pass(s, {}, {}) == s
    ensures Staffed(s.pis, l.n) && FleetOk(s.pis, l.n)
  {
    hide Base, AfterPreemption, Pass, Plain, RestoredOk, Saved, Unsaved, Handled, JobsFit, JobsInv, NewcomerOk;
    PassWent(s, l, {});
    if !HasPending(AfterPreemption(s).checkpoints) { GrownFleetOk(AfterPreemption(s), s, l.n); }
  }

  lemma LiveAtIndex(s: State, l: Loss, i: nat) returns (j: nat)
    requires Recovering(s, l) && Staffed(s.pis, l.n) && i in l.indices
    ensures j < |s.pis| && !s.pis[j].notice && s.pis[j].index == Some(i)
  {
    hide JobBase, CheckpointBase, NamesOk, FirstUsable, Noticed, Plain, RestoredOk, Saved, Unsaved;
    LostBelow(s, l);
    assert i in Taken(s.pis);
    j :| 0 <= j < |s.pis| && !Preempted(s.pis[j]) && s.pis[j].index.Some? && s.pis[j].index.value == i;
  }

  lemma JoinedUsable(s: State, l: Loss, i: nat, j: nat)
    requires Recovering(s, l) && j < |s.pis| && !s.pis[j].notice && s.pis[j].index == Some(i) && Up(s.pis[j])
    ensures i !in Down(s, l)
  {
    hide JobBase, CheckpointBase, NamesOk, FirstUsable, Noticed, Plain, RestoredOk, Saved, Unsaved, DistinctIndices;
    assert MemberOk(s.pis[j], l.n) && s.pis[j] in s.pis && Usable(s.pis[j], i);
  }

  ghost predicate RecoveredFrom(r: nat -> State, l: Loss, start: nat)
  {
    forall k: nat :: k >= start ==> Recovered(r(k), l) && AtRest(r(k))
  }

  /**
    Recovery converges: in every fair run, from some round on every lost index has a Job restored from another
    Job's checkpoint on a live instance, and passes change nothing any more.
  */
  lemma RecoveryConverges(r: nat -> State, l: Loss)
    requires RecoveryRun(r, l) && Fair(r) && Recovering(r(0), l)
    ensures exists start: nat :: RecoveredFrom(r, l, start)
  {
    hide Recovering, Round, PodsOk, DistanceOf, Down, Distances, Recovered, AtRest, AllJoin, AllEnd;
    var f := Distances(r, l);
    forall k: nat ensures f(k + 1) <= f(k) {
      RecoveringThroughout(r, l, k);
      RoundProgress(r(k), l, r(k + 1));
    }
    var start := ConstantInTheEnd(f, 0);
    forall k: nat | k >= start ensures DistanceOf(r(k), l) == DistanceOf(r(start), l) {
      assert f(k) == f(start);
    }
    forall k: nat | k >= start ensures Recovered(r(k), l) && AtRest(r(k)) {
      RecoveringThroughout(r, l, k);
      StillSame(r, l, start, k);
      NothingPending(r, l, start, k);
      NothingDown(r, l, start, k);
      RestIsRecovered(r(k), l);
      RecoveredRests(r(k), l);
    }
    assert RecoveredFrom(r, l, start);
  }

  // ---------- Despite failures ----------

  /** A completed checkpoint of a Job that is not at a lost index. */
  ghost predicate Kept(s: State, l: Loss)
  {
    exists cp :: cp in s.checkpoints && Helpful(s, l, cp) && Successful(cp)
  }

  /** None has completed yet, those in progress will help, and the lost Jobs are as they were. */
  ghost predicate Hopeful(s: State, l: Loss)
  {
    && (forall cp :: cp in s.checkpoints ==> !Successful(cp))
    && (forall cp :: cp in s.checkpoints && InFlight(cp) ==> Helpful(s, l, cp))
    && (forall o :: AtLost(s, l, o) ==> o in l.jobs && !s.jobs[o].annotated)
  }

  /** A recovery that failing checkpoints cannot stop. */
  ghost predicate Robust(s: State, l: Loss)
  {
    Base(s, l) && Plain(s, l) && RestoredOk(s, l) && (Kept(s, l) || Hopeful(s, l))
  }

  lemma RobustIsRecovering(s: State, l: Loss)
    requires Robust(s, l)
    ensures Recovering(s, l)
  {
    hide Base, Plain, RestoredOk, AtLost;
    if Kept(s, l) {
      var cp :| cp in s.checkpoints && Helpful(s, l, cp) && Successful(cp);
    } else if cp :| cp in s.checkpoints && InFlight(cp) {
      assert Helpful(s, l, cp);
    }
  }

  lemma KeptStays(s: State, l: Loss, t: State, p: State, m: State)
    requires Goes(s, l, t, p, m) && Kept(s, l)
    ensures Kept(m, l)
  {
    hide Base, AfterPreemption, JobOutcome, JobsFit, JobsInv, NewcomerOk, FleetGrown, Drifts, OthersKept, AllNewOk;
    var cp :| cp in s.checkpoints && Helpful(s, l, cp) && Successful(cp);
    CheckpointsStay(s, l, t, p, m);
    SourceNotNew(s, l, t, p, cp);
    PassPrefix(s, l, t, p);
    forall q | AtLost(m, l, q) ensures q != cp.source.value {
      LostJobsNext(s, l, t, p, m, q);
    }
    assert Helpful(m, l, cp) && cp in m.checkpoints;
  }

  /** After the phase a checkpoint is in progress, and all that are will help. */
  lemma HopefulPhase(s: State, l: Loss, t: State)
    requires Base(s, l) && PodsOk(s, l) && Hopeful(s, l) && t == AfterPreemption(s) && AllNewOk(s, l, t)
    requires Handled(s, l, t)
    ensures HasPending(t.checkpoints)
    ensures forall c :: 0 <= c < |t.checkpoints| ==> !Successful(t.checkpoints[c])
    ensures forall c :: 0 <= c < |t.checkpoints| && InFlight(t.checkpoints[c]) ==>
      t.checkpoints[c].source.Some? && !AtLost(s, l, t.checkpoints[c].source.value)
  {
    hide Base, AfterPreemption, PodsOk, JobOutcome, HasLive, CheckpointName;
    if HasPending(s.checkpoints) {
      PendingFreezes(s, {}, {});
      PhaseFrozen(s);
    } else {
      NoneLive(s, l);
      UnsavedStarts(s, l);
    }
    forall c | 0 <= c < |t.checkpoints|
      ensures !Successful(t.checkpoints[c])
      ensures InFlight(t.checkpoints[c]) ==>
        t.checkpoints[c].source.Some? && !AtLost(s, l, t.checkpoints[c].source.value)
    {
      if c < |s.checkpoints| {
        assert s.checkpoints[c] in s.checkpoints;
      } else {
        assert NewOk(s, l, t.checkpoints[c], t.clock);
      }
    }
  }

  lemma PhaseFrozen(s: State)
    requires HasPending(s.checkpoints)
    ensures AfterPreemption(s) == s
  {
  }

  lemma NoneLive(s: State, l: Loss)
    requires Hopeful(s, l) && !HasPending(s.checkpoints)
    ensures Unsaved(s, l)
  {
    hide AtLost;
  }

  lemma HopefulNext(s: State, l: Loss, t: State, p: State, m: State)
    requires Goes(s, l, t, p, m) && PodsOk(s, l) && Hopeful(s, l)
    ensures Kept(m, l) || Hopeful(m, l)
  {
    hide Base, AfterPreemption, PodsOk, JobsFit, JobsInv, NewcomerOk, FleetGrown, Drifts, OthersKept, AllNewOk, Grown,
      RestoredBy, HasApplicable, FirstUsable;
    HopefulPhase(s, l, t);
    CheckpointsStay(s, l, t, p, m);
    forall o | AtLost(m, l, o) ensures AtLost(s, l, o) && o in l.jobs && !m.jobs[o].annotated {
      LostJobsNext(s, l, t, p, m, o);
      NoApplicable(s, l, o);
    }
    forall c | 0 <= c < |m.checkpoints| && Live(m.checkpoints[c]) ensures Helpful(m, l, m.checkpoints[c]) {
      assert Ends(t.checkpoints[c], m.checkpoints[c]);
    }
    if c :| 0 <= c < |m.checkpoints| && Successful(m.checkpoints[c]) {
      assert Helpful(m, l, m.checkpoints[c]) && m.checkpoints[c] in m.checkpoints;
    }
  }

  lemma NoApplicable(s: State, l: Loss, o: string)
    requires Hopeful(s, l)
    ensures !HasApplicable(s, o)
  {
    hide AtLost;
  }

  /** A failing checkpoint or a refused Job does not leave a robust recovery. */
  lemma RobustNext(s: State, l: Loss, m: State)
    requires Robust(s, l) && PodsOk(s, l) && RoughRound(s, m, l.jobs)
    ensures Robust(m, l)
  {
    hide Base, AfterPreemption, Pass, Went, OthersKept, AllNewOk, Drifts, PodsOk, Kept, Hopeful, Healed;
    var noJob :| Drifts(Pass(s, {}, noJob), m, l.jobs);
    var t, p := AfterPreemption(s), Pass(s, {}, noJob);
    RoughRoundGoes(s, l, noJob, m);
    forall o | AtLost(m, l, o)
      ensures m.jobs[o].annotated ==> Healed(m, o)
      ensures !m.jobs[o].annotated ==> m.jobs[o].containers == m.spec.containers
    {
      RestoredNext(s, l, t, p, m, o);
    }
    if Kept(s, l) { KeptStays(s, l, t, p, m); } else { HopefulNext(s, l, t, p, m); }
  }

  ghost predicate RoughRun(r: nat -> State, l: Loss)
  {
    && (forall k: nat :: PodsOk(r(k), l))
    && (forall k: nat :: RoughRound(r(k), r(k + 1), l.jobs))
  }

  /** From round `start` on nothing fails and nothing is refused. */
  ghost predicate CalmFrom(r: nat -> State, l: Loss, start: nat)
  {
    forall k: nat :: k >= start ==> Round(r(k), r(k + 1), l.jobs)
  }

  lemma {:induction false} RobustThroughout(r: nat -> State, l: Loss, k: nat)
    requires RoughRun(r, l) && Robust(r(0), l)
    ensures Robust(r(k), l)
  {
    hide Robust, RoughRound, PodsOk;
    if k > 0 {
      RobustThroughout(r, l, k - 1);
      assert RoughRound(r(k - 1), r(k - 1 + 1), l.jobs);
      RobustNext(r(k - 1), l, r(k));
    }
  }

  function Shifted(r: nat -> State, j: nat): (q: nat -> State)
    ensures forall k: nat :: q(k) == r(j + k)
  {
    (k: nat) => r(j + k)
  }

  lemma ShiftedCalm(r: nat -> State, l: Loss, j: nat)
    requires (forall k: nat :: PodsOk(r(k), l)) && CalmFrom(r, l, j) && Fair(r)
    ensures RecoveryRun(Shifted(r, j), l) && Fair(Shifted(r, j))
  {
    hide Round, PodsOk, Shifted;
    var q := Shifted(r, j);
    forall k: nat ensures Round(q(k), q(k + 1), l.jobs) {
      assert Round(r(j + k), r(j + k + 1), l.jobs);
    }
    forall k: nat, x | 0 <= x < |q(k).pis| ensures JoinsLater(q, k, x) {
      assert JoinsLater(r, j + k, x);
      var e: nat :| e >= j + k && x < |r(e).pis| && Up(r(e).pis[x]);
      assert q(e - j) == r(e);
    }
    forall k: nat, c | 0 <= c < |q(k).checkpoints| ensures EndsLater(q, k, c) {
      assert EndsLater(r, j + k, c);
      var e: nat :| e >= j + k && c < |r(e).checkpoints| && !InFlight(r(e).checkpoints[c]);
      assert q(e - j) == r(e);
    }
  }

  lemma ShiftedRun(r: nat -> State, l: Loss, j: nat)
    requires RecoveryRun(r, l) && Fair(r)
    ensures RecoveryRun(Shifted(r, j), l) && Fair(Shifted(r, j))
  {
    hide Round, PodsOk, Fair;
    ShiftedCalm(r, l, j);
  }

  /**
    Recovery converges although finitely many checkpoints fail and finitely many creations of Jobs are refused,
    in any rounds up to some last one.
  */
  lemma RecoveryConvergesDespiteFailures(r: nat -> State, l: Loss, calm: nat)
    requires RoughRun(r, l) && Fair(r) && CalmFrom(r, l, calm) && Robust(r(0), l)
    ensures exists start: nat :: RecoveredFrom(r, l, start)
  {
    hide Robust, RoughRound, Round, PodsOk, Fair, Recovering, Recovered, AtRest, Shifted;
    RobustThroughout(r, l, calm);
    RobustIsRecovering(r(calm), l);
    ShiftedCalm(r, l, calm);
    var q := Shifted(r, calm);
    assert q(0) == r(calm);
    RecoveryConverges(q, l);
    var start: nat :| RecoveredFrom(q, l, start);
    forall k: nat | k >= calm + start ensures Recovered(r(k), l) && AtRest(r(k)) {
      assert q(k - calm) == r(k);
    }
    assert RecoveredFrom(r, l, calm + start);
  }
}
