/** How far a recovery has to go: a distance that no round increases and every effective round decreases. */
module Distance {
  import opened Names
  import opened Objects
  import opened Checkpoints
  import opened Restore
  import opened InstanceAllocation
  import opened JobFilling
  import opened Controller
  import opened RestoreSafety
  import opened JobInvariants
  import opened Rounds
  import opened LostReplicas
  import opened Recovery

  // ---------- A recovery under way ----------

  /** A checkpoint, in progress or completed, of a Job that is not at a lost index. */
  ghost predicate Helpful(s: State, l: Loss, cp: Checkpoint)
  {
    Live(cp) && cp.source.Some? && !AtLost(s, l, cp.source.value)
  }

  ghost predicate Saved(s: State, l: Loss)
  {
    exists cp :: cp in s.checkpoints && Helpful(s, l, cp)
  }

  /** No checkpoint is in progress or completed, and the lost Jobs are as they were. */
  ghost predicate Unsaved(s: State, l: Loss)
  {
    && (forall cp :: cp in s.checkpoints ==> !Live(cp))
    && (forall o :: AtLost(s, l, o) ==> o in l.jobs && !s.jobs[o].annotated)
  }

  /** The un-restored Jobs at lost indices run the template's own images. */
  ghost predicate Plain(s: State, l: Loss)
  {
    forall o :: AtLost(s, l, o) && !s.jobs[o].annotated ==> s.jobs[o].containers == s.spec.containers
  }

  ghost predicate OnInstance(s: State, k: int, job: Job)
  {
    && 0 <= k < |s.pis| && s.pis[k].index == job.index && !s.pis[k].notice
    && s.pis[k].state == Running && s.pis[k].joined && job.node == s.pis[k].nodeName != ""
  }

  ghost predicate RunsImages(s: State, o: string, cp: Checkpoint)
  {
    && o in s.jobs && cp in s.checkpoints && Applicable(cp, o)
    && s.jobs[o].containers == WithImages(s.spec.containers, ImageMap(s.spec.imageRepo, Images(cp)))
  }

  /** The Job has been restored: it runs the images of another Job's checkpoint on a live instance of its index. */
  ghost predicate Healed(s: State, o: string)
  {
    && o in s.jobs && s.jobs[o].annotated
    && (exists k :: OnInstance(s, k, s.jobs[o])) && (exists cp :: RunsImages(s, o, cp))
  }

  ghost predicate RestoredOk(s: State, l: Loss)
  {
    forall o :: AtLost(s, l, o) && s.jobs[o].annotated ==> Healed(s, o)
  }

  /** There is a checkpoint to restore from, perhaps still in progress, or none at all yet. */
  ghost predicate Recovering(s: State, l: Loss)
  {
    Base(s, l) && Plain(s, l) && RestoredOk(s, l) && (Saved(s, l) || Unsaved(s, l))
  }

  // ---------- The distance ----------

  /** Lost indices without an instance. */
  function Missing(s: State, l: Loss): set<nat>
  {
    set i | i in l.indices && i !in Taken(s.pis)
  }

  /** Lost indices without a usable instance. */
  function Down(s: State, l: Loss): set<nat>
  {
    set i | i in l.indices && FirstUsable(s.pis, i).None?
  }

  /** Lost indices without a Job on a usable instance. */
  ghost function Empty(s: State, l: Loss): set<nat>
  {
    set i | i in l.indices && !(FirstUsable(s.pis, i).Some? && HasJob(s, i))
  }

  ghost function Unrestored(s: State, l: Loss): set<string>
  {
    set o | o in s.jobs && AtLost(s, l, o) && !s.jobs[o].annotated
  }

  /** Jobs without a checkpoint in progress or successfully completed. */
  ghost function Unprotected(s: State): set<string>
  {
    set o | o in s.jobs && !HasLive(s.checkpoints, o)
  }

  /** The sources of the checkpoints in progress. */
  function BeingSaved(s: State): set<string>
  {
    set c | 0 <= c < |s.checkpoints| && InFlight(s.checkpoints[c]) && s.checkpoints[c].source.Some?
      :: s.checkpoints[c].source.value
  }

  /** A fresh Job at an empty index is un-restored and unprotected: hence the weights. */
  ghost function DistanceOf(s: State, l: Loss): nat
  {
    |Missing(s, l)| + |Down(s, l)| + 4 * |Empty(s, l)| + |Unrestored(s, l)| + 2 * |Unprotected(s)| + |BeingSaved(s)|
  }

  /** Every part of the distance of `b` is contained in that of `a`. */
  ghost predicate Within(a: State, b: State, l: Loss)
  {
    && Missing(b, l) <= Missing(a, l) && Down(b, l) <= Down(a, l) && Empty(b, l) <= Empty(a, l)
    && Unrestored(b, l) <= Unrestored(a, l) && Unprotected(b) <= Unprotected(a) && BeingSaved(b) <= BeingSaved(a)
  }

  lemma WithinIsCloser(a: State, b: State, l: Loss)
    requires Within(a, b, l)
    ensures DistanceOf(b, l) <= DistanceOf(a, l)
    ensures DistanceOf(b, l) == DistanceOf(a, l) ==>
      && Missing(b, l) == Missing(a, l) && Down(b, l) == Down(a, l) && Empty(b, l) == Empty(a, l)
      && Unrestored(b, l) == Unrestored(a, l) && Unprotected(b) == Unprotected(a) && BeingSaved(b) == BeingSaved(a)
  {
    hide Missing, Down, Empty, Unrestored, Unprotected, BeingSaved;
    SubsetSize(Missing(b, l), Missing(a, l));
    SubsetSize(Down(b, l), Down(a, l));
    SubsetSize(Empty(b, l), Empty(a, l));
    SubsetSize(Unrestored(b, l), Unrestored(a, l));
    SubsetSize(Unprotected(b), Unprotected(a));
    SubsetSize(BeingSaved(b), BeingSaved(a));
  }

  // ---------- Preemption handling ----------

  lemma SavedApplies(s: State, l: Loss)
    requires Base(s, l) && Saved(s, l) && !HasPending(s.checkpoints)
    ensures HasCompleted(s.checkpoints)
    ensures forall o :: AtLost(s, l, o) ==> HasApplicable(s, o)
  {
    hide FleetBase, JobBase, Spent, CheckpointName;
    var cp :| cp in s.checkpoints && Helpful(s, l, cp);
    var c :| 0 <= c < |s.checkpoints| && s.checkpoints[c] == cp;
    assert CheckpointOk(s.checkpoints[c], s.spec, s.clock);
    forall o | AtLost(s, l, o) ensures HasApplicable(s, o) {
      assert Applicable(cp, o);
    }
  }

  lemma PhaseJobs(s: State, l: Loss, t: State)
    requires Base(s, l) && Handled(s, l, t)
    ensures Empty(t, l) <= Empty(s, l) && Unrestored(t, l) <= Unrestored(s, l)
    ensures forall o :: o in Unrestored(s, l) && HasApplicable(s, o) && !HasPending(s.checkpoints) ==>
      o !in Unrestored(t, l)
  {
    hide FleetBase, CheckpointBase, JobsInv, JobsFit, RestoredBy, HasApplicable, FirstUsable, LostNamed, AllCount,
      StampsPast;
    forall i | i in Empty(t, l) ensures i in Empty(s, l) {
      if FirstUsable(s.pis, i).Some? && HasJob(s, i) {
        var o :| o in s.jobs && s.jobs[o].index == Some(i);
        assert JobOutcome(s, l, t, o);
        OutcomeKeepsIndex(s, l, t, o);
        assert false;
      }
    }
    forall o | o in Unrestored(t, l)
      ensures o in Unrestored(s, l) && (HasApplicable(s, o) ==> HasPending(s.checkpoints))
    {
      assert JobOutcome(s, l, t, o);
      OutcomeKeepsIndex(s, l, t, o);
      if t.jobs[o] == s.jobs[o] && HasApplicable(s, o) && !HasPending(s.checkpoints) {
        RestoredIsAnnotated(s, o, s.jobs[o], t.jobs[o]);
      }
    }
  }

  lemma StillLive(s: State, t: State)
    requires |s.checkpoints| <= |t.checkpoints|
    requires forall c :: 0 <= c < |s.checkpoints| ==> t.checkpoints[c] == s.checkpoints[c]
    ensures forall o :: HasLive(s.checkpoints, o) ==> HasLive(t.checkpoints, o)
  {
    forall o | HasLive(s.checkpoints, o) ensures HasLive(t.checkpoints, o) {
      NoEarlierLive(s, t, o);
    }
  }

  lemma PhaseProtection(s: State, l: Loss, t: State)
    requires Handled(s, l, t) && AllNewOk(s, l, t)
    ensures Unprotected(t) <= Unprotected(s)
    ensures !HasPending(s.checkpoints) ==> BeingSaved(t) <= Unprotected(s) && BeingSaved(t) !! Unprotected(t)
    ensures |t.checkpoints| > |s.checkpoints| ==> BeingSaved(t) != {}
  {
    hide JobOutcome, HasLive, CheckpointName, StillLost;
    StillLive(s, t);
    if !HasPending(s.checkpoints) {
      assert forall c :: 0 <= c < |s.checkpoints| ==> s.checkpoints[c] in s.checkpoints;
      forall o | o in BeingSaved(t) ensures o in Unprotected(s) && HasLive(t.checkpoints, o) {
        var c :| 0 <= c < |t.checkpoints| && InFlight(t.checkpoints[c]) && t.checkpoints[c].source == Some(o);
        assert NewOk(s, l, t.checkpoints[c], t.clock);
        LiveAt(t.checkpoints, c, o);
      }
    }
    if |t.checkpoints| > |s.checkpoints| {
      assert NewOk(s, l, t.checkpoints[|s.checkpoints|], t.clock);
      assert t.checkpoints[|s.checkpoints|].source.value in BeingSaved(t);
    }
  }

  lemma LiveAt(cps: seq<Checkpoint>, c: nat, o: string)
    requires c < |cps| && Live(cps[c]) && cps[c].source == Some(o)
    ensures HasLive(cps, o)
  {
    assert cps[c] in cps;
  }

  /** Splitting a set: what moves from the unprotected to those being saved counts once instead of twice. */
  lemma Moved(before: set<string>, after: set<string>, moved: set<string>)
    requires after <= before && moved <= before && after !! moved
    ensures 2 * |after| + |moved| <= 2 * |before| && (moved != {} ==> 2 * |after| + |moved| < 2 * |before|)
  {
    SubsetSize(after + moved, before);
    assert |after + moved| == |after| + |moved|;
  }

  /** Handling preemption never adds to the distance, and takes from it whenever it does anything. */
  lemma PhaseCloser(s: State, l: Loss)
    requires Base(s, l) && PodsOk(s, l)
    ensures var t := AfterPreemption(s);
      DistanceOf(t, l) <= DistanceOf(s, l) && (t != s ==> DistanceOf(t, l) < DistanceOf(s, l))
  {
    hide Base, AfterPreemption, PodsOk, AllNewOk, JobOutcome, Missing, Down, Empty, Unrestored, Unprotected,
      BeingSaved, NothingApplies;
    var t := AfterPreemption(s);
    PhaseExact(s, l);
    PhaseCheckpoints(s, l);
    SameFleetParts(s, l, t);
    if t != s {
      NotPendingIfChanged(s);
      PhaseJobs(s, l, t);
      PhaseProtection(s, l, t);
      SubsetSize(Empty(t, l), Empty(s, l));
      SubsetSize(Unrestored(t, l), Unrestored(s, l));
      Moved(Unprotected(s), Unprotected(t), BeingSaved(t));
      NothingBeingSaved(s);
      PhaseChanges(s, l, t);
    }
  }

  lemma SameFleetParts(s: State, l: Loss, t: State)
    requires t.pis == s.pis
    ensures Missing(t, l) == Missing(s, l) && Down(t, l) == Down(s, l)
  {
  }

  lemma NotPendingIfChanged(s: State)
    requires AfterPreemption(s) != s
    ensures !HasPending(s.checkpoints)
  {
  }

  lemma NothingBeingSaved(s: State)
    requires !HasPending(s.checkpoints)
    ensures BeingSaved(s) == {}
  {
    forall c | 0 <= c < |s.checkpoints| ensures !InFlight(s.checkpoints[c]) {
      assert s.checkpoints[c] in s.checkpoints;
    }
  }

  /** A phase that changes anything restores or deletes a lost Job, or starts a checkpoint. */
  lemma PhaseChanges(s: State, l: Loss, t: State)
    requires Base(s, l) && t == AfterPreemption(s) && t != s
    requires forall o :: o in Unrestored(s, l) && HasApplicable(s, o) && !HasPending(s.checkpoints) ==>
      o !in Unrestored(t, l)
    ensures Unrestored(t, l) != Unrestored(s, l) || |t.checkpoints| > |s.checkpoints|
  {
    hide Base, AfterPreemption, HasApplicable;
    NotPendingIfChanged(s);
    if NothingApplies(s, l) {
      PhaseOnlyCheckpoints(s, l);
      assert |t.checkpoints| == |s.checkpoints| ==> t.checkpoints == s.checkpoints;
    } else {
      var o :| AtLost(s, l, o) && !s.jobs[o].annotated && HasApplicable(s, o);
      assert o in Unrestored(s, l);
    }
  }

  // ---------- Creation ----------

  function Newcomers(t: State, p: State): set<string>
  {
    p.jobs.Keys - t.jobs.Keys
  }

  function IndicesOf(p: State, names: set<string>): set<nat>
  {
    set o | o in names && o in p.jobs && p.jobs[o].index.Some? :: p.jobs[o].index.value
  }

  /** Newcomers of one pass have different indices. */
  lemma {:induction false} NewcomerCount(t: State, p: State, n: nat, names: set<string>)
    requires forall o :: o in names ==> o in p.jobs && NewcomerOk(t, p, o, n)
    ensures |IndicesOf(p, names)| == |names|
  {
    hide JobName, FreshJob, Ready, TakenByJobs;
    if names != {} {
      var o :| o in names;
      NewcomerCount(t, p, n, names - {o});
      var i := p.jobs[o].index.value;
      assert IndicesOf(p, names) == IndicesOf(p, names - {o}) + {i};
      assert i !in IndicesOf(p, names - {o});
    } else {
      assert IndicesOf(p, names) == {};
    }
  }

  lemma GrownFleet(s: State, l: Loss, t: State, p: State)
    requires Base(s, l) && t.pis == s.pis && FleetGrown(t, p, l.n)
    ensures Missing(p, l) == {} && Down(p, l) <= Down(t, l)
    ensures p.pis != t.pis ==> Missing(t, l) != {}
    ensures forall i: nat :: FirstUsable(t.pis, i).Some? ==> FirstUsable(p.pis, i).Some?
    ensures forall i: nat :: Ready(p.pis, i) ==> FirstUsable(t.pis, i).Some?
  {
    hide JobBase, CheckpointBase, NamesOk, FirstUsable, FirstActive, InstanceName, Comes, Ready, Noticed;
    LostBelow(s, l);
    ComesItself(s.pis, l.n);
    ReadyIsUsable(s.pis, l.n);
    ReadyIsUsable(p.pis, l.n);
    forall i: nat | FirstUsable(t.pis, i).Some? ensures FirstUsable(p.pis, i).Some? {
      UsableStays(t.pis, p.pis, l.n, i);
    }
    forall i: nat | Ready(p.pis, i) ensures FirstUsable(t.pis, i).Some? {
      NewNotUsable(t, p, l.n, i);
    }
    if p.pis != t.pis {
      var i: nat :| i < l.n && i !in Taken(t.pis);
      assert FirstUsable(s.pis, i).None?;
      assert i in Missing(t, l);
    }
  }

  lemma NewNotUsable(t: State, p: State, n: nat, i: nat)
    requires FleetGrown(t, p, n) && FirstUsable(p.pis, i).Some?
    ensures FirstUsable(t.pis, i).Some?
  {
    hide FirstUsable, InstanceName, Staffed, FleetOk;
    var pi := FirstUsable(p.pis, i).value;
    var k :| 0 <= k < |p.pis| && p.pis[k] == pi;
    assert k < |t.pis| && t.pis[k] in t.pis;
  }

  /** Fresh Jobs go to empty indices: on usable instances every lost Job has just been restored, and counts. */
  lemma NewcomersAtEmpty(s: State, l: Loss, t: State, p: State, o: string)
    requires Base(s, l) && Saved(s, l) && !HasPending(s.checkpoints) && Went(s, l, t, p) && o in p.jobs && o !in t.jobs
    ensures NewcomerOk(t, p, o, l.n) && p.jobs[o].index.value in Empty(t, l) && p.jobs[o].index.value !in Empty(p, l)
  {
    hide FleetBase, JobBase, CheckpointBase, JobsFit, JobsInv, FleetGrown, NewcomerOk, JobOutcome, HasApplicable,
      FirstUsable, Ready, Saved;
    NewcomersAtLost(s, l, t, p, o);
    NewcomerReady(s, l, t, p, o);
    SavedApplies(s, l);
    var i := p.jobs[o].index.value;
    assert HasJob(p, i);
    forall q | q in t.jobs ensures t.jobs[q].index != Some(i) {
      if t.jobs[q].index == Some(i) { RestoredCounts(s, l, t, q); }
    }
  }

  lemma NewcomerReady(s: State, l: Loss, t: State, p: State, o: string)
    requires Base(s, l) && Went(s, l, t, p) && !HasPending(t.checkpoints) && o in p.jobs && NewcomerOk(t, p, o, l.n)
    ensures FirstUsable(s.pis, p.jobs[o].index.value).Some? && FirstUsable(p.pis, p.jobs[o].index.value).Some?
  {
    hide JobBase, CheckpointBase, JobsFit, JobsInv, FleetGrown, JobOutcome, FirstUsable, Ready, FreshJob, JobName,
      TakenByJobs, FleetBase;
    GrownFleet(s, l, t, p);
  }

  lemma RestoredCounts(s: State, l: Loss, t: State, q: string)
    requires Base(s, l) && Handled(s, l, t) && !HasPending(s.checkpoints) && q in t.jobs && t.jobs[q].index.Some?
    requires t.jobs[q].index.value in l.indices && FirstUsable(s.pis, t.jobs[q].index.value).Some?
    requires forall o :: AtLost(s, l, o) ==> HasApplicable(s, o)
    ensures t.jobs[q].annotated
  {
    hide FleetBase, JobBase, CheckpointBase, HasApplicable, FirstUsable, RestoredBy;
    assert JobOutcome(s, l, t, q);
    OutcomeKeepsIndex(s, l, t, q);
    if !s.jobs[q].annotated { RestoredIsAnnotated(s, q, s.jobs[q], t.jobs[q]); }
  }

  lemma UnionAtMost(a: set<string>, b: set<string>, c: set<string>)
    requires a <= b + c
    ensures |a| <= |b| + |c|
  {
    SubsetSize(a, b + c);
    assert |b + c| <= |b| + |c| by {
      assert b + c == b + (c - b);
      SubsetSize(c - b, c);
    }
  }

  lemma EmptyFilled(before: set<nat>, after: set<nat>, filled: set<nat>)
    requires after <= before && filled <= before && after !! filled
    ensures |after| + |filled| <= |before|
  {
    SubsetSize(after + filled, before);
  }

  lemma CreationParts(s: State, l: Loss, t: State, p: State)
    requires Base(s, l) && Saved(s, l) && !HasPending(s.checkpoints) && Went(s, l, t, p) && !HasPending(t.checkpoints)
    ensures forall o :: o in Newcomers(t, p) ==> NewcomerOk(t, p, o, l.n)
    ensures Empty(p, l) <= Empty(t, l) && IndicesOf(p, Newcomers(t, p)) <= Empty(t, l)
      && Empty(p, l) !! IndicesOf(p, Newcomers(t, p))
    ensures Unrestored(p, l) <= Unrestored(t, l) + Newcomers(t, p)
    ensures Unprotected(p) <= Unprotected(t) + Newcomers(t, p)
    ensures BeingSaved(p) == BeingSaved(t)
  {
    hide FleetBase, JobBase, CheckpointBase, JobsFit, JobsInv, FleetGrown, NewcomerOk, JobOutcome, FirstUsable, Ready,
      Saved, HasLive;
    forall o | o in Newcomers(t, p)
      ensures NewcomerOk(t, p, o, l.n) && p.jobs[o].index.Some?
        && p.jobs[o].index.value in Empty(t, l) && p.jobs[o].index.value !in Empty(p, l)
    {
      NewcomersAtLost(s, l, t, p, o);
      NewcomersAtEmpty(s, l, t, p, o);
    }
    GrownUsable(s, l, t, p);
    forall i | i in Empty(p, l) ensures i in Empty(t, l) {
      if HasJob(t, i) {
        var o :| o in t.jobs && t.jobs[o].index == Some(i);
        assert o in p.jobs;
      }
    }
  }

  lemma GrownUsable(s: State, l: Loss, t: State, p: State)
    requires Base(s, l) && Went(s, l, t, p) && !HasPending(t.checkpoints)
    ensures forall i: nat :: FirstUsable(t.pis, i).Some? ==> FirstUsable(p.pis, i).Some?
    ensures Missing(p, l) == {} && Down(p, l) <= Down(t, l) && (p.pis != t.pis ==> Missing(t, l) != {})
  {
    hide FleetBase, JobBase, CheckpointBase, JobsFit, JobsInv, FleetGrown, NewcomerOk, JobOutcome, FirstUsable, Ready,
      Missing, Down;
    GrownFleet(s, l, t, p);
  }

  /** Creation never adds to the distance either, and takes from it whenever it creates anything. */
  lemma CreationCloser(s: State, l: Loss, t: State, p: State)
    requires Base(s, l) && Saved(s, l) && !HasPending(s.checkpoints) && Went(s, l, t, p) && !HasPending(t.checkpoints)
    ensures DistanceOf(p, l) <= DistanceOf(t, l) && (p != t ==> DistanceOf(p, l) < DistanceOf(t, l))
  {
    hide Base, JobsFit, JobsInv, FleetGrown, NewcomerOk, Handled, Saved, Missing, Down, Empty, Unrestored,
      Unprotected, BeingSaved, IndicesOf;
    GrownUsable(s, l, t, p);
    CreationParts(s, l, t, p);
    var news := Newcomers(t, p);
    NewcomerCount(t, p, l.n, news);
    SubsetSize(Missing(p, l), Missing(t, l));
    SubsetSize(Down(p, l), Down(t, l));
    EmptyFilled(Empty(t, l), Empty(p, l), IndicesOf(p, news));
    UnionAtMost(Unrestored(p, l), Unrestored(t, l), news);
    UnionAtMost(Unprotected(p), Unprotected(t), news);
    if news == {} { SameJobs(t, p, l.n); }
  }

  lemma SameJobs(t: State, p: State, n: nat)
    requires Grown(t, p, n) && Newcomers(t, p) == {}
    ensures p.jobs == t.jobs
  {
    hide FleetGrown, NewcomerOk;
    forall o | o in p.jobs ensures o in t.jobs {
      assert o !in Newcomers(t, p);
    }
    assert p.jobs.Keys == t.jobs.Keys;
  }

  // ---------- The environment ----------

  /** The environment never adds to the distance; each join of a lost index and each completion takes from it. */
  lemma EnvironmentWithin(p: State, m: State, l: Loss)
    requires FleetOk(p.pis, l.n) && Advances(p, m, l.jobs)
    ensures Within(p, m, l)
  {
    hide FleetOk, FirstUsable, Acknowledged, HasLive, Missing, Taken;
    FleetComes(p.pis, m.pis, l.n);
    SameMissing(p, m, l);
    EnvironmentFleet(p, m, l);
    EnvironmentJobs(p, m, l);
    EnvironmentCheckpoints(p, m);
  }

  lemma SameMissing(p: State, m: State, l: Loss)
    requires Taken(m.pis) == Taken(p.pis)
    ensures Missing(m, l) == Missing(p, l)
  {
  }

  lemma EnvironmentFleet(p: State, m: State, l: Loss)
    requires FleetOk(p.pis, l.n) && Drifts(p, m, l.jobs)
    ensures forall i: nat :: FirstUsable(p.pis, i).Some? ==> FirstUsable(m.pis, i).Some?
    ensures Down(m, l) <= Down(p, l)
  {
    hide FleetOk, FirstUsable, Comes, Ends, Acknowledged;
    forall i: nat | FirstUsable(p.pis, i).Some? ensures FirstUsable(m.pis, i).Some? {
      UsableStays(p.pis, m.pis, l.n, i);
    }
  }

  lemma EnvironmentJobs(p: State, m: State, l: Loss)
    requires FleetOk(p.pis, l.n) && Advances(p, m, l.jobs)
    ensures Empty(m, l) <= Empty(p, l) && Unrestored(m, l) == Unrestored(p, l)
    ensures forall i: nat :: HasJob(m, i) <==> HasJob(p, i)
  {
    hide FleetOk, FirstUsable, Comes, Completes, Counts;
    EnvironmentFleet(p, m, l);
    assert forall o :: o in p.jobs ==> Acknowledged(l.jobs, o, p.jobs[o], m.jobs[o]);
    forall i: nat ensures HasJob(m, i) <==> HasJob(p, i) {
      if HasJob(m, i) {
        var o :| o in m.jobs && m.jobs[o].index == Some(i);
        assert p.jobs[o].index == Some(i);
      }
      if HasJob(p, i) {
        var o :| o in p.jobs && p.jobs[o].index == Some(i);
        assert m.jobs[o].index == Some(i);
      }
    }
  }

  lemma EnvironmentCheckpoints(p: State, m: State)
    requires m.jobs.Keys == p.jobs.Keys && |m.checkpoints| == |p.checkpoints|
    requires forall c :: 0 <= c < |p.checkpoints| ==> Completes(p.checkpoints[c], m.checkpoints[c])
    ensures Unprotected(m) <= Unprotected(p) && BeingSaved(m) <= BeingSaved(p)
  {
    forall o | HasLive(p.checkpoints, o) ensures HasLive(m.checkpoints, o) {
      var cp :| cp in p.checkpoints && cp.source == Some(o) && Live(cp);
      var c :| 0 <= c < |p.checkpoints| && p.checkpoints[c] == cp;
      assert Completes(p.checkpoints[c], m.checkpoints[c]);
      LiveAt(m.checkpoints, c, o);
    }
    forall o | o in BeingSaved(m) ensures o in BeingSaved(p) {
      var c :| 0 <= c < |m.checkpoints| && InFlight(m.checkpoints[c]) && m.checkpoints[c].source == Some(o);
      assert Completes(p.checkpoints[c], m.checkpoints[c]);
    }
  }

  /**
    A checkpoint in progress is the only live one of its source, so when it completes the source is not
    being saved.
  */
  lemma CompletionCloser(p: State, m: State, l: Loss, c: nat)
    requires FleetOk(p.pis, l.n) && Advances(p, m, l.jobs) && JobsInv(m) && JobsInv(p)
    requires c < |p.checkpoints| && InFlight(p.checkpoints[c]) && !InFlight(m.checkpoints[c])
    ensures DistanceOf(m, l) < DistanceOf(p, l)
  {
    hide FleetOk, Comes, Acknowledged, Missing, Down, Empty, Unrestored, Unprotected, JobsOk, DeletedOnce;
    EnvironmentWithin(p, m, l);
    WithinIsCloser(p, m, l);
    assert Completes(p.checkpoints[c], m.checkpoints[c]);
    var o := p.checkpoints[c].source.value;
    assert o in BeingSaved(p);
    forall d | 0 <= d < |m.checkpoints| && InFlight(m.checkpoints[d]) ensures m.checkpoints[d].source != Some(o) {
      assert d != c;
    }
    assert o !in BeingSaved(m);
  }

  lemma JoinCloser(p: State, m: State, l: Loss, i: nat)
    requires FleetOk(p.pis, l.n) && Advances(p, m, l.jobs)
    requires i in l.indices && FirstUsable(p.pis, i).None? && FirstUsable(m.pis, i).Some?
    ensures DistanceOf(m, l) < DistanceOf(p, l)
  {
    hide FleetOk, Comes, Acknowledged, Missing, Empty, Unrestored, Unprotected, BeingSaved, FirstUsable;
    EnvironmentWithin(p, m, l);
    WithinIsCloser(p, m, l);
    assert i in Down(p, l) && i !in Down(m, l);
  }
}
