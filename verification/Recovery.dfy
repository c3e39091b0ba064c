/** One round over a cluster with losses: what it keeps, and that the situation stays one to recover from. */
module Recovery {
  import opened Names
  import opened Objects
  import opened Checkpoints
  import opened Preemption
  import opened InstanceAllocation
  import opened JobFilling
  import opened Controller
  import opened Invariants
  import opened RestoreSafety
  import opened JobInvariants
  import opened Rounds
  import opened LostReplicas

  // ---------- A pass over a cluster with losses ----------

  /** `t` is the state after preemption handling, `p` the one after the pass. */
  ghost predicate Went(s: State, l: Loss, t: State, p: State)
  {
    && Handled(s, l, t) && JobsFit(t.jobs, l.n) && StampsPast(t.jobs, t.clock) && JobsInv(p)
    && (HasPending(t.checkpoints) ==> p == t)
    && (!HasPending(t.checkpoints) ==> t.checkpoints == s.checkpoints && Grown(t, p, l.n))
  }

  lemma HandledFits(s: State, l: Loss, t: State)
    requires Base(s, l) && Handled(s, l, t)
    ensures JobsFit(t.jobs, l.n) && StampsPast(t.jobs, t.clock)
  {
    hide FleetBase, CheckpointBase, RestoredBy, HasApplicable, FirstUsable;
    forall o | o in t.jobs ensures JobFits(t.jobs[o], l.n) && t.jobs[o].stamp < t.clock {
      assert JobOutcome(s, l, t, o) && JobFits(s.jobs[o], l.n);
      if t.jobs[o] != s.jobs[o] {
        RestoredJobOk(s, o, s.jobs[o], t.jobs[o]);
        RestoredIsAnnotated(s, o, s.jobs[o], t.jobs[o]);
      }
    }
  }

  lemma SameOrPending(s: State, l: Loss, t: State)
    requires Handled(s, l, t)
    ensures !HasPending(t.checkpoints) ==> t.checkpoints == s.checkpoints
  {
    hide JobOutcome;
    if |t.checkpoints| > |s.checkpoints| {
      assert t.checkpoints[|s.checkpoints|] in t.checkpoints;
    }
  }

  lemma PassWent(s: State, l: Loss, noJob: set<nat>)
    requires Base(s, l)
    ensures Went(s, l, AfterPreemption(s), Pass(s, {}, noJob))
    ensures noJob == {} && !HasPending(AfterPreemption(s).checkpoints) ==>
      FillsReady(AfterPreemption(s), Pass(s, {}, noJob), l.n)
  {
    hide HandleFrom, AfterPreemption, AfterInstances, WithJobs, DistinctIndices, NamesOk, JobOutcome, CheckpointBase,
      Grown, AllAffected;
    var t := AfterPreemption(s);
    PhaseExact(s, l);
    HandledFits(s, l, t);
    SameOrPending(s, l, t);
    PassKeepsJobs(s, {}, noJob);
    PreemptionRestores(s);
    RestoresKeepJobs(s, t, AllAffected(s));
    if HasPending(t.checkpoints) {
      CheckpointPostponesCreation(s, {}, noJob);
    } else {
      Growth(t, l.n, noJob);
    }
  }

  lemma WentFleet(s: State, l: Loss, t: State, p: State)
    requires Base(s, l) && Went(s, l, t, p)
    ensures FleetOk(p.pis, l.n)
  {
    hide JobBase, CheckpointBase, NamesOk, FirstUsable, Noticed, FleetOk, JobOutcome, NewcomerOk, JobsFit, JobsInv;
    if !HasPending(t.checkpoints) { GrownFleetOk(t, p, l.n); }
  }

  // ---------- What is kept from round to round ----------

  /** Fresh Jobs are created at lost indices only, where no Job counts, and under names that are not lost. */
  lemma NewcomersAtLost(s: State, l: Loss, t: State, p: State, o: string)
    requires Base(s, l) && Went(s, l, t, p) && o in p.jobs && o !in t.jobs
    ensures NewcomerOk(t, p, o, l.n) && p.jobs[o].index.Some? && p.jobs[o].index.value in l.indices
    ensures forall q :: q in t.jobs && t.jobs[q].index == p.jobs[o].index ==> !Counts(t.jobs[q])
    ensures o !in l.jobs && !HasPending(t.checkpoints)
  {
    hide FleetBase, CheckpointBase, FleetGrown, JobName, FreshJob, TakenByJobs, Ready, JobsFit, JobsInv,
      HasApplicable, RestoredBy, FirstUsable, Counts;
    assert NewcomerOk(t, p, o, l.n);
    JobsInRange(t.jobs, l.n, t.clock);
    forall i: nat | i < l.n && i !in l.indices ensures i in TakenByJobs(t.jobs, t.clock) {
      assert HasJob(s, i);
      var q :| q in s.jobs && s.jobs[q].index == Some(i);
      assert JobOutcome(s, l, t, q) && q in t.jobs;
    }
    NewNameNotLost(s, l, t, p.jobs[o].index.value);
  }

  lemma NewNameNotLost(s: State, l: Loss, t: State, i: nat)
    requires LostNamed(s, l) && t.spec == s.spec && s.clock <= t.clock
    ensures JobName(t.spec.name, i, t.clock) !in l.jobs
  {
    hide JobName;
    var n := JobName(t.spec.name, i, t.clock);
    if n in l.jobs {
      var j: nat, u: nat :| u < s.clock && n == JobName(s.spec.name, j, u);
      JobNameInjective(s.spec.name, i, t.clock, j, u);
    }
  }

  /** The Jobs of all other replicas are still there, none of them deleted. */
  ghost predicate OthersKept(s: State, l: Loss, m: State)
  {
    forall o :: o in s.jobs && !AtLost(s, l, o) ==>
      o in m.jobs && Acknowledged(l.jobs, o, s.jobs[o], m.jobs[o]) && m.deletes[o] == s.deletes[o]
  }

  lemma RoundKeepsOthers(s: State, l: Loss, noJob: set<nat>, m: State)
    requires Base(s, l) && Drifts(Pass(s, {}, noJob), m, l.jobs)
    ensures OthersKept(s, l, m)
  {
    hide Base, Pass, AfterPreemption, FleetGrown, JobsFit, JobsInv, HasApplicable, RestoredBy, FirstUsable,
      NewcomerOk, Comes, Counts;
    PassWent(s, l, noJob);
    var t, p := AfterPreemption(s), Pass(s, {}, noJob);
    forall o | o in s.jobs && !AtLost(s, l, o)
      ensures o in m.jobs && Acknowledged(l.jobs, o, s.jobs[o], m.jobs[o]) && m.deletes[o] == s.deletes[o]
    {
      assert JobOutcome(s, l, t, o);
      assert p.jobs[o] == s.jobs[o] && Acknowledged(l.jobs, o, p.jobs[o], m.jobs[o]);
    }
  }

  // ---------- The situation after a round ----------

  lemma GrownNames(t: State, p: State, n: nat, now: int)
    requires FleetGrown(t, p, n) && NamesOk(t.pis, t.spec, t.clock) && t.clock < now
    ensures NamesOk(p.pis, t.spec, now)
  {
    hide InstanceName, Taken, Range;
    forall k | 0 <= k < |p.pis| ensures NameOk(p.pis[k], t.spec, now) {
      if k < |t.pis| { assert NameOk(t.pis[k], t.spec, t.clock); }
    }
    forall j, k | 0 <= j < k < |p.pis| ensures p.pis[j].name != p.pis[k].name {
      if k >= |t.pis| {
        assert NameOk(p.pis[j], t.spec, now) && NameOk(p.pis[k], t.spec, now);
        assert MemberOk(p.pis[k], n) && !p.pis[k].notice;
        if j < |t.pis| { assert NameOk(t.pis[j], t.spec, t.clock); }
        InstanceNamesCoincide(t.spec.name, t.spec.template, p.pis[j].index.value, p.pis[j].stamp,
          t.spec.name, t.spec.template, p.pis[k].index.value, p.pis[k].stamp);
      }
    }
  }

  lemma LaterNames(pis: seq<Instance>, later: seq<Instance>, spec: Spec, now: int, end: int)
    requires NamesOk(pis, spec, now) && now <= end && |later| == |pis|
    requires forall k :: 0 <= k < |pis| ==> Comes(pis[k], later[k])
    ensures NamesOk(later, spec, end)
  {
    hide InstanceName;
    forall k | 0 <= k < |later| ensures NameOk(later[k], spec, end) {
      assert NameOk(pis[k], spec, now) && Comes(pis[k], later[k]);
    }
    forall j, k | 0 <= j < k < |later| ensures later[j].name != later[k].name {
      assert Comes(pis[j], later[j]) && Comes(pis[k], later[k]);
    }
  }

  lemma NamesNext(s: State, l: Loss, t: State, p: State, m: State)
    requires Base(s, l) && Went(s, l, t, p) && Drifts(p, m, l.jobs)
    ensures NamesOk(m.pis, m.spec, m.clock)
  {
    hide JobBase, CheckpointBase, InstanceName, Range, Taken, FleetOk, Comes, Ends, JobOutcome, JobsFit, JobsInv,
      NewcomerOk, NameOk, Noticed;
    if HasPending(t.checkpoints) {
      LaterNames(p.pis, m.pis, s.spec, s.clock, m.clock);
    } else {
      SameNames(s, t);
      GrownNames(t, p, l.n, m.clock);
      LaterNames(p.pis, m.pis, s.spec, m.clock, m.clock);
    }
  }

  lemma FleetNext(s: State, l: Loss, t: State, p: State, m: State)
    requires Base(s, l) && Went(s, l, t, p) && Drifts(p, m, l.jobs)
    ensures FleetBase(m, l)
    ensures if HasPending(t.checkpoints) then Taken(m.pis) == Taken(s.pis) else Staffed(m.pis, l.n)
  {
    hide JobBase, CheckpointBase, NamesOk, Range, Taken, FleetOk, Comes, Ends, Handled, JobsFit, JobsInv, NewcomerOk,
      Noticed, FirstUsable;
    NamesNext(s, l, t, p, m);
    PassPrefix(s, l, t, p);
    if !HasPending(t.checkpoints) { GrownFleetOk(t, p, l.n); }
    forall i: nat | i < l.n && i !in l.indices ensures FirstUsable(m.pis, i).Some? {
      UsableStays(s.pis, m.pis, l.n, i);
    }
    FleetComes(p.pis, m.pis, l.n);
    LostBelow(s, l);
    forall i | i in l.indices ensures Noticed(m.pis, i) {
      StillNoticed(s, l, t, p, m, i);
    }
  }

  lemma LostBelow(s: State, l: Loss)
    requires FleetBase(s, l)
    ensures forall i :: i in l.indices ==> i < l.n && Noticed(s.pis, i)
  {
    hide FleetOk, NamesOk, FirstUsable, Noticed;
    forall i | i in l.indices ensures i < l.n && Noticed(s.pis, i) {
      assert Noticed(s.pis, i);
    }
  }

  lemma SameNames(s: State, t: State)
    requires NamesOk(s.pis, s.spec, s.clock) && t.pis == s.pis && t.spec == s.spec && s.clock <= t.clock
    ensures NamesOk(t.pis, t.spec, t.clock)
  {
    hide InstanceName;
    forall k | 0 <= k < |t.pis| ensures NameOk(t.pis[k], t.spec, t.clock) {
      assert NameOk(s.pis[k], s.spec, s.clock);
    }
  }

  lemma PassPrefix(s: State, l: Loss, t: State, p: State)
    requires Went(s, l, t, p)
    ensures |s.pis| <= |p.pis| && p.spec == s.spec && forall k :: 0 <= k < |s.pis| ==> p.pis[k] == s.pis[k]
    ensures p.checkpoints == t.checkpoints && p.clock == t.clock && s.clock <= t.clock && p.deletes == t.deletes
    ensures forall k :: |s.pis| <= k < |p.pis| ==> !p.pis[k].notice && !p.pis[k].joined
    ensures t.pis == s.pis && t.spec == s.spec && (HasPending(t.checkpoints) ==> p.pis == s.pis)
  {
    hide JobOutcome, InstanceName, FleetOk, Taken, Range, JobsFit, JobsInv, NewcomerOk;
  }

  lemma StillNoticed(s: State, l: Loss, t: State, p: State, m: State, i: nat)
    requires Went(s, l, t, p) && Drifts(p, m, l.jobs) && Noticed(s.pis, i)
    ensures Noticed(m.pis, i)
  {
    hide Went;
    PassPrefix(s, l, t, p);
    var k :| 0 <= k < |s.pis| && s.pis[k].notice && s.pis[k].index == Some(i);
    assert Comes(p.pis[k], m.pis[k]);
  }

  lemma JobsNext(s: State, l: Loss, t: State, p: State, m: State)
    requires Base(s, l) && Went(s, l, t, p) && Drifts(p, m, l.jobs) && OthersKept(s, l, m)
    ensures JobBase(m, l)
  {
    hide FleetBase, CheckpointBase, JobsInv, Comes, JobOutcome, Grown, Counts, Ends, LostNamed;
    DriftsKeepJobs(p, m, l.jobs);
    JobsFitNext(s, l, t, p, m);
    LostNamedNext(s, l, t, p, m);
    forall i: nat | i < l.n && i !in l.indices ensures HasJob(m, i) {
      assert HasJob(s, i);
      var o :| o in s.jobs && s.jobs[o].index == Some(i);
      assert Acknowledged(l.jobs, o, s.jobs[o], m.jobs[o]);
    }
    forall k, o | 0 <= k < |m.pis| && m.pis[k].notice && o in m.jobs && m.jobs[o].index == m.pis[k].index
      ensures AtLost(m, l, o) || m.jobs[o].annotated
    {
      NoticedEarlier(s, l, t, p, m, k, o);
    }
  }

  lemma JobsFitNext(s: State, l: Loss, t: State, p: State, m: State)
    requires Base(s, l) && Went(s, l, t, p) && Drifts(p, m, l.jobs)
    ensures JobsFit(m.jobs, l.n) && AllCount(m.jobs, l.jobs)
  {
    hide FleetBase, CheckpointBase, JobsInv, Comes, JobOutcome, FleetGrown, Counts, Ends, LostNamed, JobName,
      FreshJob, Ready, TakenByJobs;
    forall o | o in m.jobs ensures JobFits(m.jobs[o], l.n) && (o !in l.jobs ==> Counts(m.jobs[o])) {
      assert Acknowledged(l.jobs, o, p.jobs[o], m.jobs[o]);
      if o in t.jobs {
        assert JobFits(t.jobs[o], l.n);
      } else {
        NewcomersAtLost(s, l, t, p, o);
        FreshFits(t, p, o);
      }
    }
  }

  lemma FreshFits(t: State, p: State, o: string)
    requires o in p.jobs && p.jobs[o].index.Some?
    requires p.jobs[o] == FreshJob(t.spec, p.pis, p.jobs[o].index.value, t.clock)
    ensures p.jobs[o].deletedAt.None? && !p.jobs[o].annotated && p.jobs[o].containers == t.spec.containers
  {
  }

  lemma LostNamedNext(s: State, l: Loss, t: State, p: State, m: State)
    requires Base(s, l) && Went(s, l, t, p) && Drifts(p, m, l.jobs)
    ensures LostNamed(m, l)
  {
    hide FleetBase, CheckpointBase, JobsFit, JobsInv, Comes, JobOutcome, FleetGrown, Counts, Ends, Spent, NewcomerOk;
    PassPrefix(s, l, t, p);
    forall o | o in l.jobs ensures Spent(o, m.spec, m.clock) && (o in m.jobs ==> AtLost(m, l, o)) {
      SpentLater(o, s.spec, s.clock, m.clock);
      if o in m.jobs {
        assert Acknowledged(l.jobs, o, p.jobs[o], m.jobs[o]);
        if o in t.jobs {
          OutcomeKeepsIndex(s, l, t, o);
        } else {
          NewcomersAtLost(s, l, t, p, o);
        }
      }
    }
  }

  lemma NoticedEarlier(s: State, l: Loss, t: State, p: State, m: State, k: nat, o: string)
    requires Base(s, l) && Went(s, l, t, p) && Drifts(p, m, l.jobs)
    requires k < |m.pis| && m.pis[k].notice && o in m.jobs && m.jobs[o].index == m.pis[k].index
    ensures AtLost(m, l, o) || m.jobs[o].annotated
  {
    hide FleetBase, JobBase, CheckpointBase, JobsFit, JobsInv, Handled, FleetGrown, NewcomerOk, Ends, Counts;
    PassPrefix(s, l, t, p);
    assert Comes(p.pis[k], m.pis[k]) && s.pis[k].notice && s.pis[k].index == m.pis[k].index;
    assert Acknowledged(l.jobs, o, p.jobs[o], m.jobs[o]);
    if o in t.jobs {
      OutcomeKeepsIndex(s, l, t, o);
      NoticedBefore(s, l, k, o);
    } else {
      NewcomersAtLost(s, l, t, p, o);
    }
  }

  lemma NoticedBefore(s: State, l: Loss, k: nat, o: string)
    requires Base(s, l) && k < |s.pis| && s.pis[k].notice && o in s.jobs && s.jobs[o].index == s.pis[k].index
    ensures AtLost(s, l, o) || s.jobs[o].annotated
  {
    hide FleetBase, CheckpointBase, JobsFit, JobsInv, LostNamed, AllCount, HasJob;
  }

  lemma OutcomeKeepsIndex(s: State, l: Loss, t: State, o: string)
    requires Base(s, l) && Handled(s, l, t) && o in t.jobs
    ensures o in s.jobs && t.jobs[o].index == s.jobs[o].index && (s.jobs[o].annotated ==> t.jobs[o] == s.jobs[o])
    ensures t.jobs[o] != s.jobs[o] ==> t.jobs[o].annotated
  {
    hide FleetBase, CheckpointBase, JobsInv, RestoredBy, HasApplicable, FirstUsable;
    assert JobOutcome(s, l, t, o) && JobFits(s.jobs[o], l.n);
    if t.jobs[o] != s.jobs[o] {
      RestoredJobOk(s, o, s.jobs[o], t.jobs[o]);
    }
  }

  lemma CheckpointsNext(s: State, l: Loss, t: State, p: State, m: State)
    requires Base(s, l) && Went(s, l, t, p) && AllNewOk(s, l, t) && Drifts(p, m, l.jobs)
    ensures CheckpointBase(m)
  {
    hide FleetBase, JobOutcome, Grown, Comes, JobsFit, HasLive, CheckpointName, Spent, Acknowledged;
    PassPrefix(s, l, t, p);
    forall c | 0 <= c < |m.checkpoints| ensures CheckpointOk(m.checkpoints[c], m.spec, m.clock) {
      assert Ends(p.checkpoints[c], m.checkpoints[c]);
      if c < |s.checkpoints| {
        assert CheckpointOk(s.checkpoints[c], s.spec, s.clock);
        SpentLater(s.checkpoints[c].source.value, s.spec, s.clock, m.clock);
      } else {
        assert NewOk(s, l, t.checkpoints[c], t.clock);
        var j := t.checkpoints[c].source.value;
        assert JobOk(j, s.jobs[j], s.spec, s.clock);
        NowSpent(j, s.jobs[j], s.spec, s.clock, m.clock);
      }
    }
  }

  lemma BaseNext(s: State, l: Loss, noJob: set<nat>, m: State)
    requires Base(s, l) && Drifts(Pass(s, {}, noJob), m, l.jobs) && AllNewOk(s, l, AfterPreemption(s))
    ensures Base(m, l)
  {
    hide FleetBase, JobBase, CheckpointBase, Pass, AfterPreemption, JobOutcome, Grown, AllNewOk, OthersKept, Comes,
      Counts;
    PassWent(s, l, noJob);
    RoundKeepsOthers(s, l, noJob, m);
    var t, p := AfterPreemption(s), Pass(s, {}, noJob);
    FleetNext(s, l, t, p, m);
    JobsNext(s, l, t, p, m);
    CheckpointsNext(s, l, t, p, m);
    PassPrefix(s, l, t, p);
  }
}
