/** What preemption handling does, exactly, when some replicas of a cluster have been lost. */
module LostReplicas {
  import opened Names
  import opened Objects
  import opened Checkpoints
  import opened Restore
  import opened Preemption
  import opened InstanceAllocation
  import opened Controller
  import opened Invariants
  import opened Reactions
  import opened RestoreSafety
  import opened JobInvariants
  import opened Rounds

  // ---------- The situation ----------

  /** Of the `n` replicas those at `indices` have been lost, with the Jobs named `jobs`. */
  datatype Loss = Loss(n: nat, indices: set<nat>, jobs: set<string>)

  /** Job `o` is at a lost index. */
  ghost predicate AtLost(s: State, l: Loss, o: string)
  {
    o in s.jobs && s.jobs[o].index.Some? && s.jobs[o].index.value in l.indices
  }

  ghost predicate HasJob(s: State, i: nat)
  {
    exists o :: o in s.jobs && s.jobs[o].index == Some(i)
  }

  ghost predicate Noticed(pis: seq<Instance>, i: nat)
  {
    exists k :: 0 <= k < |pis| && pis[k].notice && pis[k].index == Some(i)
  }

  ghost predicate NameOk(pi: Instance, spec: Spec, now: int)
  {
    && pi.index.Some? && 0 <= pi.stamp < now
    && pi.name == InstanceName(spec.name, spec.template, pi.index.value, pi.stamp)
  }

  ghost predicate NamesOk(pis: seq<Instance>, spec: Spec, now: int)
  {
    UniqueInstances(pis) && forall k :: 0 <= k < |pis| ==> NameOk(pis[k], spec, now)
  }

  /** At least one replica is lost and at least one is not; those not lost have a usable instance. */
  ghost predicate FleetBase(s: State, l: Loss)
  {
    && FleetOk(s.pis, l.n) && NamesOk(s.pis, s.spec, s.clock)
    && (forall i: nat {:trigger FirstUsable(s.pis, i)} :: i < l.n && i !in l.indices ==> FirstUsable(s.pis, i).Some?)
    && (forall i {:trigger Noticed(s.pis, i)} :: i in l.indices ==> i < l.n && Noticed(s.pis, i))
    && l.indices != {} && exists i: nat :: i < l.n && i !in l.indices
  }

  /** Where an earlier instance was lost, the Job has been restored. */
  ghost predicate EarlierLossesRestored(s: State, l: Loss)
  {
    forall k, o :: 0 <= k < |s.pis| && s.pis[k].notice && o in s.jobs && s.jobs[o].index == s.pis[k].index ==>
      AtLost(s, l, o) || s.jobs[o].annotated
  }

  /** The names of the lost Jobs are from the past, and those still there are at lost indices. */
  ghost predicate LostNamed(s: State, l: Loss)
  {
    forall o :: o in l.jobs ==> Spent(o, s.spec, s.clock) && (o in s.jobs ==> AtLost(s, l, o))
  }

  /** All Jobs count but, perhaps, the lost ones. */
  ghost predicate JobBase(s: State, l: Loss)
  {
    && JobsFit(s.jobs, l.n) && AllCount(s.jobs, l.jobs) && StampsPast(s.jobs, s.clock) && JobsInv(s)
    && EarlierLossesRestored(s, l) && LostNamed(s, l)
    && (forall i: nat {:trigger HasJob(s, i)} :: i < l.n && i !in l.indices ==> HasJob(s, i))
  }

  /** A completed checkpoint reports its images, and the name and the source of any are from the past. */
  ghost predicate CheckpointOk(cp: Checkpoint, spec: Spec, now: int)
  {
    && (Successful(cp) ==> |Images(cp)| > 0) && 0 <= cp.createdAt < now
    && cp.name == CheckpointName(spec.name, cp.pod, cp.createdAt)
    && cp.source.Some? && Spent(cp.source.value, spec, now)
  }

  ghost predicate CheckpointBase(s: State)
  {
    forall c :: 0 <= c < |s.checkpoints| ==> CheckpointOk(s.checkpoints[c], s.spec, s.clock)
  }

  ghost predicate Base(s: State, l: Loss)
  {
    && Desired(s.spec) == l.n && SpecOk(s.spec)
    && FleetBase(s, l) && JobBase(s, l) && CheckpointBase(s)
  }

  /** Away from each lost node there is a live pod, and the first one belongs to a Job that is not still lost. */
  ghost predicate PodsOk(s: State, l: Loss)
  {
    forall k :: 0 <= k < |s.pis| && s.pis[k].notice ==>
      exists p :: FirstAway(s.pods, s.nodes, s.pis[k].nodeName, p) && PodOk(s, l, s.pods[p])
  }

  /** A lost Job that has not been restored. */
  ghost predicate StillLost(s: State, l: Loss, o: string)
  {
    o in l.jobs && !(o in s.jobs && s.jobs[o].annotated)
  }

  ghost predicate PodOk(s: State, l: Loss, pod: Pod)
  {
    && pod.jobLabel.Some? && pod.jobLabel.value != ""
    && pod.jobLabel.value in s.jobs && !StillLost(s, l, pod.jobLabel.value)
  }

  /** It is the one the controller finds. */
  lemma PodFound(s: State, l: Loss, k: nat)
    requires PodsOk(s, l) && k < |s.pis| && s.pis[k].notice
    ensures var pod := FirstAlive(s.pods, s.nodes, s.pis[k].nodeName); pod.Some? && PodOk(s, l, pod.value)
  {
    hide LivePod, StillLost;
    var p :| FirstAway(s.pods, s.nodes, s.pis[k].nodeName, p) && PodOk(s, l, s.pods[p]);
    AwayExact(s.pods, s.nodes, s.pis[k].nodeName);
    OneFirst(s.pods, s.nodes, s.pis[k].nodeName, "");
  }

  // ---------- Who is affected ----------

  lemma FleetAlive(s: State, l: Loss)
    requires Base(s, l)
    ensures SomeAlive(s.pis) && UniqueInstances(s.pis)
    ensures forall k :: 0 <= k < |s.pis| ==> (Preempted(s.pis[k]) <==> s.pis[k].notice)
  {
    hide JobBase, CheckpointBase, NameOk, DistinctIndices, FirstUsable;
    var i: nat :| i < l.n && i !in l.indices;
    var pi := FirstUsable(s.pis, i).value;
    var k :| 0 <= k < |s.pis| && s.pis[k] == pi;
    assert Alive(s.pis[k]);
    assert forall j :: 0 <= j < |s.pis| ==> MemberOk(s.pis[j], l.n);
  }

  /** Exactly the un-restored Jobs at lost indices are affected. */
  lemma AffectedExact(s: State, l: Loss)
    requires Base(s, l)
    ensures forall o :: o in AllAffected(s) <==> AtLost(s, l, o) && !s.jobs[o].annotated
    ensures forall o :: AtLost(s, l, o) ==> s.jobs[o].deletedAt.None?
  {
    hide CheckpointBase, NamesOk, Taken, DistinctIndices, JobsInv;
    FleetAlive(s, l);
    forall o | AtLost(s, l, o) ensures s.jobs[o].deletedAt.None? {
      assert JobFits(s.jobs[o], l.n);
    }
    forall o | o in AllAffected(s) ensures AtLost(s, l, o) && !s.jobs[o].annotated {
      var k :| 0 <= k < |s.pis| && Preempted(s.pis[k]) && o in Affected(s, s.pis[k]);
      assert MemberOk(s.pis[k], l.n);
    }
    forall o | AtLost(s, l, o) && !s.jobs[o].annotated ensures o in AllAffected(s) {
      assert Noticed(s.pis, s.jobs[o].index.value);
      var k :| 0 <= k < |s.pis| && s.pis[k].notice && s.pis[k].index == Some(s.jobs[o].index.value);
      assert o in Affected(s, s.pis[k]);
    }
  }

  // ---------- Every affected Job is hit ----------

  ghost predicate Due(s: State, n: string)
  {
    n in s.jobs && !s.jobs[n].annotated && s.jobs[n].deletedAt.None? && HasApplicable(s, n)
  }

  /** The due Jobs of the instances before position `k` have been dealt with in `m`. */
  ghost predicate Served(s: State, m: State, k: int)
  {
    forall j, n :: 0 <= j < k && j < |s.pis| && Preempted(s.pis[j]) && n in Affected(s, s.pis[j]) && Due(s, n) ==>
      Changed(s, m, n)
  }

  lemma ChangedStays(s: State, m: State, t: State, a: set<string>, b: set<string>, n: string)
    requires Restores(s, m, a) && Restores(m, t, b) && Changed(s, m, n)
    ensures Changed(s, t, n)
  {
    hide RestoredJob, RestoredBy, HasApplicable, FirstUsable;
    assert Justified(s, m, a, n);
    if n in m.jobs {
      AnnotatedAfter(s, m, a, n);
      assert !Changed(m, t, n);
    }
  }

  lemma AnnotatedAfter(s: State, m: State, a: set<string>, n: string)
    requires Restores(s, m, a) && Changed(s, m, n) && n in m.jobs
    ensures m.jobs[n].annotated
  {
    hide FirstUsable, HasApplicable;
    assert Justified(s, m, a, n);
    RestoredIsAnnotated(s, n, s.jobs[n], m.jobs[n]);
  }

  lemma ServeOne(s: State, m: State, k: nat, u: set<string>, n: string)
    requires k < |s.pis| && Preempted(s.pis[k]) && OthersAlive(s.pis, s.pis[k].name) > 0
    requires Restores(s, m, AllAffected(s)) && Affected(m, s.pis[k]) <= u
    requires n in Affected(s, s.pis[k]) && Due(s, n)
    ensures Changed(s, HandleOne(m, s.pis[k], u), n)
  {
    hide AllAffected, Applicable, HandleOne, FirstAlive, Justified, JobsOnNode;
    var t := HandleOne(m, s.pis[k], u);
    HandleOneRestores(m, s.pis[k], u);
    if Changed(s, m, n) {
      ChangedStays(s, m, t, AllAffected(s), u, n);
    } else {
      assert n in Affected(m, s.pis[k]);
      var cp :| cp in s.checkpoints && Applicable(cp, n);
      var j :| 0 <= j < |s.checkpoints| && s.checkpoints[j] == cp;
      assert m.checkpoints[j] == cp && cp in m.checkpoints;
      assert Hit(m, u, m.checkpoints, n);
      HitReplaced(m, u, n);
      HandleOneJobs(m, s.pis[k], u);
    }
  }

  lemma HandleOneJobs(m: State, pi: Instance, u: set<string>)
    requires OthersAlive(m.pis, pi.name) > 0
    ensures HandleOne(m, pi, u).jobs == ProcessCompleted(m, u).jobs
    ensures HandleOne(m, pi, u).clock == ProcessCompleted(m, u).clock
  {
    hide ProcessCompleted, AlreadyHandled, FirstAlive, Added;
  }

  lemma {:induction false} HandleFromServes(s: State, m: State, k: nat, update: set<string>)
    requires UniqueInstances(s.pis) && SomeAlive(s.pis)
    requires Restores(s, m, AllAffected(s)) && update <= AllAffected(s) && Served(s, m, k)
    ensures Served(s, HandleFrom(m, k, update), |s.pis|)
    decreases |s.pis| - k
  {
    hide HandleOne, Affected, AllAffected, Due, Changed, UniqueInstances;
    if k < |s.pis| {
      if Preempted(s.pis[k]) {
        var u := update + Affected(m, m.pis[k]);
        ServeStep(s, m, k, u);
        AffectedLater(s, m, k);
        HandleFromServes(s, HandleOne(m, m.pis[k], u), k + 1, u);
      } else {
        HandleFromServes(s, m, k + 1, update);
      }
    }
  }

  lemma ServeStep(s: State, m: State, k: nat, u: set<string>)
    requires UniqueInstances(s.pis) && SomeAlive(s.pis) && k < |s.pis| && Preempted(s.pis[k])
    requires Restores(s, m, AllAffected(s)) && Affected(m, s.pis[k]) <= u <= AllAffected(s) + Affected(m, s.pis[k])
    requires Served(s, m, k)
    ensures var t := HandleOne(m, s.pis[k], u); Restores(s, t, AllAffected(s)) && Served(s, t, k + 1)
  {
    hide HandleOne, Affected, AllAffected, Due, Changed, Restores;
    var t := HandleOne(m, s.pis[k], u);
    AffectedLater(s, m, k);
    HandleOneRestores(m, s.pis[k], u);
    Widen(m, t, u, AllAffected(s));
    RestoresCompose(s, m, t, AllAffected(s), AllAffected(s));
    SameDecision(s.pis, k);
    forall j, n | 0 <= j < k + 1 && j < |s.pis| && Preempted(s.pis[j]) && n in Affected(s, s.pis[j]) && Due(s, n)
      ensures Changed(s, t, n)
    {
      if j < k {
        ChangedStays(s, m, t, AllAffected(s), AllAffected(s), n);
      } else {
        ServeOne(s, m, k, u, n);
      }
    }
  }

  // ---------- Which checkpoints are started ----------

  ghost predicate HasLive(cps: seq<Checkpoint>, job: string)
  {
    exists cp :: cp in cps && cp.source == Some(job) && Live(cp)
  }

  /** A checkpoint of a Job that is not still lost and had none. */
  ghost predicate NewOk(s: State, l: Loss, cp: Checkpoint, now: int)
  {
    && InFlight(cp) && s.clock <= cp.createdAt <= now && cp.name == CheckpointName(s.spec.name, cp.pod, cp.createdAt)
    && cp.source.Some? && cp.source.value in s.jobs && !StillLost(s, l, cp.source.value)
    && !HasLive(s.checkpoints, cp.source.value)
  }

  ghost predicate AllNewOk(s: State, l: Loss, m: State)
  {
    |s.checkpoints| <= |m.checkpoints| &&
    forall c :: |s.checkpoints| <= c < |m.checkpoints| ==> NewOk(s, l, m.checkpoints[c], m.clock)
  }

  lemma AddedOk(s: State, l: Loss, r: State, k: nat)
    requires PodsOk(s, l) && k < |s.pis| && s.pis[k].notice
    requires Restores(s, r, AllAffected(s)) && JobsOk(r) && AllNewOk(s, l, r)
    ensures AllNewOk(s, l, CheckpointAlive(r, s.pis[k].nodeName))
  {
    hide PodsOk, AllAffected, Changed, Justified, JobName, CheckpointName, FirstAlive, FirstOfJob, Requested;
    var pod := FirstAlive(s.pods, s.nodes, s.pis[k].nodeName);
    PodFound(s, l, k);
    var j := JobOf(pod.value);
    var t := CheckpointAlive(r, s.pis[k].nodeName);
    assert t == WithCheckpoint(r, j);
    JobsOkNoneRecreated(r);
    NotLive(r, j);
    forall c | |s.checkpoints| <= c < |t.checkpoints| ensures NewOk(s, l, t.checkpoints[c], t.clock) {
      if c >= |r.checkpoints| {
        NoEarlierLive(s, r, j);
      } else {
        assert NewOk(s, l, r.checkpoints[c], r.clock);
      }
    }
  }

  lemma NotLive(r: State, j: string)
    requires NoneRecreated(r.jobs)
    ensures MayCheckpoint(r.checkpoints, r.jobs, j) <==> !HasLive(r.checkpoints, j)
  {
    assert !Recreated(r.jobs, j);
  }

  lemma NoEarlierLive(s: State, r: State, j: string)
    requires |s.checkpoints| <= |r.checkpoints|
    requires forall c :: 0 <= c < |s.checkpoints| ==> r.checkpoints[c] == s.checkpoints[c]
    ensures HasLive(s.checkpoints, j) ==> HasLive(r.checkpoints, j)
  {
    if HasLive(s.checkpoints, j) {
      var cp :| cp in s.checkpoints && cp.source == Some(j) && Live(cp);
      var c :| 0 <= c < |s.checkpoints| && s.checkpoints[c] == cp;
      assert r.checkpoints[c] == cp && cp in r.checkpoints;
    }
  }

  lemma {:induction false} HandleFromNew(s: State, l: Loss, m: State, k: nat, update: set<string>)
    requires Base(s, l) && PodsOk(s, l)
    requires Restores(s, m, AllAffected(s)) && update <= AllAffected(s) && AllNewOk(s, l, m)
    ensures AllNewOk(s, l, HandleFrom(m, k, update))
    decreases |s.pis| - k
  {
    hide HandleOne, Affected, AllAffected, Restores, Base, PodsOk, AllNewOk;
    assert m.pis == s.pis by { SamePis(s, m, AllAffected(s)); }
    if k < |s.pis| {
      if Preempted(s.pis[k]) {
        var u := update + Affected(m, m.pis[k]);
        AffectedLater(s, m, k);
        NewStep(s, l, m, k, u);
        HandleFromNew(s, l, HandleOne(m, m.pis[k], u), k + 1, u);
      } else {
        HandleFromNew(s, l, m, k + 1, update);
      }
    }
  }

  lemma SamePis(s: State, m: State, a: set<string>)
    requires Restores(s, m, a)
    ensures m.pis == s.pis && m.spec == s.spec && m.pods == s.pods && m.nodes == s.nodes && s.clock <= m.clock
  {
    hide Changed, Justified;
  }

  lemma NewStep(s: State, l: Loss, m: State, k: nat, u: set<string>)
    requires Base(s, l) && PodsOk(s, l) && k < |s.pis| && Preempted(s.pis[k])
    requires Restores(s, m, AllAffected(s)) && u <= AllAffected(s) && AllNewOk(s, l, m)
    ensures Restores(s, HandleOne(m, s.pis[k], u), AllAffected(s))
    ensures AllNewOk(s, l, HandleOne(m, s.pis[k], u))
  {
    hide ProcessCompleted, AllAffected, Restores, AlreadyHandled, CheckpointAlive, FleetOk, NamesOk, CheckpointBase,
      DeletedOnce, PodsOk, NewOk;
    var t := HandleOne(m, s.pis[k], u);
    HandleOneRestores(m, s.pis[k], u);
    Widen(m, t, u, AllAffected(s));
    RestoresCompose(s, m, t, AllAffected(s), AllAffected(s));
    FleetAlive(s, l);
    SameDecision(s.pis, k);
    SamePis(s, m, AllAffected(s));
    var r := ProcessCompleted(m, u);
    ProcessCompletedRestores(m, u);
    SamePis(m, r, u);
    Widen(m, r, u, AllAffected(s));
    RestoresCompose(s, m, r, AllAffected(s), AllAffected(s));
    RestoresKeepJobs(s, r, AllAffected(s));
    SameCheckpoints(m, u);
    StillNewOk(s, l, m, r);
    AddedOk(s, l, r, k);
  }

  lemma StillNewOk(s: State, l: Loss, m: State, r: State)
    requires AllNewOk(s, l, m) && r.checkpoints == m.checkpoints && m.clock <= r.clock
    ensures AllNewOk(s, l, r)
  {
    hide HasLive, CheckpointName;
    forall c | |s.checkpoints| <= c < |r.checkpoints| ensures NewOk(s, l, r.checkpoints[c], r.clock) {
      assert NewOk(s, l, m.checkpoints[c], m.clock);
    }
  }

  // ---------- The phase ----------

  /**
    A Job at a lost index that was not restored before is replaced by its restored version if its index has
    a usable instance, and is lost for good if it has none, provided a checkpoint was taken from another Job.
    Every other Job stays as it is, and all do while a checkpoint is in progress.
  */
  ghost predicate JobOutcome(s: State, l: Loss, t: State, o: string)
    requires o in s.jobs
  {
    if !HasPending(s.checkpoints) && AtLost(s, l, o) && !s.jobs[o].annotated && HasApplicable(s, o) then
      if FirstUsable(s.pis, IndexOrZero(s.jobs[o])).Some?
      then o in t.jobs && RestoredBy(s, o, s.jobs[o], t.jobs[o])
      else o !in t.jobs
    else Lookup(t.jobs, o) == Some(s.jobs[o])
  }

  ghost predicate Handled(s: State, l: Loss, t: State)
  {
    && SameButJobs(s, t) && t.launched == s.launched && s.clock <= t.clock
    && (forall o :: o in t.jobs ==> o in s.jobs)
    && (forall o :: o in s.jobs ==> JobOutcome(s, l, t, o))
    && (forall o :: !AtLost(s, l, o) ==> t.deletes[o] == s.deletes[o])
    && |s.checkpoints| <= |t.checkpoints|
    && (forall c :: 0 <= c < |s.checkpoints| ==> t.checkpoints[c] == s.checkpoints[c])
    && (forall c :: |s.checkpoints| <= c < |t.checkpoints| ==> InFlight(t.checkpoints[c]))
  }

  lemma PhaseExact(s: State, l: Loss)
    requires Base(s, l)
    ensures Handled(s, l, AfterPreemption(s))
  {
    hide HandleFrom, AllAffected, FleetBase, JobBase, CheckpointBase, FirstUsable, RestoredBy, SomeAlive;
    var t := AfterPreemption(s);
    if HasPending(s.checkpoints) { return; }
    FleetAlive(s, l);
    PreemptionRestores(s);
    UniformDecision(s);
    RestoresNothing(s, s, AllAffected(s));
    HandleFromServes(s, s, 0, {});
    AffectedExact(s, l);
    forall o | o in s.jobs ensures JobOutcome(s, l, t, o) {
      OutcomeOf(s, l, t, o);
    }
    assert forall o :: Changed(s, t, o) ==> Justified(s, t, AllAffected(s), o);
  }

  lemma OutcomeOf(s: State, l: Loss, t: State, o: string)
    requires Base(s, l) && !HasPending(s.checkpoints) && Restores(s, t, AllAffected(s)) && Served(s, t, |s.pis|)
    requires o in s.jobs
    ensures JobOutcome(s, l, t, o)
  {
    hide AllAffected, Affected, FleetBase, JobBase, CheckpointBase, FirstUsable, RestoredBy, HasApplicable;
    AffectedExact(s, l);
    if Changed(s, t, o) {
      assert Justified(s, t, AllAffected(s), o);
      if o in t.jobs { RestoredHasInstance(s, o, s.jobs[o], t.jobs[o]); }
    } else if Due(s, o) && o in AllAffected(s) {
      AffectedSomewhere(s, o);
      assert false;
    }
  }

  lemma RestoredHasInstance(s: State, n: string, before: Job, after: Job)
    requires RestoredBy(s, n, before, after)
    ensures FirstUsable(s.pis, IndexOrZero(before)).Some?
  {
    hide FirstUsable, RestoredJob;
  }

  lemma AffectedSomewhere(s: State, o: string)
    requires o in AllAffected(s)
    ensures exists j :: 0 <= j < |s.pis| && Preempted(s.pis[j]) && o in Affected(s, s.pis[j])
  {
  }

  lemma PhaseCheckpoints(s: State, l: Loss)
    requires Base(s, l) && PodsOk(s, l)
    ensures AllNewOk(s, l, AfterPreemption(s))
  {
    hide HandleFrom, AllAffected, Base, PodsOk, Restores, NewOk;
    RestoresNothing(s, s, AllAffected(s));
    if !HasPending(s.checkpoints) { HandleFromNew(s, l, s, 0, {}); }
  }

  // ---------- Phases without effect ----------

  /** No checkpoint can be applied to a Job that was lost. */
  ghost predicate NothingApplies(s: State, l: Loss)
  {
    forall o :: AtLost(s, l, o) && !s.jobs[o].annotated ==> !HasApplicable(s, o)
  }

  lemma NothingToProcess(s: State, l: Loss, update: set<string>)
    requires NothingApplies(s, l) && forall o :: o in update ==> AtLost(s, l, o) && !s.jobs[o].annotated
    ensures ProcessCompleted(s, update) == s
  {
    forall n ensures !Hit(s, update, s.checkpoints, n) {
    }
    assert Deleted(s, update) == {};
    assert ProcessCompleted(s, update).jobs == s.jobs;
  }

  lemma {:induction false} IdleFrom(s: State, l: Loss, k: nat, update: set<string>)
    requires Base(s, l) && NothingApplies(s, l) && AlreadyHandled(s) && update <= AllAffected(s)
    ensures HandleFrom(s, k, update) == s
    decreases |s.pis| - k
  {
    hide Base, NothingApplies, AlreadyHandled, Affected, AllAffected, ProcessCompleted;
    if k < |s.pis| {
      if Preempted(s.pis[k]) {
        var u := update + Affected(s, s.pis[k]);
        AffectedNow(s, k);
        FleetAlive(s, l);
        SameDecision(s.pis, k);
        AffectedExact(s, l);
        NothingToProcess(s, l, u);
        IdleFrom(s, l, k + 1, u);
      } else {
        IdleFrom(s, l, k + 1, update);
      }
    }
  }

  lemma AffectedNow(s: State, k: nat)
    requires k < |s.pis| && Preempted(s.pis[k])
    ensures Affected(s, s.pis[k]) <= AllAffected(s)
  {
  }

  /** Once handled, with nothing left to restore, the phase does nothing. */
  lemma PhaseIdle(s: State, l: Loss)
    requires Base(s, l) && NothingApplies(s, l) && AlreadyHandled(s)
    ensures AfterPreemption(s) == s
  {
    hide Base, HandleFrom, NothingApplies, AlreadyHandled, AllAffected;
    IdleFrom(s, l, 0, {});
  }

  /** Otherwise, with nothing to restore, the first lost instance gets a checkpoint started. */
  lemma {:induction false} StartsFrom(s: State, l: Loss, k: nat, update: set<string>)
    requires Base(s, l) && PodsOk(s, l) && NothingApplies(s, l) && !AlreadyHandled(s) && update <= AllAffected(s)
    requires forall o :: o in s.jobs && !StillLost(s, l, o) ==> !HasLive(s.checkpoints, o)
    requires exists j :: k <= j < |s.pis| && s.pis[j].notice
    ensures |HandleFrom(s, k, update).checkpoints| > |s.checkpoints|
    decreases |s.pis| - k
  {
    hide Base, NothingApplies, AlreadyHandled, Affected, AllAffected, ProcessCompleted, PodsOk, HasLive,
      CheckpointAlive;
    FleetAlive(s, l);
    if Preempted(s.pis[k]) {
      var u := update + Affected(s, s.pis[k]);
      AffectedNow(s, k);
      SameDecision(s.pis, k);
      AffectedExact(s, l);
      NothingToProcess(s, l, u);
      Starts(s, l, k);
      HandleFromExtends(HandleOne(s, s.pis[k], u), k + 1, u);
    } else {
      StartsFrom(s, l, k + 1, update);
    }
  }

  lemma Starts(s: State, l: Loss, k: nat)
    requires Base(s, l) && PodsOk(s, l) && k < |s.pis| && s.pis[k].notice
    requires forall o :: o in s.jobs && !StillLost(s, l, o) ==> !HasLive(s.checkpoints, o)
    ensures |CheckpointAlive(s, s.pis[k].nodeName).checkpoints| == |s.checkpoints| + 1
  {
    hide FleetBase, FirstAlive, FirstOfJob, HasLive, MayCheckpoint, CheckpointName, JobName, DeletedOnce, JobsFit;
    var pod := FirstAlive(s.pods, s.nodes, s.pis[k].nodeName);
    PodFound(s, l, k);
    var j := JobOf(pod.value);
    JobsOkNoneRecreated(s);
    NotLive(s, j);
    assert AliveFor(pod.value, s.nodes, j);
    var name := NewCheckpoint(s.spec, j, FirstOfJob(s.pods, s.nodes, j).value, s.clock).name;
    NameUnused(s, FirstOfJob(s.pods, s.nodes, j).value.name, name);
  }

  lemma NameUnused(s: State, pod: string, name: string)
    requires CheckpointBase(s) && name == CheckpointName(s.spec.name, pod, s.clock)
    ensures !NameUsed(s.checkpoints, name)
  {
    hide CheckpointName, Spent;
    forall cp | cp in s.checkpoints ensures cp.name != name {
      var c :| 0 <= c < |s.checkpoints| && s.checkpoints[c] == cp;
      assert CheckpointOk(s.checkpoints[c], s.spec, s.clock);
      if cp.name == name {
        CheckpointNameTime(s.spec.name, cp.pod, cp.createdAt, pod, s.clock);
      }
    }
  }

  lemma PhaseStarts(s: State, l: Loss)
    requires Base(s, l) && PodsOk(s, l) && NothingApplies(s, l) && !AlreadyHandled(s) && !HasPending(s.checkpoints)
    requires forall o :: o in s.jobs && !StillLost(s, l, o) ==> !HasLive(s.checkpoints, o)
    ensures HasPending(AfterPreemption(s).checkpoints)
  {
    hide HandleFrom, NothingApplies, AlreadyHandled, AllAffected, PodsOk, HasLive, JobBase, FleetOk, NamesOk,
      CheckpointBase;
    SomeNotice(s, l);
    StartsFrom(s, l, 0, {});
    HandleFromExtends(s, 0, {});
    var t := AfterPreemption(s);
    assert t.checkpoints[|s.checkpoints|] in t.checkpoints;
  }

  lemma SomeNotice(s: State, l: Loss)
    requires Base(s, l)
    ensures exists j :: 0 <= j < |s.pis| && s.pis[j].notice
  {
    hide FleetOk, NamesOk, JobBase, CheckpointBase, FirstUsable;
    var i :| i in l.indices;
    assert Noticed(s.pis, i);
  }

  /** `m` is `s` with more checkpoints, all of them in progress. */
  ghost predicate MoreCheckpoints(s: State, m: State)
  {
    m == s.(checkpoints := m.checkpoints) && Extends(s, m, |m.checkpoints|)
  }

  lemma StillNothingApplies(s: State, l: Loss, m: State)
    requires NothingApplies(s, l) && MoreCheckpoints(s, m)
    ensures NothingApplies(m, l)
  {
    forall o | AtLost(m, l, o) && !m.jobs[o].annotated ensures !HasApplicable(m, o) {
      assert AtLost(s, l, o) && !HasApplicable(s, o);
      forall cp | cp in m.checkpoints ensures !Applicable(cp, o) {
        var c :| 0 <= c < |m.checkpoints| && m.checkpoints[c] == cp;
        assert c < |s.checkpoints| ==> s.checkpoints[c] in s.checkpoints;
      }
    }
  }

  lemma CheckpointsOnly(s: State, lost: string)
    ensures MoreCheckpoints(s, CheckpointAlive(s, lost))
  {
    hide FirstAlive, FirstOfJob, MayCheckpoint;
  }

  lemma {:induction false} OnlyCheckpointsFrom(s: State, l: Loss, m: State, k: nat, update: set<string>)
    requires Base(s, l) && NothingApplies(s, l) && MoreCheckpoints(s, m) && update <= AllAffected(s)
    ensures MoreCheckpoints(s, HandleFrom(m, k, update))
    decreases |s.pis| - k
  {
    hide Base, NothingApplies, AlreadyHandled, Affected, AllAffected, ProcessCompleted, CheckpointAlive, AtLost;
    if k < |s.pis| {
      if Preempted(s.pis[k]) {
        var u := update + Affected(m, s.pis[k]);
        AffectedNow(s, k);
        SameAffected(s, m, s.pis[k]);
        FleetAlive(s, l);
        SameDecision(s.pis, k);
        AffectedExact(s, l);
        StillNothingApplies(s, l, m);
        SameLost(s, m, l);
        NothingToProcess(m, l, u);
        CheckpointsOnly(m, s.pis[k].nodeName);
        OnlyCheckpointsFrom(s, l, HandleOne(m, s.pis[k], u), k + 1, u);
      } else {
        OnlyCheckpointsFrom(s, l, m, k + 1, update);
      }
    }
  }

  lemma SameAffected(s: State, m: State, pi: Instance)
    requires m.jobs == s.jobs && m.pods == s.pods
    ensures Affected(m, pi) == Affected(s, pi)
  {
  }

  lemma SameLost(s: State, m: State, l: Loss)
    requires m.jobs == s.jobs
    ensures forall o :: AtLost(m, l, o) <==> AtLost(s, l, o)
  {
  }

  /** With nothing to restore the phase does nothing but start checkpoints. */
  lemma PhaseOnlyCheckpoints(s: State, l: Loss)
    requires Base(s, l) && NothingApplies(s, l)
    ensures MoreCheckpoints(s, AfterPreemption(s))
  {
    hide Base, HandleFrom, NothingApplies, AllAffected;
    if !HasPending(s.checkpoints) { OnlyCheckpointsFrom(s, l, s, 0, {}); }
  }

  // ---------- Restoring ----------

  /** Every Job that was lost is due and can be placed. */
  ghost predicate AllRestorable(s: State, l: Loss)
  {
    && (forall i :: i in l.indices ==> HasJob(s, i) && FirstUsable(s.pis, i).Some?)
    && (forall o :: AtLost(s, l, o) && !s.jobs[o].annotated ==> HasApplicable(s, o))
  }

  lemma RestoredNow(s: State, l: Loss, m: State, k: nat, u: set<string>)
    requires Base(s, l) && AllRestorable(s, l) && k < |s.pis| && s.pis[k].notice
    requires Restores(s, m, AllAffected(s)) && Affected(m, s.pis[k]) <= u
    requires Restores(s, ProcessCompleted(m, u), AllAffected(s))
    ensures HasRestored(ProcessCompleted(m, u).jobs)
  {
    hide AllAffected, FleetOk, NamesOk, JobsInv, CheckpointBase, ProcessCompleted, Due, FirstUsable, RestoredBy,
      HasApplicable, Applicable;
    FleetAlive(s, l);
    SameDecision(s.pis, k);
    NoticedHasJob(s, l, k);
    var i := s.pis[k].index.value;
    var o :| o in s.jobs && s.jobs[o].index == Some(i);
    RestoredStep(s, l, m, k, u, o);
  }

  lemma MembersHaveIndex(s: State, l: Loss, k: nat)
    requires Base(s, l) && k < |s.pis|
    ensures s.pis[k].index.Some? && s.pis[k].index.value < l.n
  {
    assert MemberOk(s.pis[k], l.n);
  }

  lemma NoticedHasJob(s: State, l: Loss, k: nat)
    requires Base(s, l) && AllRestorable(s, l) && k < |s.pis|
    ensures s.pis[k].index.Some? && HasJob(s, s.pis[k].index.value)
  {
    hide HasJob, FleetOk, NamesOk, CheckpointBase, JobsInv, FirstUsable;
    MembersHaveIndex(s, l, k);
  }

  lemma RestoredStep(s: State, l: Loss, m: State, k: nat, u: set<string>, o: string)
    requires Base(s, l) && AllRestorable(s, l) && k < |s.pis| && s.pis[k].notice
    requires OthersAlive(s.pis, s.pis[k].name) > 0 && Preempted(s.pis[k])
    requires Restores(s, m, AllAffected(s)) && Affected(m, s.pis[k]) <= u
    requires Restores(s, ProcessCompleted(m, u), AllAffected(s))
    requires o in s.jobs && s.jobs[o].index.Some? && s.jobs[o].index == s.pis[k].index
    ensures HasRestored(ProcessCompleted(m, u).jobs)
  {
    hide AllAffected, FleetBase, JobsFit, JobsInv, CheckpointBase, ProcessCompleted, FirstUsable, RestoredBy,
      HasApplicable;
    var r := ProcessCompleted(m, u);
    AffectedExact(s, l);
    if AtLost(s, l, o) && !s.jobs[o].annotated {
      assert o in Affected(s, s.pis[k]) && Due(s, o);
      ServeOne(s, m, k, u, o);
      HandleOneJobs(m, s.pis[k], u);
      SamePis(s, m, AllAffected(s));
      assert Changed(s, r, o) && Justified(s, r, AllAffected(s), o);
      AnnotatedAfter(s, r, AllAffected(s), o);
    } else {
      assert s.jobs[o].annotated;
      assert !Changed(s, r, o) && r.jobs[o] == s.jobs[o];
    }
  }

  /** While every lost Job can be restored at once, no checkpoint is started. */
  lemma {:induction false} NoneStartedFrom(s: State, l: Loss, m: State, k: nat, update: set<string>)
    requires Base(s, l) && AllRestorable(s, l) && HasCompleted(s.checkpoints)
    requires Restores(s, m, AllAffected(s)) && update <= AllAffected(s) && m.checkpoints == s.checkpoints
    ensures HandleFrom(m, k, update).checkpoints == s.checkpoints
    decreases |s.pis| - k
  {
    hide HandleOne, Affected, AllAffected, Restores, Base, AllRestorable, HasCompleted;
    SamePis(s, m, AllAffected(s));
    if k < |s.pis| {
      if Preempted(s.pis[k]) {
        var u := update + Affected(m, m.pis[k]);
        AffectedLater(s, m, k);
        NoneStarted(s, l, m, k, u);
        NoneStartedFrom(s, l, HandleOne(m, m.pis[k], u), k + 1, u);
      } else {
        NoneStartedFrom(s, l, m, k + 1, update);
      }
    }
  }

  lemma NoneStarted(s: State, l: Loss, m: State, k: nat, u: set<string>)
    requires Base(s, l) && AllRestorable(s, l) && HasCompleted(s.checkpoints)
    requires Restores(s, m, AllAffected(s)) && m.checkpoints == s.checkpoints
    requires k < |s.pis| && Preempted(s.pis[k]) && Affected(m, s.pis[k]) <= u <= AllAffected(s)
    ensures Restores(s, HandleOne(m, s.pis[k], u), AllAffected(s))
    ensures HandleOne(m, s.pis[k], u).checkpoints == s.checkpoints
  {
    hide ProcessCompleted, AllAffected, Restores, Affected, Base, AllRestorable, HasCompleted, HasRestored,
      CompletedRecently, CheckpointAlive;
    FleetAlive(s, l);
    SameDecision(s.pis, k);
    SamePis(s, m, AllAffected(s));
    var r := ProcessCompleted(m, u);
    ProcessCompletedRestores(m, u);
    Widen(m, r, u, AllAffected(s));
    RestoresCompose(s, m, r, AllAffected(s), AllAffected(s));
    SameCheckpoints(m, u);
    RestoredNow(s, l, m, k, u);
  }

  lemma PhaseRestores(s: State, l: Loss)
    requires Base(s, l) && AllRestorable(s, l) && HasCompleted(s.checkpoints) && !HasPending(s.checkpoints)
    ensures AfterPreemption(s).checkpoints == s.checkpoints
  {
    hide HandleFrom, AllAffected, Base, AllRestorable, HasCompleted, Restores;
    RestoresNothing(s, s, AllAffected(s));
    NoneStartedFrom(s, l, s, 0, {});
  }
}
