/** From an empty store to a second loss: how it comes about, and that both its outcomes happen. */
module Stories {
  import opened Objects
  import opened InstanceAllocation
  import opened JobInvariants
  import opened Rounds
  import opened Startup
  import opened LostReplicas
  import opened Distance
  import opened RecoveryRuns
  import opened OneLoss
  import opened FirstLoss
  import opened SecondLoss
  import opened Existence

  // ---------- A first loss, recovered ----------

  /** The instance at position `j` is being stopped: its node is gone, and Job `b` still has its pod. */
  function Stop(s: State, j: nat, b: string): State
    requires j < |s.pis|
  {
    var pis := s.pis[j := s.pis[j].(state := Stopping, notice := true)];
    WithPod(s.(pis := pis, vms := VmsOf(pis)), b)
  }

  lemma StopPreempts(s: State, n: nat, j: nat, b: string)
    requires Healthy(s, n) && Real(s) && j < |s.pis| && !s.pis[j].notice
    ensures Preempts(s, j, Stop(s, j, b)) && Real(Stop(s, j, b))
  {
    hide NamesOk, HealthyJobs, CheckpointBase, FirstUsable, NodeOf;
    assert MemberOk(s.pis[j], n);
    forall k | 0 <= k < |s.pis| ensures RealInstance(Stop(s, j, b).pis[k]) {
      assert RealInstance(s.pis[k]);
    }
  }

  lemma LivePosition(s: State, n: nat, i: nat) returns (j: nat)
    requires Healthy(s, n) && i < n
    ensures j < |s.pis| && !s.pis[j].notice && s.pis[j].index == Some(i)
  {
    hide FleetOk, NamesOk, HealthyJobs, CheckpointBase, FirstUsable;
    var pi := FirstUsable(s.pis, i).value;
    j :| 0 <= j < |s.pis| && s.pis[j] == pi;
  }

  lemma JobAt(s: State, n: nat, i: nat) returns (o: string)
    requires Healthy(s, n) && i < n
    ensures o in s.jobs && s.jobs[o].index == Some(i) && o != ""
  {
    hide FleetOk, NamesOk, CheckpointBase, FirstUsable, JobsFit, DeletedOnce, OneJobPerIndex;
    assert HasJob(s, i);
    o :| o in s.jobs && s.jobs[o].index == Some(i);
    assert JobOk(o, s.jobs[o], s.spec, s.clock);
  }

  /** Instance `j` of a healthy cluster is stopped, and Job `b` of another index has a pod. */
  lemma StopLoses(s: State, n: nat, j: nat, o: string, b: string)
    requires Healthy(s, n) && n >= 2 && Real(s) && j < |s.pis| && !s.pis[j].notice
    requires o in s.jobs && s.jobs[o].index == s.pis[j].index && s.pis[j].index.Some?
    requires b in s.jobs && b != "" && s.jobs[b].index != s.pis[j].index
    ensures var m := Stop(s, j, b);
      var l := Loss(n, {s.pis[j].index.value}, {o});
      && Preempts(s, j, m) && JustLost(m, n, s.pis[j].index.value, o) && Witness(m, l, b) && PodsOk(m, l)
  {
    hide Healthy, Preempts, Real, Base, NodeOf, PodsOk, Taken, OneJobPerIndex;
    StopPreempts(s, n, j, b);
    var m := Stop(s, j, b);
    var l := Loss(n, {s.pis[j].index.value}, {o});
    StopJobs(s, j, b);
    HealthyLoss(s, n, j, m, o);
    WitnessPod(m, l, b);
    StopTwice(s, j, b);
  }

  lemma StopJobs(s: State, j: nat, b: string)
    requires j < |s.pis|
    ensures Stop(s, j, b).jobs == s.jobs && Stop(s, j, b).checkpoints == s.checkpoints
  {
  }

  lemma StopTwice(s: State, j: nat, b: string)
    requires j < |s.pis|
    ensures WithPod(Stop(s, j, b), b) == Stop(s, j, b)
  {
    hide NodeOf;
  }

  /** Start-up from nothing, the loss of one of two replicas, and its recovery. */
  datatype Story = Story(startup: nat -> State, healthy: nat, first: nat, lost: string,
                         recovery: nat -> State, again: nat)

  ghost predicate Told(y: Story)
  {
    && y.startup(0) == NOTHING && StartupRun(y.startup, 2) && AllJoin(y.startup) && AlwaysReal(y.startup)
    && Healthy(y.startup(y.healthy), 2) && Clean(y.startup(y.healthy), 2)
    && Preempts(y.startup(y.healthy), y.first, y.recovery(0))
    && y.startup(y.healthy).pis[y.first].index == Some(0)
    && y.lost in y.startup(y.healthy).jobs && y.startup(y.healthy).jobs[y.lost].index == Some(0)
    && RecoveryRun(y.recovery, Loss(2, {0}, {y.lost})) && Fair(y.recovery) && AlwaysReal(y.recovery)
    && HealthyFrom(y.recovery, Loss(2, {0}, {y.lost}), y.again)
  }

  lemma StoryExists() returns (y: Story)
    ensures Told(y)
  {
    hide Healthy, Clean, Real, StartupRun, AllJoin, RecoveryRun, Fair, Preempts, JustLost, Witness, PodsOk, RunOf,
      HealthyFrom;
    var w, k := HealthyExists();
    var h := w(k);
    assert Real(h);
    var j := LivePosition(h, 2, 0);
    var o := JobAt(h, 2, 0);
    var b := JobAt(h, 2, 1);
    StopLoses(h, 2, j, o, b);
    var m := Stop(h, j, b);
    var r := FairRunExists(m, Loss(2, {0}, {o}), b, {});
    CleanUntouched(h, o);
    HealthyAgain(h, 2, j, r, o);
    var start: nat :| HealthyFrom(r, Loss(2, {0}, {o}), start);
    y := Story(w, k, j, o, r, start);
  }

  lemma CleanUntouched(s: State, o: string)
    requires Clean(s, 2) && o in s.jobs
    ensures !s.jobs[o].annotated && s.checkpoints == []
  {
    hide Starting, NamesOk;
  }

  // ---------- The second loss ----------

  /** After the story the Job of index 0 is restored, that of index 1 is not, and it was the only one checkpointed. */
  lemma AfterStory(y: Story, b: string)
    requires Told(y) && b in y.recovery(y.again).jobs && y.recovery(y.again).jobs[b].index == Some(1)
    ensures !y.recovery(y.again).jobs[b].annotated && Blocked(y.recovery(y.again), b)
    ensures forall o :: o in y.recovery(y.again).jobs && y.recovery(y.again).jobs[o].index == Some(0) ==>
      y.recovery(y.again).jobs[o].annotated
  {
    hide Healthy, Clean, RecoveryRun, Fair, StartupRun, AllJoin, AlwaysReal, Preempts, Recovered, Blocked, Tidy, Base,
      Recovering, OnlyOther;
    var h, r, s := y.startup(y.healthy), y.recovery, y.recovery(y.again);
    var l := Loss(2, {0}, {y.lost});
    CleanUntouched(h, y.lost);
    SameAfterPreempts(h, y.first, r(0));
    HealthyLoss(h, 2, y.first, r(0), y.lost);
    StartsRecovering(r(0), 2, 0, y.lost);
    TidyAtFirst(h, 2, y.first, r(0), y.lost);
    var c := OtherOfTwo(h, 0, y.lost);
    OnlyAtFirst(h, r(0), l, 0, c);
    OnlyOtherRun(r, l, 0, c, y.again);
    RestoredAtLost(s, l);
    OtherIsOld(y, h, r, s, l, b, c);
    SourceBlocked(s, l, c, b);
  }

  lemma SameAfterPreempts(s: State, k: nat, m: State)
    requires Preempts(s, k, m)
    ensures m.jobs == s.jobs && m.checkpoints == s.checkpoints
  {
  }

  lemma RestoredAtLost(s: State, l: Loss)
    requires Recovered(s, l)
    ensures forall o :: AtLost(s, l, o) ==> s.jobs[o].annotated
  {
    hide Base, Down, Staffed;
    HealedAnnotated(s, l);
  }

  lemma OtherIsOld(y: Story, h: State, r: nat -> State, s: State, l: Loss, b: string, c: string)
    requires Healthy(h, 2) && Clean(h, 2) && r(0).jobs == h.jobs && s == r(y.again) && l == Loss(2, {0}, {y.lost})
    requires RecoveryRun(r, l) && Base(r(0), l) && OnlyOther(s, l, c)
    requires b in s.jobs && s.jobs[b].index == Some(1)
    requires forall q :: q in h.jobs && h.jobs[q].index != Some(0) ==> q == c
    ensures b == c && !s.jobs[b].annotated
  {
    hide RecoveryRun, Base, Starting, NamesOk, Healthy;
    assert !AtLost(s, l, b);
    var x := JobAt(h, 2, 1);
    assert x == c && !AtLost(r(0), l, c);
    OthersUntouched(r, l, y.again, c);
  }

  /**
    A second loss that hits the Job which was checkpointed. From the same state, reached from an empty store
    with two replicas, one fair run recovers it and one never does.
  */
  lemma SecondLossBothWays() returns (y: Story, j: nat, o: string, r: nat -> State, q: nat -> State)
    ensures Told(y) && Preempts(y.recovery(y.again), j, r(0)) && q(0) == r(0)
    ensures y.recovery(y.again).pis[j].index == Some(1)
    ensures o in r(0).jobs && r(0).jobs[o].index == Some(1) && !r(0).jobs[o].annotated
    ensures RecoveryRun(r, Loss(2, {1}, {o})) && Fair(r) && AlwaysReal(r)
    ensures exists k: nat :: RestoredSince(r(0), r(k), 1)
    ensures RecoveryRun(q, Loss(2, {1}, {o})) && Fair(q) && AlwaysReal(q)
    ensures !exists k: nat :: RestoredSince(q(0), q(k), 1)
  {
    hide Healthy, RecoveryRun, Fair, Preempts, JustLost, PodsOk, Blocked, Recovered, RestoredSince, Real, Base,
      StartupRun, AllJoin, Clean;
    y := StoryExists();
    var s := y.recovery(y.again);
    assert Healthy(s, 2) && Real(s);
    j := LivePosition(s, 2, 1);
    o := JobAt(s, 2, 1);
    var b := JobAt(s, 2, 0);
    AfterStory(y, o);
    StopLoses(s, 2, j, o, b);
    StopJobs(s, j, b);
    SameBlocked(s, Stop(s, j, b), o);
    r, q := BothHappen(Stop(s, j, b), 2, 1, o, b);
  }

  /** A second loss that hits the restored Job is never recovered, as a run from an empty store shows. */
  lemma SecondLossOfRestored() returns (y: Story, j: nat, o: string, q: nat -> State)
    ensures Told(y) && Preempts(y.recovery(y.again), j, q(0)) && y.recovery(y.again).pis[j].index == Some(0)
    ensures o in q(0).jobs && q(0).jobs[o].index == Some(0) && q(0).jobs[o].annotated
    ensures RecoveryRun(q, Loss(2, {0}, {o})) && Fair(q) && AlwaysReal(q)
    ensures !exists k: nat :: RestoredSince(q(0), q(k), 0)
  {
    hide Healthy, RecoveryRun, Fair, Preempts, JustLost, PodsOk, Blocked, Recovered, RestoredSince, Real, Base,
      StartupRun, AllJoin, Clean, Witness, RunOf, Stopped;
    y := StoryExists();
    var s := y.recovery(y.again);
    assert Healthy(s, 2) && Real(s);
    j := LivePosition(s, 2, 0);
    o := JobAt(s, 2, 0);
    var b := JobAt(s, 2, 1);
    AfterStory(y, b);
    StopLoses(s, 2, j, o, b);
    StopJobs(s, j, b);
    q := FairRunExists(Stop(s, j, b), Loss(2, {0}, {o}), b, {});
    RecoversIff(q, 2, 0, o);
  }
}
