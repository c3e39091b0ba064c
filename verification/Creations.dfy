/** Which instances and Jobs a pass creates, read off the instances and Jobs in the store. */
module Creations {
  import opened Names
  import opened Objects
  import opened Checkpoints
  import opened Restore
  import opened InstanceAllocation
  import opened JobFilling
  import opened JobInvariants
  import opened Runs
  import opened RunTheorems
  import opened Replacements

  /** Two replicas unless the user says otherwise; up to 2^30 - 1 twice their number fits an int32. */
  ghost predicate Replicas(spec: Spec, d: nat)
  {
    d < 0x4000_0000 && (spec.replicas == Some(d) || (spec.replicas == None && d == 2))
  }

  ghost predicate NothingPending(s: State)
  {
    forall cp :: cp in s.checkpoints ==> cp.phase != InProgress
  }

  // ---------- Jobs ----------

  /** Active, succeeded or restored and not being deleted, or being deleted for less than ten seconds. */
  ghost predicate Holds(job: Job, i: nat, now: int)
  {
    && job.index == Some(i)
    && ((job.deletedAt == None && (job.active > 0 || job.succeeded > 0 || job.annotated))
        || exists d :: job.deletedAt == Some(d) && now - d < 10)
  }

  ghost predicate Held(s: State, i: nat)
  {
    exists n :: n in s.jobs && Holds(s.jobs[n], i, s.clock)
  }

  ghost function HeldIndices(s: State): set<nat>
  {
    set n | n in s.jobs && s.jobs[n].index.Some? && Holds(s.jobs[n], s.jobs[n].index.value, s.clock)
      :: s.jobs[n].index.value
  }

  ghost predicate LiveAt(pi: Instance, i: nat)
  {
    pi.index == Some(i) && !pi.notice && pi.state != Stopping && pi.state != Terminated
  }

  /** The first live instance of the index has joined the cluster. */
  ghost predicate FirstJoined(pis: seq<Instance>, i: nat, k: int)
  {
    && 0 <= k < |pis| && LiveAt(pis[k], i) && pis[k].joined && pis[k].nodeName != ""
    && forall j :: 0 <= j < k ==> !LiveAt(pis[j], i)
  }

  /** No Job holds the index, its instance has joined, and a Job for it is not refused. */
  ghost predicate Vacant(s: State, noJob: set<nat>, i: nat)
  {
    !Held(s, i) && i !in noJob && exists k :: FirstJoined(s.pis, i, k)
  }

  ghost function VacantBelow(s: State, noJob: set<nat>, hi: nat): set<nat>
  {
    set i: nat | 0 <= i < hi && Vacant(s, noJob, i)
  }

  ghost predicate GetsJob(s: State, t: State, i: nat)
  {
    exists n :: n in t.jobs && n !in s.jobs && t.jobs[n].index == Some(i)
  }

  lemma HeldIff(s: State)
    ensures forall i: nat :: Held(s, i) <==> i in TakenByJobs(s.jobs, s.clock)
    ensures HeldIndices(s) == TakenByJobs(s.jobs, s.clock)
  {
    forall n | n in s.jobs
      ensures Counted(s.jobs[n], s.clock) <==>
        s.jobs[n].index.Some? && Holds(s.jobs[n], s.jobs[n].index.value, s.clock)
    {
    }
  }

  lemma {:induction false} ReadyIff(pis: seq<Instance>, i: nat)
    ensures Ready(pis, i) <==> exists k :: FirstJoined(pis, i, k)
  {
    if pis != [] {
      assert forall k :: 0 < k < |pis| ==> pis[k] == pis[1..][k - 1];
      ReadyIff(pis[1..], i);
      if LiveAt(pis[0], i) {
        assert FirstActive(pis, i) == Some(pis[0]);
        assert Ready(pis, i) ==> FirstJoined(pis, i, 0);
      } else {
        assert FirstActive(pis, i) == FirstActive(pis[1..], i);
        if k :| FirstJoined(pis[1..], i, k) { assert FirstJoined(pis, i, k + 1); }
        if k :| FirstJoined(pis, i, k) { assert FirstJoined(pis[1..], i, k - 1); }
      }
    }
  }

  lemma VacantIff(s: State, noJob: set<nat>, i: nat)
    ensures Vacant(s, noJob, i) <==> Fillable(s.pis, TakenByJobs(s.jobs, s.clock), noJob, i)
  {
    hide Held, TakenByJobs, Ready, FirstJoined;
    HeldIff(s);
    ReadyIff(s.pis, i);
  }

  lemma {:induction false} VacantCount(s: State, noJob: set<nat>, hi: nat)
    ensures |VacantBelow(s, noJob, hi)| == |Eligible(s.pis, TakenByJobs(s.jobs, s.clock), noJob, 0, hi)|
  {
    hide Vacant, TakenByJobs, Fillable;
    var taken := TakenByJobs(s.jobs, s.clock);
    if hi == 0 {
      assert VacantBelow(s, noJob, 0) == {};
    } else {
      var i: nat := hi - 1;
      VacantCount(s, noJob, i);
      VacantIff(s, noJob, i);
      EligibleSplit(s.pis, taken, noJob, 0, i, hi);
      EligibleStep(s.pis, taken, noJob, i, hi);
      EligibleEnd(s.pis, taken, noJob, hi, hi);
      var init := VacantBelow(s, noJob, i);
      assert VacantBelow(s, noJob, hi) == init + (if Vacant(s, noJob, i) then {i} else {});
      assert i !in init;
    }
  }

  /**
    Exactly when an index gets a new Job: nothing is pending, the index is vacant, and the vacant indices below
    it together with those held by Jobs are fewer than the replicas.
  */
  lemma NewJobIff(s: State, noJob: set<nat>, i: nat, d: nat)
    requires Replicas(s.spec, d) && RefusesDuplicateJobs(s, noJob)
    ensures GetsJob(s, WithJobs(s, noJob), i) <==>
      NothingPending(s) && i < 2 * d && Vacant(s, noJob, i)
      && |VacantBelow(s, noJob, i)| + |HeldIndices(s)| < d
  {
    hide Vacant, TakenByJobs, Eligible, Ready, WithJobs, Counted, RefusesDuplicateJobs, VacantBelow, HeldIndices;
    SecondJobIff(s, noJob, i);
    VacantCount(s, noJob, i);
    VacantIff(s, noJob, i);
    HeldIff(s);
    IndexLimitFits(s.spec);
    NoneCounts(s, i);
  }

  lemma NoneCounts(s: State, i: nat)
    ensures i !in TakenByJobs(s.jobs, s.clock) <==>
      forall o :: o in s.jobs && s.jobs[o].index == Some(i) ==> !Counted(s.jobs[o], s.clock)
  {
    hide Counted;
    assert forall o :: o in s.jobs && Counted(s.jobs[o], s.clock) ==> s.jobs[o].index.Some? by { CountedHasIndex(s); }
  }

  lemma CountedHasIndex(s: State)
    ensures forall o :: o in s.jobs && Counted(s.jobs[o], s.clock) ==> s.jobs[o].index.Some?
  {
  }

  /** A Job that started to be deleted less than ten seconds ago keeps its index from getting another. */
  lemma RecentDeletionBlocks(s: State, noJob: set<nat>, n: string, i: nat, since: int, d: nat)
    requires Replicas(s.spec, d) && RefusesDuplicateJobs(s, noJob)
    requires n in s.jobs && s.jobs[n].index == Some(i) && s.jobs[n].deletedAt == Some(since) && s.clock - since < 10
    ensures !GetsJob(s, WithJobs(s, noJob), i)
  {
    hide WithJobs, RefusesDuplicateJobs;
    NewJobIff(s, noJob, i, d);
    assert Holds(s.jobs[n], i, s.clock);
  }

  /** Once all its Jobs have been going for ten seconds or more it gets one, if it is ready and room remains. */
  lemma OldDeletionFrees(s: State, noJob: set<nat>, i: nat, d: nat, k: int)
    requires Replicas(s.spec, d) && RefusesDuplicateJobs(s, noJob) && NothingPending(s)
    requires forall n :: n in s.jobs && s.jobs[n].index == Some(i) ==>
      s.jobs[n].deletedAt.Some? && s.clock - s.jobs[n].deletedAt.value >= 10
    requires FirstJoined(s.pis, i, k) && i !in noJob && i < 2 * d
    requires |VacantBelow(s, noJob, i)| + |HeldIndices(s)| < d
    ensures GetsJob(s, WithJobs(s, noJob), i)
  {
    hide WithJobs, RefusesDuplicateJobs, FirstJoined, VacantBelow, HeldIndices;
    NewJobIff(s, noJob, i, d);
    assert forall n :: n in s.jobs ==> !Holds(s.jobs[n], i, s.clock);
  }

  /** What the new Job of an index is: the template, pinned to the first instance that is ready, if one is running. */
  ghost predicate Fresh(s: State, n: string, i: nat, job: Job)
  {
    && job.name == n && n == JobName(s.spec.name, i, s.clock) && job.index == Some(i) && job.stamp == s.clock
    && !job.annotated && job.restoredFrom == None && job.deletedAt == None && job.active == 0 && job.succeeded == 0
    && job.containers == s.spec.containers
    && (forall q :: FirstHome(s.pis, i, q) ==> job.node == s.pis[q].nodeName)
    && ((forall q :: 0 <= q < |s.pis| ==> !Home(s.pis[q], i)) ==> job.node == "")
    && (s.spec.podLabels == None ==>
          job.podLabels == map[SPOT_JOB_LABEL := s.spec.name, REPLICA_LABEL := Decimal(i)])
    && (forall user :: s.spec.podLabels == Some(user) ==>
          job.podLabels == user[SPOT_JOB_LABEL := s.spec.name][REPLICA_LABEL := Decimal(i)])
  }

  /** All other Jobs stay as they are. */
  lemma NewJobsFresh(s: State, noJob: set<nat>, n: string)
    requires n in WithJobs(s, noJob).jobs && Lookup(s.jobs, n) != Some(WithJobs(s, noJob).jobs[n])
    ensures exists i: nat :: Fresh(s, n, i, WithJobs(s, noJob).jobs[n])
    ensures WithJobs(s, noJob) == s.(jobs := WithJobs(s, noJob).jobs)
  {
    hide NewJobIndices, JobName, Decimal, FirstUsable, Home;
    NewJobsExact(s, noJob);
    var i :| i in NewJobIndices(s, noJob) && n == JobName(s.spec.name, i, s.clock);
    HomeExact(s.pis, i);
    OneHome(s.pis, i);
    assert Fresh(s, n, i, WithJobs(s, noJob).jobs[n]);
  }

  lemma OneHome(pis: seq<Instance>, i: nat)
    ensures forall p, q :: FirstHome(pis, i, p) && FirstHome(pis, i, q) ==> p == q
  {
    hide Home;
  }

  // ---------- Instances ----------

  ghost function ActiveOnes(pis: seq<Instance>): set<int>
  {
    set k | 0 <= k < |pis| && !pis[k].deleting && (pis[k].state == Unset || pis[k].state == Pending
      || pis[k].state == Provisioning || pis[k].state == Running)
  }

  /** No live instance has the index, and the creation of one is not refused. */
  ghost predicate Unserved(pis: seq<Instance>, refused: set<nat>, i: nat)
  {
    i !in refused && forall k :: 0 <= k < |pis| ==> !LiveAt(pis[k], i)
  }

  ghost function UnservedBelow(pis: seq<Instance>, refused: set<nat>, hi: nat): set<nat>
  {
    set i: nat | 0 <= i < hi && Unserved(pis, refused, i)
  }

  ghost function ServedIndices(pis: seq<Instance>): set<nat>
  {
    set k | 0 <= k < |pis| && pis[k].index.Some? && LiveAt(pis[k], pis[k].index.value) :: pis[k].index.value
  }

  ghost predicate GetsInstance(s: State, t: State, i: nat)
  {
    exists k :: |s.pis| <= k < |t.pis| && t.pis[k].index == Some(i)
  }

  lemma {:induction false} ActiveOnesCount(pis: seq<Instance>)
    ensures |ActiveOnes(pis)| == ActiveCount(pis)
  {
    if pis == [] {
      assert ActiveOnes(pis) == {};
    } else {
      var n := |pis| - 1;
      var init := ActiveOnes(pis[..n]);
      ActiveOnesCount(pis[..n]);
      assert ActiveOnes(pis) == init + (if Active(pis[n]) then {n} else {});
      assert n !in init;
    }
  }

  lemma ServedIff(pis: seq<Instance>)
    ensures ServedIndices(pis) == Taken(pis)
    ensures forall refused, i: nat :: Unserved(pis, refused, i) <==> i !in Taken(pis) + refused
  {
    assert forall k :: 0 <= k < |pis| ==> (Preempted(pis[k]) <==>
      pis[k].notice || pis[k].state == Stopping || pis[k].state == Terminated);
    forall i: nat ensures i in Taken(pis) <==> exists k :: 0 <= k < |pis| && LiveAt(pis[k], i) {
    }
  }

  lemma {:induction false} PrefixSize(ixs: seq<nat>, p: nat)
    requires Increasing(ixs) && p <= |ixs|
    ensures |(set k | 0 <= k < p :: ixs[k])| == p
  {
    var members := set k | 0 <= k < p :: ixs[k];
    if p > 0 {
      PrefixSize(ixs, p - 1);
      var init := set k | 0 <= k < p - 1 :: ixs[k];
      assert members == init + {ixs[p - 1]};
      assert ixs[p - 1] !in init;
    } else {
      assert members == {};
    }
  }

  /** Of the smallest free indices, those are that have fewer free ones below them than are wanted. */
  lemma SmallestFreeIff(ixs: seq<nat>, blocked: set<nat>, n: nat, i: nat, below: set<nat>)
    requires SmallestFree(ixs, blocked, 0, n)
    requires forall j: nat :: j in below <==> j < i && j !in blocked
    ensures i in ixs <==> i !in blocked && |below| < n
  {
    if i in ixs {
      var p :| 0 <= p < |ixs| && ixs[p] == i;
      PrefixSize(ixs, p);
      assert below == set k | 0 <= k < p :: ixs[k];
    } else if i !in blocked {
      PrefixSize(ixs, n);
      forall k | 0 <= k < n ensures ixs[k] in below {
        assert ixs[k] != i;
      }
      SubsetSize(set k | 0 <= k < n :: ixs[k], below);
    }
  }

  /**
    Exactly when an index gets a new instance: no live one has it, its creation is not refused, and fewer indices
    below it are like that than instances are missing; but none does while a checkpoint is pending and an
    instance has terminated on notice.
  */
  lemma NewInstanceIff(s: State, refused: set<nat>, i: nat, d: nat)
    requires Replicas(s.spec, d)
    requires |ServedIndices(s.pis) + refused| + d - |ActiveOnes(s.pis)| <= 2 * d
    ensures GetsInstance(s, WithInstances(s, refused), i) <==>
      && (NothingPending(s) || forall k :: 0 <= k < |s.pis| && s.pis[k].state == Terminated ==> !s.pis[k].notice)
      && Unserved(s.pis, refused, i)
      && |UnservedBelow(s.pis, refused, i)| + |ActiveOnes(s.pis)| < d
  {
    hide Taken, Unserved, ActiveOnes, ActiveCount, Allocate, SmallestFree, ServedIndices;
    ActiveOnesCount(s.pis);
    ServedIff(s.pis);
    IndexLimitFits(s.spec);
    NewInstancesAt(s, refused, i);
    if ActiveCount(s.pis) < d {
      NewIndicesSmallestFree(s, refused);
      SmallestFreeIff(NewIndices(s, refused), Taken(s.pis) + refused, d - ActiveCount(s.pis), i,
        UnservedBelow(s.pis, refused, i));
    }
  }

  lemma NewInstancesAt(s: State, refused: set<nat>, i: nat)
    ensures GetsInstance(s, WithInstances(s, refused), i) <==>
      i in NewIndices(s, refused)
      && !(HasTerminated(s.pis) && ActiveCount(s.pis) < Desired(s.spec) && HasPending(s.checkpoints))
  {
    hide NewIndices, InstanceName;
    var ixs, t := NewIndices(s, refused), WithInstances(s, refused);
    if i in ixs && t != s {
      var p :| 0 <= p < |ixs| && ixs[p] == i;
      assert t.pis[|s.pis| + p] == FreshInstance(s.spec, i, s.clock);
    }
  }

  ghost predicate Unborn(spec: Spec, pi: Instance, i: nat, now: nat)
  {
    pi == Instance(InstanceName(spec.name, spec.template, i, now), Some(i), now, false, false, Unset, None, "", "",
      false, false)
  }

  /** New instances come behind the others, without a status: no VM has been asked for yet. */
  lemma NewInstancesFresh(s: State, refused: set<nat>, k: nat)
    requires |s.pis| <= k < |WithInstances(s, refused).pis|
    ensures WithInstances(s, refused).pis[..|s.pis|] == s.pis
    ensures WithInstances(s, refused) == s.(pis := WithInstances(s, refused).pis)
    ensures exists i: nat :: Unborn(s.spec, WithInstances(s, refused).pis[k], i, s.clock)
  {
    hide NewIndices, InstanceName;
    var ixs := NewIndices(s, refused);
    assert WithInstances(s, refused).pis[k] == FreshInstance(s.spec, ixs[k - |s.pis|], s.clock);
    assert Unborn(s.spec, WithInstances(s, refused).pis[k], ixs[k - |s.pis|], s.clock);
  }
}
