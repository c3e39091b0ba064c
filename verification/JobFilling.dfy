/** reconcileJobReplicas: create Jobs at the free indices whose instance has joined the cluster. */
module JobFilling {
  import opened Names
  import opened Objects
  import opened Checkpoints
  import opened Restore
  import opened InstanceAllocation

  // ---------- Which indices have a job ----------

  const DELETION_GRACE := 10

  /** Active, succeeded or restored, or deleted less than ten seconds ago. */
  predicate Counted(job: Job, now: int)
  {
    job.index.Some? &&
    if job.deletedAt.Some? then now - job.deletedAt.value < DELETION_GRACE
    else job.active > 0 || job.succeeded > 0 || job.annotated
  }

  function TakenByJobs(jobs: map<string, Job>, now: int): set<nat>
  {
    set n | n in jobs && Counted(jobs[n], now) :: jobs[n].index.value
  }

  // ---------- Which indices can get one ----------

  /** The first instance of the index that is not preempted has joined. */
  predicate Ready(pis: seq<Instance>, i: nat)
  {
    var gate := FirstActive(pis, i);
    gate.Some? && gate.value.joined && gate.value.nodeName != ""
  }

  predicate Fillable(pis: seq<Instance>, taken: set<nat>, refused: set<nat>, i: nat)
  {
    i !in taken && Ready(pis, i) && i !in refused
  }

  /** The fillable indices of [lo, hi), in order. */
  function Eligible(pis: seq<Instance>, taken: set<nat>, refused: set<nat>, lo: nat, hi: int): seq<nat>
    decreases hi - lo
  {
    if lo >= hi then []
    else (if Fillable(pis, taken, refused, lo) then [lo] else []) + Eligible(pis, taken, refused, lo + 1, hi)
  }

  function Take(xs: seq<nat>, n: nat): seq<nat>
  {
    if |xs| <= n then xs else xs[..n]
  }

  /** Filter, then take: what the loop with its skip counter and second lookup comes down to. */
  function NewJobIndices(s: State, refused: set<nat>): seq<nat>
  {
    var taken := TakenByJobs(s.jobs, s.clock);
    if |taken| < Desired(s.spec)
    then Take(Eligible(s.pis, taken, refused, 0, IndexLimit(s.spec)), Desired(s.spec) - |taken|)
    else []
  }

  function UserLabels(spec: Spec): map<string, string>
  {
    if spec.podLabels.Some? then spec.podLabels.value else map[]
  }

  function PinnedNode(pis: seq<Instance>, i: nat): string
  {
    var pi := FirstUsable(pis, i);
    if pi.Some? then pi.value.nodeName else ""
  }

  function FreshJob(spec: Spec, pis: seq<Instance>, i: nat, t: nat): Job
  {
    Job(JobName(spec.name, i, t), Some(i), t, false, None, None, 0, 0, spec.containers,
      PinnedNode(pis, i), ReplicaLabels(spec, UserLabels(spec), i))
  }

  function AddJobs(jobs: map<string, Job>, spec: Spec, pis: seq<Instance>, ixs: seq<nat>, t: nat): map<string, Job>
  {
    if ixs == [] then jobs
    else
      var n := |ixs| - 1;
      AddJobs(jobs, spec, pis, ixs[..n], t)[JobName(spec.name, ixs[n], t) := FreshJob(spec, pis, ixs[n], t)]
  }

  ghost function WithJobs(s: State, refused: set<nat>): State
  {
    if HasPending(s.checkpoints) then s
    else s.(jobs := AddJobs(s.jobs, s.spec, s.pis, NewJobIndices(s, refused), s.clock))
  }

  // ---------- The reconciler's methods ----------

  method CollectTaken(c: Cluster) returns (taken: set<nat>)
    ensures taken == TakenByJobs(c.jobs, c.clock)
  {
    taken := {};
    var left := c.jobs.Keys;
    while left != {}
      invariant left <= c.jobs.Keys
      invariant taken == set n | n in c.jobs && n !in left && Counted(c.jobs[n], c.clock) :: c.jobs[n].index.value
      decreases left
    {
      var n :| n in left;
      left := left - {n};
      var job := c.jobs[n];
      if job.deletedAt.Some? {
        if c.clock - job.deletedAt.value < DELETION_GRACE {
          if job.index.Some? { taken := taken + {job.index.value}; }
        }
        continue;
      }
      if job.active > 0 || job.succeeded > 0 || job.annotated {
        if job.index.Some? { taken := taken + {job.index.value}; }
      }
    }
  }

  /** The second lookup, made for each candidate index. */
  method HasValidJob(c: Cluster, i: nat) returns (r: bool)
    ensures r <==> i in TakenByJobs(c.jobs, c.clock)
  {
    var left := c.jobs.Keys;
    while left != {}
      invariant left <= c.jobs.Keys
      invariant forall n :: n in c.jobs && n !in left ==> !(Counted(c.jobs[n], c.clock) && c.jobs[n].index == Some(i))
      decreases left
    {
      var n :| n in left;
      left := left - {n};
      var job := c.jobs[n];
      if job.index != Some(i) { continue; }
      if job.deletedAt.Some? {
        if c.clock - job.deletedAt.value < DELETION_GRACE { return true; }
        continue;
      }
      if job.active > 0 || job.succeeded > 0 { return true; }
      if job.annotated { return true; }
    }
    return false;
  }

  method FindActive(c: Cluster, i: nat) returns (r: Option<Instance>)
    ensures r == FirstActive(c.pis, i)
  {
    assert c.pis[0..] == c.pis;
    for k := 0 to |c.pis|
      invariant FirstActive(c.pis, i) == FirstActive(c.pis[k..], i)
    {
      var pi := c.pis[k];
      assert c.pis[k..][1..] == c.pis[k + 1..];
      if pi.index != Some(i) { continue; }
      if pi.notice || pi.state == Terminated || pi.state == Stopping { continue; }
      return Some(pi);
    }
    return None;
  }

  /** A Go map: copies of the job template share it. */
  class LabelMap {
    var entries: map<string, string>

    constructor (entries: map<string, string>)
      ensures this.entries == entries
    {
      this.entries := entries;
    }
  }

  /** The template's labels, possibly overwritten by an earlier creation of the same pass. */
  ghost predicate TemplateOf(template: LabelMap?, spec: Spec)
    reads template
  {
    if template == null then spec.podLabels.None?
    else
      spec.podLabels.Some? && (template.entries == UserLabels(spec) ||
        exists j :: template.entries == ReplicaLabels(spec, UserLabels(spec), j))
  }

  lemma OverwrittenLabels(spec: Spec, user: map<string, string>, i: nat, j: nat)
    ensures ReplicaLabels(spec, ReplicaLabels(spec, user, j), i) == ReplicaLabels(spec, user, i)
  {
    assert SPOT_JOB_LABEL[24] != REPLICA_LABEL[24];
  }

  /** The sharing does no harm: each Job is stored with the labels of its own index. */
  method CreateJobReplica(c: Cluster, template: LabelMap?, name: string, i: nat)
    requires TemplateOf(template, c.spec)
    requires name == JobName(c.spec.name, i, c.clock)
    modifies c`jobs, template
    ensures TemplateOf(template, c.spec)
    ensures c.jobs == old(c.jobs)[name := FreshJob(c.spec, c.pis, i, c.clock)]
  {
    hide JobName, Decimal, FirstUsable;
    var labels := template;
    if labels == null {
      labels := new LabelMap(map[]);
    }
    ghost var user := UserLabels(c.spec);
    forall j: nat ensures ReplicaLabels(c.spec, ReplicaLabels(c.spec, user, j), i) == ReplicaLabels(c.spec, user, i) {
      OverwrittenLabels(c.spec, user, i, j);
    }
    labels.entries := labels.entries[SPOT_JOB_LABEL := c.spec.name];
    labels.entries := labels.entries[REPLICA_LABEL := Decimal(i)];
    assert labels.entries == ReplicaLabels(c.spec, user, i);

    var node := "";
    var pi := FindUsable(c, i);
    if pi.Some? {
      node := pi.value.nodeName;
    }
    c.jobs := c.jobs[name :=
      Job(name, Some(i), c.clock, false, None, None, 0, 0, c.spec.containers, node, labels.entries)];
  }

  method ReconcileJobReplicas(c: Cluster, refused: set<nat>)
    modifies c`jobs
    ensures c.View() == old(WithJobs(c.View(), refused))
  {
    var pending := HasPendingCheckpoints(c);
    if pending { return; }
    var taken := CollectTaken(c);
    var desired := Desired(c.spec);
    if |taken| < desired {
      FillIndices(c, taken, refused, desired - |taken|);
    }
  }

  /** The loop state: `ixs` have been created, the indices from `index` on are still to be looked at. */
  ghost predicate Filling(c: Cluster, jobs: map<string, Job>, all: seq<nat>, ixs: seq<nat>,
                          taken: set<nat>, refused: set<nat>, index: nat, limit: int)
    reads c
  {
    && all == ixs + Eligible(c.pis, taken, refused, index, limit)
    && c.jobs == AddJobs(jobs, c.spec, c.pis, ixs, c.clock)
    && TakenByJobs(c.jobs, c.clock) <= taken
  }

  method FillIndices(c: Cluster, taken: set<nat>, refused: set<nat>, needed: nat)
    requires taken == TakenByJobs(c.jobs, c.clock)
    modifies c`jobs
    ensures c.jobs == AddJobs(old(c.jobs), c.spec, c.pis,
      Take(Eligible(c.pis, taken, refused, 0, IndexLimit(c.spec)), needed), c.clock)
  {
    hide Eligible, AddJobs, TakenByJobs, FreshJob, NextIndex, FirstActive, JobName, IndexLimit, Take, ReplicaLabels;
    var template: LabelMap? := null;
    if c.spec.podLabels.Some? {
      template := new LabelMap(c.spec.podLabels.value);
    }
    var limit := IndexLimit(c.spec);
    var known := taken;
    var index: nat, created: nat, skipped: nat := 0, 0, 0;
    ghost var all := Eligible(c.pis, taken, refused, 0, limit);
    ghost var ixs: seq<nat> := [];
    NoJobs(old(c.jobs), c.spec, c.pis, c.clock);
    while created < needed && index < limit
      invariant template == null || fresh(template)
      invariant TemplateOf(template, c.spec)
      invariant created == |ixs| <= needed && skipped <= index
      invariant Filling(c, old(c.jobs), all, ixs, taken, refused, index, limit)
      invariant forall x :: x >= index ==> (x in known <==> x in taken)
      decreases limit - index
    {
      ghost var start := index;
      index := NextFree(known, limit, index, taken);
      NextIndexSkips(taken, limit, start);
      EligibleSkip(c.pis, taken, refused, start, index, limit);
      if index >= limit { break; }

      var valid := HasValidJob(c, index);
      NextIndexFree(taken, limit, start);
      if valid { assert false; }  // the second lookup never finds a job the first one missed

      EligibleStep(c.pis, taken, refused, index, limit);
      var gate := FindActive(c, index);
      if gate.None? || !gate.value.joined || gate.value.nodeName == "" {
        index := index + 1;
        skipped := skipped + 1;
        if skipped >= limit { break; }
        continue;
      }
      if index in refused {
        index := index + 1;
        continue;
      }
      var name := JobName(c.spec.name, index, c.clock);
      Regroup(ixs, index, Eligible(c.pis, taken, refused, index + 1, limit));
      AddJobsStep(old(c.jobs), c.spec, c.pis, ixs, index, c.clock);
      FreshNotCounted(c.jobs, name, c.spec, c.pis, index, c.clock);
      CreateJobReplica(c, template, name, index);
      ixs := ixs + [index];
      known := known + {index};
      index := index + 1;
      created := created + 1;
      skipped := 0;
    }
    if index >= limit { EligibleEnd(c.pis, taken, refused, index, limit); }
    TakeAll(ixs, Eligible(c.pis, taken, refused, index, limit), needed);
  }

  // ---------- Loop lemmas ----------

  lemma TakeAll(ixs: seq<nat>, rest: seq<nat>, n: nat)
    requires |ixs| == n || (|ixs| < n && rest == [])
    ensures Take(ixs + rest, n) == ixs
  {
  }

  lemma {:induction false} NextIndexSkips(taken: set<nat>, limit: int, idx: nat)
    ensures idx <= NextIndex(taken, limit, idx)
    ensures forall j :: idx <= j < NextIndex(taken, limit, idx) ==> j in taken
    ensures idx < limit ==> NextIndex(taken, limit, idx) <= limit
    decreases limit - idx
  {
    if idx in taken && idx + 1 < limit { NextIndexSkips(taken, limit, idx + 1); }
  }

  lemma {:induction false} NextIndexFree(taken: set<nat>, limit: int, idx: nat)
    ensures NextIndex(taken, limit, idx) < limit ==> NextIndex(taken, limit, idx) !in taken
    decreases limit - idx
  {
    if idx in taken && idx + 1 < limit { NextIndexFree(taken, limit, idx + 1); }
  }

  lemma {:induction false} EligibleSkip(pis: seq<Instance>, taken: set<nat>, refused: set<nat>, lo: nat, mid: nat,
                                        hi: int)
    requires lo <= mid && mid <= hi
    requires forall j :: lo <= j < mid ==> j in taken
    ensures Eligible(pis, taken, refused, lo, hi) == Eligible(pis, taken, refused, mid, hi)
    decreases mid - lo
  {
    if lo < mid { EligibleSkip(pis, taken, refused, lo + 1, mid, hi); }
  }

  lemma EligibleStep(pis: seq<Instance>, taken: set<nat>, refused: set<nat>, lo: nat, hi: int)
    requires lo < hi
    ensures Eligible(pis, taken, refused, lo, hi) ==
      (if Fillable(pis, taken, refused, lo) then [lo] else []) + Eligible(pis, taken, refused, lo + 1, hi)
  {
  }

  lemma EligibleEnd(pis: seq<Instance>, taken: set<nat>, refused: set<nat>, lo: nat, hi: int)
    requires lo >= hi
    ensures Eligible(pis, taken, refused, lo, hi) == []
  {
  }

  lemma NoJobs(jobs: map<string, Job>, spec: Spec, pis: seq<Instance>, t: nat)
    ensures AddJobs(jobs, spec, pis, [], t) == jobs
  {
  }

  lemma AddJobsStep(jobs: map<string, Job>, spec: Spec, pis: seq<Instance>, ixs: seq<nat>, i: nat, t: nat)
    ensures AddJobs(jobs, spec, pis, ixs + [i], t) ==
      AddJobs(jobs, spec, pis, ixs, t)[JobName(spec.name, i, t) := FreshJob(spec, pis, i, t)]
  {
    assert (ixs + [i])[..|ixs|] == ixs;
  }

  /** A Job just created is not counted until the Job controller has acknowledged it. */
  lemma FreshNotCounted(jobs: map<string, Job>, name: string, spec: Spec, pis: seq<Instance>, i: nat, now: nat)
    ensures TakenByJobs(jobs[name := FreshJob(spec, pis, i, now)], now) <= TakenByJobs(jobs, now)
  {
  }

  // ---------- What the phase computes ----------

  lemma {:induction false} EligibleMember(pis: seq<Instance>, taken: set<nat>, refused: set<nat>, lo: nat, hi: int,
                                          i: nat)
    ensures i in Eligible(pis, taken, refused, lo, hi) <==> lo <= i < hi && Fillable(pis, taken, refused, i)
    decreases hi - lo
  {
    hide Fillable;
    if lo < hi { EligibleMember(pis, taken, refused, lo + 1, hi, i); }
  }

  lemma {:induction false} EligibleIncreases(pis: seq<Instance>, taken: set<nat>, refused: set<nat>, lo: nat, hi: int)
    ensures Increasing(Eligible(pis, taken, refused, lo, hi))
    ensures forall k :: 0 <= k < |Eligible(pis, taken, refused, lo, hi)| ==>
      Eligible(pis, taken, refused, lo, hi)[k] >= lo
    decreases hi - lo
  {
    hide Fillable;
    if lo < hi { EligibleIncreases(pis, taken, refused, lo + 1, hi); }
  }

  lemma EligibleExact(pis: seq<Instance>, taken: set<nat>, refused: set<nat>, lo: nat, hi: int)
    ensures forall i: nat :: i in Eligible(pis, taken, refused, lo, hi) <==>
      lo <= i < hi && Fillable(pis, taken, refused, i)
    ensures Increasing(Eligible(pis, taken, refused, lo, hi))
  {
    hide Eligible, Fillable, Increasing;
    EligibleIncreases(pis, taken, refused, lo, hi);
    forall i: nat
      ensures i in Eligible(pis, taken, refused, lo, hi) <==> lo <= i < hi && Fillable(pis, taken, refused, i)
    {
      EligibleMember(pis, taken, refused, lo, hi, i);
    }
  }

  /** `ixs` are the first `n` fillable indices below the limit, or all of them if there are fewer. */
  ghost predicate FirstFillable(ixs: seq<nat>, s: State, refused: set<nat>, n: nat)
  {
    var taken, limit := TakenByJobs(s.jobs, s.clock), IndexLimit(s.spec);
    && |ixs| <= n && Increasing(ixs)
    && (forall i :: i in ixs ==> i < limit && Fillable(s.pis, taken, refused, i))
    && (forall j: nat :: j < limit && Fillable(s.pis, taken, refused, j) && j !in ixs ==>
          |ixs| == n && forall i :: i in ixs ==> i < j)
  }

  lemma TakeFirst(all: seq<nat>, n: nat)
    requires Increasing(all)
    ensures |Take(all, n)| <= n && Increasing(Take(all, n))
    ensures forall i :: i in Take(all, n) ==> i in all
    ensures forall j :: j in all && j !in Take(all, n) ==>
      |Take(all, n)| == n && forall i :: i in Take(all, n) ==> i < j
  {
    var ixs := Take(all, n);
    assert forall m :: 0 <= m < |ixs| ==> ixs[m] == all[m] && ixs[m] in ixs;
    forall j | j in all && j !in ixs ensures |ixs| == n && forall i :: i in ixs ==> i < j {
      var k :| 0 <= k < |all| && all[k] == j;
      assert k >= n;
    }
  }

  lemma NewJobIndicesFirst(s: State, refused: set<nat>)
    requires |TakenByJobs(s.jobs, s.clock)| <= Desired(s.spec)
    ensures FirstFillable(NewJobIndices(s, refused), s, refused, Desired(s.spec) - |TakenByJobs(s.jobs, s.clock)|)
  {
    hide Eligible, Increasing, Fillable, Take, TakenByJobs;
    var taken, limit := TakenByJobs(s.jobs, s.clock), IndexLimit(s.spec);
    var n := Desired(s.spec) - |taken|;
    EligibleExact(s.pis, taken, refused, 0, limit);
    TakeFirst(Eligible(s.pis, taken, refused, 0, limit), n);
    NoIndices();
  }

  lemma {:induction false} EligibleSplit(pis: seq<Instance>, taken: set<nat>, refused: set<nat>, lo: nat, mid: nat,
                                         hi: int)
    requires lo <= mid <= hi
    ensures Eligible(pis, taken, refused, lo, hi)
      == Eligible(pis, taken, refused, lo, mid) + Eligible(pis, taken, refused, mid, hi)
    decreases mid - lo
  {
    hide Fillable;
    if lo < mid { EligibleSplit(pis, taken, refused, lo + 1, mid, hi); }
  }

  /** An index gets a new Job iff it is fillable below the limit and fewer indices before it are than are missing. */
  lemma NewJobIndexIff(s: State, refused: set<nat>, i: nat)
    ensures var taken := TakenByJobs(s.jobs, s.clock);
      i in NewJobIndices(s, refused) <==>
        i < IndexLimit(s.spec) && Fillable(s.pis, taken, refused, i)
        && |Eligible(s.pis, taken, refused, 0, i)| < Desired(s.spec) - |taken|
  {
    hide Eligible, Fillable, TakenByJobs, IndexLimit;
    var taken, limit := TakenByJobs(s.jobs, s.clock), IndexLimit(s.spec);
    EligibleExact(s.pis, taken, refused, 0, limit);
    if |taken| < Desired(s.spec) { TakeFirst(Eligible(s.pis, taken, refused, 0, limit), Desired(s.spec) - |taken|); }
    if |taken| < Desired(s.spec) && i < limit && Fillable(s.pis, taken, refused, i) {
      var before, after := Eligible(s.pis, taken, refused, 0, i), Eligible(s.pis, taken, refused, i + 1, limit);
      EligibleSplit(s.pis, taken, refused, 0, i, limit);
      EligibleStep(s.pis, taken, refused, i, limit);
      EligibleExact(s.pis, taken, refused, 0, i);
      var all := Eligible(s.pis, taken, refused, 0, limit);
      assert all == before + [i] + after;
      assert all[|before|] == i;
      TakenPosition(all, |before|, Desired(s.spec) - |taken|);
    }
  }

  lemma TakenPosition(all: seq<nat>, k: nat, n: nat)
    requires Increasing(all) && k < |all|
    ensures all[k] in Take(all, n) <==> k < n
  {
    var ixs := Take(all, n);
    if k < n { assert ixs[k] == all[k]; }
    assert forall j :: 0 <= j < |ixs| ==> ixs[j] == all[j];
  }

  lemma NoIndices()
    ensures Increasing([])
  {
  }

  /** When the doubled replica count overflows int32 the limit is negative and no job is ever created. */
  lemma NoJobsOnOverflow(s: State, refused: set<nat>)
    requires 0x4000_0000 <= Desired(s.spec) < 0x8000_0000
    ensures NewJobIndices(s, refused) == []
  {
    assert IndexLimit(s.spec) < 0;
  }

  /** `after` has the fresh Jobs of the indices `ixs` besides those of `jobs`. */
  ghost predicate HasJobsAt(jobs: map<string, Job>, spec: Spec, pis: seq<Instance>, ixs: seq<nat>, t: nat,
                        after: map<string, Job>)
  {
    && (forall n :: n in after <==> n in jobs || exists i :: i in ixs && n == JobName(spec.name, i, t))
    && (forall i :: i in ixs ==> Lookup(after, JobName(spec.name, i, t)) == Some(FreshJob(spec, pis, i, t)))
    && (forall n :: n in jobs && (forall i :: i in ixs ==> n != JobName(spec.name, i, t)) ==>
          n in after && after[n] == jobs[n])
  }

  lemma AddedOne(jobs: map<string, Job>, spec: Spec, pis: seq<Instance>, ixs: seq<nat>, i: nat, t: nat,
                 after: map<string, Job>)
    requires HasJobsAt(jobs, spec, pis, ixs, t, after)
    requires forall j :: j in ixs ==> JobName(spec.name, j, t) != JobName(spec.name, i, t)
    ensures HasJobsAt(jobs, spec, pis, ixs + [i], t, after[JobName(spec.name, i, t) := FreshJob(spec, pis, i, t)])
  {
    hide JobName, FreshJob;
    assert forall j :: j in ixs + [i] <==> j in ixs || j == i;
  }

  lemma NamesDiffer(name: string, ixs: seq<nat>, i: nat, t: nat)
    requires forall j :: j in ixs ==> j != i
    ensures forall j :: j in ixs ==> JobName(name, j, t) != JobName(name, i, t)
  {
    hide JobName;
    forall j | j in ixs ensures JobName(name, j, t) != JobName(name, i, t) {
      if JobName(name, j, t) == JobName(name, i, t) { JobNameInjective(name, j, t, i, t); }
    }
  }

  lemma {:induction false} AddJobsExact(jobs: map<string, Job>, spec: Spec, pis: seq<Instance>, ixs: seq<nat>, t: nat)
    requires Increasing(ixs)
    ensures HasJobsAt(jobs, spec, pis, ixs, t, AddJobs(jobs, spec, pis, ixs, t))
  {
    hide JobName, FreshJob, HasJobsAt, AddJobs;
    if ixs == [] {
      NoJobs(jobs, spec, pis, t);
      NothingAdded(jobs, spec, pis, t);
    } else {
      var k := |ixs| - 1;
      var init := ixs[..k];
      assert ixs == init + [ixs[k]];
      AddJobsExact(jobs, spec, pis, init, t);
      NamesDiffer(spec.name, init, ixs[k], t);
      AddedOne(jobs, spec, pis, init, ixs[k], t, AddJobs(jobs, spec, pis, init, t));
      AddJobsStep(jobs, spec, pis, init, ixs[k], t);
    }
  }

  lemma NothingAdded(jobs: map<string, Job>, spec: Spec, pis: seq<Instance>, t: nat)
    ensures HasJobsAt(jobs, spec, pis, [], t, jobs)
  {
    hide JobName, FreshJob;
  }

  lemma FreshIndex(spec: Spec, pis: seq<Instance>, i: nat, t: nat)
    ensures FreshJob(spec, pis, i, t).index == Some(i)
  {
  }

  /** A fresh Job whose gating instance is running is pinned to that very instance. */
  lemma {:induction false} PinnedToGate(pis: seq<Instance>, i: nat)
    requires Ready(pis, i) && FirstActive(pis, i).value.state == Running
    ensures FirstUsable(pis, i) == FirstActive(pis, i)
    ensures PinnedNode(pis, i) == FirstActive(pis, i).value.nodeName
  {
    if pis != [] && !(pis[0].index == Some(i) && !Preempted(pis[0])) {
      PinnedToGate(pis[1..], i);
    }
  }
}
