/** The stored objects, and the store that both reconcilers read and write. */
module Objects {

  datatype Option<+T> = None | Some(value: T)

  // ---------- ProvisionedInstance and GCP VM ----------

  /** VM states; `Other` is a GCP status outside the alphabet the API documents. */
  datatype InstanceState = Unset | Pending | Provisioning | Running | Stopping | Terminated | Other(raw: string)

  /** A ProvisionedInstance: the labels and metadata the controllers read, and its status. */
  datatype Instance = Instance(
    name: string, index: Option<nat>, stamp: int, deleting: bool, finalizer: bool,
    state: InstanceState, instanceID: Option<nat>, instanceName: string,
    nodeName: string, joined: bool, notice: bool)

  datatype Vm = Vm(name: string, id: nat, state: InstanceState)

  /** The three-way test the controllers repeat wherever they skip or detect a lost instance. */
  predicate Preempted(pi: Instance)
  {
    pi.notice || pi.state == Terminated || pi.state == Stopping
  }

  // ---------- Job, pod and CheckpointBackup ----------

  datatype Container = Container(name: string, image: string)

  /** `stamp` is the Unix time inside the name. */
  datatype Job = Job(
    name: string, index: Option<nat>, stamp: int, annotated: bool, restoredFrom: Option<string>,
    deletedAt: Option<int>, active: nat, succeeded: nat,
    containers: seq<Container>, node: string, podLabels: map<string, string>)

  datatype Pod = Pod(
    name: string, owned: bool, node: string, jobLabel: Option<string>, altLabel: Option<string>,
    containers: seq<string>)

  datatype Phase = InProgress | Completed | CompletedPodDeleted | CompletedWithError | Failed

  datatype CompletionTime = Missing | Unparsable | At(time: int)

  /** A CheckpointBackup; a missing status or phase reads as `InProgress`. */
  datatype Checkpoint = Checkpoint(
    name: string, pod: string, source: Option<string>, createdAt: int,
    registry: string, repository: string, requested: seq<Container>,
    phase: Phase, completionTime: CompletionTime,
    reported: seq<Container>, built: seq<Container>)

  // ---------- SpotInstanceJob ----------

  const SPOT_JOB_LABEL := "training.dcnlab.com/spot-instance-job"
  const REPLICA_LABEL := "training.dcnlab.com/job-replica"

  /** `replicas` is an int32 with default 2. */
  datatype Spec = Spec(
    name: string, template: string, replicas: Option<int>, imageRepo: string,
    containers: seq<Container>, podLabels: Option<map<string, string>>)

  function Desired(spec: Spec): int
  {
    if spec.replicas.Some? then spec.replicas.value else 2
  }

  /** int32 arithmetic wraps around. */
  function Wrap32(x: int): int
  {
    (x + 0x8000_0000) % 0x1_0000_0000 - 0x8000_0000
  }

  /** `desiredReplicas*2`, the bound of both allocation loops. */
  function IndexLimit(spec: Spec): int
  {
    Wrap32(Desired(spec) * 2)
  }

  lemma IndexLimitFits(spec: Spec)
    requires 0 <= Desired(spec) < 0x4000_0000
    ensures IndexLimit(spec) == 2 * Desired(spec)
  {
  }

  /**
    Everything the store holds for one SpotInstanceJob. `deletes` logs the Jobs the controller has
    deleted, `launched` the Jobs for which it has started an asynchronous restore.
  */
  datatype State = State(
    spec: Spec, pis: seq<Instance>, jobs: map<string, Job>, checkpoints: seq<Checkpoint>,
    pods: seq<Pod>, nodes: map<string, bool>, vms: seq<Vm>, clock: nat,
    deletes: multiset<string>, launched: set<string>)

  class Cluster {
    var spec: Spec
    var pis: seq<Instance>
    var jobs: map<string, Job>
    var checkpoints: seq<Checkpoint>
    var pods: seq<Pod>
    var nodes: map<string, bool>
    var vms: seq<Vm>
    var clock: nat
    var deletes: multiset<string>
    var launched: set<string>

    constructor (s: State)
      ensures View() == s
    {
      spec, pis, jobs, checkpoints, pods := s.spec, s.pis, s.jobs, s.checkpoints, s.pods;
      nodes, vms, clock, deletes, launched := s.nodes, s.vms, s.clock, s.deletes, s.launched;
    }

    ghost function View(): State
      reads this
    {
      State(spec, pis, jobs, checkpoints, pods, nodes, vms, clock, deletes, launched)
    }

    /** Deletes a Job with background propagation and waits two seconds. */
    method DeleteJob(name: string)
      requires name in jobs
      modifies `jobs, `deletes, `clock
      ensures jobs == old(jobs) - {name}
      ensures deletes == old(deletes) + multiset{name} && clock == old(clock) + 2
    {
      jobs, deletes, clock := jobs - {name}, deletes + multiset{name}, clock + 2;
    }
  }

  // ---------- First match in a list ----------

  /** The first instance with this replica label that is not preempted: it gates job creation. */
  function FirstActive(pis: seq<Instance>, i: nat): (r: Option<Instance>)
    ensures r.Some? ==> r.value in pis && r.value.index == Some(i) && !Preempted(r.value)
    ensures r.None? ==> forall pi :: pi in pis && pi.index == Some(i) ==> Preempted(pi)
  {
    if pis == [] then None
    else if pis[0].index == Some(i) && !Preempted(pis[0]) then Some(pis[0])
    else FirstActive(pis[1..], i)
  }

  predicate Usable(pi: Instance, i: nat)
  {
    pi.index == Some(i) && !Preempted(pi) && pi.state == Running && pi.joined && pi.nodeName != ""
  }

  /** The first running, joined instance with this replica label: jobs are pinned to its node. */
  function FirstUsable(pis: seq<Instance>, i: nat): (r: Option<Instance>)
    ensures r.Some? ==> r.value in pis && Usable(r.value, i)
    ensures r.None? ==> forall pi :: pi in pis ==> !Usable(pi, i)
  {
    if pis == [] then None
    else if Usable(pis[0], i) then Some(pis[0])
    else FirstUsable(pis[1..], i)
  }

  /** The listing loop of createJobReplica and of updateJobWithCheckpoint. */
  method FindUsable(c: Cluster, i: nat) returns (r: Option<Instance>)
    ensures r == FirstUsable(c.pis, i)
  {
    r := None;
    var k := 0;
    assert c.pis[0..] == c.pis;
    while k < |c.pis|
      invariant 0 <= k <= |c.pis|
      invariant FirstUsable(c.pis, i) == FirstUsable(c.pis[k..], i)
    {
      var pi := c.pis[k];
      if !(pi.notice || pi.state == Terminated || pi.state == Stopping) && pi.index == Some(i) {
        if pi.state == Running && pi.joined && pi.nodeName != "" {
          return Some(pi);
        }
      }
      assert c.pis[k..][1..] == c.pis[k + 1..];
      k := k + 1;
    }
  }
}
