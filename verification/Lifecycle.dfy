/** The ProvisionedInstance reconciler: one VM per instance, through crashes and failed writes. */
module Lifecycle {
  import opened Objects

  // ---------- GCP ----------

  /** ListInstancesByPrefix. */
  function WithPrefix(vms: seq<Vm>, prefix: string): seq<Vm>
  {
    if vms == [] then []
    else
      var n := |vms| - 1;
      WithPrefix(vms[..n], prefix) + if prefix <= vms[n].name then [vms[n]] else []
  }

  method ListInstancesByPrefix(vms: seq<Vm>, prefix: string) returns (r: seq<Vm>)
    ensures r == WithPrefix(vms, prefix)
    ensures forall vm :: vm in r <==> vm in vms && prefix <= vm.name
  {
    r := [];
    for k := 0 to |vms|
      invariant r == WithPrefix(vms[..k], prefix)
      invariant forall vm :: vm in r <==> vm in vms[..k] && prefix <= vm.name
    {
      assert vms[..k + 1][..k] == vms[..k];
      if |vms[k].name| >= |prefix| && vms[k].name[..|prefix|] == prefix {
        r := r + [vms[k]];
      }
    }
    assert vms[..|vms|] == vms;
  }

  lemma {:induction false} WithPrefixExact(vms: seq<Vm>, prefix: string)
    ensures forall vm :: vm in WithPrefix(vms, prefix) <==> vm in vms && prefix <= vm.name
  {
    if vms != [] { WithPrefixExact(vms[..|vms| - 1], prefix); }
  }

  predicate Has(vms: seq<Vm>, name: string)
  {
    exists vm :: vm in vms && vm.name == name
  }

  function FindVm(vms: seq<Vm>, name: string): (r: Option<Vm>)
    ensures r.Some? ==> r.value in vms && r.value.name == name
    ensures r.None? <==> !Has(vms, name)
  {
    if vms == [] then None
    else if vms[0].name == name then Some(vms[0])
    else FindVm(vms[1..], name)
  }

  function RemoveVm(vms: seq<Vm>, name: string): (r: seq<Vm>)
    ensures !Has(r, name)
    ensures forall vm :: vm in r <==> vm in vms && vm.name != name
  {
    if vms == [] then []
    else (if vms[0].name == name then [] else [vms[0]]) + RemoveVm(vms[1..], name)
  }

  // ---------- What may go wrong ----------

  /** An insert is refused, or goes through unnoticed (crash, lost reply), or is acknowledged. */
  datatype InsertResult =
    | Rejected
    | Unacknowledged(id: nat, state: InstanceState)
    | Acknowledged(id: nat, state: InstanceState)

  /** A VM deletion succeeds, or errs with the VM still there, or errs although the VM has gone. */
  datatype DeleteResult = Gone | ErrorKept | ErrorGone

  /**
    The calls of one pass that fail. A crash between two calls has the effect of the next one failing,
    so every crash point is covered.
  */
  datatype Faults = Faults(
    addFinalizer: bool, writePending: bool, lookup: bool, list: bool, joinInfo: bool, insert: InsertResult,
    get: bool, writeStatus: bool, deleteNode: bool, deleteVm: DeleteResult, removeFinalizer: bool)

  /** The calls that matter once there is a VM go through. */
  ghost predicate NoCallFails(f: Faults)
  {
    !f.addFinalizer && !f.writePending && !f.lookup && !f.list && !f.get && !f.writeStatus
  }

  /** The instance (None once its last finalizer is gone), the VMs, the nodes, and the inserts made. */
  datatype Outcome = Outcome(pi: Option<Instance>, vms: seq<Vm>, nodes: map<string, bool>, inserts: nat)

  // ---------- One pass ----------

  function WithoutNode(nodes: map<string, bool>, name: string, fails: bool): map<string, bool>
  {
    if name == "" || fails then nodes else nodes - {name}
  }

  function Observed(pi: Instance, vm: Vm, nodes: map<string, bool>): Instance
  {
    var p := pi.(instanceID := Some(vm.id), instanceName := vm.name, state := vm.state);
    var q :=
      if vm.state == Running && !p.joined && vm.name in nodes then
        p.(joined := true, nodeName := vm.name)
      else p;
    if vm.state == Stopping || vm.state == Terminated then q.(notice := true) else q
  }

  function UpdateStatus(pi: Instance, vm: Vm, vms: seq<Vm>, nodes: map<string, bool>, f: Faults): Outcome
  {
    if f.writeStatus then Outcome(Some(pi), vms, nodes, 0)
    else
      var p := Observed(pi, vm, nodes);
      Outcome(Some(p), vms, if vm.state == Terminated then WithoutNode(nodes, p.nodeName, f.deleteNode) else nodes, 0)
  }

  function Provision(pi: Instance, vms: seq<Vm>, nodes: map<string, bool>, f: Faults): Outcome
  {
    var existing := WithPrefix(vms, pi.name);
    if f.list then Outcome(Some(pi), vms, nodes, 0)
    else if |existing| > 0 then UpdateStatus(pi, existing[0], vms, nodes, f)
    else if f.joinInfo then Outcome(Some(pi), vms, nodes, 0)
    else
      match f.insert
      case Rejected => Outcome(Some(pi), vms, nodes, 0)
      case Unacknowledged(id, state) => Outcome(Some(pi), vms + [Vm(pi.name, id, state)], nodes, 1)
      case Acknowledged(id, state) =>
        Outcome(
          Some(if f.writeStatus then pi
               else pi.(instanceID := Some(id), instanceName := pi.name, state := Provisioning)),
          vms + [Vm(pi.name, id, state)], nodes, 1)
  }

  function CheckStatus(pi: Instance, vms: seq<Vm>, nodes: map<string, bool>, f: Faults): Outcome
  {
    if f.get then Outcome(Some(pi), vms, nodes, 0)
    else
      var vm := FindVm(vms, pi.instanceName);
      if vm.Some? then UpdateStatus(pi, vm.value, vms, nodes, f)
      else
        Outcome(Some(if f.writeStatus then pi else pi.(state := Terminated, notice := true)), vms,
          WithoutNode(nodes, pi.nodeName, f.deleteNode), 0)
  }

  function HandleDeletion(pi: Instance, vms: seq<Vm>, nodes: map<string, bool>, f: Faults): Outcome
  {
    if !pi.finalizer then Outcome(Some(pi), vms, nodes, 0)
    else if pi.instanceName != "" && f.lookup then Outcome(Some(pi), vms, nodes, 0)
    else if pi.instanceName != "" && Has(vms, pi.instanceName) && f.deleteVm == ErrorKept
    then Outcome(Some(pi), vms, nodes, 0)
    else
      var left := if pi.instanceName != "" then RemoveVm(vms, pi.instanceName) else vms;
      if pi.instanceName != "" && Has(vms, pi.instanceName) && f.deleteVm == ErrorGone
      then Outcome(Some(pi), left, nodes, 0)
      else
        Outcome(if f.removeFinalizer then Some(pi) else None, left, WithoutNode(nodes, pi.nodeName, f.deleteNode), 0)
  }

  function Reconcile(pi: Instance, vms: seq<Vm>, nodes: map<string, bool>, f: Faults): Outcome
  {
    if pi.deleting then HandleDeletion(pi, vms, nodes, f)
    else if !pi.finalizer && f.addFinalizer then Outcome(Some(pi), vms, nodes, 0)
    else ReconcileFrom(pi.(finalizer := true), vms, nodes, f)
  }

  function ReconcileFrom(pi: Instance, vms: seq<Vm>, nodes: map<string, bool>, f: Faults): Outcome
  {
    if pi.state == Unset && f.writePending then Outcome(Some(pi), vms, nodes, 0)
    else
      var p := if pi.state == Unset then pi.(state := Pending) else pi;
      if f.lookup then Outcome(Some(p), vms, nodes, 0)
      else if p.instanceID.None? && p.state == Pending then Provision(p, vms, nodes, f)
      else CheckStatus(p, vms, nodes, f)
  }

  // ---------- The reconciler's methods ----------

  function Applied(s: State, k: nat, o: Outcome): State
    requires k < |s.pis|
  {
    s.(pis := if o.pi.Some? then s.pis[k := o.pi.value] else s.pis[..k] + s.pis[k + 1..],
       vms := o.vms, nodes := o.nodes)
  }

  function InstanceStep(s: State, k: nat, f: Faults): State
    requires k < |s.pis|
  {
    Applied(s, k, Reconcile(s.pis[k], s.vms, s.nodes, f))
  }

  lemma AppliedOver(s: State, k: nat, p: Instance, o: Outcome)
    requires k < |s.pis|
    ensures Applied(s.(pis := s.pis[k := p]), k, o) == Applied(s, k, o)
  {
    assert s.pis[k := p][..k] == s.pis[..k];
    assert s.pis[k := p][k + 1..] == s.pis[k + 1..];
    if o.pi.Some? { assert s.pis[k := p][k := o.pi.value] == s.pis[k := o.pi.value]; }
  }

  method DeleteNode(c: Cluster, name: string, fails: bool)
    modifies c`nodes
    ensures c.nodes == if fails then old(c.nodes) else old(c.nodes) - {name}
  {
    if !fails {
      c.nodes := c.nodes - {name};
    }
  }

  method ReconcileProvisionedInstance(c: Cluster, k: nat, f: Faults)
    requires k < |c.pis|
    modifies c`pis, c`vms, c`nodes
    ensures c.View() == old(InstanceStep(c.View(), k, f))
  {
    var pi := c.pis[k];
    if pi.deleting {
      HandleInstanceDeletion(c, k, f);
      return;
    }
    if !pi.finalizer {
      if f.addFinalizer { return; }
      pi := pi.(finalizer := true);
      c.pis := c.pis[k := pi];
    }
    ReconcileStatus(c, k, f);
    AppliedOver(old(c.View()), k, pi, ReconcileFrom(pi, old(c.vms), old(c.nodes), f));
  }

  /** The pass from the point where the finalizer is in place. */
  method ReconcileStatus(c: Cluster, k: nat, f: Faults)
    requires k < |c.pis|
    modifies c`pis, c`vms, c`nodes
    ensures c.View() == old(Applied(c.View(), k, ReconcileFrom(c.pis[k], c.vms, c.nodes, f)))
  {
    hide Provision, CheckStatus, Applied;
    var pi := c.pis[k];
    ghost var s := c.View();
    UnchangedApplied(s, k);
    if pi.state == Unset {
      pi := pi.(state := Pending);
      if f.writePending { return; }
      c.pis := c.pis[k := pi];
      UnchangedApplied(c.View(), k);
    }
    forall o ensures Applied(s.(pis := s.pis[k := pi]), k, o) == Applied(s, k, o) {
      AppliedOver(s, k, pi, o);
    }
    assert s.pis[k := s.pis[k]] == s.pis;
    if f.lookup { return; }
    if pi.instanceID.None? && pi.state == Pending {
      ProvisionInstance(c, k, f);
      return;
    }
    CheckAndUpdateInstanceStatus(c, k, f);
  }

  lemma UnchangedApplied(s: State, k: nat)
    requires k < |s.pis|
    ensures Applied(s, k, Outcome(Some(s.pis[k]), s.vms, s.nodes, 0)) == s
  {
    assert s.pis[k := s.pis[k]] == s.pis;
  }

  method ProvisionInstance(c: Cluster, k: nat, f: Faults)
    requires k < |c.pis|
    modifies c`pis, c`vms, c`nodes
    ensures c.View() == old(Applied(c.View(), k, Provision(c.pis[k], c.vms, c.nodes, f)))
  {
    hide UpdateStatus;
    var pi := c.pis[k];
    if f.list { return; }
    var existing := ListInstancesByPrefix(c.vms, pi.name);
    if |existing| > 0 {
      UpdateInstanceStatus(c, k, existing[0], f);
      return;
    }
    if f.joinInfo { return; }
    match f.insert {
      case Rejected =>
      case Unacknowledged(id, state) =>
        c.vms := c.vms + [Vm(pi.name, id, state)];
      case Acknowledged(id, state) =>
        c.vms := c.vms + [Vm(pi.name, id, state)];
        pi := pi.(instanceID := Some(id), instanceName := pi.name, state := Provisioning);
        if !f.writeStatus {
          c.pis := c.pis[k := pi];
        }
    }
  }

  method CheckAndUpdateInstanceStatus(c: Cluster, k: nat, f: Faults)
    requires k < |c.pis|
    modifies c`pis, c`nodes
    ensures c.View() == old(Applied(c.View(), k, CheckStatus(c.pis[k], c.vms, c.nodes, f)))
  {
    hide UpdateStatus, FindVm;
    var pi := c.pis[k];
    if f.get { return; }
    var vm := FindVm(c.vms, pi.instanceName);
    if vm.None? {
      pi := pi.(state := Terminated, notice := true);
      if pi.nodeName != "" {
        DeleteNode(c, pi.nodeName, f.deleteNode);
      }
      if f.writeStatus { return; }
      c.pis := c.pis[k := pi];
      return;
    }
    UpdateInstanceStatus(c, k, vm.value, f);
  }

  method UpdateInstanceStatus(c: Cluster, k: nat, vm: Vm, f: Faults)
    requires k < |c.pis|
    modifies c`pis, c`nodes
    ensures c.View() == old(Applied(c.View(), k, UpdateStatus(c.pis[k], vm, c.vms, c.nodes, f)))
  {
    var pi := c.pis[k];
    pi := pi.(instanceID := Some(vm.id), instanceName := vm.name, state := vm.state);
    if vm.state == Running && !pi.joined {
      if vm.name in c.nodes {
        pi := pi.(joined := true, nodeName := vm.name);
      }
    }
    if vm.state == Stopping || vm.state == Terminated {
      pi := pi.(notice := true, state := vm.state);
    }
    if f.writeStatus { return; }
    c.pis := c.pis[k := pi];
    if vm.state == Terminated {
      if pi.nodeName != "" {
        DeleteNode(c, pi.nodeName, f.deleteNode);
      }
    }
  }

  method HandleInstanceDeletion(c: Cluster, k: nat, f: Faults)
    requires k < |c.pis|
    modifies c`pis, c`vms, c`nodes
    ensures c.View() == old(Applied(c.View(), k, HandleDeletion(c.pis[k], c.vms, c.nodes, f)))
  {
    hide RemoveVm;
    var pi := c.pis[k];
    if !pi.finalizer { return; }
    if pi.instanceName != "" {
      if f.lookup { return; }
      var present := Has(c.vms, pi.instanceName);
      if !present || f.deleteVm != ErrorKept {
        c.vms := RemoveVm(c.vms, pi.instanceName);
      }
      if present && f.deleteVm != Gone { return; }
    }
    if pi.nodeName != "" {
      DeleteNode(c, pi.nodeName, f.deleteNode);
    }
    if f.removeFinalizer { return; }
    c.pis := c.pis[..k] + c.pis[k + 1..];
  }

  // ---------- The status of an instance ----------

  predicate Documented(state: InstanceState)
  {
    state == Provisioning || state == Running || state == Stopping || state == Terminated
  }

  /** What the fields of a status always say about each other. */
  ghost predicate StatusOk(pi: Instance)
  {
    && (pi.instanceID.None? <==> pi.instanceName == "")
    && (pi.instanceName == "" ==> pi.state == Unset || pi.state == Pending)
    && (pi.instanceName != "" ==> Documented(pi.state) && pi.name <= pi.instanceName && pi.finalizer)
    && (pi.joined <==> pi.nodeName != "")
    && (pi.joined ==> pi.nodeName == pi.instanceName)
    && (pi.state == Stopping || pi.state == Terminated ==> pi.notice)
  }

  ghost predicate DocumentedVms(vms: seq<Vm>)
  {
    forall vm :: vm in vms ==> Documented(vm.state) && vm.name != ""
  }

  ghost predicate DocumentedInsert(f: Faults)
  {
    f.insert.Rejected? || Documented(f.insert.state)
  }

  /** The identity of an instance never changes, and its notice and its node are never withdrawn. */
  ghost predicate Grows(p: Instance, q: Instance)
  {
    && q.name == p.name && q.index == p.index && q.stamp == p.stamp && q.deleting == p.deleting
    && (p.notice ==> q.notice)
    && (p.joined ==> q.joined && q.nodeName == p.nodeName)
    && (p.instanceName != "" ==> q.instanceName == p.instanceName)
    && (p.finalizer ==> q.finalizer)
  }

  lemma ProvisionKeepsStatus(pi: Instance, vms: seq<Vm>, nodes: map<string, bool>, f: Faults)
    requires StatusOk(pi) && pi.name != "" && pi.finalizer && pi.instanceName == ""
    requires DocumentedVms(vms) && DocumentedInsert(f)
    ensures var o := Provision(pi, vms, nodes, f); o.pi.Some? && StatusOk(o.pi.value) && Grows(pi, o.pi.value)
  {
    hide WithPrefix;
    WithPrefixExact(vms, pi.name);
    var existing := WithPrefix(vms, pi.name);
    if |existing| > 0 { assert existing[0] in existing; }
  }

  lemma CheckKeepsStatus(pi: Instance, vms: seq<Vm>, nodes: map<string, bool>, f: Faults)
    requires StatusOk(pi) && pi.instanceName != "" && DocumentedVms(vms)
    ensures var o := CheckStatus(pi, vms, nodes, f); o.pi.Some? && StatusOk(o.pi.value) && Grows(pi, o.pi.value)
  {
    hide FindVm, UpdateStatus;
    var vm := FindVm(vms, pi.instanceName);
    if vm.Some? { UpdateKeepsStatus(pi, vm.value, vms, nodes, f); }
  }

  lemma UpdateKeepsStatus(pi: Instance, vm: Vm, vms: seq<Vm>, nodes: map<string, bool>, f: Faults)
    requires StatusOk(pi) && pi.instanceName == vm.name != "" && Documented(vm.state)
    ensures var o := UpdateStatus(pi, vm, vms, nodes, f); o.pi.Some? && StatusOk(o.pi.value) && Grows(pi, o.pi.value)
  {
  }

  /** A pass keeps the status consistent, whatever fails on the way. */
  lemma ReconcileKeepsStatus(pi: Instance, vms: seq<Vm>, nodes: map<string, bool>, f: Faults)
    requires StatusOk(pi) && pi.name != "" && DocumentedVms(vms) && DocumentedInsert(f)
    ensures var o := Reconcile(pi, vms, nodes, f);
      (o.pi.Some? ==> StatusOk(o.pi.value) && Grows(pi, o.pi.value)) && (o.pi.None? ==> pi.deleting)
  {
    hide Provision, CheckStatus;
    if !pi.deleting {
      var p := pi.(finalizer := true);
      var q := if p.state == Unset then p.(state := Pending) else p;
      if pi.instanceName == "" {
        ProvisionKeepsStatus(q, vms, nodes, f);
      } else {
        CheckKeepsStatus(q, vms, nodes, f);
      }
    }
  }

  /** So the repeated three-way test asks for the preemption notice and nothing else. */
  lemma PreemptedIsNotice(pi: Instance)
    requires StatusOk(pi)
    ensures Preempted(pi) <==> pi.notice
    ensures !pi.notice && pi.joined ==> pi.state == Running || pi.state == Provisioning
  {
  }

  /** A node goes only if it is the instance's own and its VM is gone, terminated, or being deleted. */
  lemma NodeDeletedForCause(pi: Instance, vms: seq<Vm>, nodes: map<string, bool>, f: Faults, node: string)
    requires StatusOk(pi) && pi.name != ""
    requires node in nodes && node !in Reconcile(pi, vms, nodes, f).nodes
    ensures node == pi.nodeName == pi.instanceName
    ensures pi.deleting || !Has(vms, node) || exists vm :: vm in vms && vm.name == node && vm.state == Terminated
  {
    hide WithPrefix, FindVm;
    WithPrefixExact(vms, pi.name);
    if !pi.deleting && pi.instanceName != "" {
      var vm := FindVm(vms, pi.instanceName);
      assert vm.Some? ==> vm.value.state == Terminated;
    }
  }
}
