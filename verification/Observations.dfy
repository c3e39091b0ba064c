/** What one pass over a ProvisionedInstance makes of the VMs and nodes it finds. */
module Observations {
  import opened Objects
  import opened Lifecycle

  /** The first VM of this name is at position `j`. */
  ghost predicate FirstNamed(vms: seq<Vm>, name: string, j: nat)
  {
    j < |vms| && vms[j].name == name && forall i :: 0 <= i < j ==> vms[i].name != name
  }

  /** The first VM whose name begins with this one is at position `j`. */
  ghost predicate FirstPrefixed(vms: seq<Vm>, name: string, j: nat)
  {
    j < |vms| && name <= vms[j].name && forall i :: 0 <= i < j ==> !(name <= vms[i].name)
  }

  /** `later` has the status of the VM; a node is taken over from a running VM, a notice from a stopping one. */
  ghost predicate Mirrors(pi: Instance, vm: Vm, nodes: map<string, bool>, later: Instance)
  {
    && later.state == vm.state && later.instanceID == Some(vm.id) && later.instanceName == vm.name && later.finalizer
    && (later.notice <==> pi.notice || vm.state == Stopping || vm.state == Terminated)
    && (later.joined <==> pi.joined || (vm.state == Running && vm.name in nodes))
    && (pi.joined ==> later.nodeName == pi.nodeName)
    && (!pi.joined && later.joined ==> later.nodeName == vm.name)
    && (!later.joined ==> later.nodeName == pi.nodeName)
    && later.name == pi.name && later.index == pi.index && later.stamp == pi.stamp && later.deleting == pi.deleting
  }

  /** The nodes without one that is named, if its deletion goes through. */
  ghost predicate NodesAfter(nodes: map<string, bool>, node: string, kept: bool, later: map<string, bool>)
  {
    forall n :: (n in later <==> n in nodes && (kept || n != node)) && (n in later ==> later[n] == nodes[n])
  }

  lemma {:induction false} FirstFound(vms: seq<Vm>, name: string, j: nat)
    requires FirstNamed(vms, name, j)
    ensures FindVm(vms, name) == Some(vms[j])
  {
    if j > 0 {
      assert vms[1..][j - 1] == vms[j];
      FirstFound(vms[1..], name, j - 1);
    }
  }

  lemma {:induction false} FirstListed(vms: seq<Vm>, name: string, j: nat)
    requires FirstPrefixed(vms, name, j)
    ensures |WithPrefix(vms, name)| > 0 && WithPrefix(vms, name)[0] == vms[j]
  {
    var n := |vms| - 1;
    if j < n {
      FirstListed(vms[..n], name, j);
    } else {
      NoneListed(vms[..n], name);
    }
  }

  lemma {:induction false} NoneListed(vms: seq<Vm>, name: string)
    requires forall j :: 0 <= j < |vms| ==> !(name <= vms[j].name)
    ensures WithPrefix(vms, name) == []
  {
    if vms != [] { NoneListed(vms[..|vms| - 1], name); }
  }

  lemma Observes(pi: Instance, vm: Vm, vms: seq<Vm>, nodes: map<string, bool>, f: Faults)
    requires StatusOk(pi) && !f.writeStatus && pi.finalizer
    ensures var o := UpdateStatus(pi, vm, vms, nodes, f);
      && o.pi.Some? && Mirrors(pi, vm, nodes, o.pi.value) && o.vms == vms && o.inserts == 0
      && NodesAfter(nodes, o.pi.value.nodeName,
           f.deleteNode || vm.state != Terminated || o.pi.value.nodeName == "", o.nodes)
  {
  }

  /** A persisted instance takes over the status of the first VM of its name; a terminated one loses its node. */
  lemma VmObserved(pi: Instance, vms: seq<Vm>, nodes: map<string, bool>, f: Faults, j: nat)
    requires StatusOk(pi) && pi.instanceName != "" && !pi.deleting && NoCallFails(f)
    requires FirstNamed(vms, pi.instanceName, j)
    ensures var o := Lifecycle.Reconcile(pi, vms, nodes, f);
      && o.pi.Some? && Mirrors(pi, vms[j], nodes, o.pi.value) && o.vms == vms && o.inserts == 0
      && NodesAfter(nodes, o.pi.value.nodeName,
           f.deleteNode || vms[j].state != Terminated || o.pi.value.nodeName == "", o.nodes)
  {
    hide FindVm, UpdateStatus, Mirrors, NodesAfter;
    FirstFound(vms, pi.instanceName, j);
    Observes(pi, vms[j], vms, nodes, f);
    assert pi.(finalizer := true) == pi;
  }

  /**
    Without its VM it counts as terminated on notice, and its node goes as well. The node goes first, so it is gone
    even if the status cannot be written.
  */
  lemma VmAbsent(pi: Instance, vms: seq<Vm>, nodes: map<string, bool>, f: Faults)
    requires StatusOk(pi) && pi.instanceName != "" && !pi.deleting && !f.lookup && !f.get
    requires forall vm :: vm in vms ==> vm.name != pi.instanceName
    ensures var o := Lifecycle.Reconcile(pi, vms, nodes, f);
      && (!f.writeStatus ==> o.pi == Some(pi.(state := Terminated, notice := true)))
      && (f.writeStatus ==> o.pi == Some(pi)) && o.vms == vms && o.inserts == 0
      && NodesAfter(nodes, pi.nodeName, f.deleteNode || pi.nodeName == "", o.nodes)
  {
    hide UpdateStatus;
    assert !Has(vms, pi.instanceName);
    assert pi.(finalizer := true) == pi;
  }

  lemma {:induction false} FirstOf(vms: seq<Vm>, name: string) returns (j: nat)
    requires Has(vms, name)
    ensures FirstNamed(vms, name, j)
  {
    if vms[0].name == name {
      j := 0;
    } else {
      var vm :| vm in vms && vm.name == name;
      assert vm in vms[1..];
      j := FirstOf(vms[1..], name);
      j := j + 1;
    }
  }

  /**
    No preemption goes unnoticed: once the VM of an instance is stopping, terminated or gone, one pass sets the
    notice, records the very state of the VM, and takes away the node of a VM that has ended.
  */
  lemma PreemptionNoticed(pi: Instance, vms: seq<Vm>, nodes: map<string, bool>, f: Faults)
    requires StatusOk(pi) && pi.instanceName != "" && !pi.deleting && NoCallFails(f)
    requires forall vm :: vm in vms && vm.name == pi.instanceName ==> vm.state == Stopping || vm.state == Terminated
    ensures var o := Lifecycle.Reconcile(pi, vms, nodes, f);
      && o.pi.Some? && o.pi.value.notice && Preempted(o.pi.value)
      && ((exists vm :: vm in vms && vm.name == pi.instanceName && o.pi.value.state == vm.state)
          || (o.pi.value.state == Terminated && forall vm :: vm in vms ==> vm.name != pi.instanceName))
      && (o.pi.value.state == Terminated && !f.deleteNode && pi.nodeName != "" ==> pi.nodeName !in o.nodes)
  {
    hide Lifecycle.Reconcile;
    if Has(vms, pi.instanceName) {
      var j := FirstOf(vms, pi.instanceName);
      assert vms[j] in vms;
      VmObserved(pi, vms, nodes, f, j);
    } else {
      assert forall vm :: vm in vms ==> vm.name != pi.instanceName;
      VmAbsent(pi, vms, nodes, f);
    }
  }

  /** And nothing is taken for a preemption that is none. */
  lemma NoticeForCause(pi: Instance, vms: seq<Vm>, nodes: map<string, bool>, f: Faults)
    requires StatusOk(pi) && pi.name != "" && !pi.notice
    requires Lifecycle.Reconcile(pi, vms, nodes, f).pi.Some? && Lifecycle.Reconcile(pi, vms, nodes, f).pi.value.notice
    ensures (pi.instanceName != "" && forall vm :: vm in vms ==> vm.name != pi.instanceName)
      || exists vm :: vm in vms && pi.name <= vm.name && (vm.state == Stopping || vm.state == Terminated)
  {
    hide WithPrefix, FindVm;
    WithPrefixExact(vms, pi.name);
    var vm := FindVm(vms, pi.instanceName);
    if pi.instanceName != "" {
      assert Has(vms, pi.instanceName) ==> vm.value.state == Stopping || vm.value.state == Terminated;
    } else {
      assert WithPrefix(vms, pi.name)[0] in WithPrefix(vms, pi.name);
    }
  }

  // ---------- Before a name has been persisted ----------

  /** A VM that an earlier pass has left is adopted, whatever state it is in. */
  lemma VmAdopted(pi: Instance, vms: seq<Vm>, nodes: map<string, bool>, f: Faults, j: nat)
    requires StatusOk(pi) && pi.instanceName == "" && !pi.deleting && NoCallFails(f)
    requires FirstPrefixed(vms, pi.name, j)
    ensures var o := Lifecycle.Reconcile(pi, vms, nodes, f);
      && o.pi.Some? && Mirrors(pi, vms[j], nodes, o.pi.value) && o.vms == vms && o.inserts == 0
      && NodesAfter(nodes, o.pi.value.nodeName,
           f.deleteNode || vms[j].state != Terminated || o.pi.value.nodeName == "", o.nodes)
  {
    hide WithPrefix, UpdateStatus, NodesAfter;
    FirstListed(vms, pi.name, j);
    Observes(pi.(finalizer := true, state := Pending), vms[j], vms, nodes, f);
  }

  /** Without one the VM is inserted under the instance's name; it is recorded only if the status write succeeds. */
  lemma VmInserted(pi: Instance, vms: seq<Vm>, nodes: map<string, bool>, f: Faults)
    requires StatusOk(pi) && pi.instanceName == "" && !pi.deleting
    requires !f.addFinalizer && !f.writePending && !f.lookup && !f.list && !f.joinInfo
    requires forall vm :: vm in vms ==> !(pi.name <= vm.name)
    ensures var o, waiting := Lifecycle.Reconcile(pi, vms, nodes, f), pi.(finalizer := true, state := Pending);
      && o.nodes == nodes && (o.inserts == 0 <==> f.insert.Rejected?)
      && (f.insert.Rejected? ==> o.pi == Some(waiting) && o.vms == vms)
      && (!f.insert.Rejected? ==> o.inserts == 1 && o.vms == vms + [Vm(pi.name, f.insert.id, f.insert.state)])
      && (f.insert.Unacknowledged? || f.writeStatus ==> o.pi == Some(waiting))
      && (f.insert.Acknowledged? && !f.writeStatus ==>
            o.pi == Some(waiting.(instanceID := Some(f.insert.id), instanceName := pi.name, state := Provisioning)))
  {
    hide WithPrefix;
    NoneListed(vms, pi.name);
  }

  // ---------- Calls that fail ----------

  /** The first call of a pass that fails ends it: what has been written by then stays, nothing else changes. */
  lemma FailureEndsPass(pi: Instance, vms: seq<Vm>, nodes: map<string, bool>, f: Faults)
    requires StatusOk(pi) && !pi.deleting
    ensures var o := Lifecycle.Reconcile(pi, vms, nodes, f);
      if !pi.finalizer && f.addFinalizer then o == Outcome(Some(pi), vms, nodes, 0)
      else if pi.state == Unset && f.writePending then o == Outcome(Some(pi.(finalizer := true)), vms, nodes, 0)
      else if pi.instanceName == "" then
        (f.lookup || f.list || (f.joinInfo && forall vm :: vm in vms ==> !(pi.name <= vm.name)) ==>
           o == Outcome(Some(pi.(finalizer := true, state := Pending)), vms, nodes, 0))
      else
        (f.lookup || f.get || (f.writeStatus && exists vm :: vm in vms && vm.name == pi.instanceName) ==>
           o == Outcome(Some(pi), vms, nodes, 0))
  {
    hide WithPrefix;
    if forall vm :: vm in vms ==> !(pi.name <= vm.name) { NoneListed(vms, pi.name); }
    assert pi.instanceName != "" ==> pi.(finalizer := true) == pi;
  }

  // ---------- Deletion ----------

  /** The VMs of other names are left. */
  ghost predicate Without(vms: seq<Vm>, name: string, later: seq<Vm>)
  {
    forall vm :: vm in later <==> vm in vms && vm.name != name
  }

  /**
    An instance that is being deleted goes only after its VM, if it has recorded one, is known to be gone; its
    node goes with it. A failing call leaves the instance, and so the next attempt, in place.
  */
  lemma DeletionExact(pi: Instance, vms: seq<Vm>, nodes: map<string, bool>, f: Faults)
    requires pi.deleting
    ensures var o := Lifecycle.Reconcile(pi, vms, nodes, f);
      var there := pi.instanceName != "" && exists vm :: vm in vms && vm.name == pi.instanceName;
      var stuck := pi.instanceName != "" && (f.lookup || (there && f.deleteVm != DeleteResult.Gone));
      && o.inserts == 0
      && (o.pi.None? <==> pi.finalizer && !stuck && !f.removeFinalizer)
      && (o.pi.Some? ==> o.pi.value == pi)
      && (if pi.finalizer && pi.instanceName != "" && !f.lookup && !(there && f.deleteVm == ErrorKept)
          then Without(vms, pi.instanceName, o.vms) else o.vms == vms)
      && NodesAfter(nodes, pi.nodeName, !pi.finalizer || stuck || f.deleteNode || pi.nodeName == "", o.nodes)
  {
    hide RemoveVm;
  }

  /** The other instances keep their status and their order. */
  lemma OthersUntouched(s: State, k: nat, f: Faults)
    requires k < |s.pis|
    ensures var t, o := InstanceStep(s, k, f), Lifecycle.Reconcile(s.pis[k], s.vms, s.nodes, f);
      && t == s.(pis := t.pis, vms := o.vms, nodes := o.nodes)
      && |t.pis| == |s.pis| - (if o.pi.Some? then 0 else 1)
      && (o.pi.Some? ==> t.pis[k] == o.pi.value)
      && (forall j :: 0 <= j < k ==> t.pis[j] == s.pis[j])
      && (forall j :: k < j < |s.pis| ==> t.pis[if o.pi.Some? then j else j - 1] == s.pis[j])
  {
    hide Lifecycle.Reconcile;
  }
}
