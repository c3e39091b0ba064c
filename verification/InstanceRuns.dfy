/** Whole runs of one ProvisionedInstance: crashes, lost VMs and deletion in any order. */
module InstanceRuns {
  import opened Objects
  import opened Lifecycle

  /**
    One instance, the VMs and the nodes, with a history: inserts made for it, disappearances of its VM,
    and whether an instance name was ever persisted.
  */
  datatype Life = Life(
    name: string, pi: Option<Instance>, vms: seq<Vm>, nodes: map<string, bool>,
    inserted: nat, vanished: nat, recorded: bool)

  function Lost(before: seq<Vm>, after: seq<Vm>, name: string): nat
  {
    if Has(before, name) && !Has(after, name) then 1 else 0
  }

  predicate Recorded(pi: Option<Instance>)
  {
    pi.Some? && pi.value.instanceName != ""
  }

  // ---------- Steps ----------

  /** A pass of the reconciler, with any combination of failing calls. */
  ghost predicate PassStep(a: Life, b: Life)
  {
    a.pi.Some? && exists f :: DocumentedInsert(f) && b == AfterPass(a, f)
  }

  function AfterPass(a: Life, f: Faults): Life
    requires a.pi.Some?
  {
    var o := Reconcile(a.pi.value, a.vms, a.nodes, f);
    Life(a.name, o.pi, o.vms, o.nodes, a.inserted + o.inserts, a.vanished + Lost(a.vms, o.vms, a.name),
      a.recorded || Recorded(o.pi))
  }

  /** VMs change state or disappear, nodes join and leave; no VM with the instance's prefix appears. */
  ghost predicate EnvironmentStep(a: Life, b: Life)
  {
    && DocumentedVms(b.vms)
    && (forall vm :: vm in b.vms && a.name <= vm.name ==> vm.name == a.name && Has(a.vms, a.name))
    && b == a.(vms := b.vms, nodes := b.nodes, vanished := a.vanished + Lost(a.vms, b.vms, a.name))
  }

  /** Somebody asks for the instance to be deleted. */
  ghost predicate DeletionStep(a: Life, b: Life)
  {
    a.pi.Some? && b == a.(pi := Some(a.pi.value.(deleting := true)))
  }

  ghost predicate Step(a: Life, b: Life)
  {
    PassStep(a, b) || EnvironmentStep(a, b) || DeletionStep(a, b)
  }

  ghost predicate Initial(a: Life)
  {
    && a.name != "" && a.pi.Some? && a.pi.value.name == a.name && StatusOk(a.pi.value) && a.pi.value.instanceName == ""
    && DocumentedVms(a.vms) && (forall vm :: vm in a.vms ==> !(a.name <= vm.name))
    && a.inserted == 0 && a.vanished == 0 && !a.recorded
  }

  ghost predicate Run(r: seq<Life>)
  {
    |r| > 0 && Initial(r[0]) && forall k :: 0 <= k < |r| - 1 ==> Step(r[k], r[k + 1])
  }

  // ---------- The invariant ----------

  ghost predicate OwnStatus(pi: Instance, a: Life)
  {
    && pi.name == a.name && StatusOk(pi) && (pi.instanceName == "" || pi.instanceName == a.name)
    && (a.recorded <==> pi.instanceName != "")
  }

  ghost predicate Inv(a: Life)
  {
    && a.name != "" && DocumentedVms(a.vms)
    && (a.pi.Some? ==> OwnStatus(a.pi.value, a))
    && (forall vm :: vm in a.vms && a.name <= vm.name ==> vm.name == a.name)
    && a.inserted == a.vanished + (if Has(a.vms, a.name) then 1 else 0)
    && (a.pi.None? && a.recorded ==> !Has(a.vms, a.name))
  }

  lemma Appended(vms: seq<Vm>, vm: Vm)
    ensures forall v :: v in vms + [vm] <==> v in vms || v == vm
  {
  }

  lemma ProvisionOutcome(pi: Instance, vms: seq<Vm>, nodes: map<string, bool>, f: Faults)
    requires forall vm :: vm in vms && pi.name <= vm.name ==> vm.name == pi.name
    requires DocumentedVms(vms) && DocumentedInsert(f) && pi.name != "" && pi.instanceName == ""
    ensures var o := Provision(pi, vms, nodes, f);
      && (o.inserts == 0 ==> o.vms == vms)
      && (o.inserts > 0 ==> o.inserts == 1 && !Has(vms, pi.name) && Has(o.vms, pi.name))
      && DocumentedVms(o.vms)
      && (forall vm :: vm in o.vms && pi.name <= vm.name ==> vm.name == pi.name)
      && o.pi.Some? && (o.pi.value.instanceName == "" || o.pi.value.instanceName == pi.name)
  {
    hide WithPrefix;
    WithPrefixExact(vms, pi.name);
    var existing := WithPrefix(vms, pi.name);
    if Has(vms, pi.name) {
      var vm :| vm in vms && vm.name == pi.name;
      assert vm in existing;
    }
    if |existing| > 0 { assert existing[0] in existing; }
    if f.insert.Unacknowledged? || f.insert.Acknowledged? {
      var vm := Vm(pi.name, f.insert.id, f.insert.state);
      Appended(vms, vm);
      assert vm in vms + [vm];
    }
  }

  lemma PassKeepsInv(a: Life, f: Faults)
    requires Inv(a) && a.pi.Some? && DocumentedInsert(f)
    ensures Inv(AfterPass(a, f))
  {
    hide Provision, CheckStatus, RemoveVm;
    var pi := a.pi.value;
    ReconcileKeepsStatus(pi, a.vms, a.nodes, f);
    if pi.deleting {
      var o := HandleDeletion(pi, a.vms, a.nodes, f);
      assert o.vms == a.vms || o.vms == RemoveVm(a.vms, a.name);
    } else if pi.finalizer || !f.addFinalizer {
      var p := pi.(finalizer := true);
      var q := if p.state == Unset then p.(state := Pending) else p;
      if pi.instanceName == "" {
        ProvisionOutcome(q, a.vms, a.nodes, f);
      } else {
        CheckLeavesVms(q, a.vms, a.nodes, f);
      }
    }
  }

  lemma CheckLeavesVms(pi: Instance, vms: seq<Vm>, nodes: map<string, bool>, f: Faults)
    ensures CheckStatus(pi, vms, nodes, f).vms == vms && CheckStatus(pi, vms, nodes, f).inserts == 0
  {
  }

  lemma StepKeepsInv(a: Life, b: Life)
    requires Inv(a) && Step(a, b)
    ensures Inv(b)
  {
    hide Reconcile;
    if PassStep(a, b) {
      var f :| DocumentedInsert(f) && b == AfterPass(a, f);
      PassKeepsInv(a, f);
    }
  }

  lemma {:induction false} RunKeepsInv(r: seq<Life>, k: nat)
    requires Run(r) && k < |r|
    ensures Inv(r[k])
  {
    if k > 0 {
      RunKeepsInv(r, k - 1);
      StepKeepsInv(r[k - 1], r[k]);
    }
  }

  // ---------- Theorems over runs ----------

  /**
    Crash-tolerant provisioning: in every run each insert but one is paid for by a disappearance of the
    VM, and a pass never inserts while the VM exists or once a name has been persisted.
  */
  lemma AtMostOneInsert(r: seq<Life>, k: nat)
    requires Run(r) && k < |r|
    ensures r[k].inserted == r[k].vanished + (if Has(r[k].vms, r[k].name) then 1 else 0)
    ensures k + 1 < |r| && r[k + 1].inserted > r[k].inserted ==> !Has(r[k].vms, r[k].name) && !r[k].recorded
  {
    RunKeepsInv(r, k);
    if k + 1 < |r| && r[k + 1].inserted > r[k].inserted {
      assert Step(r[k], r[k + 1]);
      var a := r[k];
      var f :| DocumentedInsert(f) && r[k + 1] == AfterPass(a, f);
      InsertOnlyWhenAbsent(a, f);
    }
  }

  lemma InsertOnlyWhenAbsent(a: Life, f: Faults)
    requires Inv(a) && a.pi.Some? && DocumentedInsert(f) && Reconcile(a.pi.value, a.vms, a.nodes, f).inserts > 0
    ensures !Has(a.vms, a.name) && a.pi.value.instanceName == ""
  {
    hide Provision, CheckStatus, RemoveVm;
    var p := a.pi.value.(finalizer := true);
    var q := if p.state == Unset then p.(state := Pending) else p;
    CheckLeavesVms(q, a.vms, a.nodes, f);
    if a.pi.value.instanceName == "" {
      ProvisionOutcome(q, a.vms, a.nodes, f);
    }
  }

  /** No recorded VM is orphaned: when the instance is gone and a name had been persisted, so is its VM. */
  lemma RecordedVmNotOrphaned(r: seq<Life>, k: nat)
    requires Run(r) && k < |r|
    ensures r[k].pi.Some? && r[k].recorded ==> r[k].pi.value.finalizer && r[k].pi.value.instanceName == r[k].name
    ensures r[k].pi.None? && r[k].recorded ==> !Has(r[k].vms, r[k].name)
  {
    RunKeepsInv(r, k);
  }

  /** Exactly when a pass lets the instance go and leaves its VM behind: the name had not been persisted. */
  lemma OrphanedIffUnrecorded(a: Life, f: Faults)
    requires Inv(a) && a.pi.Some? && DocumentedInsert(f) && AfterPass(a, f).pi.None?
    ensures Has(AfterPass(a, f).vms, a.name) <==> Has(a.vms, a.name) && !a.recorded
  {
    ReconcileKeepsStatus(a.pi.value, a.vms, a.nodes, f);
  }

  const NO_FAULT := Faults(false, false, false, false, false, Rejected, false, false, false, Gone, false)

  const LEFT_BEHIND := Vm("i", 7, Running)
  const NEW := Instance("i", Some(0), 0, false, false, Unset, None, "", "", false, false)
  const WAITING := NEW.(finalizer := true, state := Pending)

  lemma CrashAfterInsert(f: Faults)
    requires f == NO_FAULT.(insert := Unacknowledged(7, Running))
    ensures Reconcile(NEW, [], map[], f) == Outcome(Some(WAITING), [LEFT_BEHIND], map[], 1)
  {
    assert WithPrefix([], "i") == [];
  }

  lemma DeletionOfUnrecorded()
    ensures Reconcile(WAITING.(deleting := true), [LEFT_BEHIND], map[], NO_FAULT)
      == Outcome(None, [LEFT_BEHIND], map[], 0)
  {
  }

  lemma FourStates(a: Life, b: Life, c: Life, d: Life)
    requires Initial(a) && Step(a, b) && Step(b, c) && Step(c, d)
    ensures Run([a, b, c, d])
  {
    hide Step, Initial;
    var r := [a, b, c, d];
    forall k | 0 <= k < |r| - 1 ensures Step(r[k], r[k + 1]) {
      assert k == 0 || k == 1 || k == 2;
    }
  }

  const CREATED := Life("i", Some(NEW), [], map[], 0, 0, false)
  const INSERTED := Life("i", Some(WAITING), [LEFT_BEHIND], map[], 1, 0, false)
  const DELETING := Life("i", Some(WAITING.(deleting := true)), [LEFT_BEHIND], map[], 1, 0, false)
  const REMOVED := Life("i", None, [LEFT_BEHIND], map[], 1, 0, false)

  lemma NewIsInitial()
    ensures Initial(CREATED)
  {
  }

  lemma VmLeftBehind()
    ensures Has([LEFT_BEHIND], "i") && !Has([], "i")
  {
    assert LEFT_BEHIND in [LEFT_BEHIND];
  }

  lemma PassStepTo(a: Life, f: Faults, o: Outcome, b: Life)
    requires a.pi.Some? && DocumentedInsert(f) && Reconcile(a.pi.value, a.vms, a.nodes, f) == o
    requires b == Life(a.name, o.pi, o.vms, o.nodes, a.inserted + o.inserts, a.vanished + Lost(a.vms, o.vms, a.name),
                       a.recorded || Recorded(o.pi))
    ensures PassStep(a, b)
  {
    hide Reconcile, Lost, Recorded, DocumentedInsert;
    assert b == AfterPass(a, f);
  }

  lemma CrashStep()
    ensures PassStep(CREATED, INSERTED)
  {
    hide Reconcile;
    var crash := NO_FAULT.(insert := Unacknowledged(7, Running));
    CrashAfterInsert(crash);
    VmLeftBehind();
    PassStepTo(CREATED, crash, Outcome(Some(WAITING), [LEFT_BEHIND], map[], 1), INSERTED);
  }

  lemma RemovalStep()
    ensures PassStep(DELETING, REMOVED)
  {
    hide Reconcile;
    DeletionOfUnrecorded();
    VmLeftBehind();
    PassStepTo(DELETING, NO_FAULT, Outcome(None, [LEFT_BEHIND], map[], 0), REMOVED);
  }

  /** It does happen: insert, crash before the status write, then deletion of the instance. */
  lemma UnrecordedVmOrphaned()
    ensures exists r: seq<Life> :: Run(r) && r[|r| - 1].pi.None? && Has(r[|r| - 1].vms, r[|r| - 1].name)
  {
    NewIsInitial();
    CrashStep();
    RemovalStep();
    VmLeftBehind();
    assert DeletionStep(INSERTED, DELETING);
    Witness(CREATED, INSERTED, DELETING, REMOVED);
  }

  lemma Witness(a: Life, b: Life, c: Life, d: Life)
    requires Initial(a) && Step(a, b) && Step(b, c) && Step(c, d) && d.pi.None? && Has(d.vms, d.name)
    ensures exists r: seq<Life> :: Run(r) && r[|r| - 1].pi.None? && Has(r[|r| - 1].vms, r[|r| - 1].name)
  {
    hide Step, Initial, Has;
    FourStates(a, b, c, d);
    var r := [a, b, c, d];
    assert r[|r| - 1] == d;
    assert Run(r);
  }

  /** The notice and the node of an instance are never withdrawn in a run. */
  lemma {:induction false} StatusOverRun(r: seq<Life>, j: nat, k: nat)
    requires Run(r) && j <= k < |r| && r[k].pi.Some?
    ensures r[j].pi.Some? && StatusOk(r[k].pi.value)
    ensures r[j].pi.value.notice ==> r[k].pi.value.notice
    ensures r[j].pi.value.joined ==> r[k].pi.value.joined && r[k].pi.value.nodeName == r[j].pi.value.nodeName
    ensures r[j].pi.value.instanceName != "" ==> r[k].pi.value.instanceName == r[j].pi.value.instanceName
    decreases k
  {
    RunKeepsInv(r, k);
    if j < k {
      RunKeepsInv(r, k - 1);
      assert Step(r[k - 1], r[k]);
      if PassStep(r[k - 1], r[k]) {
        var f :| DocumentedInsert(f) && r[k] == AfterPass(r[k - 1], f);
        ReconcileKeepsStatus(r[k - 1].pi.value, r[k - 1].vms, r[k - 1].nodes, f);
      }
      StatusOverRun(r, j, k - 1);
    }
  }
}
