# Spot instance training operator: a verified model

The operator keeps a training job running on preemptible GCP virtual machines. A `SpotInstanceJob` asks for a
number of replicas; for each replica index the controller keeps a `ProvisionedInstance` (one VM, one Kubernetes
node) and a batch `Job` pinned to that node. When a VM is preempted, the controller checkpoints a replica that is
still alive, provisions a new VM for the lost index, and restores the lost Job from the checkpoint's images.
Nothing but the stored objects remembers how far a recovery has come.

The model is one mutable store, `class Cluster`, holding instances, Jobs, CheckpointBackups, pods, nodes, VMs and a
clock. Every loop of the two reconcilers is a method over it, proved equal to a function of the state it starts
from. On these functions stand the properties: of the loops, of one pass, of every run in which passes, instance
passes, asynchronous restores and the environment interleave, and of recoveries round by round.

| files | what they hold |
|---|---|
| `Names.dfy`, `ImageReferences.dfy` | generated names and image references: when they are unique, when they can be decoded |
| `Objects.dfy` | the stored objects and the store |
| `Checkpoints.dfy`, `Restore.dfy`, `Preemption.dfy` | the reaction to a lost instance |
| `InstanceAllocation.dfy`, `JobFilling.dfy` | the two index-filling loops |
| `Controller.dfy` | one pass of the SpotInstanceJob reconciler |
| `Lifecycle.dfy`, `InstanceRuns.dfy` | the ProvisionedInstance reconciler with every crash point, and its runs |
| `Invariants.dfy`, `JobInvariants.dfy`, `RestoreSafety.dfy`, `Placement.dfy` | what passes keep, delete and place |
| `Runs.dfy`, `RunTheorems.dfy` | the whole system, its inductive invariant, and safety over its runs |
| `Rounds.dfy`, `Liveness.dfy`, `Startup.dfy` | a pass followed by whatever the environment does; start-up converges |
| `LostReplicas.dfy`, `Recovery.dfy`, `Distance.dfy`, `RecoveryRuns.dfy` | recovery of any set of lost replicas, with a distance that no round increases |
| `OneLoss.dfy`, `FirstLoss.dfy`, `SecondLoss.dfy` | the exact condition under which one lost replica is recovered, and what it means for the first and the second loss |
| `Observations.dfy`, `Reactions.dfy`, `Replacements.dfy`, `Creations.dfy`, `Answers.dfy` | the passes once more, read off the stored objects alone: exactly what is noticed, launched, checkpointed, replaced and created |
| `Existence.dfy`, `Stories.dfy` | from an empty store to a second loss: the runs exist, and both of its outcomes do |

## What turned out

* Recovery converges (`RecoveryRuns.RecoveryConverges`): in every fair run, any number of lost replicas whose Jobs had
  not been restored before are restored, as long as one is alive and there is a checkpoint, in progress or completed,
  of a Job that was not lost, or none at all yet. A run has no more effective rounds than the distance at its start (`RecoveryRuns.EffectiveRoundsBounded`).
  The path is longer than the documentation says: the old Job is deleted before an instance is there to take it
  (`spotinstancejob_job.go:412` against 466-504), so it is lost, a fresh Job is created under a new name, and only
  that one is restored.
* "Automatic recovery from preemption events" (README.md:9 of the repository) does not hold of every preemption.
  `OneLoss.RecoversIff` gives the exact condition for a single loss. A Job that has been restored once is protected by
  its annotation for ever and is never recovered again. Where all live checkpoints are the lost Job's own and
  something has been restored before, the index is recovered exactly when some pass after the replacement has joined
  finds the lost Job with `active` and `succeeded` both zero (the guard of `spotinstancejob_job.go:100`): only then a
  fresh Job takes the index, and to that one the old Job's checkpoint applies. In every other case the loss is
  recovered.
* With two replicas, the default, the first loss is therefore recovered; of the second one the replica restored before
  never is, and the other one exactly under the condition just given (`SecondLoss.SecondLossIff`). Runs from an
  empty store show it: `Stories.SecondLossOfRestored`, and `Stories.SecondLossBothWays` for both outcomes.
* Finitely many failing checkpoints and refused Jobs only delay a recovery that rests on a completed checkpoint, or
  on none yet (`RecoveryRuns.RecoveryConvergesDespiteFailures`). The refused creation of one instance prevents it: the
  loop makes up for it at the next free index, beyond the replica count, the fleet then counts as complete, and the refused index stays without an instance until another one is
  lost (`Rounds.RefusedCreationIff`, `Rounds.RefusedStaysMissing`, `Rounds.OneRefusalIsEnough`).
* The asynchronous restore that is launched when no replica is alive deletes the Job and brings it back only if its
  index has a usable instance already (`Preemption.LatestRestoreIff`).
* An index can get a second Job: exactly when none of its Jobs counts yet and the index is ready, with room left
  (`RunTheorems.SecondJobIff`, `RunTheorems.SecondJobHappens`).
* A VM whose name had not been persisted when its instance is deleted is left behind
  (`InstanceRuns.UnrecordedVmOrphaned`); `InstanceRuns.OrphanedIffUnrecorded` is the exact condition.
* `desiredReplicas*2` overflows int32 from 2^30 replicas on: no Job is ever created, and the instance loop hands out
  an index that is taken exactly when two adjacent indices are taken within reach
  (`Invariants.NewIndicesFreshIff`, `Invariants.OverflowHandsOutTaken`).
* The controller provisions beyond the replica count exactly when more indices below it are taken than instances are
  active (`InstanceAllocation.OverProvisionsIff`); a VM state outside the documented alphabet leads
  there (`InstanceAllocation.StagingOverProvisions`).
* A restored Job loses the user's pod labels.
* Instance names of two SpotInstanceJobs coincide exactly when index and time agree and the two leading parts joined by
  the dash do (`Names.InstanceNamesCoincide`).

## Assumptions about the environment

Reads of the store are up to date and succeed, and objects are listed in a fixed order. A creation under a name in use is
refused. An ended checkpoint stays as it is. VM states are the four that
`api/v1alpha1/provisionedinstance_types.go:68` documents. Unix times have ten digits. These hold throughout
`Runs.dfy`.

The theorems on start-up and recovery are about rounds: a pass, then whatever the environment does by the next one,
at least a second later (`Rounds.Advances`). Any number of instances join and any number of checkpoints complete,
possibly none; a stopping instance may terminate; pods, nodes and VMs are arbitrary. What they exclude: creations
that fail, checkpoints that fail, a change of the replica count, further preemptions, users who delete Jobs, and
Jobs other than the lost ones that do not count (neither active nor succeeded) when a pass begins. The theorem on
failures lets finitely many checkpoints fail and finitely many Jobs be refused (`Rounds.RoughRound`); no checkpoint
is ever reported successful without its images. For recovery the first pod on a ready node other than a lost one
belongs to a Job that is not still lost (`LostReplicas.PodsOk`, a condition on pods and nodes alone). A run is fair when
every live instance joins and every checkpoint ends some time (`RecoveryRuns.Fair`). Fresh names need no bound on the clock there.

## Model

| member | source | states |
|---|---|---|
| Names.InstanceNamePrefix | internal/controller/spotinstancejob_provisionedinstance.go:121-125 | of two instance names of one SpotInstanceJob and template, one is a prefix of the other iff the indices agree and one decimal time is a prefix of the other |
| Names.InstanceNameExact | internal/gcp/provisioner.go:177-193 | with times of equal length the prefix relation is equality of index and time, so a search by prefix finds one instance's VM only |
| Names.InstanceNamesCoincide | internal/controller/spotinstancejob_provisionedinstance.go:121-125 | names coincide, whatever they are for, iff index and time agree and so do the leading parts joined by the dash |
| Names.InstanceNameAmbiguousAcrossJobs | internal/controller/spotinstancejob_provisionedinstance.go:121-125 | two different SpotInstanceJobs whose names coincide |
| Names.JobNameInjective | internal/controller/spotinstancejob_job.go:231 | a Job name gives back its replica index and its time |
| Names.CheckpointNameTime | internal/controller/spotinstancejob_checkpoint.go:446-447 | a checkpoint name gives back its pod and its time |
| Names.NamesSpelled | internal/controller/spotinstancejob_provisionedinstance.go:121-125 | the three patterns of generated names, on numbers |
| ImageReferences.RegistryIsDotted | internal/controller/spotinstancejob_checkpoint.go:455-464 | the four literal registry names are subsumed by the dot test |
| ImageReferences.SplitNormalise | internal/controller/spotinstancejob_checkpoint.go:449-464 | splitting a repository written out in full gives the same parts, and writing out is idempotent |
| ImageReferences.NormaliseFixed | internal/controller/spotinstancejob_checkpoint.go:449-464 | a repository is in full form iff its part before the first slash has a dot |
| ImageReferences.ImageRoundTrip | internal/controller/spotinstancejob_job.go:356-378 | the split at checkpoint time and the prefix at restore time compose to the full repository with the tag, whether or not the registry was written out |
| ImageReferences.TagDecodes | internal/controller/spotinstancejob_checkpoint.go:494-505 | an image tag gives back container and time, even when container names contain dashes |
| ImageReferences.RegistryExact | internal/controller/spotinstancejob_checkpoint.go:449-464 | the registry is the part before the first slash iff that has a dot, else docker.io, both when a checkpoint is taken and when it is restored |
| Objects.FindUsable | internal/controller/spotinstancejob_job.go:475-490 | the listing loop returns the first running, joined instance of the index that is not preempted |
| Checkpoints.HasPendingCheckpoints | internal/controller/spotinstancejob_checkpoint.go:37-76 | true iff some checkpoint is not in one of the four terminal phases |
| Checkpoints.HasCompletedCheckpoint | internal/controller/spotinstancejob_checkpoint.go:80-133 | whether a checkpoint has completed successfully, and whether one has less than five minutes ago |
| Checkpoints.HasRestoredJobs | internal/controller/spotinstancejob_checkpoint.go:136-156 | true iff some Job carries the annotation |
| Checkpoints.FindJobsOnNode | internal/controller/spotinstancejob_checkpoint.go:775-818 | exactly the owner names of the SpotInstanceJob's pods on the node |
| Checkpoints.FindAlive | internal/controller/spotinstancejob_preemption.go:157-205 | the first pod on a ready node other than the lost one (spelled out in Reactions.AwayExact) |
| Checkpoints.FindOfJob | internal/controller/spotinstancejob_checkpoint.go:389-439 | the first pod of the Job on a ready node |
| Checkpoints.MayCheckpointJob | internal/controller/spotinstancejob_checkpoint.go:303-387 | a checkpoint is refused iff one is in progress, or one has completed and no Job carries `restored-from` |
| Checkpoints.CreateCheckpointForJob | internal/controller/spotinstancejob_checkpoint.go:300-545 | what the call adds: nothing, or one checkpoint of the first live pod with registry, repository and one image per container |
| Checkpoints.CheckpointKeepsOneLive | internal/controller/spotinstancejob_checkpoint.go:303-387 | creation keeps at most one checkpoint per source in progress or completed |
| Checkpoints.CompletedSourceIsFinal | internal/controller/spotinstancejob_checkpoint.go:342-387 | a Job whose checkpoint has completed is never checkpointed again |
| Checkpoints.LatestCheckpoint | internal/controller/spotinstancejob_checkpoint.go:684-748 | the scan finds the dated checkpoint with the greatest completion time, the first on a tie, or none if there is none |
| Restore.ReplaceImages | internal/controller/spotinstancejob_job.go:356-394 | every container whose name has an entry gets that image, all others are unchanged |
| Restore.ImageMapEntries | internal/controller/spotinstancejob_job.go:369-378 | a container's image is that of the last entry with its name, prefixed with the registry |
| Restore.CheckpointThenRestore | internal/controller/spotinstancejob_checkpoint.go:494-505 | with the requested images a restored container runs the full repository tagged with its name and the checkpoint time; containers the pod did not have keep their image |
| Restore.CheckpointTarget | internal/controller/spotinstancejob_checkpoint.go:449-505 | what a checkpoint is told to push is what a restore later runs; its registry and repository are the full image repository |
| Restore.UpdateJobWithCheckpoint | internal/controller/spotinstancejob_job.go:335-542 | an un-annotated Job is replaced by its restored version, or lost when its index has no usable instance; no other Job changes |
| Restore.ProcessCompletedCheckpoints | internal/controller/spotinstancejob_checkpoint.go:159-297 | the nested loops over checkpoints and an unordered set of Jobs replace each Job once, by its first applicable checkpoint, whatever the order (spelled out in Replacements.ReplacedExactly) |
| Preemption.AffectedJobs | internal/controller/spotinstancejob_preemption.go:56-112 | the Jobs to update: un-annotated ones of the index that are not being deleted, or those with a pod on the node when there is no index |
| Replacements.AffectedIff | internal/controller/spotinstancejob_preemption.go:56-112 | the same over Jobs and pods: the index decides if there is one, the node only if there is none |
| Preemption.ReactTo | internal/controller/spotinstancejob_preemption.go:114-246 | one lost instance: process checkpoints, stop if handled, else checkpoint a live replica, else launch restores (spelled out in Reactions.ReactionIff) |
| Preemption.HandlePreemptedInstances | internal/controller/spotinstancejob_preemption.go:34-258 | the whole phase, Jobs to update accumulating over the instances (spelled out in Reactions.LaunchedIff, Replacements.ReplacedIff) |
| Preemption.RecreateJobFromLatestCheckpoint | internal/controller/spotinstancejob_checkpoint.go:667-772 | the launched restore applies the latest checkpoint, or does nothing without one (spelled out in Replacements.LatestRestoreExactly) |
| Preemption.LatestRestoreIff | internal/controller/spotinstancejob_preemption.go:229-243 | the restore launched when no replica is alive deletes the Job and brings it back iff its index has a usable instance already |
| InstanceAllocation.CountInstances | internal/controller/spotinstancejob_provisionedinstance.go:63-74 | the number of active instances, and whether one has terminated on notice |
| InstanceAllocation.TakenIndices | internal/controller/spotinstancejob_provisionedinstance.go:89-103 | the indices of the instances that are not preempted |
| InstanceAllocation.NextFree | internal/controller/spotinstancejob_provisionedinstance.go:114-119 | the inner loop over the updated map stops where it would on the original one |
| InstanceAllocation.CreateMissing | internal/controller/spotinstancejob_provisionedinstance.go:105-158 | terminates after any finite number of failing creations and appends fresh instances at the specified indices |
| InstanceAllocation.AllocateSmallestFree | internal/controller/spotinstancejob_provisionedinstance.go:105-158 | if the room suffices, the indices are exactly the smallest free ones, in order, below the bound |
| InstanceAllocation.NewIndicesSmallestFree | internal/controller/spotinstancejob_provisionedinstance.go:63-158 | the same for the phase as a whole |
| InstanceAllocation.AllocateOverflows | internal/controller/spotinstancejob_provisionedinstance.go:114-119 | with a wrapped limit an index that is taken is handed out iff two adjacent ones are taken within reach |
| InstanceAllocation.OverProvisionsIff | internal/controller/spotinstancejob_provisionedinstance.go:63-158 | for every state: a new index reaches the replica count iff more indices below it are taken than instances are active |
| InstanceAllocation.UndocumentedStateOverProvisions | internal/controller/spotinstancejob_provisionedinstance.go:63-74 | an instance in an undocumented state takes its index without being active, and so leads beyond the replica count |
| InstanceAllocation.StagingOverProvisions | internal/controller/spotinstancejob_provisionedinstance.go:63-158 | one replica whose VM is being staged gets a second instance |
| InstanceAllocation.ReconcileProvisionedInstances | internal/controller/spotinstancejob_provisionedinstance.go:47-162 | the phase: fresh instances at the missing indices, nothing else |
| JobFilling.CollectTaken | internal/controller/spotinstancejob_job.go:61-108 | the indices with a Job that is active, succeeded, restored, or deleted less than ten seconds ago (spelled out in Creations.NewJobIff) |
| JobFilling.HasValidJob | internal/controller/spotinstancejob_job.go:132-168 | the second lookup agrees with the first (spelled out in Creations.NewJobIff) |
| JobFilling.FindActive | internal/controller/spotinstancejob_job.go:171-190 | the first instance of the index that is not preempted |
| JobFilling.CreateJobReplica | internal/controller/spotinstancejob_job.go:252-315 | the stored Job has the labels of its own index although all Jobs of a pass share one label map |
| JobFilling.FillIndices | internal/controller/spotinstancejob_job.go:115-242 | the loop with its skip counter, breaks and second lookup equals filter and take |
| JobFilling.ReconcileJobReplicas | internal/controller/spotinstancejob_job.go:38-248 | the phase: nothing while a checkpoint is in progress, else the Jobs at the specified indices (spelled out in Creations.NewJobIff) |
| JobFilling.EligibleExact | internal/controller/spotinstancejob_job.go:115-242 | the filter keeps exactly the indices without a Job whose first un-preempted instance has joined |
| JobFilling.NewJobIndicesFirst | internal/controller/spotinstancejob_job.go:112-242 | new Jobs go to the first such indices below twice the replica count, as many as are missing or as there are |
| JobFilling.NewJobIndexIff | internal/controller/spotinstancejob_job.go:112-242 | an index gets a new Job iff it is eligible below the limit and fewer indices before it are than are missing |
| JobFilling.NoJobsOnOverflow | internal/controller/spotinstancejob_job.go:118 | from 2^30 replicas on the bound is negative and no Job is created |
| JobFilling.AddJobsExact | internal/controller/spotinstancejob_job.go:231-242 | exactly the new names are added and hold the fresh Job of their index |
| JobFilling.PinnedToGate | internal/controller/spotinstancejob_job.go:282-301 | a Job whose gating instance is running is pinned to that very instance |
| Creations.NewJobIff | internal/controller/spotinstancejob_job.go:61-242 | an index gets a new Job iff nothing is pending, no Job of it is active, succeeded, restored or deleted less than ten seconds ago, its first live instance has joined, and the vacant indices below it and the held ones are fewer than the replicas |
| Creations.RecentDeletionBlocks | internal/controller/spotinstancejob_job.go:67-80 | a Job being deleted for less than ten seconds keeps its index from getting another |
| Creations.OldDeletionFrees | internal/controller/spotinstancejob_job.go:132-150 | an index whose Jobs have all been going for ten seconds or more gets one if it is ready and room remains |
| Creations.NewJobsFresh | internal/controller/spotinstancejob_job.go:252-315 | name, index, containers, labels and node of every new Job; all other Jobs stay |
| Creations.NewInstanceIff | internal/controller/spotinstancejob_provisionedinstance.go:63-158 | an index gets a new instance iff no live one has it, it is not refused, fewer such indices below it than instances are missing, and no termination waits for a checkpoint |
| Creations.NewInstancesFresh | internal/controller/spotinstancejob_provisionedinstance.go:121-158 | new instances are appended under their generated name without status or finalizer |
| Controller.Reconcile | internal/controller/spotinstancejob_controller.go:98-136 | the order of the phases and the two gates |
| Controller.PassExtends | internal/controller/spotinstancejob_preemption.go:51-224 | a pass alters no checkpoint and adds at most one for each preempted instance |
| Controller.SameDecision | internal/controller/spotinstancejob_preemption.go:114-122 | a preempted instance never counts itself, so all see a live replica or none does |
| Controller.UniformDecision | internal/controller/spotinstancejob_preemption.go:114-246 | a pass never both restores or checkpoints and launches asynchronous restores |
| Reactions.LaunchedIff | internal/controller/spotinstancejob_preemption.go:229-246 | a restore is launched iff nothing is pending, no replica is alive, and an owned pod on the node of a lost instance names the Job |
| Reactions.AwayExact | internal/controller/spotinstancejob_preemption.go:171-211 | the pod chosen is owned, off the lost node and on a ready one, with none such before it; none is chosen iff there is none |
| Reactions.PodOfJobExact | internal/controller/spotinstancejob_checkpoint.go:389-439 | the pod checkpointed has the label of the Job and is on a ready node, with none such before it |
| Reactions.StartedIff | internal/controller/spotinstancejob_checkpoint.go:300-545 | a checkpoint is created iff no other one of the Job is in progress, none has completed unless the Job was recreated, it has a live pod and the name is free; its fields |
| Reactions.AnsweredIff | internal/controller/spotinstancejob_preemption.go:135-155 | a loss counts as answered iff something has completed, and a Job is annotated or a completion is less than 300 seconds old |
| Reactions.ReactionIff | internal/controller/spotinstancejob_preemption.go:114-246 | with a live replica: the restores, and then, iff unanswered, a checkpoint of the Job named by the first live pod off the lost node |
| Reactions.CheckpointSources | internal/controller/spotinstancejob_preemption.go:157-222 | every checkpoint a pass creates is of the Job named by the first owned pod on a ready node other than that of a lost instance |
| Replacements.ReplacedIff | internal/controller/spotinstancejob_preemption.go:50-133 | exactly which Jobs the phase replaces: lost by index or, without an index, by node; neither restored nor being deleted; some completed checkpoint not theirs; a replica alive; nothing pending |
| Replacements.ReplacedExactly | internal/controller/spotinstancejob_job.go:335-542 | what becomes of them: gone without a ready instance of the index, else on the first one with the images of the first checkpoint that applies; status.containers before builtImages, the last entry of a name, behind the registry |
| Replacements.LatestRestoreExactly | internal/controller/spotinstancejob_checkpoint.go:667-772 | the launched restore does the same with the checkpoint that completed last, even to its own source or a Job being deleted, and otherwise nothing |
| Replacements.TwoSecondsEach | internal/controller/spotinstancejob_job.go:410-417 | a pass takes two seconds for each Job it deletes |
| Answers.EndedReplicaReplaced | internal/controller/spotinstancejob_preemption.go:50-133 | from the VM to the Job: after its VM has ended, one pass over the instance and one of the controller replace the Job, iff it was not restored before, is not being deleted and a completed checkpoint is not its own |
| Answers.EndedLastReplicaLaunches | internal/controller/spotinstancejob_preemption.go:229-246 | with no other replica alive they launch a restore for every Job named by a pod on its node |
| Answers.SingleLossExactly | internal/controller/spotinstancejob_preemption.go:34-258 | the whole reaction to a single loss |
| Lifecycle.ListInstancesByPrefix | internal/gcp/provisioner.go:177-193 | exactly the VMs whose names start with the prefix |
| Lifecycle.ReconcileProvisionedInstance | internal/controller/provisionedinstance_controller.go:60-436 | one pass, from adoption or insert over status and notice to deletion, with any combination of failing calls and so every crash point (spelled out in Observations.VmObserved and the members after it) |
| Lifecycle.ReconcileKeepsStatus | internal/controller/provisionedinstance_controller.go:86-120 | the fields of a status stay consistent, and name, notice, node and finalizer are never withdrawn |
| Lifecycle.PreemptedIsNotice | internal/controller/spotinstancejob_preemption.go:52 | the repeated three-way test equals the preemption notice |
| Lifecycle.NodeDeletedForCause | internal/controller/provisionedinstance_controller.go:254-296 | a node is deleted only by its own instance, when its VM is terminated or absent or the instance is being deleted |
| InstanceRuns.AtMostOneInsert | internal/controller/provisionedinstance_controller.go:160-224 | in every run inserts equal disappearances plus the VM there is; none happens while the VM exists or after its name was persisted |
| InstanceRuns.RecordedVmNotOrphaned | internal/controller/provisionedinstance_controller.go:72-83 | in every run a persisted name carries the finalizer, which goes only after the VM has gone |
| InstanceRuns.OrphanedIffUnrecorded | internal/controller/provisionedinstance_controller.go:369-398 | a VM is left behind iff it exists and its name was not persisted |
| InstanceRuns.UnrecordedVmOrphaned | internal/controller/provisionedinstance_controller.go:369-398 | a concrete run that leaves one behind |
| InstanceRuns.StatusOverRun | internal/controller/provisionedinstance_controller.go:248-350 | the consistency of the status over every run, with notice and node monotone |
| Observations.VmObserved | internal/controller/provisionedinstance_controller.go:304-366 | state, ID, name, notice, join and node after a pass, field by field from the first VM of the name; only a terminated VM takes the node along |
| Observations.VmAbsent | internal/controller/provisionedinstance_controller.go:248-301 | without its VM an instance is terminated on notice and its node goes, the node even if the status cannot be written |
| Observations.PreemptionNoticed | internal/controller/provisionedinstance_controller.go:248-366 | no preemption goes unnoticed: when the VM is stopping, terminated or gone, one fault-free pass sets the notice and records exactly that state |
| Observations.NoticeForCause | internal/controller/provisionedinstance_controller.go:248-366 | whatever fails, a notice is set only if the VM is stopping, terminated or gone |
| Observations.VmAdopted | internal/controller/provisionedinstance_controller.go:160-176 | a VM found by prefix is taken over in whatever state it is, and none is inserted |
| Observations.VmInserted | internal/controller/provisionedinstance_controller.go:178-224 | without one the VM is inserted under the own name, and recorded iff the insert is acknowledged and the status write succeeds |
| Observations.FailureEndsPass | internal/controller/provisionedinstance_controller.go:76-117 | the first call that fails ends the pass: VMs and nodes are as before, and of the instance only what had been written differs |
| Observations.DeletionExact | internal/controller/provisionedinstance_controller.go:369-436 | exactly when an instance being deleted goes, and what becomes of its VM and its node with each failing call |
| Observations.OthersUntouched | internal/controller/provisionedinstance_controller.go:60-121 | a pass over one instance leaves the others and their order alone |
| Invariants.TakenAtMostActive | internal/controller/spotinstancejob_provisionedinstance.go:63-111 | no more indices are taken than instances are active |
| Invariants.NewIndicesFresh | internal/controller/spotinstancejob_provisionedinstance.go:105-158 | with some creations refused, new indices are neither taken nor refused and stay below the replica count plus the refusals |
| Invariants.NewIndicesFreshIff | internal/controller/spotinstancejob_provisionedinstance.go:105-158 | for every int32 replica count: new indices are free iff the doubled count does not overflow or no two adjacent taken ones are within reach |
| Invariants.OverflowHandsOutTaken | internal/controller/spotinstancejob_provisionedinstance.go:114-119 | two running instances and 2^30 replicas: a state of the invariant in which a taken index is handed out |
| Invariants.WithInstancesKeeps | internal/controller/spotinstancejob_provisionedinstance.go:63-158 | creation keeps names unique and indices distinct |
| Invariants.PrefixFindsOwnVm | internal/gcp/provisioner.go:177-193 | in every state of the invariant the search by prefix finds no other instance's VM |
| Invariants.InstanceStepKeeps | internal/controller/provisionedinstance_controller.go:60-121 | an instance pass keeps the fleet's invariant |
| RestoreSafety.ProcessCompletedRestores | internal/controller/spotinstancejob_checkpoint.go:159-297 | each change to a Job is due: affected, un-annotated, with a checkpoint of another Job; each deletion is logged once |
| RestoreSafety.PreemptionRestores | internal/controller/spotinstancejob_preemption.go:50-133 | the same for the whole phase, judged by the state at its start |
| JobInvariants.PassKeepsJobs | internal/controller/spotinstancejob_job.go:412-432 | a pass keeps Job names decodable, deletions unique and checkpoints one per source |
| Runs.StepKeepsInv | internal/controller/spotinstancejob_controller.go:60-150 | every step of the system keeps the invariant: pass, instance pass, asynchronous restore, environment |
| Runs.RunKeepsInv | internal/controller/spotinstancejob_controller.go:60-150 | every reachable state satisfies the invariant |
| RunTheorems.IndicesDistinct | internal/controller/spotinstancejob_provisionedinstance.go:63-158 | in every reachable state instances without notice have distinct indices, and no two have adopted the same VM |
| RunTheorems.NewInstancesBelowReplicas | internal/controller/spotinstancejob_provisionedinstance.go:105-158 | a pass without failing creations puts every new instance below the replica count |
| RunTheorems.SecondJobIff | internal/controller/spotinstancejob_job.go:93-108 | an index that has Jobs gets another one iff none of them counts, it is ready, its creation is not refused and room remains |
| RunTheorems.SecondJobHappens | internal/controller/spotinstancejob_job.go:93-108 | one replica whose Job is not acknowledged yet: the next pass creates a second one |
| RunTheorems.OneLiveCheckpoint | internal/controller/spotinstancejob_checkpoint.go:303-387 | in every run at most one checkpoint per source is in progress or completed |
| RunTheorems.StepCheckpoints | internal/controller/spotinstancejob_checkpoint.go:53-74 | checkpoints are only ever appended, by a pass that found none in progress |
| RunTheorems.PendingFromOnePass | internal/controller/spotinstancejob_controller.go:98-136 | in every run all checkpoints in progress stem from one pass and are no more than the instances it found preempted |
| RunTheorems.AtMostOneDelete | internal/controller/spotinstancejob_job.go:348-354 | in every run the controller deletes each Job name at most once |
| RunTheorems.DeletedForCause | internal/controller/spotinstancejob_preemption.go:50-133 | a Job that a pass deletes is un-annotated, of a noticed index, with a checkpoint of another Job; it is lost only without a usable instance |
| RunTheorems.DeletedOnlyAfterNotice | internal/controller/spotinstancejob_preemption.go:50-133 | without asynchronous restores, a Job whose index never had a noticed instance is never deleted in any run |
| Placement.RestoredPlacement | internal/controller/spotinstancejob_job.go:380-504 | a restored Job keeps name, index and containers up to images, and runs on a live instance of its index, not on a preempted one's node; only the controller's pod labels remain |
| Placement.FreshPlacement | internal/controller/spotinstancejob_job.go:181-301 | a fresh Job has the index of a joined instance, runs on its node if it is running, and keeps the user's labels |
| Placement.PassLeavesRestored | internal/controller/spotinstancejob_job.go:348-354 | no pass touches a restored Job or gives its index another one |
| Placement.RestoredIsFinal | internal/controller/spotinstancejob_preemption.go:81-86 | in every run a restored Job stays on the node of its recovery, even when that is lost, and its index gets no other Job |
| Rounds.Growth | internal/controller/spotinstancejob_job.go:112-242 | with successful creations every index has its instance afterwards, each ready index that no Job takes a fresh one, and nothing else changed |
| Rounds.NothingMissing | internal/controller/spotinstancejob_provisionedinstance.go:105-158 | with nothing missing the creating phases do nothing, whatever would be refused |
| Rounds.RefusedCreationIff | internal/controller/spotinstancejob_provisionedinstance.go:148-152 | new instances stay below the replica count iff no missing index is refused |
| Rounds.RefusedStaysMissing | internal/controller/spotinstancejob_provisionedinstance.go:148-152 | a missing index that is refused once gets no instance in any later pass until another one is lost |
| Rounds.OneRefusalIsEnough | internal/controller/spotinstancejob_provisionedinstance.go:148-152 | two replicas, one lost, one refusal: index 2 is provisioned and index 0 never again |
| Rounds.LiveInstanceComes | internal/controller/provisionedinstance_controller.go:86-120 | while its VM is there a live instance only gets ahead in a pass of its reconciler, whatever call fails |
| Rounds.LostInstanceComes | internal/controller/provisionedinstance_controller.go:254-301 | a noticed instance stays lost, stopping or terminated, whatever call fails |
| Rounds.InstanceJoins | internal/controller/provisionedinstance_controller.go:304-340 | one fault-free pass joins an instance whose VM runs and whose node is there |
| Startup.StartupRound | internal/controller/spotinstancejob_controller.go:122-136 | one pass and whatever joins completes the fleet and fills every ready index, keeping one Job for each; finished Jobs count |
| Startup.StartupConverges | internal/controller/spotinstancejob_controller.go:98-136 | when every instance joins some time, from some round on instances and Jobs have exactly the indices below the replica count and passes rest |
| Startup.DefaultConverges | internal/controller/spotinstancejob_provisionedinstance.go:49-53 | without a replica count start-up converges to the indices 0 and 1 |
| LostReplicas.AffectedExact | internal/controller/spotinstancejob_preemption.go:66-97 | exactly the un-restored Jobs at lost indices are affected |
| LostReplicas.PodFound | internal/controller/spotinstancejob_preemption.go:157-205 | the assumption on pods, stated over pods and nodes alone, gives the pod the controller finds |
| LostReplicas.PhaseExact | internal/controller/spotinstancejob_preemption.go:34-258 | after losses, every lost Job is restored in place, lost, or left alone, by an exact condition; all others are unchanged |
| LostReplicas.PhaseCheckpoints | internal/controller/spotinstancejob_preemption.go:157-222 | every checkpoint started is of a Job that is not still lost and had none |
| LostReplicas.PhaseIdle | internal/controller/spotinstancejob_preemption.go:138-155 | once handled and with nothing to restore, the phase does nothing |
| LostReplicas.PhaseOnlyCheckpoints | internal/controller/spotinstancejob_preemption.go:114-224 | with nothing to restore the phase does nothing but start checkpoints |
| LostReplicas.PhaseStarts | internal/controller/spotinstancejob_preemption.go:157-222 | not handled and with nothing to restore, the phase starts a checkpoint |
| LostReplicas.PhaseRestores | internal/controller/spotinstancejob_preemption.go:125-155 | when all lost Jobs can be restored at once, no checkpoint is started |
| Recovery.RoundKeepsOthers | internal/controller/spotinstancejob_checkpoint.go:232-294 | a round, with a checkpoint pending or not, neither deletes nor alters the Jobs of the other replicas |
| Recovery.BaseNext | internal/controller/spotinstancejob_controller.go:98-136 | the situation a recovery starts from, pending checkpoints and unjoined replacements included, is kept by every round |
| Distance.PhaseCloser | internal/controller/spotinstancejob_preemption.go:34-258 | preemption handling never adds to the distance and takes from it whenever it does anything |
| Distance.CreationCloser | internal/controller/spotinstancejob_job.go:112-242 | nor does creation, which takes from it whenever it creates anything |
| Distance.EnvironmentWithin | internal/controller/provisionedinstance_controller.go:304-350 | the environment never adds to any part of the distance |
| Distance.CompletionCloser | internal/controller/spotinstancejob_checkpoint.go:37-76 | each checkpoint that completes takes from it |
| Distance.JoinCloser | internal/controller/provisionedinstance_controller.go:318-340 | each lost index whose instance joins takes from it |
| RecoveryRuns.RoundProgress | internal/controller/spotinstancejob_preemption.go:51-231 | no round takes a recovery further away; each pass that does anything, each completion and each join brings it closer |
| RecoveryRuns.EffectiveRoundsBounded | internal/controller/spotinstancejob_preemption.go:51-231 | in every run, fair or not, the effective rounds are no more than the distance at the start |
| RecoveryRuns.RestIsRecovered | internal/controller/spotinstancejob_preemption.go:125-155 | a pass that has nothing to do, with nothing pending and every instance usable, means that the recovery is complete |
| RecoveryRuns.RecoveryConverges | internal/controller/spotinstancejob_preemption.go:51-231 | in every fair run, from some round on every lost index has a Job restored from another Job's checkpoint on a live instance, and passes change nothing |
| RecoveryRuns.RobustNext | internal/controller/spotinstancejob_checkpoint.go:303-387 | checkpoints that fail and Jobs that are refused do not end a recovery that rests on a completed checkpoint or on none yet |
| RecoveryRuns.RecoveryConvergesDespiteFailures | internal/controller/spotinstancejob_preemption.go:51-231 | finitely many failing checkpoints and refused Jobs do not keep a recovery from converging |
| RecoveryRuns.OthersUntouched | internal/controller/spotinstancejob_preemption.go:51-231 | during the whole recovery the other replicas' Jobs are neither deleted nor altered |
| RecoveryRuns.RecoveredRests | internal/controller/spotinstancejob_preemption.go:138-155 | a recovered cluster is a fixed point of the pass |
| OneLoss.HealthyLoss | internal/controller/spotinstancejob_preemption.go:51-52 | a healthy cluster, perhaps after earlier recoveries, that loses one instance is in the situation the condition speaks of |
| OneLoss.RecoversIff | internal/controller/spotinstancejob_preemption.go:138-155 | in a fair run a single loss is recovered iff the Job was not restored before and, if all live checkpoints are its own and something was restored already, some pass finds it stopped after the replacement has joined |
| OneLoss.RestoredKept | internal/controller/spotinstancejob_preemption.go:81-86 | a restored Job that is lost keeps its index for ever, active or not |
| OneLoss.OwnIdleRound | internal/controller/spotinstancejob_job.go:93-108 | while handling is idle a fresh Job follows the lost one exactly at a pass that finds it stopped and the replacement ready |
| OneLoss.FollowedRound | internal/controller/spotinstancejob_checkpoint.go:239-247 | the fresh Job, not being the source by name, is restored from the lost one's checkpoint by the next pass |
| OneLoss.WaitingEnds | internal/controller/spotinstancejob_checkpoint.go:80-133 | with nothing restored yet, waiting for a recent checkpoint ends, and another Job is checkpointed |
| FirstLoss.StartupHealthy | internal/controller/spotinstancejob_controller.go:98-136 | an empty cluster becomes healthy when every instance joins some time |
| FirstLoss.FirstLossRecovered | internal/controller/spotinstancejob_controller.go:98-136 | whichever of at least two replicas started from nothing is lost first, it is recovered in every fair run |
| SecondLoss.HealthyAgain | internal/controller/spotinstancejob_controller.go:98-136 | after a loss with a checkpoint of another Job, or none yet, the cluster is in the end healthy again, ready for the next one |
| SecondLoss.NewSources | internal/controller/spotinstancejob_preemption.go:157-222 | while one index is being recovered checkpoints are taken only of Jobs away from it |
| SecondLoss.SecondLossIff | internal/controller/spotinstancejob_preemption.go:138-155 | with two replicas, of the second loss the replica restored before is never recovered, the other one iff its Job is found stopped after the replacement has joined |
| Existence.HealthyExists | internal/controller/spotinstancejob_controller.go:98-136 | a start-up run of two replicas from an empty store, its instances real throughout, and a round in which it is healthy |
| Existence.FairRunExists | internal/controller/spotinstancejob_controller.go:98-136 | from every situation with a loss there is a fair run, whichever lost Jobs stop, in which every instance has its own VM, node and consistent status |
| Existence.BothHappen | internal/controller/spotinstancejob_job.go:93-108 | where the condition leaves it open there are such runs with and without recovery |
| Stories.StoryExists | internal/controller/spotinstancejob_controller.go:98-136 | start-up from an empty store, the loss of one of two replicas and its recovery, as one sequence of runs |
| Stories.SecondLossBothWays | internal/controller/spotinstancejob_preemption.go:138-155 | after it, the loss of the replica that was checkpointed: from one state a fair run that recovers it and one that never does |
| Stories.SecondLossOfRestored | internal/controller/spotinstancejob_preemption.go:81-86 | after it, the loss of the replica that was restored: a fair run that never recovers it |

## Left out

- Informer caches: every read sees all earlier writes; the index and uniqueness properties depend on it.
- Failing reads: list and get calls of the SpotInstanceJob reconciler succeed; template and credential lookups fail only in the instance reconciler.
- Listing order: objects are listed in the fixed order in which they are stored.
- Controller.Reconcile: does not model failing deletions of Jobs, nor a failing creation of a restored Job (internal/controller/spotinstancejob_job.go:412-414 and 537), and treats a pass as one step; the clock moves only with the two-second waits.
- Restore.UpdateJobWithCheckpoint: the deletion and the creation succeed; a Job deleted with background propagation is gone at once, so the branch for a name that still exists (internal/controller/spotinstancejob_job.go:513-536) is not reached.
- Preemption.RecreateJobFromLatestCheckpoint: the goroutine is one atomic step of the system and does not interleave with a pass.
- InstanceAllocation.CreateMissing: failing creations are given as a finite set of indices; the loop has no bound under permanent failure, and index wrap-around after 2^31 failures is not modelled.
- Runs.RunKeepsInv: single instances are not deleted in runs of the whole system (InstanceRuns has the deletions), and VM states stay within the documented alphabet.
- RunTheorems.NewInstancesBelowReplicas: with refused creations the bound is the one of Invariants.NewIndicesFresh.
- RunTheorems.DeletedOnlyAfterNotice: excludes runs that launch asynchronous restores, which choose Jobs by node.
- RunTheorems.DeletedForCause: the last clause does not cover a creation that fails after the deletion, which also loses the Job.
- RecoveryRuns.RecoveryConverges: the assumptions on rounds listed above; refused creations of instances are not among those that RecoveryRuns.RecoveryConvergesDespiteFailures admits, because the property is false of them.
- LostReplicas.PhaseExact: at least one replica is alive, here and in all theorems on recovery; of the loss of the last one only safety and Preemption.LatestRestoreIff are stated.
- OneLoss.RecoversIff: one lost replica with one Job; for several at once RecoveryRuns.RecoveryConverges gives a sufficient condition.
- Rounds.Growth: the theorems on rounds assume that a new Job has been acknowledged by the next pass; RunTheorems.SecondJobIff says what happens otherwise.
- Scheduled checkpoints: the repository's README promises them, but no controller reads the checkpoint interval.
- Uncalled functions: `waitForCheckpointAndRecreateJob`, `recreateJobWithCheckpoint`, `deleteJob`.
- Deletion, status, finalizer, requeueing and metrics of the SpotInstanceJob itself.
- Error texts: errors of GCP are found, not found or other; the substring tests that tell them apart are not modelled.
- Container entries of a checkpoint are pairs of name and image; malformed entries are not modelled.
- Negative replica labels, and labels that `ParseInt` refuses, read as no index.
- Stored Jobs are values, so what a client shares with its cache is not modelled; the shared label map is.
- Kubernetes and GCP clients, credentials, join tokens, startup scripts, SSH, operation polling, pod scheduling.
