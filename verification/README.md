# Open-CAS CSI: a verified model

The Open-CAS CSI driver puts an Open-CAS cache in front of block volumes in Kubernetes. Several independent actors
share its state. An operator starts, re-modes and retires the caches of each node. A node plugin adds volumes to the
cache that a node label names and mounts them. A controller makes a claim and an intermediate Pod for every volume.
A webhook refuses to delete objects that carry the driver's label. This project models their logic in Dafny and
proves what the whole keeps, over every run and with any call failing, rather than what each function returns.

Every call that leaves the program (casadm jobs, the Kubernetes API, the mount table, shell commands) is a parameter
that says whether it succeeds, fails, or takes effect without being confirmed. Theorems quantify over these
parameters, so "whatever fails" is part of each statement. Classes follow the source's objects: their methods update
fields step by step and are proved equal to specification functions, about which the laws are stated.

| file | content |
|---|---|
| `Text.dfy`, `Decimal.dfy`, `Outcomes.dfy` | joining, splitting and replacing text; Go's printing and parsing of integers; how a call ends |
| `Casadm.dfy`, `CommandTable.dfy` | command builders, argument vectors and a reader for them; every command and job name spelled out |
| `JobName.dfy`, `JobNames.dfy` | the job-name compressor: independence of map order, distinct names |
| `CacheList.dfy` | the parser of the cache list |
| `CacheHost.dfy` | the running caches and the commands that change them |
| `CacheReconciler.dfy`, `ReconcileAnswers.dfy` | the operator's reconcile loop, the deletion of a Cache resource, and what a run answers |
| `NodePlugin.dfy`, `StagingLaws.dfy`, `NodeAnswers.dfy` | stage, unstage, publish and unpublish, their laws, and when each succeeds |
| `DrainProtocol.dfy` | operator and plugin together: drain and replace |
| `History.dfy`, `Convergence.dfy` | the same after an arbitrary past; every drain can be completed |
| `DrainInterleaving.dfy` | drain and replace, one command at a time |
| `AttachInterleaving.dfy` | concurrent stage and unstage calls, one command at a time |
| `Attachments.dfy` | which volumes are attached, and what each actor does to that |
| `ProtectedObjects.dfy`, `ObjectRuns.dfy` | the webhook and the helpers that create and delete protected objects, and their runs |
| `VolumeRequest.dfy`, `ControllerAnswers.dfy` | what the controller checks of a create request, and when each of its calls succeeds |
| `VolumeChain.dfy`, `ChainBreaches.dfy` | the controller's calls, the chain claim, Pod, link, core over whole runs, and exactly when it is in danger |
| `DriverInstance.dfy`, `DriverObjects.dfy` | ordered apply and reverse teardown of the driver's objects, and these objects by name |

The environment is assumed to behave as follows. Ids and devices of running caches are unique. A command that casadm
refuses changes nothing, a start on a used device is refused, and a list shows the true state or fails. A terminating
object goes with its last finalizer and accepts no new one. The device behind a by-id link exists while the
intermediate Pod does. A casadm command takes effect, if it does, before the call that sent it returns; a job whose
watch ends early could take effect later, and that is not modelled.

## What the code does not keep

The following expected properties do not hold as one would state them. Each has a witness and an exact condition.

- Claims and Pods keep their protection. A publish finds a Pod that has lost its label, and reports success on it:
  after a publish whose undoing was cut short (`ChainBreaches.RepeatedPublishRisky`), or after an unpublish whose Pod
  is still terminating (`ChainBreaches.RepublishRisky`). A creation does the same with a lingering claim
  (`ChainBreaches.RecreationRisky`), and an unstage whose PV is gone drops the link of an attached core
  (`ChainBreaches.UnstageWithoutPvBreaks`). `ChainBreaches.ChainAtRiskExactly` shows from the state before the call
  that these are exactly the calls after which the chain can break.
- A Pod that does not come up is cleaned up by its creator. The creator asks for that while the Pod still carries its
  label, so the webhook always turns the request down (`ProtectedObjects.CleanUpRequestRejected`).
- Operator and plugin read the node label alike. The plugin parses it, the operator compares its text; they agree
  exactly on canonical numbers and on texts that are no number (`Decimal.ReaderAgreesExactly`), and "07" is a witness.
- A retiring cache gets no new core. Without a node label a single retiring cache is still selected
  (`History.RetiringSelectedHere`), and that is the only case for whole stages
  (`DrainProtocol.RetiringSelectedExactly`). A stage that read the label before it was cleared adds its core afterwards
  (`DrainInterleaving.EarlyReadHits`), one that reads it later does not (`DrainInterleaving.NoCoreAfterClear`).
- An unstage removes its own core. Cores are removed by their ids, and a key that is stopped, restarted and added again
  between lookup and removal belongs to another volume (`AttachInterleaving.StopMisdirects`, `StopMisdirectsHere`);
  `AttachInterleaving.RemovalsOwnExactly` shows that this is the only way.
- A publish can be repeated. It asks for the flag "bind", which mount tables do not list
  (`StagingLaws.RepeatedPublishFails`); `StagingLaws.RepeatedPublishExactly` gives the condition.
- Applying a DriverInstance leaves its objects in desired form. The patch takes the last finalizer off a terminating
  workload, which then goes (`DriverInstance.TerminatingWorkloadGoes`, `DriverInstance.HandledSettles`).
- Taking down a DriverInstance takes down what it applied. What the instance no longer lists stays, such as the
  Namespace object of a former driver namespace (`DriverInstance.NamespaceStranded`, `DriverInstance.StrandedExactly`).
- The backend class of a request is determined. Its parameters are matched without regard to case and visited in map
  order (`VolumeRequest.ClassMayDependOnOrder`, `VolumeRequest.ClassIndependentExactly`).

The answer NotFound for a missing backend storage class (pkg/csi-driver/controller.go:109-111) is unreachable: the
lookup reports a missing class as an error, which the lines above answer with Internal, as the model does.

## Model

| member | source | states |
|---|---|---|
| `DrainProtocol.RunDrains` | pkg/csi-operator/internal/controller/cache_controller.go:115-201 | over every run of Reconcile, Stage, Unstage and Reboot from a guarded node with a fixed specification, whatever fails, volumes on retiring caches plus retiring caches never grow and fall by exactly the caches stopped and volumes taken off |
| `DrainProtocol.DrainedConverges` | pkg/csi-operator/internal/controller/cache_controller.go:141-222 | once no retiring cache holds volumes, one fault-free run leaves exactly the specified cache, answers without requeue, and the label names a cache it started |
| `DrainProtocol.RunConverges` | pkg/csi-operator/internal/controller/cache_controller.go:115-222 | any run that has drained the whole measure is completed by one fault-free Reconcile: exactly the specified cache runs |
| `DrainProtocol.ProgressPossible` | pkg/csi-operator/internal/controller/cache_controller.go:153-171 | while the measure is positive some step lowers it: stopping an empty retiring cache or unstaging a volume of a retiring one |
| `Convergence.DrainCompletes` | pkg/csi-operator/internal/controller/cache_controller.go:115-222 | from every node successful unstages and fault-free runs, at most one more than the measure, end with exactly the specified cache running |
| `Convergence.DrainAlwaysCompletes` | pkg/csi-operator/internal/controller/cache_controller.go:115-222 | the same after an arbitrary past, with specification changes, deletions and failures in it |
| `DrainProtocol.RunGuards` | pkg/csi-operator/internal/controller/cache_controller.go:144-151 | a Reconcile whose clearing patch succeeds and that leaves a label leaves one the plugin does not read as a retiring cache |
| `DrainProtocol.GuardKept` | pkg/csi-operator/internal/controller/cache_controller.go:141-201 | that guard survives every step under a fixed specification, including runs whose patches fail |
| `DrainProtocol.NoCoreOnRetiring` | pkg/csi-driver/node.go:132-165 | in every run from a guarded node no stage changes a retiring cache; `History.NoCoreAfterReconcile` derives the guard |
| `History.NoCoreAfterReconcile` | pkg/csi-driver/node.go:132-165 | after any past (edits, deletions, reboots, failures) and a Reconcile whose clearing patch succeeds and that leaves a label, no stage changes a retiring cache until the specification changes or the resource is deleted |
| `DrainInterleaving.NoCoreAfterClear` | pkg/csi-driver/node.go:141-165 | one command at a time, from any state: a stage that reads the label after the clearing patch adds no core to a retiring cache, whatever commands interleave and whatever stages were under way |
| `DrainInterleaving.NoLateCore` | pkg/csi-driver/node.go:141-165 | the same for every stage that reads the label after an arbitrary past and a settling Reconcile |
| `DrainInterleaving.EarlyReadHits` | pkg/csi-driver/node.go:141-165 | a stage that read the label before it was cleared adds its core to the retiring cache |
| `DrainInterleaving.ReconcileIsCommands` | pkg/csi-operator/internal/controller/cache_controller.go:141-201 | whatever fails in it, a run of the operator does to caches and label what a sequence of its commands does |
| `History.DrainAfterReconcile` | pkg/csi-operator/internal/controller/cache_controller.go:115-201 | after such a past and Reconcile, what is left and what was drained add up over every run that follows |
| `History.ConvergeAfterReconcile` | pkg/csi-operator/internal/controller/cache_controller.go:115-222 | and once everything is drained one fault-free run leaves exactly the specified cache |
| `History.WrittenKept` | pkg/csi-operator/internal/controller/cache_controller.go:241-256 | every step of any kind, with patches failing or not, leaves a label that the operator writes |
| `History.DeletionAfterPast` | pkg/csi-operator/internal/controller/cache_controller.go:115-214 | after any past, stages and unstages between attempts included, the run that takes the finalizer off leaves exactly the caches that hold volumes then |
| `History.RetiringSelectedHere` | pkg/csi-driver/node.go:157-160 | a node without a label whose one cache is retiring: every fault-free run leaves it so, and the next stage adds a core to that cache |
| `DrainProtocol.RetiringSelectedExactly` | pkg/csi-driver/node.go:141-159 | after a Reconcile the plugin selects a retiring cache if and only if the label is absent and that cache is the only one |
| `CacheReconciler.Reconciler.Reconcile` | pkg/csi-operator/internal/controller/cache_controller.go:51-223 | the step-by-step run equals the specification `Reconciled` in new state and answer |
| `CacheReconciler.Reconciler.Classify` | pkg/csi-operator/internal/controller/cache_controller.go:115-139 | the loop finds the retiring caches in order and the last matching one, or fails with the line-size query |
| `CacheReconciler.Reconciler.Retire` | pkg/csi-operator/internal/controller/cache_controller.go:141-172 | the loop clears the label, stops the empty retiring caches and requeues as specified |
| `CacheReconciler.AnswerSound` | pkg/csi-operator/internal/controller/cache_controller.go:101-222 | no error and no requeue means that exactly one cache runs, with the specified device, line size and mode, defaults filled in |
| `CacheReconciler.GoalIsFixpoint` | pkg/csi-operator/internal/controller/cache_controller.go:115-222 | from that state with the finalizer set a run changes nothing, whatever fails |
| `CacheReconciler.StoppedExactly` | pkg/csi-operator/internal/controller/cache_controller.go:153-162 | a cache is stopped if and only if it is retiring, empty and its stop does not fail |
| `CacheReconciler.HoldingNeverStopped` | pkg/csi-operator/internal/controller/cache_controller.go:153-171 | a cache with volumes survives every run with the same volumes |
| `CacheReconciler.FinalizerGoesLast` | pkg/csi-operator/internal/controller/cache_controller.go:204-214 | the finalizer of a deleted resource goes only in a run that stopped every empty cache |
| `CacheReconciler.DeletionLeavesHolding` | pkg/csi-operator/internal/controller/cache_controller.go:115-214 | after any number of attempts, once the finalizer is gone the caches left are exactly those that held volumes, in order |
| `ReconcileAnswers.DeletionExactly` | pkg/csi-operator/internal/controller/cache_controller.go:153-220 | a run on a deleted resource takes the finalizer off if and only if the caches are listed, every empty cache stops and the patch succeeds, whatever caches hold volumes; the label goes with it, and the answer says whether all was done |
| `ReconcileAnswers.DeletionCompletes` | pkg/csi-operator/internal/controller/cache_controller.go:141-222 | one run in which nothing fails removes finalizer and label and leaves exactly the caches that hold volumes |
| `ReconcileAnswers.AnswerExactly` | pkg/csi-operator/internal/controller/cache_controller.go:101-222 | on an undeleted resource the answer is an error if and only if the caches cannot be read, and success if and only if every cache that does not fit is empty and stops and the target has its mode, gets it, or starts |
| `ReconcileAnswers.AnswerMeans` | pkg/csi-operator/internal/controller/cache_controller.go:124-128 | success leaves one cache with the specified device, line size and mode, with 4 KiB and wt for what is omitted |
| `ReconcileAnswers.FittingKept` | pkg/csi-operator/internal/controller/cache_controller.go:135-186 | a cache that fits is never restarted: it keeps id and volumes, and only its mode changes, to the specified one |
| `ReconcileAnswers.FinalizerSet` | pkg/csi-operator/internal/controller/cache_controller.go:78-86 | every run on an undeleted resource whose patch succeeds sets the finalizer, and none takes it off |
| `VolumeChain.ChainKept` | pkg/csi-driver/node.go:108-171 | at the end of every run without a breach each attached core has its link and its protected Pod, and each protected Pod its protected claim, despite third-party deletes, reboots, operator runs and failures |
| `VolumeChain.ChainFromScratch` | pkg/csi-driver/controller.go:48-375 | from a cluster without volumes and any nodes every lifecycle without a breach keeps the chain |
| `ChainBreaches.ChainAtRiskExactly` | pkg/csi-driver/controller.go:251-336 | a call can go so that the chain is broken after it, with no further risky call, if and only if before it the claim or Pod it meets has lost its label or the PV of the attached volume it unstages is gone |
| `ChainBreaches.CallSafeExactly` | pkg/csi-driver/controller.go:113-122 | a call keeps the invariant, however it goes, if and only if that condition does not hold before it |
| `ChainBreaches.RunSafeExactly` | pkg/csi-driver/controller.go:48-375 | over every run, no call could have violated the invariant if and only if none was risky when it was issued |
| `ChainBreaches.CautionKeepsChain` | pkg/csi-driver/controller.go:48-375 | an orchestrator that issues no risky call keeps the chain, whatever else happens and fails |
| `ChainBreaches.PublishBreaks` | pkg/csi-driver/controller.go:296-313 | after any publish reported on an unprotected Pod a run of a reboot, a cache start, a stage and one third-party delete breaks the chain |
| `ChainBreaches.CreateBreaks` | pkg/csi-driver/controller.go:113-122 | after any creation reported on an unprotected claim a smooth publish breaks the chain |
| `ChainBreaches.UnstageBreaks` | pkg/csi-driver/node.go:254-262 | an unstage reported because the PV is gone leaves an attached core without its link |
| `ChainBreaches.RepeatedPublishRisky` | pkg/csi-driver/controller.go:300-313 | wherever a fresh publish is allowed, one that is cut short makes its repetition risky, and the smooth repetition reports success on an unprotected Pod |
| `ChainBreaches.RepublishRisky` | pkg/csi-driver/controller.go:339-375 | a publish after a successful unpublish whose Pod is still terminating is risky |
| `ChainBreaches.RecreationRisky` | pkg/csi-driver/controller.go:150-179 | a creation after a reported deletion whose claim lingers is risky |
| `ChainBreaches.UnstageWithoutPvBreaks` | pkg/csi-driver/node.go:254-262 | an unstage of any attached volume whose PV is gone succeeds, leaves the core and drops the link |
| `VolumeRequest.CheckCapabilities` | pkg/csi-driver/controller.go:204-214 | accepts if and only if there are capabilities and each is of a kind |
| `VolumeRequest.ReadParameters` | pkg/csi-driver/controller.go:72-87 | the loop yields the class visited last, none if a parameter is unknown |
| `VolumeRequest.ClassIndependentExactly` | pkg/csi-driver/controller.go:74-83 | the class does not depend on the map order if and only if a parameter is unknown or all values agree |
| `VolumeRequest.ClassMayDependOnOrder` | pkg/csi-driver/controller.go:74-83 | two spellings with different values give different classes in the two orders |
| `VolumeChain.NothingLeftBehind` | pkg/csi-driver/controller.go:339-375 | an unpublished volume has no core, link or protected Pod left at the node |
| `VolumeChain.PodNameInjective` | pkg/csi-driver/controller.go:141-143 | with volume ids of one length Pod names determine node and volume |
| `VolumeChain.PodNamesCollide` | pkg/csi-driver/controller.go:141-143 | for ids of different length, the exact condition under which two Pod names coincide |
| `VolumeChain.ClaimNameInjective` | pkg/csi-driver/controller.go:145-147 | claim names determine the volume |
| `VolumeChain.ControllerServer.CreateVolume` | pkg/csi-driver/controller.go:48-139 | validation and get-then-create under failures equal `CreatedVolume` in new state and code |
| `VolumeChain.ControllerServer.DeleteVolume` | pkg/csi-driver/controller.go:150-179 | get-then-delete under failures equals `DeletedVolume` |
| `VolumeChain.ControllerServer.ControllerPublishVolume` | pkg/csi-driver/controller.go:251-336 | the call, with the undoing of a Pod that does not come up, equals `ControllerPublished` |
| `VolumeChain.ControllerServer.ControllerUnpublishVolume` | pkg/csi-driver/controller.go:339-375 | the call equals `ControllerUnpublished` |
| `ControllerAnswers.CreateSucceedsExactly` | pkg/csi-driver/controller.go:48-139 | a creation succeeds if and only if the request is valid and the claim is there or can be created |
| `ControllerAnswers.CreateMakesClaim` | pkg/k8sutils/k8sutils.go:224-239 | the claim it creates is named after the volume and carries the label the webhook looks for, and no other claim changes |
| `ControllerAnswers.DeleteSucceedsExactly` | pkg/csi-driver/controller.go:150-179 | a deletion succeeds if and only if the claim is absent or every needed call goes through, and never leaves a protected claim |
| `ControllerAnswers.DeleteRemovesClaim` | pkg/csi-driver/controller.go:150-179 | a deletion in which nothing fails removes exactly the claim of its volume |
| `ControllerAnswers.ControllerPublishSucceedsExactly` | pkg/csi-driver/controller.go:251-336 | a publish succeeds if and only if the claim is there, the Pod is there or comes, and the PV is bound and found |
| `ControllerAnswers.ControllerPublishRefused` | pkg/csi-driver/controller.go:259-287 | incomplete requests and a missing claim are refused with their codes, and nothing changes |
| `ControllerAnswers.ControllerPublishLeaves` | pkg/csi-driver/controller.go:296-313 | success leaves the Pod it met or a new protected one, and nothing else |
| `ControllerAnswers.ControllerPublishUndone` | pkg/csi-driver/controller.go:300-311 | a Pod that does not come up is undone: the call is aborted and, with nothing failing, the cluster is as before |
| `ControllerAnswers.ControllerUnpublishSucceedsExactly` | pkg/csi-driver/controller.go:339-375 | an unpublish succeeds if and only if the Pod is absent or every needed call goes through, and never leaves a protected Pod |
| `ControllerAnswers.ControllerUnpublishRemovesPod` | pkg/csi-driver/controller.go:339-375 | an unpublish in which nothing fails removes exactly the Pod |
| `ControllerAnswers.LifecycleRestores` | pkg/csi-driver/controller.go:48-375 | create, publish, unpublish and delete leave the cluster as it was |
| `ControllerAnswers.AttemptSucceedsExactly` | pkg/k8sutils/k8sutils.go:315-334 | a helper's deletion reports no failure if and only if each needed call goes through |
| `ControllerAnswers.CreationReported` | pkg/k8sutils/k8sutils.go:265-313 | what the creator of a Pod hands back: a Pod if and only if the creation is confirmed, an error unless it comes up or its watch just ends |
| `Attachments.ReconcileKeepsVolumes` | pkg/csi-operator/internal/controller/cache_controller.go:141-201 | no run of the operator attaches or detaches a volume |
| `Attachments.StageCallRefines` | pkg/csi-driver/node.go:79-207 | a whole stage call changes the caches as the protocol's Stage step does or not at all, and never without the link |
| `Attachments.UnstageCallRefines` | pkg/csi-driver/node.go:209-297 | a whole unstage call likewise; the link goes exactly with success, and with link and PV in place success means released |
| `Attachments.UnstageReleases` | pkg/opencas/api.go:247-275 | an effective removal leaves the volume in no cache and touches no other volume |
| `ProtectedObjects.Validate` | pkg/webhook/main.go:61-111 | the webhook answers exactly the well-formed reviews, with their uid, and turns down exactly the labelled objects, with its message |
| `ProtectedObjects.ProtectedStore.Delete` | pkg/k8sutils/k8sutils.go:315-334 | get, take the label off, delete, each of which may end the attempt, equals `Attempt` |
| `ProtectedObjects.ProtectedStore.CreatePod` | pkg/k8sutils/k8sutils.go:265-313 | create and wait equals `CreatedPod` in new state and in what is handed back |
| `ProtectedObjects.ProtectedStore.CreateClaim` | pkg/k8sutils/k8sutils.go:224-239 | success leaves a protected claim that was not there before, and no other claim changes |
| `ProtectedObjects.CleanUpRequestRejected` | pkg/k8sutils/k8sutils.go:308-311 | the creator's own delete request never removes the Pod it made; a Pod handed back is protected |
| `ObjectRuns.ProtectedSurvives` | pkg/webhook/main.go:95-100 | a labelled object survives unchanged every run in which the driver does not itself delete it |
| `ProtectedObjects.CompleteAttemptDeletes` | pkg/k8sutils/k8sutils.go:204-222 | a helper's delete is never turned down: a complete attempt removes exactly its object |
| `ObjectRuns.DeletionOnlyProgresses` | pkg/k8sutils/k8sutils.go:315-334 | without a new creation an object only moves from protected to exposed to absent |
| `ObjectRuns.CompleteAttemptEnds` | pkg/k8sutils/k8sutils.go:315-334 | any run with attempts cut short, then one complete attempt: the object is absent and stays so until created |
| `AttachInterleaving.AtMostOneCore` | pkg/csi-driver/node.go:100-171 | in every interleaving of any number of stage and unstage calls at command granularity, with caches started and stopped freely, no volume has two cores on a node |
| `AttachInterleaving.RemovalsOwnExactly` | pkg/opencas/api.go:247-275 | over every interleaving all removals take away the core of their own volume if and only if no call removes a key that was stopped, restarted and added again between its lookup and its removal |
| `AttachInterleaving.StopMisdirects` | pkg/opencas/api.go:247-248 | from a quiet node with one core, a run of an unstage, a restart and a stage of another volume ends with the unstage removing that volume's core |
| `AttachInterleaving.StopMisdirectsHere` | pkg/opencas/api.go:247-248 | the same run with two named volumes and core 1 of cache 1 |
| `AttachInterleaving.TakenByMisdirection` | pkg/opencas/api.go:247-275 | a core in place is taken from its call only by a call whose own key was reused |
| `StagingLaws.UnstageUndoesStage` | pkg/csi-driver/node.go:79-297 | a successful stage of an unattached volume and a successful unstage restore all caches and the mount table and leave no link |
| `StagingLaws.StageIdempotent` | pkg/csi-driver/node.go:79-207 | after a successful stage the same request changes nothing, whatever fails |
| `StagingLaws.UnstageIdempotent` | pkg/csi-driver/node.go:209-297 | after a successful unstage a second one changes nothing, whatever fails |
| `StagingLaws.FilesystemsKept` | pkg/csi-driver/node.go:177-203 | over any run the type of an existing file system never changes |
| `NodeAnswers.StageMountsWanted` | pkg/csi-driver/node.go:177-203 | after a successful mount-mode stage the backend carries the type the request names, ext4 if none; on a free path the new mount is of the core's device, with that type and the requested options |
| `NodeAnswers.StageSucceedsExactly` | pkg/csi-driver/node.go:79-207 | a stage succeeds if and only if the request is complete, the Pod is there, and core, file system and mount are there or can be made |
| `NodeAnswers.StageAddsToNamed` | pkg/csi-driver/node.go:132-171 | the core goes to the cache the label names, under the id casadm gives, and to no other |
| `NodeAnswers.UnconfirmedCounts` | pkg/opencas/api.go:217-245 | an addition that is not confirmed fails the stage, but the volume is attached and linked |
| `NodeAnswers.StageRefused` | pkg/csi-driver/node.go:79-165 | each refusal before the core is added has its code and changes nothing but the link |
| `NodeAnswers.OtherTypeRefused` | pkg/csi-driver/node.go:190-196 | a backend with another file system is refused as already existing, and nothing but the link changes |
| `NodeAnswers.UnstageSucceedsExactly` | pkg/csi-driver/node.go:209-297 | an unstage succeeds if and only if the path can be unmounted and there is nothing to remove, or the Pod is there and the core is removed |
| `NodeAnswers.UnstageLeaves` | pkg/csi-driver/node.go:223-240 | success leaves the path unmounted, all others mounted, and no link |
| `NodeAnswers.UnstageTakesCore` | pkg/csi-driver/node.go:280-296 | success takes the core from the cache that held it and changes no other cache |
| `NodeAnswers.UnstageRefused` | pkg/csi-driver/node.go:264-279 | without the Pod the unstage fails its precondition and keeps core and link |
| `NodeAnswers.PublishSucceedsExactly` | pkg/csi-driver/node.go:300-399 | on a free target a publish succeeds if and only if its source is there and the mount can be made |
| `NodeAnswers.PublishMountsSource` | pkg/csi-driver/node.go:315-399 | it then mounts the core's device for a raw block volume and the staging path otherwise, with the requested options, bind, and ro for a read-only request |
| `NodeAnswers.PublishRefused` | pkg/csi-driver/node.go:300-366 | each refusal has its code and changes nothing |
| `NodeAnswers.ReadOnlyKept` | pkg/csi-driver/node.go:319-321 | a read-only request is not satisfied by a mount that is not listed as ro |
| `NodeAnswers.UnpublishSucceedsExactly` | pkg/csi-driver/node.go:402-439 | an unpublish succeeds if and only if the target is absent or can be unmounted and removed |
| `NodeAnswers.PrepareFsExactly` | pkg/utils/utils.go:84-101 | a file system is prepared if and only if the wanted one is there or none is and it can be made, and no existing one changes |
| `StagingLaws.NeverStacks` | pkg/utils/utils.go:114-137 | over all sequences of calls each path carries at most one mount |
| `StagingLaws.RepeatedPublishExactly` | pkg/csi-driver/node.go:361-391 | after a successful mount-mode publish on a free target the same request changes nothing and succeeds if and only if the mount table lists the type, if one was asked for, and every option asked for |
| `StagingLaws.RepeatedPublishFails` | pkg/csi-driver/node.go:315-321 | with a mount table that does not list "bind" the second of two equal requests is refused |
| `StagingLaws.UnpublishClears` | pkg/csi-driver/node.go:402-439 | after any run, an unpublish that succeeds leaves its target neither mounted nor present and every other mount and path as it was |
| `StagingLaws.UnpublishUndoesPublish` | pkg/csi-driver/node.go:300-439 | a successful publish on a fresh target and a successful unpublish restore the node |
| `NodePlugin.FindMountFlags` | pkg/csi-driver/node.go:441-453 | accepts if and only if the requested flags are among the mounted ones, with dax and dax=always identified |
| `NodePlugin.ChooseCache` | pkg/csi-driver/node.go:136-165 | the label tests and the scan select the cache that `SelectCache` specifies |
| `NodePlugin.NodeServer.Mount` | pkg/utils/utils.go:114-137 | success leaves the target mounted, once if no path was stacked before, and no other mount changes; state and answer are those of `DoMount` |
| `NodePlugin.NodeServer.AddToCache` | pkg/csi-driver/node.go:126-171 | the attach part of a stage equals `Attach` in new state and code |
| `NodePlugin.NodeServer.NodeStageVolume` | pkg/csi-driver/node.go:79-207 | the whole call equals `Staged` in new state and code |
| `NodePlugin.NodeServer.NodeUnstageVolume` | pkg/csi-driver/node.go:209-297 | the whole call equals `Unstaged` |
| `NodePlugin.NodeServer.NodePublishVolume` | pkg/csi-driver/node.go:300-399 | the whole call equals `Published` |
| `NodePlugin.NodeServer.NodeUnpublishVolume` | pkg/csi-driver/node.go:402-439 | success leaves the target neither mounted nor present; state and code are those of `Unpublished` |
| `NodePlugin.ByIdPathInjective` | pkg/opencas/api.go:366-368 | by-id paths determine the volume |
| `CacheHost.Holder` | pkg/opencas/api.go:344-355 | the first cache that holds the path, none if no cache does |
| `Decimal.RoundTrip` | pkg/csi-driver/node.go:147-153 | the label's reader recovers every id its writer prints |
| `Decimal.ReaderAgreesExactly` | pkg/csi-operator/internal/controller/cache_controller.go:144-147 | parsing the label and comparing its text are the same test if and only if the text is canonical or no number |
| `Decimal.ReaderMayDisagree` | pkg/csi-driver/node.go:147-153 | the label "07" reads as 7 and equals no printed id |
| `Casadm.StartCacheCmd` | pkg/opencas/casadm.go:67-80 | the conditional appends and the join give the line of the start command |
| `Casadm.AddCoreCmd` | pkg/opencas/casadm.go:89-97 | the same for adding a core |
| `Casadm.StatsCmd` | pkg/opencas/casadm.go:111-118 | the same for statistics |
| `Casadm.ArgvExactly` | pkg/opencas/api.go:155 | splitting a built line on spaces yields the intended arguments, the csv flag as two, if and only if path and mode hold no space |
| `Casadm.ArgvRoundTrip` | pkg/opencas/casadm.go:67-125 | a reader of the split line recovers operation, path, mode, line size and ids of every space-free command |
| `Casadm.LineInjective` | pkg/opencas/casadm.go:67-125 | distinct space-free commands have distinct lines |
| `CommandTable.JobArguments` | pkg/opencas/casadm.go:67-125 | a job gets exactly the arguments spelled out for its command, csv and force flags included, if and only if path and mode hold no space |
| `JobName.Confluence` | pkg/opencas/api.go:460-462 | for every command whose values hold no key but a leading by-id directory, all visiting orders of the map give the same text |
| `JobName.KeysDisjoint` | pkg/opencas/casadm.go:39-64 | no key of the table occurs inside another |
| `JobNames.GetJobName` | pkg/opencas/api.go:457-475 | the loops equal `Name`: replaced, cleaned, lowered, at most 63 characters |
| `JobNames.NameIndependentOfOrder` | pkg/opencas/api.go:457-475 | the finished name does not depend on the map order |
| `JobNames.NamesDistinct` | pkg/opencas/api.go:457-475 | on one node distinct stop, remove-core, list, stats and set-mode commands get distinct untruncated names, even with different map orders |
| `CommandTable.JobNameMeans` | pkg/opencas/api.go:457-475 | the untruncated job name of each command without a path, spelled out: the node's first name part, the operation, its numbers |
| `CommandTable.TruncatedName` | pkg/opencas/api.go:466-470 | a longer name is cut at 63 characters and loses exactly its trailing dashes and dots |
| `CommandTable.LinkCompressed` | pkg/opencas/casadm.go:63 | the directory the compressor drops is the one the node plugin puts its links in |
| `CacheList.ParseCacheList` | pkg/opencas/api.go:418-455 | every listing of clean rows, with or without a core pool section, comes back as its caches in order; in general the result is that of `ParseRecords` |
| `CacheList.ListRoundTrip` | pkg/opencas/api.go:418-455 | the records of a printed listing of quote-free rows parse to the same caches in order |
| `CacheList.ListingQuoteFree` | pkg/opencas/api.go:422 | such a listing holds no quotes, so the parser takes it |
| `CacheList.VolumesExact` | pkg/opencas/api.go:438-447 | with unique backends each core row sits in the cache row above it and points back to it, and nothing else is there |
| `DriverInstance.Reconciler.Reconcile` | pkg/csi-operator/internal/controller/driverinstance_controller.go:69-121 | the run equals `Reconciled` in cluster, instance and answer |
| `DriverInstance.Reconciler.HandleAll` | pkg/csi-operator/internal/controller/driverinstance_controller.go:104-110 | the loop stops at the first failure, as `Pass` does |
| `DriverInstance.Reconciler.HandleObject` | pkg/csi-operator/internal/controller/driverinstance_controller.go:149-191 | create, patch or release one object equals `Handled` |
| `DriverObjects.ListedInOrder` | pkg/csi-operator/internal/controller/driverinstance_controller.go:123-147 | the list holds exactly the twelve objects of the driver, each once: Namespace, ServiceAccount, roles before their bindings, the two plugins last |
| `DriverObjects.FirstApply` | pkg/csi-operator/internal/controller/driverinstance_controller.go:69-190 | the first apply in which nothing fails leaves exactly the driver's objects, each with its manifest, the operator's finalizer on all but the plugins, holds the instance, and answers without error |
| `DriverObjects.PluginsLast` | pkg/csi-operator/internal/controller/driverinstance_controller.go:104-145 | in any run a plugin is touched only when every other object of the driver has its desired form |
| `DriverObjects.NamespaceFirst` | pkg/csi-operator/internal/controller/driverinstance_controller.go:104-128 | in any run nothing but the Namespace is touched unless the Namespace has its desired form |
| `DriverObjects.FailedAccount` | pkg/csi-operator/internal/controller/driverinstance_controller.go:104-129 | a first apply that fails at the ServiceAccount has made neither plugin |
| `DriverObjects.TerminatingRefused` | pkg/csi-operator/internal/controller/driverinstance_controller.go:188-190 | an object on its way out without the operator's finalizer fails the run and stays as it is |
| `DriverObjects.NamespaceLast` | pkg/csi-operator/internal/controller/driverinstance_controller.go:99-110 | in a teardown the Namespace is touched only when no other object carries the operator's finalizer |
| `DriverObjects.PluginsLeftAlone` | pkg/csi-operator/internal/controller/driverinstance_controller.go:175-179 | a teardown touches no plugin and nothing that is not the driver's |
| `DriverObjects.TeardownReleases` | pkg/csi-operator/internal/controller/driverinstance_controller.go:99-185 | a teardown in which nothing fails takes exactly the operator's finalizer off each object, releases the instance and answers without error |
| `DriverInstance.PassParts` | pkg/csi-operator/internal/controller/driverinstance_controller.go:104-110 | in a pass that ends at n, the earlier objects are each handled on their own and the later ones untouched |
| `DriverInstance.HandledSettles` | pkg/csi-operator/internal/controller/driverinstance_controller.go:162-190 | success gives an object its desired form if and only if it was no terminating workload |
| `DriverInstance.ApplyPass` | pkg/csi-operator/internal/controller/driverinstance_controller.go:104-147 | a pass failing at n leaves all earlier objects in desired form, all later ones untouched |
| `DriverInstance.ApplySound` | pkg/csi-operator/internal/controller/driverinstance_controller.go:99-120 | an answer without error means that each listed object has its desired form, if and only if it was no terminating workload |
| `DriverInstance.ApplyTwice` | pkg/csi-operator/internal/controller/driverinstance_controller.go:162-190 | after such an answer the next run changes nothing, whatever fails |
| `DriverInstance.SettledStays` | pkg/csi-operator/internal/controller/driverinstance_controller.go:104-110 | through any number of failing runs an object in desired form keeps it |
| `DriverInstance.TeardownPass` | pkg/csi-operator/internal/controller/driverinstance_controller.go:99-118 | whenever a teardown stops, all objects after some position are free of the finalizer and all before it untouched |
| `DriverInstance.InstanceGoesLast` | pkg/csi-operator/internal/controller/driverinstance_controller.go:112-118 | the instance's finalizer goes only when no listed object but the workloads carries the operator's |
| `DriverInstance.TeardownConserves` | pkg/csi-operator/internal/controller/driverinstance_controller.go:149-191 | each pass, failed or not, lowers the number of finalizers left by exactly those it took off |
| `DriverInstance.TeardownSafe` | pkg/csi-operator/internal/controller/driverinstance_controller.go:99-118 | over every teardown, with anybody's deletes in between, that number never rises, and it is zero for good once the instance has lost its finalizer |
| `DriverInstance.TeardownCompletes` | pkg/csi-operator/internal/controller/driverinstance_controller.go:99-118 | after any teardown so far one run in which nothing fails ends it |
| `DriverInstance.StrandedExactly` | pkg/csi-operator/internal/controller/driverinstance_controller.go:123-191 | after any runs of a teardown and one in which nothing fails an object carries the operator's finalizer if and only if it did before and is not listed |
| `DriverInstance.NamespaceStranded` | pkg/csi-operator/internal/controller/driverinstance_controller.go:123-147 | the Namespace object of a former driver namespace keeps its finalizer through every teardown |
| `DriverInstance.TerminatingWorkloadGoes` | pkg/csi-operator/internal/controller/driverinstance_controller.go:188-190 | a Deployment that is being deleted is gone after a successful patch |

## Left out

- The gRPC servers, endpoints, flags, logging, and the identity and capability answers: plumbing and constants.
- Kubernetes watches, timeouts and job Pods: each is a step that succeeds, fails or is not confirmed.
- Shell commands and the kernel cache: only their effect on links, devices, file systems and caches is modelled.
- VolumeChain.ControllerServer.CreateVolume: the requested and limiting sizes are not modelled, because they only pass through to the claim.
- CacheList.ParseCacheList: restricted to output without quotes, because the quoting of the csv reader is not modelled.
- JobNames.NamesDistinct: says nothing about truncated names or about start and add-core commands, whose paths lose characters.
- StagingLaws.NeverStacks: takes the mount-point test as exact; the library's test can miss bind mounts.
- Convergence.DrainCompletes: says that the steps exist, not that the orchestrator takes them.
- CacheReconciler.HoldingNeverStopped: holds with Reconcile as one step; the operator and the plugin share no lock.
- History.NoCoreAfterReconcile: takes a stage as one step, and assumes that the first label was written by the operator or is absent and that the clearing patch succeeds.
- The statistics parser (`parseStats`), and the conversion of the line size to eight bits, which the resource's enumeration keeps exact.
- A failing lookup of the Cache, Node or DriverInstance object itself, which only hands its error on.
- A node without any labels at all, where setting the operating-cache label would write to a nil map.
- Third parties that strip the protection label or create objects under the driver's names.
- The manifests of the driver's objects beyond their keys: the desired content is an arbitrary function of the key.
- Resource versions in the DriverInstance model: states are equal up to them.
