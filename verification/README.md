# Proofs about the proxy CSI driver

The driver puts proxy volumes in front of the volumes of other CSI drivers. A user creates a proxy
PersistentVolumeClaim that names a backend claim. Controllers bind the two to each other; on the node, the driver
records where the proxy volume is to appear and mounts the backend volume there as soon as the binding is complete.
This project models the three parts of that in which failures, crashes and stale caches matter, and proves what they
guarantee in all runs.

**Binding.** `Kubernetes` is the API server: versioned objects, optimistic concurrency, finalizers. `Binding` is a step
system with one step per API call of the proxy binder, the backend releaser and the protection controller, and steps
for users, other controllers and crashes. A controller reads any version that an object ever had, or misses it.
`BindingSafety`, `BindingTheorems` and `BindingOneToOne` prove safety over all runs, and `BindingConvergence` that the
controllers settle. `Clusters`, `ProxyControllers` and `BackendControllers` are the syncs as methods, between whose API
calls everything may change; a ghost log ties each to a run of the step system. `WakeUps` adds the shared cache, the
event handlers and the three work queues, and `NoLostWakeUps` proves that pending work is always queued;
`WorkQueues` holds the handlers as methods. `MergePatch` and `ControllerHelpers` give the patches their meaning.

**The node.** `NodeLifecycle` is the step system of the node: the CSI calls, the volume manager's sync of one volume,
every file operation, map update and backend call as a step of its own, with a crash possible between any two. On one
volume a call and a sync run side by side. `NodeSafety` states what always holds, `NodeSteps` proves it, `TornFiles`,
`NodeTheorems` and `NodeSignal` draw the conclusions. `NodeTeardown` and `NodeUnstaging` are about a teardown that runs
alone, `SharedTeardown`, `SharedUnstaging` and `NodeRepairs` about one among other calls and syncs, and `NodeExamples`
gives two runs that end badly. `Nodes`, `NodeServers` and
`VolumeManagers` are the same operations as methods on shared state, tied to runs by a ghost log. `BindKeys`,
`StateFiles`, `StateManagers` and `TargetPathBinds` are the keys, the files and the three state managers, and `NodeFiles`
ties their files to the records of the node. `PodSync` and
`Wait` are the loop over the volumes of a pod and the command that waits for its annotations.

**Ownership.** `Ownership`, `OwnershipRuns`, `OwnershipBits`, `OwnershipWalk` and `VolumeOwnership` are the recursive
change of group and mode, with the shortcut that looks at the root only.

## Assumptions

- Users and other controllers create claims without the driver's own marks, and never edit the driver's annotations or
  finalizer after that.
- One-to-one binding and wake-ups assume that no claim is created under a name that was used before;
  `NameReuseBreaksBinding` shows why. Wake-ups also assume that no claim that a proxy asks for is a proxy itself.
- A write that changes nothing keeps the resource version. One namespace is modelled; the controllers never leave it.
- For wake-ups, a sync is one step, and so is a change of the cache together with its handlers.
- On the node, the orchestrator keeps the call order of the Container Storage Interface, the binding of proxy to backend
  is fixed, and a pod's volume always has the same target path and no two share one. The orchestrator has one call at a
  time under way for a volume, and the volume manager one sync. A call and a sync of one volume interleave freely, except
  that a sync does not run beside an unstage, nor beside an unpublish for its own pod; on different volumes everything
  interleaves. Records are valid, and no file operation is reordered.
- For a pod's retry bound, nobody else writes the pod. For the signal, the pod starts without marks and nobody but the
  volume manager adds any; an accepted patch counts even when its answer is lost.

Two points of the code that one might not expect are kept as they are: the unstage call carries the proxy's volume ID
although stage calls carry the backend's handle, and without STAGE_UNSTAGE_VOLUME the staging path stays bound.

## Model

| member | source | states |
|---|---|---|
| BindingTheorems.SameVersionSameContent | pkg/attachdetach/controller/persistentvolumeclaim/proxy/sync.go:94-176 | two versions of a claim with one name and one resource version are the same object, in every run; what a version-guarded write rests on |
| BindingTheorems.NoLostUpdates | pkg/attachdetach/controller/persistentvolumeclaim/backend/sync.go:68-87 | every controller step leaves the server alone or makes exactly its own change (one annotation or one finalizer) to the object that is live when the write arrives, although whole cached copies and whole lists are sent |
| BindingTheorems.ProtectionNeverDuplicated | pkg/attachdetach/controller/persistentvolumeclaim/backend/protection/sync.go:70-86 | no live claim ever lists the protection finalizer twice |
| BindingTheorems.NoStealing | pkg/attachdetach/controller/persistentvolumeclaim/proxy/sync.go:94-176 | no step changes the proxy reference of one live backend from one name to another, with arbitrary staleness and also when names are used twice |
| BindingTheorems.ProtectedUntilReleased | pkg/attachdetach/controller/persistentvolumeclaim/backend/protection/sync.go:40-61 | a claim with a proxy reference and the finalizer stays, as the same object and with both, between any two points of a run unless a release of it lies between them |
| BindingOneToOne.BoundProxyIsNamedByItsBackend | pkg/attachdetach/controller/persistentvolumeclaim/proxy/sync.go:63-204 | without name reuse, every live proxy that completed its binding is named by the backend it asked for, if that is live |
| BindingOneToOne.OneToOne | pkg/attachdetach/controller/persistentvolumeclaim/proxy/sync.go:63-204 | without name reuse, no two live bound proxies asked for the same live backend |
| BindingOneToOne.ReleaseMeansProxyIsGone | pkg/attachdetach/controller/persistentvolumeclaim/backend/sync.go:39-58 | without name reuse, at every step of every run at which a release is accepted, the proxy it releases from is not live |
| BindingOneToOne.ProtectedWhileProxyLives | pkg/attachdetach/controller/persistentvolumeclaim/backend/protection/sync.go:40-61 | without name reuse, a protected claim stays, as the same object with reference and finalizer, while the proxy it names lives |
| BindingOneToOne.NameReuseBreaksBinding | pkg/attachdetach/controller/persistentvolumeclaim/proxy/sync.go:156-159 | a concrete run in which a name is used twice and the skipped first write completes a proxy whose backend names nobody; so the assumption is needed |
| BindingConvergence.SyncLowersOrKeeps | pkg/attachdetach/controller/persistentvolumeclaim/proxy/sync.go:40-128 | run from fresh caches, a sync of any key either has nothing to do and changes nothing, or strictly lowers one lexicographic measure of what is still to be done |
| BindingConvergence.QuiescentIffSettled | pkg/attachdetach/controller/persistentvolumeclaim/proxy/sync.go:40-128 | no sync changes a store exactly when no reference dangles, all that stays is protected, all that may go can go, and each waiting proxy waits for a missing or taken backend |
| BindingConvergence.ConvergesAfterAnyRun | pkg/attachdetach/controller/persistentvolumeclaim/proxy/sync.go:40-128 | after any run, some finite sequence of syncs reaches such a store |
| BindingConvergence.EverySequenceStops | pkg/attachdetach/controller/persistentvolumeclaim/proxy/sync.go:40-128 | in every infinite sequence of syncs, in any order, some sync finds nothing to do: the controllers cannot keep each other busy |
| BindingConvergence.FairSyncsSettleAfterAnyRun | pkg/attachdetach/controller/persistentvolumeclaim/proxy/sync.go:40-128 | after any run, every sequence of syncs that puts off no sync with something to do for ever settles the store, which then stays as it is |
| BindingConvergence.BindSyncIsRun | pkg/attachdetach/controller/persistentvolumeclaim/proxy/sync.go:130-204 | the binding sync of the convergence results is a run of the step system in which one worker is not disturbed |
| BindingConvergence.ReleaseSyncIsRun | pkg/attachdetach/controller/persistentvolumeclaim/backend/sync.go:39-66 | likewise the release sync |
| BindingConvergence.ProtectSyncIsRun | pkg/attachdetach/controller/persistentvolumeclaim/backend/protection/sync.go:40-61 | likewise the finalizer sync |
| ProxyControllers.CompletionIsRecorded | pkg/attachdetach/controller/persistentvolumeclaim/proxy/sync.go:130-150 | when the write that completes a binding is accepted, both halves of the binding are on record |
| ProxyControllers.Controller.Sync | pkg/attachdetach/controller/persistentvolumeclaim/proxy/sync.go:18-61 | a sync looks up exactly its key and, for an unbound proxy of this driver, the backend that it asks for; what these answers make it report, when it puts its key back, how many writes it sends, and that success with a free backend means both halves were made, while caches and cluster change between its calls |
| ProxyControllers.Controller.SyncUnbound | pkg/attachdetach/controller/persistentvolumeclaim/proxy/sync.go:63-128 | the same for an unbound proxy, branch by branch: it looks up exactly the backend that is asked for, and binds it unless it is missing or belongs to another |
| ProxyControllers.Controller.Bind | pkg/attachdetach/controller/persistentvolumeclaim/proxy/sync.go:130-150 | backend first, then proxy; one write when the cached backend already names the proxy, two otherwise; an error means that the server refused |
| ProxyControllers.Controller.BindBackendToProxy | pkg/attachdetach/controller/persistentvolumeclaim/proxy/sync.go:152-176 | skips or sends the first write, and leaves the worker due to complete the binding |
| ProxyControllers.Controller.CompleteProxyBind | pkg/attachdetach/controller/persistentvolumeclaim/proxy/sync.go:178-198 | one write unless the cached proxy has completed its binding; when accepted, claim and completion are on record |
| Clusters.OthersInterfere | pkg/attachdetach/controller/persistentvolumeclaim/proxy/sync.go:130-204 | whatever other workers and users do between two API calls of a sync is within the contract under which the syncs above are proved |
| BackendControllers.Releaser.Sync | pkg/attachdetach/controller/persistentvolumeclaim/backend/sync.go:15-66 | looks up the claim, the proxy that it names, and that proxy on the server when the cache lacks it; writes exactly when the cached claim names a proxy that neither the cache nor, at the moment of the live read, the server knows; at some moment of the sync that proxy was not live; a live read that fails otherwise is returned as the error |
| BackendControllers.Releaser.ReleaseBackend | pkg/attachdetach/controller/persistentvolumeclaim/backend/sync.go:68-87 | one write; when accepted, a later version of the same claim names nobody |
| BackendControllers.Protector.Sync | pkg/attachdetach/controller/persistentvolumeclaim/backend/protection/sync.go:18-64 | looks up exactly its key, and sends one patch, the right one, exactly when that claim lacks the finalizer and stays, or has it, goes away and backs nobody |
| WakeUpRoles.ClaimsWereAsked | pkg/attachdetach/controller/persistentvolumeclaim/proxy/sync.go:81-104 | a backend is only ever claimed for a proxy that asked for it |
| WakeUpRoles.StepKeepsRoles | pkg/attachdetach/controller/persistentvolumeclaim/proxy/sync.go:130-176 | without name reuse, no step changes what a claim asks for, and every reference leads to a proxy that asked |
| WorkQueues.Handlers.EnqueueProxyDirectlyOrThroughAnnotation | pkg/attachdetach/controller/persistentvolumeclaim/proxy/controller.go:196-209 | adds exactly the proxy itself, or all cached proxies that ask for the object |
| WorkQueues.Handlers.EnqueueProxyRefDirectlyOrThroughAnnotation | pkg/attachdetach/controller/persistentvolumeclaim/backend/controller.go:194-214 | adds exactly the backend itself, or the cached backend that the object asks for |
| WorkQueues.Handlers.EnqueueBackingDirectlyOrThroughAnnotation | pkg/attachdetach/controller/persistentvolumeclaim/backend/protection/controller.go:193-219 | adds exactly the claim itself, or the cached backend of a bound proxy |
| WorkQueues.ProcessNextItem | pkg/attachdetach/controller/persistentvolumeclaim/proxy/controller.go:143-171 | syncs the key that it took; a key comes back exactly when its sync failed or the backend belongs to another proxy; one that does not come back is bound or had nothing to bind |
| NoLostWakeUps.PendingBefore | pkg/attachdetach/controller/persistentvolumeclaim/proxy/controller.go:173-194 | work that is pending after the server moved was pending before, so only a change of the cache can create any |
| NoLostWakeUps.BindFinished | pkg/attachdetach/controller/persistentvolumeclaim/proxy/controller.go:143-171 | a bind sync that neither fails nor waits leaves its key with nothing to bind |
| NoLostWakeUps.ReleaseFinished | pkg/attachdetach/controller/persistentvolumeclaim/backend/controller.go:141-169 | a release sync that does not fail leaves its key with nothing to release |
| NoLostWakeUps.ProtectFinished | pkg/attachdetach/controller/persistentvolumeclaim/backend/protection/controller.go:140-168 | a finalizer sync that does not fail leaves its key with no finalizer to change |
| NoLostWakeUps.DeliveryWakes | pkg/attachdetach/controller/persistentvolumeclaim/proxy/controller.go:196-209 | when the cache learns of a version, every key that this gives work to is put on its queue, on all three queues |
| NoLostWakeUps.GoneWakes | pkg/attachdetach/controller/persistentvolumeclaim/backend/controller.go:194-214 | when the cache learns that a claim is gone, every key that this gives work to is put on its queue, on all three queues |
| NoLostWakeUps.NoWakeUpIsLost | pkg/attachdetach/controller/persistentvolumeclaim/proxy/controller.go:173-214 | in every run, with failures, stale caches and restarts: a key for which the cache is up to date and a bind, release or finalizer sync would write is on that queue |
| NoLostWakeUps.QueuedKeysCanBeTaken | pkg/attachdetach/controller/persistentvolumeclaim/proxy/controller.go:143-171 | in every run, a worker can take any key that is queued: its sync asks for no step that the protocol does not allow |
| NoLostWakeUps.EmptyQueuesMeanDone | pkg/attachdetach/controller/persistentvolumeclaim/proxy/controller.go:143-171 | with an up-to-date cache and empty queues, no bind or release sync changes the server, nor does a finalizer sync of a backend or of a claim that has the finalizer |
| ControllerHelpers.PrepareSetAnnotationPatch | pkg/controllerhelpers/annotations.go:20-38 | the patch lists every annotation, with the given one replaced or null |
| ControllerHelpers.AnnotationPatchMeaning | pkg/controllerhelpers/annotations.go:20-38 | merged by section 2 of RFC 7396 into the object it was made from, the patch sets or deletes exactly one annotation; every other field of any document stays |
| ControllerHelpers.FinalizerPatchMeaning | pkg/controllerhelpers/finalizers.go:20-52 | likewise the finalizer patches append one finalizer, or drop all its occurrences |
| ControllerHelpers.PrepareRemoveFinalizerPatch | pkg/controllerhelpers/finalizers.go:35-52 | the filtering loop gives the list without the finalizer |
| ControllerHelpers.WithoutKeepsOrder | pkg/controllerhelpers/finalizers.go:36-39 | what remains are all the other finalizers, in their order |
| ControllerHelpers.RemoveUndoesAdd | pkg/controllerhelpers/finalizers.go:20-52 | adding an absent finalizer and removing it again gives the old list back |
| OwnershipRuns.RootCheckIsExact | pkg/thirdparty/k8s.io/kubernetes/pkg/volume/volume_linux.go:113-154 | for a directory, the check of the root asks for exactly the group and the bits that the walk would give it |
| OwnershipRuns.OwnedExactly | pkg/thirdparty/k8s.io/kubernetes/pkg/volume/volume_linux.go:30-103 | what a file must be like, bit by bit |
| OwnershipRuns.CompleteCallHandlesAll | pkg/thirdparty/k8s.io/kubernetes/pkg/volume/volume_linux.go:41-68 | without the policy for the root, a call that runs to its end leaves every file as it should be or with a failed call, whatever the root was like |
| OwnershipRuns.PerformKeepsMark | pkg/thirdparty/k8s.io/kubernetes/pkg/volume/volume_linux.go:105-154 | one call, cut off anywhere, with any listing order and any failures, keeps the root a completion marker |
| OwnershipRuns.ShortcutIsSound | pkg/thirdparty/k8s.io/kubernetes/pkg/volume/volume_linux.go:41-154 | on a volume whose root asked for a change at first, when after any calls the root asks for none, every file has the group and, unless a symlink, its mode bits, or some call for it failed |
| OwnershipRuns.ShortcutAgreesWithScan | pkg/thirdparty/k8s.io/kubernetes/pkg/volume/volume_linux.go:105-154 | without failed calls, the root check says no change is needed if and only if a full scan would |
| OwnershipWalk.FailedChownEscapesTheShortcut | pkg/thirdparty/k8s.io/kubernetes/pkg/volume/volume_linux.go:70-74 | a concrete tree on which a failed lchown, which is only logged, leaves a file wrong under a root that is marked |
| OwnershipWalk.CompleteWalk | pkg/thirdparty/k8s.io/kubernetes/pkg/volume/volume_linux.go:185-208 | a complete walk gives every file its group and added bits, whatever set-id bits the kernel drops on the way, and touches nothing else |
| OwnershipWalk.OrderDoesNotMatter | pkg/thirdparty/k8s.io/kubernetes/pkg/volume/volume_linux.go:156-208 | any two listing orders lead to the same final tree |
| OwnershipWalk.ModesOnlyGainBits | pkg/thirdparty/k8s.io/kubernetes/pkg/volume/volume_linux.go:87-100 | a file whose calls succeed loses no mode bit, and ends as it should be |
| OwnershipBits.LostBits | pkg/thirdparty/k8s.io/kubernetes/pkg/volume/volume_linux.go:70-103 | after any sequence of calls, cut off and failing anywhere, a file lacks of its first mode exactly what the lchown calls took and no chmod of the same call gave back, and gains only bits of the mask |
| OwnershipBits.BitsAreLostExactly | pkg/thirdparty/k8s.io/kubernetes/pkg/volume/volume_linux.go:70-103 | so given bits of the first mode are lost if and only if in some call an lchown took one of them and no chmod of the file succeeded after it; only set-id bits of regular files can be lost |
| OwnershipWalk.EveryFileIsVisited | pkg/thirdparty/k8s.io/kubernetes/pkg/volume/volume_linux.go:173-208 | the walk comes to every file of the tree and to nothing else |
| OwnershipWalk.OneVisitEach | pkg/thirdparty/k8s.io/kubernetes/pkg/volume/volume_linux.go:173-208 | and makes as many visits as there are files |
| OwnershipWalk.ParentsComeLater | pkg/thirdparty/k8s.io/kubernetes/pkg/volume/volume_linux.go:173-208 | a directory is visited after everything below it |
| OwnershipWalk.FailedWalkSparesParents | pkg/thirdparty/k8s.io/kubernetes/pkg/volume/volume_linux.go:185-208 | a failed walk leaves some unreadable file and all directories above it untouched |
| VolumeOwnership.FileSystem.ChangeFilePermission | pkg/thirdparty/k8s.io/kubernetes/pkg/volume/volume_linux.go:70-103 | makes exactly the calls of one file: lchown, and chmod unless it is a symlink |
| VolumeOwnership.FileSystem.Walk | pkg/thirdparty/k8s.io/kubernetes/pkg/volume/volume_linux.go:185-208 | visits a prefix of the post-order, all of it exactly when every file can be read |
| VolumeOwnership.FileSystem.RequiresChange | pkg/thirdparty/k8s.io/kubernetes/pkg/volume/volume_linux.go:113-154 | is the root check, and true when the root cannot be examined |
| VolumeOwnership.FileSystem.SetVolumeOwnership | pkg/thirdparty/k8s.io/kubernetes/pkg/volume/volume_linux.go:41-68 | only the policy for the root, and a root directory that is as it should be, spare the files; every other call with a group walks, fails exactly when a file cannot be read, and on success leaves every file as it should be or with a failed call; one call is one step of the runs above |
| VolumeOwnership.WalkIsCall | pkg/thirdparty/k8s.io/kubernetes/pkg/volume/volume_linux.go:56-61 | a walk that got as far as a given file is a call that is cut off there |
| NodeSteps.InvRun | pkg/volumemanager/controller/pod/sync_volume.go:50-177 | in every run of the node, in which a call and a sync on one volume may run side by side: files and maps hold what the configuration says and agree, the index is exact, and what is published is recorded |
| NodeTheorems.WriteAhead | pkg/volumemanager/controller/pod/sync_volume.go:112-177 | whenever the node server runs, everything the backend has published is addressed by exactly one recorded volume and pod that is still to be unpublished |
| NodeTheorems.UnpublishIsPrecise | pkg/driver/nodeserver.go:241-248 | the backend call of an unpublish takes away the mount of that volume and pod and no other |
| NodeTheorems.DeleteByPathIsPrecise | pkg/targetpathbind/state/persistentstatemanager.go:104-136 | deleting by path removes exactly that record from the disk and from both maps, and an unknown path changes nothing |
| NodeTheorems.DiskAndMemoryAgree | pkg/volume/bindstate/persistentstatemanager.go:27-116 | whatever is under way or torn, on the same volume too: each record that no operation is in the middle of changing, and whose file was not spoilt, is in its map, and in the index, as a reload would give it |
| NodeTheorems.WholeNodeReloads | pkg/volume/bindstate/persistentstatemanager.go:27-116 | a node at rest, none of whose files was spoilt, would be the same after a restart |
| TornFiles.TornExactly | pkg/volume/bindstate/persistentstatemanager.go:81-90 | a state file of any of the three managers is torn exactly when it was truncated and neither written nor removed since |
| TornFiles.TornMeansSpoilt | pkg/volume/bindstate/persistentstatemanager.go:81-90 | a state file is torn only while its own write is due, or after such a write failed or was cut off by a crash |
| NodeTheorems.CrashLosesNothing | pkg/volume/bindstate/persistentstatemanager.go:80-95 | wherever a crash strikes, also in the middle of a call and of a sync on one volume, each record reloads as it was before the operation that changes it or as it would be after it, or its file is torn |
| NodeTheorems.StartsExactly | pkg/volume/bindstate/persistentstatemanager.go:41-45 | in every run, a crash can be recovered from if and only if every file that was ever truncated has been written or removed since; otherwise no further step is possible, ever |
| NodeTheorems.StartsUnlessSpoilt | pkg/volume/bindstate/persistentstatemanager.go:73-98 | in particular it can be when no write failed so far, no crash cut one off, and none is due |
| NodeSignal.MarkedMeansReady | pkg/volumemanager/controller/pod/sync_volume.go:174-187 | a volume is marked only by a sync that published it and, after that, completed its ownership change; when the mark is set the volume is still published |
| SharedTeardown.UnpublishConvergesAmongOthers | pkg/driver/nodeserver.go:208-259 | whenever an unpublish succeeds, after any errors and crashes, and whatever calls and syncs run in between on this or other volumes except a new mount for the same volume and pod: nothing of the mount is left, but for a file that no record went with from the start |
| NodeTeardown.UnpublishConverges | pkg/driver/nodeserver.go:208-259 | when nothing else goes on, the whole node ends in one state: however often an unpublish fails or is cut short by crashes, the state in which it first succeeds is the same |
| NodeTeardown.UndisturbedUnpublish | pkg/driver/nodeserver.go:208-259 | undisturbed, an unpublish reaches that state within four steps |
| NodeTeardown.UnpublishedState | pkg/targetpathbind/manager.go:56-73 | in that state the volume is neither published nor recorded, and its directory is gone; its file remains exactly when it is torn and was never recorded, and then the node cannot start again |
| NodeUnstaging.UnstageConverges | pkg/driver/nodeserver.go:97-152 | with STAGE_UNSTAGE_VOLUME and nothing else going on, likewise the whole node for an unstage |
| NodeUnstaging.UndisturbedUnstage | pkg/driver/nodeserver.go:79-153 | undisturbed, an unstage reaches that state within five steps, with and without the capability |
| SharedUnstaging.UnstageConvergesAmongOthers | pkg/driver/nodeserver.go:79-153 | whatever calls and syncs run on other volumes, the first success of an unstage leaves of the volume's bind and staging path what an undisturbed call would, when the backend has the capability, or the volume is not both bound and staged, or another of its own files is torn |
| SharedUnstaging.UnstageOutcomeAmongOthers | pkg/driver/nodeserver.go:79-153 | and only then: otherwise errors, crashes and other volumes can make two first successes differ |
| NodeRepairs.RepairAll | pkg/volume/bindstate/persistentstatemanager.go:81-90 | from any reachable state, calls and syncs of other volumes can put all their torn files in order again, so that a crash can be recovered from, without touching the given volume |
| NodeUnstaging.UnstageOutcome | pkg/driver/nodeserver.go:79-153 | when nothing else goes on, the state of the whole node at the first success is independent of the errors and crashes before it if and only if the backend has the capability, or the volume is not both bound and staged, or a torn file makes any crash final |
| NodeUnstaging.UnstageReachesBackendStage | pkg/driver/nodeserver.go:129-135 | the unstage call undoes the stage made for the backend handle if and only if that handle equals the ID of the proxy volume |
| NodeUnstaging.UnstageDiverges | pkg/driver/nodeserver.go:118-127 | in every other state there are two first successes, one of which leaves the staging path bound and the other does not |
| NodeExamples.UnstageableIsReached | pkg/driver/nodeserver.go:118-127 | a concrete run that reaches such a state |
| NodeExamples.TornFileSurvivesTeardown | pkg/targetpathbind/state/persistentstatemanager.go:82-92 | a concrete run of a publish whose state file cannot be written, followed by a successful unpublish, that leaves a torn file behind |
| Nodes.OthersInterfere | pkg/driver/nodeserver.go:79-259 | what operations on other volumes, and the sync or call beside it on the same volume, do between two steps of a method is within the contract of Node.Interfere |
| Nodes.Node.SaveVolumeBind | pkg/volume/bindstate/persistentstatemanager.go:73-98 | truncate, write, then the map, each of the three a step; on success file and map hold the bind, and a failure ends the operation |
| Nodes.Node.ChangeOwnership | pkg/volumemanager/controller/pod/sync_volume.go:569-574 | the ownership step of a sync takes the result of the ownership change, if one is needed |
| Nodes.Node.SetUpTargetPath | pkg/targetpathbind/manager.go:22-54 | directory, then record; when the record cannot be saved the directory is removed again, and whether it is there in the end |
| Nodes.Node.TearDownTargetPath | pkg/targetpathbind/manager.go:56-73 | directory, then record; on success path and record are gone |
| NodeServers.NodeServer.NodeStageVolume | pkg/driver/nodeserver.go:56-77 | the code for every answer of the file system; on success the staging path is recorded |
| NodeServers.NodeServer.NodeUnstageVolume | pkg/driver/nodeserver.go:79-153 | the code for every answer of backend and file system; on success the bind is gone, and the staging path too if the backend has the capability or there was no bind |
| NodeServers.NodeServer.NodePublishVolume | pkg/driver/nodeserver.go:155-206 | the code for every request and every answer of the file system; on success the directory is there and recorded for the pod that the context names, and after a failure it is there only if it could not be removed or was not ours to remove |
| NodeServers.AcceptableExactly | pkg/driver/common.go:19-85 | which requests are not rejected: a mount of the default file system, by one node, with all attributes of a pod that is not ephemeral |
| NodeServers.ValidateVolumeContext | pkg/driver/common.go:67-85 | finds nothing missing exactly when every expected attribute is there |
| NodeServers.NodeServer.NodeUnpublishVolume | pkg/driver/nodeserver.go:208-259 | the code for every answer of backend and file system; on success the mount, the directory and all records of the pod are gone |
| VolumeManagers.VolumeManager.SyncVolume | pkg/volumemanager/controller/pod/sync_volume.go:33-190 | which volumes are left, and which are put back to wait for their attachment; marked exactly when the checks pass and every call succeeds, the ownership change included where it is needed; a marked volume is published at its own target path at that moment, and its ownership change succeeded after the publish |
| VolumeManagers.VolumeManager.Check | pkg/volumemanager/controller/pod/sync_volume.go:56-110 | which volumes pass the checks before the bind, and which have to wait for their attachment |
| VolumeManagers.VolumeManager.IsVolumeAttached | pkg/volumemanager/controller/pod/sync_volume.go:209-232 | attached or not, or an error, for each state of the attachment |
| VolumeManagers.SupportsFSGroup | pkg/volumemanager/controller/pod/sync_volume.go:579-602 | when the files may be given the group: by policy, file system type and access mode |
| VolumeManagers.VolumeManager.MountDevice | pkg/volumemanager/controller/pod/sync_volume.go:234-345 | succeeds exactly when the lookups do and, with the capability, a path is recorded and the stage call succeeds; then the backend has staged its own handle at the staging path that was recorded when the device was looked up; without it there is nothing to stage |
| VolumeManagers.VolumeManager.SetUpAt | pkg/volumemanager/controller/pod/sync_volume.go:414-577 | publishes and, where the driver does not see to the group, then changes the ownership of the tree at the target path; succeeds exactly when the lookups, the publish and that change do |
| StateFiles.OrderIsIrrelevant | pkg/volume/bindstate/persistentstatemanager.go:32-59 | the map that a constructor loads does not depend on the order of the files |
| StateFiles.ReloadGivesBack | pkg/volume/bindstate/persistentstatemanager.go:27-69 | files and map that are in step reload to exactly that map |
| StateManagers.SaveKeepsSync | pkg/volume/bindstate/persistentstatemanager.go:73-98 | saving a valid record, or failing half way, keeps files and map in step |
| StateManagers.DeleteKeepsSync | pkg/volume/bindstate/persistentstatemanager.go:100-116 | deleting a record, or only its file, keeps them in step |
| StateManagers.VolumeBinds.Open | pkg/volume/bindstate/persistentstatemanager.go:27-69 | fails exactly when the walk fails or some state file cannot be opened or parsed, and otherwise loads exactly the valid records |
| StateManagers.VolumeBinds.SaveVolumeBind | pkg/volume/bindstate/persistentstatemanager.go:73-98 | creates and then encodes the file, and then changes the map; a failure is that of one of the two calls, and leaves the map, and the file as it was or torn |
| StateManagers.VolumeBinds.DeleteVolumeBind | pkg/volume/bindstate/persistentstatemanager.go:100-116 | file and map entry go together, or nothing changes; fails exactly when the removal does, and a missing file is no failure |
| StateManagers.DeleteVolumeBindAgain | pkg/volume/bindstate/persistentstatemanager.go:100-116 | a delete after a successful one succeeds |
| StateManagers.StagingBinds.Open | pkg/stagingtargetpathbindstate/persistentstatemanager.go:35-77 | as for the volume binds |
| StateManagers.StagingBinds.BindStagingTargetPath | pkg/stagingtargetpathbindstate/persistentstatemanager.go:81-107 | as for the volume binds |
| StateManagers.StagingBinds.UnbindStagingTargetPath | pkg/stagingtargetpathbindstate/persistentstatemanager.go:109-125 | as for the volume binds |
| StateManagers.UnbindStagingTargetPathAgain | pkg/stagingtargetpathbindstate/persistentstatemanager.go:109-125 | an unbind after a successful one succeeds |
| TargetPathBinds.IndexOrder | pkg/targetpathbind/state/persistentstatemanager.go:29-74 | the reloaded index does not depend on the order of the files if and only if no two of them name one path |
| TargetPathBinds.SaveAndIndex | pkg/targetpathbind/state/persistentstatemanager.go:78-102 | saving keeps the index the inverse of the binds if and only if the bind keeps its own path and takes no other bind's path |
| TargetPathBinds.ReloadGivesBackBoth | pkg/targetpathbind/state/persistentstatemanager.go:29-74 | files and map in step reload, in any order, to the same map and the same index |
| TargetPathBinds.TargetBinds.SaveTargetPathBind | pkg/targetpathbind/state/persistentstatemanager.go:78-102 | file, map and index change together; a failure changes neither map nor index |
| TargetPathBinds.TargetBinds.DeleteTargetPathBind | pkg/targetpathbind/state/persistentstatemanager.go:104-136 | removes precisely the bind of that path from the disk and both maps; an unknown path changes nothing, and a missing file is no failure |
| TargetPathBinds.DeleteTargetPathBindAgain | pkg/targetpathbind/state/persistentstatemanager.go:104-136 | a delete after a successful one succeeds |
| TargetPathBinds.TargetBinds.Open | pkg/targetpathbind/state/persistentstatemanager.go:29-74 | likewise, with map and index loaded together |
| TargetPathBinds.TargetPathBindManager.SetUpTargetPath | pkg/targetpathbind/manager.go:22-54 | on success the path has its mode and is recorded; otherwise no map changes, and each error has its failed system call and says whether the directory was left |
| TargetPathBinds.TargetPathBindManager.TearDownTargetPath | pkg/targetpathbind/manager.go:56-73 | on success the path is gone and unknown; while the directory stays, nothing is forgotten; only a failed system call makes it fail |
| TargetPathBinds.TearDownTargetPathAgain | pkg/targetpathbind/manager.go:56-73 | a teardown after a successful one succeeds |
| BindKeys.KeysAreDistinct | pkg/targetpathbind/state/statemanager.go:15-17 | keys of pod UIDs of one length are equal exactly for the same volume and pod |
| BindKeys.Collisions | pkg/targetpathbind/state/statemanager.go:15-17 | two keys are equal exactly for the same volume and pod, or when the dash of one lies inside the volume ID of the other |
| BindKeys.SomeKeysCollide | pkg/targetpathbind/state/statemanager.go:15-17 | a concrete collision |
| BindKeys.FilesFollowKeys | pkg/targetpathbind/state/persistentstatemanager.go:153-155 | the file is named by volume, pod and extension; two binds share a state file exactly when they share a map entry, and the constructor recognises the file |
| NodeFiles.WriteIsOneFile | pkg/targetpathbind/state/persistentstatemanager.go:82-92 | with pod UIDs of one length, a write of the record of one volume and pod is a write of one file and leaves all others alone |
| NodeFiles.RemovalIsOneFile | pkg/targetpathbind/state/persistentstatemanager.go:123-127 | likewise a removal |
| NodeFiles.ReadableTheSame | pkg/targetpathbind/state/persistentstatemanager.go:41-64 | the constructor can parse all files exactly when the node can start with the records |
| NodeFiles.LoadsTheSame | pkg/targetpathbind/state/persistentstatemanager.go:29-74 | the constructor loads, by bind ID, exactly the records that the node loads by volume and pod |
| NodeFiles.IndexesTheSame | pkg/targetpathbind/state/persistentstatemanager.go:55-56 | and its index names, for each path, the bind ID of the volume and pod whose path it is |
| NodeFiles.FilesHoldRecords | pkg/targetpathbind/state/persistentstatemanager.go:78-136 | in every run of the node, the files that creating, writing and removing by name have left hold exactly the records of the node |
| NodeFiles.RestartLoadsFiles | pkg/targetpathbind/state/persistentstatemanager.go:29-74 | after a restart in any run, the map that the constructor loads from these files is the one the node works with |
| PodSync.Controller.Sync | pkg/volumemanager/controller/pod/sync.go:18-132 | exactly the volumes go to syncVolume whose claim is this driver's, bind-completed, with a known persistent volume, and names a cached backend claim with a known persistent volume; what the loop makes of the stored pod and of the number of errors |
| PodSync.OneVolume | pkg/volumemanager/controller/pod/sync.go:47-131 | from its claim alone, what one volume does to the pod and to the number of errors: a missing persistent volume of such a claim counts one, and a volume of any other kind changes nothing |
| PodSync.OnlyActiveVolumesMatter | pkg/volumemanager/controller/pod/sync.go:49-130 | volumes of other kinds, and those whose sync stops early, do not change the outcome; those that cannot be looked up or fail add a constant number of errors |
| PodSync.OneSync | pkg/volumemanager/controller/pod/sync.go:47-131 | for any pod, a sync that starts from the stored pod marks the first unmarked volume of those it can mount, and each of them after it meets a version conflict |
| PodSync.ExactRetryBound | pkg/volumemanager/controller/pod/sync.go:47-131 | for any pod with u unmarked volumes of those that can be mounted, each of the first u syncs marks exactly one more; unless another volume fails every time, the first sync to return success is the u-th if the last of them was unmarked, and the one after that otherwise |
| PodSync.UnmarkedPod | pkg/volumemanager/controller/pod/sync.go:47-131 | a pod without any mark and with n volumes to mount needs exactly n syncs |
| PodSync.StaleSyncChangesNothing | pkg/volumemanager/controller/pod/sync_volume.go:179-187 | a sync that starts from an older pod changes nothing |
| Wait.Controller.EvaluateAnnotations | pkg/wait/controller.go:88-101 | is true exactly when every required annotation is there with its value |
| Wait.Controller.Sync | pkg/wait/controller.go:63-86 | the signal is given exactly when all annotations are there and the file can be touched |
| Wait.MarksComeFromTheRun | pkg/volumemanager/controller/pod/sync_volume.go:179-187 | for a pod that starts without marks and to which nobody but the volume manager adds any, every mark of every version was set in the run |
| Wait.AnnotatedMeansReady | pkg/wait/controller.go:88-101 | when any version of that pod carries all the marks that are asked for, each of its volumes was published by a sync that settled its ownership before marking it |
| Wait.SignalMeansReady | pkg/wait/controller.go:63-101 | when the wait command has given the signal, and its cache only showed versions of that pod, each required volume was published and had its ownership settled |

## Left out

- gRPC transport, driver registry, capability calls and publish contexts: a backend is its sets of staged and published
  pairs, and any call to it may fail, with or without effect.
- Informer, rate limiter and handler library internals: a cache and a set of waiting keys; a back-off has no length.
- JSON encoding: a state file is torn or holds a record, and a patch is a JSON value. In the step system of the node a
  file can be read unless it is torn.
- Controller-side CSI calls, the identity server, commands, manifests and resizing: wiring, or not implemented.
- Exclusive attachment in pkg/attachdetach/controller/pod: the code compares different names, and would be exclusive only
  where they are equal.
- The name of the volume attachment: a hash.
- Secrets, SELinux and volume attributes: data that is passed on.
- Two operations on the same key of a state manager at once: the code does not order them.
- VolumeOwnership.FileSystem.SetVolumeOwnership: leaves out a root that is a symlink, which stat follows and lstat does
  not, the completion callback, which no caller passes, and the warning timer.
- PodSync.Controller.Sync: reduces each call of syncVolume to how far it gets and to its patch; the call itself is
  VolumeManagers.VolumeManager.SyncVolume. A lister reads a cache, so looking up a claim has no error but not-found.
- The answers of drivers, file system, listers and API server are parameters, all combinations of them; what a lister
  knows of a volume is one record.
- VolumeManagers.VolumeManager.SetUpAt: the lookups of address, policy, publish context and secrets succeed or fail as one;
  that of the staging path is modelled.
- WorkQueues.ProcessNextItem: is written out for the binder; the other two controllers have the same loop.
- Nodes.Node: keeps the files, maps and backend sets of one node in one object, keyed by volume and pod; NodeFiles shows
  that the real file names keep these apart.
