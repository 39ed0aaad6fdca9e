# TopoLVM, modelled and verified in Dafny

TopoLVM gives Kubernetes pods volumes on node-local LVM. This project models the three parts of it that hold state and
proves what they promise.

**The life of a LogicalVolume** (`Conditions`, `LogicalVolumes`, `LifecycleProtocol`, `Cluster`, `LogicalVolumeReconciler`,
`NodeReconciler`, `LifecycleBoundaries`, `StaleDeletion`, `StatusStore`). The object in the API, the LVM volume named by its UID, its executor
pods and its mount form one state. Every effect of an actor is an event with a guard, and a run is any sequence of events
whose guards held. The reconcilers are classes that follow the Go code call by call. Each call may be refused, may take
effect and still report an error, or may be the last thing the process does; the reconcilers are proved to issue only
events that the guards allow, so that theorems about all runs are theorems about them. `StatusStore` is the API server
under optimistic concurrency: reads of any age, updates that commit only over the version they were computed from, and
any commits of others in between.

**lvmd as an allocator** (`Lvm`, `VolumeGroups`, `Overprovisioning`, `StoragePools`, `LvService`, `Booking`, `VgService`,
`NodeAnnotations`, `Watching`, `DeviceClasses`). LVM is a set of volume groups with an extent size and volumes of whole
extents; while it is not healthy any command may fail without effect. The readers of `command/lvm.go` are proved against
one description of the state of LVM on both of their paths. The service's calls are proved to conserve space, never to
shrink a volume, and to keep what a thin pool promises within its overprovisioned size rounded up to an extent. What a
node advertises is what it can give: bookings within it are all granted.

**Requests, locks and scheduling** (`CapacityConversion`, `LockById`, `Decimal`, `PodMutator`, `Scheduler`, `Placement`). Request
arithmetic is on 64-bit integers with wrap-around and truncating division. The lock is a monitor whose passes are steps.
The webhook's annotations are followed through to the nodes that the scheduler keeps, and from there to the volumes that
lvmd grants.

Where the code does not keep a promise on all inputs, a lemma shows an input and another one says exactly when it does:

- `ConversionIsExact`: a request above 2^63 - 4096 overflows in rounding and passes with a negative capacity.
- `ThickResizeEscapes` and `GrowKeepsBounded`: a thick class looks at the free space of its group, and its lookup also
  finds thin volumes, so a thin volume resized through it can break the bound of its pool.
- `SnapshotEscapes` and `TakenBoundedExactly`: a snapshot is checked against the pool of the class and lands in the pool
  of its source. The CSI driver addresses both kinds of call by the class of the volume, and then `LvService.Serve` keeps
  every bound.
- `OvershootExactly`: the thin bound holds without the extra extent exactly when the capacity is whole extents.
- `RestoreErasesRecord` and `RecordKeptExactly`: the record of a backup is kept exactly as long as no executor writes over
  it, which happens only to an object that is also restored into.
- `InterleavedDeletionLosesRecord` and `LosesRecordExactly`: a deletion decides on a copy of the object, and a backup that
  succeeds between that read and the removal is lost, unless an executor of a restore writes over it in turn.
- `WholesaleLosesCondition` and `WholesaleKeepsExactly`: a writer that puts back a whole status loses what was committed
  since its read, unless that was the same.
- `BothNamesOverbook` and `KeptNodeHasRoom`: the scheduler compares the default annotation and the annotation of the
  default class one at a time, so it keeps a node for a pod that asks for more than is advertised under both names
  together; among pods of whole-extent requests only for such a pod.
- `RoundingOverbooks` and `RoomExactly`: the scheduler adds up bytes while lvmd rounds each volume up to whole extents.

The comment on `GetMinimumAllocationSize` speaks of an error for invalid values; the code returns none, and the model
follows the code. A negative required size is raised to the configured minimum before the conversion sees it.

## Model

| member | source | states |
|---|---|---|
| LifecycleProtocol.VolumeNeedsFinalizer | internal/controller/logicalvolume_controller.go:96-108 | in every run, crashes anywhere included, the LVM volume named by a UID exists only while its object exists and holds the finalizer, or after the node reconciler detached the object |
| LifecycleProtocol.NoOrphanVolumes | internal/controller/logicalvolume_controller.go:340-442 | the same for a cluster of any number of objects whose events interleave freely |
| LifecycleProtocol.WorldRunProjects | internal/controller/logicalvolume_controller.go:59-133 | seen through one object, a run of the whole cluster is a run of that object |
| LifecycleProtocol.RunKeepsInv | internal/controller/logicalvolume_controller.go:59-576 | what every step of every actor keeps, whatever becomes of the requested size: identity of volume and status, a recorded size never ahead of the volume and behind it only while an expansion is due or after the request was lowered, no snapshot state without a source |
| LifecycleProtocol.LiveVolumeIsKept | internal/controller/snapshot_handler.go:278-320 | a live object with a volume ID has its LVM volume unless its snapshot phase has been Succeeded at some point of the run |
| LifecycleProtocol.SucceededAtSomePoint | internal/controller/logicalvolume_controller.go:185-206 | the history flag behind that claim is set only by a state of the run in which the phase was Succeeded |
| LifecycleProtocol.StepKeepsRecord | internal/controller/logicalvolume_controller.go:267-308 | one step keeps a recorded backup and its finalizer if and only if it is not an executor writing over the record |
| LifecycleProtocol.ReconcilerKeepsRecord | internal/controller/node_controller.go:136-156 | no step of the LogicalVolume reconciler or of the node reconciler takes the record or the finalizer away before the remote snapshot is reported deleted |
| LifecycleProtocol.RecordKeptExactly | internal/controller/logicalvolume_controller.go:267-308 | over any stretch of any run the record and the finalizer are kept if and only if no executor writes over the record in it |
| LifecycleProtocol.RecordHoldsFinalizer | internal/controller/snapshot_handler.go:590-596 | an object that is never restored into keeps record and finalizer until the delete executor has succeeded |
| LifecycleProtocol.DeletionIsQuiet | internal/controller/logicalvolume_controller.go:88-93 | once an object is being deleted no backup or restore pod is created for it, pods that are gone stay gone, and neither mount nor volume comes back |
| LifecycleProtocol.InFlightRemovalIsFinal | internal/controller/logicalvolume_controller.go:259-345 | whenever the volume of a deleting object with a backup or restore in flight is removed, the executor pod is gone from the API and the volume unmounted, and no executor of the operation and no mount is left at any later time |
| LifecycleBoundaries.RestoreErasesRecord | internal/controller/logicalvolume_controller.go:96-133 | a concrete run, in the order of the effects of a reconcile, in which an object that is also restored into loses the record of its backup |
| StaleDeletions.LosesRecordExactly | internal/controller/logicalvolume_controller.go:259-289 | a deletion that acts on the copy it read leaves an object without volume and finalizer, and that object has a recorded backup if and only if between the read and the removal the last word of the executors is a success and the last ID they wrote is not empty; without a restore that means that the executor of the backup succeeds with an ID |
| StaleDeletions.InterleavedDeletionLosesRecord | internal/controller/logicalvolume_controller.go:347-373 | a concrete run of that kind, up to the object that is gone |
| LogicalVolumeReconcilers.LogicalVolumeReconciler.Reconcile | internal/controller/logicalvolume_controller.go:59-94 | whatever call fails or wherever the process dies, the effects form a legal run, and an operation in flight is stopped before its volume goes; without faults an object without a source comes strictly closer to its settled form, any live object is bound, refused or expanded as its state asks for and has its restore and then its backup driven on, an expansion that is due is asked for once in every reconcile whatever code is on record and a creation only without one, and a deletion comes to its end or waits for a terminating executor |
| LogicalVolumeReconcilers.LogicalVolumeReconciler.ReconcileLive | internal/controller/logicalvolume_controller.go:96-133 | the order of finalizer, label, creation, expansion, restore and backup yields only legal effects, the progress each case allows, and the calls to lvmd each case asks for |
| LogicalVolumeReconcilers.LogicalVolumeReconciler.EnsureFinalizerAndLabels | internal/controller/logicalvolume_controller.go:228-257 | goes on if and only if finalizer and label were already there, and otherwise brings the object one rank further |
| LogicalVolumeReconcilers.LogicalVolumeReconciler.CreateLV | internal/controller/logicalvolume_controller.go:418-522 | without faults an existing volume is adopted, a new one bound with its size, or a refusal recorded; a recorded code stops further attempts, so lvmd is not asked |
| LogicalVolumeReconcilers.LogicalVolumeReconciler.MakeVolume | internal/controller/logicalvolume_controller.go:446-505 | a volume of at least the requested size, or the code of the refusal in the status; what is wrong with the source of a snapshot gets no code |
| LogicalVolumeReconcilers.LogicalVolumeReconciler.ExpandLV | internal/controller/logicalvolume_controller.go:524-576 | an expansion that is not due leaves everything alone; one that is due is asked for whatever code is on record, and without faults ends with the size of the volume on record, at least the requested one, or with the code of this refusal |
| LogicalVolumeReconcilers.LogicalVolumeReconciler.UpdateLVStatus | internal/controller/logicalvolume_conditions.go:200-213 | replaces the whole stored status, and nothing else |
| LogicalVolumeReconcilers.LogicalVolumeReconciler.UpdateLVStatusCondition | internal/controller/logicalvolume_conditions.go:221-238 | sets one condition on what is stored, and nothing else |
| LogicalVolumeReconcilers.LogicalVolumeReconciler.UpdateSnapshotOperationStatus | internal/controller/snapshot_handler.go:405-434 | moves the stored operation to Pending or Failed, and nothing else |
| LogicalVolumeReconcilers.LogicalVolumeReconciler.ReconcileSnapshotRestore | internal/controller/logicalvolume_controller.go:151-183 | without faults a finished restore has its executor stopped and unmounted, a decided one or one without a persistent volume is left alone, and any other one is started or has failed for lack of storage or of its volume; the reconcile goes on unless it waits for that or found no volume to mount |
| LogicalVolumeReconcilers.LogicalVolumeReconciler.ReconcileSnapshotBackup | internal/controller/logicalvolume_controller.go:185-226 | without faults an open backup has its executor and mount, a successful one loses its local volume after its executor was stopped, and a failed one keeps its volume |
| LogicalVolumeReconcilers.LogicalVolumeReconciler.FinishBackup | internal/controller/logicalvolume_controller.go:187-213 | the same for a backup whose operation is over |
| LogicalVolumeReconcilers.LogicalVolumeReconciler.RunOperation | internal/controller/snapshot_handler.go:129-192 | without faults the operation is on record and its executor runs on the mounted volume, or without storage or without a volume exactly the failure is recorded; a failed restore is an error, a failed backup is not |
| LogicalVolumeReconcilers.LogicalVolumeReconciler.Proceed | internal/controller/snapshot_handler.go:135-160 | the same once the operation is on record |
| LogicalVolumeReconcilers.LogicalVolumeReconciler.StopExecutor | internal/controller/snapshot_handler.go:213-219 | the volume is unmounted and the executor pod told to stop |
| LogicalVolumeReconcilers.LogicalVolumeReconciler.StartDeleter | internal/controller/snapshot_handler.go:344-348 | the delete executor is there and the volume unmounted or gone |
| LogicalVolumeReconcilers.LogicalVolumeReconciler.InitializeSnapshotStatus | internal/controller/snapshot_handler.go:390-403 | an operation without a phase becomes Pending with that operation, and one that has a phase is not touched |
| LogicalVolumeReconcilers.LogicalVolumeReconciler.MountAndExecute | internal/controller/snapshot_handler.go:194-211 | without faults the executor runs on a mounted volume if there is one, and otherwise exactly the phase Failed is recorded |
| LogicalVolumeReconcilers.LogicalVolumeReconciler.HandleSnapshotStorageNotFound | internal/controller/snapshot_handler.go:474-496 | without faults exactly the failed phase and the two conditions are recorded |
| LogicalVolumeReconcilers.LogicalVolumeReconciler.ExecuteCleanerOperation | internal/controller/snapshot_handler.go:213-233 | the volume is unmounted and the executor pod told to stop, or not; either way the outcome is recorded as the condition, True or False, unless that write fails as well |
| LogicalVolumeReconcilers.LogicalVolumeReconciler.CleanupLVMSnapshotAfterBackup | internal/controller/snapshot_handler.go:278-320 | without faults the local volume is gone and exactly one condition is recorded |
| LogicalVolumeReconcilers.LogicalVolumeReconciler.HandleDeletion | internal/controller/logicalvolume_controller.go:259-289 | nothing happens without the finalizer; an operation in flight is stopped and unmounted before the volume goes; a fault-free deletion makes the progress its case allows |
| LogicalVolumeReconcilers.LogicalVolumeReconciler.DeletionWithSnapshot | internal/controller/logicalvolume_controller.go:291-308 | the volume goes; the finalizer stays until the remote snapshot was reported deleted and then goes too |
| LogicalVolumeReconcilers.LogicalVolumeReconciler.ExecuteSnapshotDeleteOperation | internal/controller/snapshot_handler.go:340-362 | the delete executor is there, the volume unmounted, and the record of the backup unchanged |
| LogicalVolumeReconcilers.LogicalVolumeReconciler.SnapshotOperationToCleanUp | internal/controller/logicalvolume_controller.go:310-322 | finds exactly the operation in flight: a backup before a restore, and none without a source |
| LogicalVolumeReconcilers.LogicalVolumeReconciler.DeleteSnapshotPodAndUnmount | internal/controller/logicalvolume_controller.go:324-338 | goes on only when the pod is gone from the API and the volume is unmounted or gone |
| LogicalVolumeReconcilers.LogicalVolumeReconciler.DeleteRunningSnapshotPod | internal/controller/snapshot_handler.go:243-276 | goes on only when the pod is gone; a pod that is there ends up terminating |
| LogicalVolumeReconcilers.LogicalVolumeReconciler.DeletionWithoutSnapshot | internal/controller/logicalvolume_controller.go:340-345 | without faults volume and finalizer are gone |
| LogicalVolumeReconcilers.LogicalVolumeReconciler.RemoveFinalizer | internal/controller/logicalvolume_controller.go:347-373 | drops the finalizer only where the rules of the run allow it |
| LogicalVolumeReconcilers.LogicalVolumeReconciler.Drive | internal/controller/logicalvolume_controller.go:116-130 | without faults the restore of a bound object is driven on first, and then its backup, unless the restore waits for its persistent volume or found no volume to mount |
| LogicalVolumeReconcilers.LogicalVolumeReconciler.Resize | internal/controller/logicalvolume_controller.go:531-575 | lvmd is asked once; without faults the volume has grown and its size is on record, or the code of the refusal is |
| LogicalVolumeReconcilers.SourcelessProgress | internal/controller/logicalvolume_controller.go:96-133 | for an object without a source those outcomes are progress towards its settled form |
| LogicalVolumeReconcilers.SettledIsRight | internal/controller/logicalvolume_controller.go:418-576 | in any reachable state a settled object names its own volume, which has at least the size on record and that at least the requested one; the size on record is exact unless the request was once lowered |
| Clusters.Cluster.RemoveLV | internal/controller/logicalvolume_controller.go:386-400 | a removal that succeeded or found nothing leaves no volume |
| NodeReconcilers.NodeReconciler.CleanupLogicalVolume | internal/controller/node_controller.go:158-187 | an object without a recorded backup loses its finalizer, is marked for that, and is deleted; its LVM volume is left alone |
| NodeReconcilers.NodeReconciler.DoFinalize | internal/controller/node_controller.go:95-146 | objects with a recorded backup are untouched, all others finalized, and nothing happens when finalization is skipped |
| NodeReconcilers.RunSystem | internal/controller/logicalvolume_controller.go:59-133 | every interleaving of reconciles, node finalization, restarts and environment events, with every failure and each process dying on its own, keeps the invariant and leaves no orphan volume |
| NodeReconcilers.Converge | internal/controller/logicalvolume_controller.go:96-133 | from any crash point at most four fault-free reconciles settle an object without a source, or a code is on record |
| StatusStores.StatusStore.FailSnapshotOperation | internal/controller/snapshot_handler.go:436-472 | commits only over the version it decided on; from a current copy it commits exactly when the operation matches and is open |
| StatusStores.StatusStore.UpdateLVStatusCondition | internal/controller/logicalvolume_conditions.go:221-238 | from however stale a copy, a commit is the stored status with one condition set |
| StatusStores.StatusStore.SetStatusRunning | cmd/topolvm-snapshotter/app/backup.go:230-243 | the competing writer that starts an operation |
| StatusStores.StatusStore.SetStatusSuccess | cmd/topolvm-snapshotter/app/backup.go:245-293 | the competing writer that finishes one |
| StatusStores.SnapshotPodReconciler.Reconcile | internal/controller/snapshot_pod_controller.go:30-84 | with two arbitrarily stale reads and other commits between them, a verdict is committed only for the operation and object the pod belongs to, and only if the version it read first was not deleting and its operation not over |
| StatusStores.PodNameRoundTrip | internal/controller/snapshot_pod_controller.go:143-151 | the name of a vanished pod gives back exactly its object and operation |
| StatusStores.PodReconcilerNeverOverwrites | internal/controller/snapshot_handler.go:436-472 | in every history a verdict of the pod reconciler replaces an open operation of the same kind, and changes only its phase and its own condition |
| StatusStores.VerdictIsFinal | internal/controller/snapshot_pod_controller.go:56-84 | a committed Succeeded or Failed survives every interleaving of pod reconcilers and condition writers |
| StatusStores.WriteSetsOwnType | internal/controller/logicalvolume_conditions.go:215-238 | a condition write leaves every other type exactly as committed at that moment |
| StatusStores.NoLostConditions | internal/controller/logicalvolume_conditions.go:215-238 | in every interleaving of condition writers each type ends with the value committed for it last |
| StatusStores.EveryWriterIsRetained | internal/controller/logicalvolume_conditions.go:215-238 | so the type of every writer that committed is still there |
| StatusStores.StatusStore.UpdateLVStatus | internal/controller/logicalvolume_conditions.go:200-213 | a commit puts back the whole status of the copy, over the version that was latest |
| StatusStores.WholesaleLosesCondition | internal/controller/logicalvolume_conditions.go:200-213 | a concrete history in which putting back a copy loses a condition committed after it was read |
| StatusStores.WholesaleKeepsExactly | internal/controller/logicalvolume_conditions.go:200-213 | such a write keeps a type if and only if its committed value is the one in the copy: it was not committed since the read, or last with the same value |
| Conditions.SetStatusConditionAt | internal/controller/logicalvolume_conditions.go:221-238 | a written condition reads back and every other type is as before |
| Lvms.AddKeepsValid | internal/lvmd/command/lvm.go:205-228 | a new volume keeps allocated plus free equal to the size of the group, in whole extents |
| Lvms.GrowKeepsValid | internal/lvmd/command/lvm.go:554-573 | so does growing a volume |
| Lvms.DropKeepsValid | internal/lvmd/command/lvm.go:576-584 | so does removing one |
| Lvms.RoundedFits | internal/lvmd/lvservice.go:51-59 | a request passes the byte check exactly when its extent-rounded size fits |
| Lvms.RoundedGrowthFits | internal/lvmd/lvservice.go:291-319 | the same for growth |
| VolumeGroups.FilterLV | internal/lvmd/command/lvm.go:98-106 | exactly the rows of one group, by name |
| VolumeGroups.ListVolumeGroups | internal/lvmd/command/lvm.go:111-122 | every group once, with exactly its current volumes attached |
| VolumeGroups.GetLVReport | internal/lvmd/command/lvm_lvs.go:104-152 | all rows of a group, or the row of one volume, with nothing foreign |
| VolumeGroups.GetLVs | internal/lvmd/command/lvm.go:32-52 | the rows of a report that is not empty, or those of a command; only the command can fail |
| VolumeGroups.RowsToList | internal/lvmd/command/lvm.go:148-158 | any report, even an empty one, and the command give the same rows, and a missing target has none |
| VolumeGroups.ListVolumesFor | internal/lvmd/command/lvm.go:145-166 | the converted volumes that are not thin pools |
| VolumeGroups.FindVolume | internal/lvmd/command/lvm.go:125-136 | the volume of that name as the state of LVM has it, on both paths |
| VolumeGroups.ListVolumes | internal/lvmd/command/lvm.go:139-141 | all volumes of the group, on both paths |
| VolumeGroups.ListPools | internal/lvmd/command/lvm.go:245-266 | the thin pools of the group |
| VolumeGroups.FindPool | internal/lvmd/command/lvm.go:231-242 | the thin pool of that name, on both paths |
| VolumeGroups.PoolListVolumes | internal/lvmd/command/lvm.go:358-370 | exactly the volumes of the pool |
| VolumeGroups.PoolFindVolume | internal/lvmd/command/lvm.go:373-383 | the volume of that name if it is in the pool |
| VolumeGroups.Usage | internal/lvmd/command/lvm.go:417-430 | the sum of the virtual sizes of the pool on 64 bits, and its size |
| VolumeGroups.FastMatchesSlow | internal/lvmd/command/lvm.go:32-52 | for every state, name and group, empty ones included, the report path answers what the command path answers when its commands do not fail: volumes, lists, pools, members and usage |
| VolumeGroups.Capacity | internal/lvmd/command/lvm.go:291-300 | the overprovisioned size of a pool is at least its size |
| Overprovisioning.RoundedWithin | internal/lvmd/command/lvm.go:291-300 | what fits in bytes fits after rounding into the capacity rounded up to an extent, so the overshoot is less than one extent |
| Overprovisioning.OvershootExactly | internal/lvmd/command/lvm.go:291-300 | there is never any overshoot if and only if the capacity is whole extents |
| Overprovisioning.AdmittedStaysWithin | internal/lvmd/lvservice.go:205-245 | a creation, growth or snapshot that passes the byte check keeps the promises of its pool within the limit |
| Overprovisioning.PromisedAfterAdd | internal/lvmd/command/lvm.go:417-430 | how a new volume changes the promises of every pool |
| Overprovisioning.PromisedAfterGrow | internal/lvmd/command/lvm.go:417-430 | how a grown volume changes them |
| Overprovisioning.GrowKeepsBounded | internal/lvmd/lvservice.go:291-327 | growing a volume keeps the bound of a pool if and only if the new promises are within the limit |
| Overprovisioning.PruneKeepsBounded | internal/lvmd/lvservice.go:110-138 | removing volumes keeps every bound |
| StoragePools.StoragePoolForDeviceClass | internal/lvmd/pool.go:18-35 | the group or thin pool that the class names, if it is there |
| StoragePools.Free | internal/lvmd/pool.go:42-57 | the free bytes of the group, or of the pool under its overprovisioning |
| StoragePools.FindVolumeIn | internal/lvmd/pool.go:11-16 | the volumes a class can see |
| StoragePools.CreateVolume | internal/lvmd/command/lvm.go:205-228 | a volume of the requested size in whole extents, with the sector check for linear ones |
| StoragePools.TargetsDiffer | internal/lvmd/device_class_manager.go:64-92 | two classes of a valid list never share a target |
| LvServices.LvService.CreateIn | internal/lvmd/lvservice.go:45-107 | without failing commands a request is granted if and only if it is positive, within the free bytes, whole sectors for a thick class, and its name new; a failure after the creation leaves the volume and says Internal |
| LvServices.LvService.CreateLV | internal/lvmd/lvservice.go:38-108 | conservation, no shrinking, all thin bounds, the status codes, and a notification exactly on success |
| LvServices.LvService.AdmitGrowth | internal/lvmd/lvservice.go:275-317 | the verdict on a resize: unneeded, granted or refused, each exactly when the code says so |
| LvServices.LvService.ResizeIn | internal/lvmd/lvservice.go:275-332 | without failing commands a volume that is not a non-thin snapshot is resized if and only if the growth is within the free bytes |
| LvServices.LvService.ResizeLV | internal/lvmd/lvservice.go:268-333 | conservation, no shrinking, the thin bounds when the class fits the volume, and a notification exactly on change and success |
| LvServices.LvService.Resize | internal/lvmd/command/lvm.go:554-573 | a volume ends with its size in whole extents as LVM reports it, and a smaller size is refused |
| LvServices.LvService.RemoveLV | internal/lvmd/lvservice.go:110-138 | the volume and what depends on it go, everything else stays; NotFound means it was not there |
| LvServices.LvService.FindSource | internal/lvmd/lvservice.go:146-175 | the source of a snapshot has to be a thin volume of the group of a thin class |
| LvServices.LvService.AdmitSnapshot | internal/lvmd/lvservice.go:140-208 | without failing commands granted if and only if the source is thin and the size at least that of the source and within the free bytes of the pool; a missing size means the size of the source |
| LvServices.LvService.SnapshotAndGrow | internal/lvmd/lvservice.go:220-234 | the snapshot in its final size, or whatever part of that was done |
| LvServices.LvService.TakeSnapshot | internal/lvmd/lvservice.go:220-245 | a snapshot that cannot be activated is taken back |
| LvServices.LvService.CreateLVSnapshot | internal/lvmd/lvservice.go:140-266 | conservation, no shrinking, the thin bounds when the source is in the pool of the class, on every exit path; without failing commands it succeeds if and only if it is admissible, its name new and its access type known |
| LvServices.LvService.Serve | internal/lvmd/lvservice.go:38-333 | any sequence of calls with any failures runs through states in which neighbours differ by what the call may do and space is conserved; when every call is well addressed in the state it meets, every thin bound holds in all of them |
| LvServices.RunKeepsBounded | internal/lvmd/lvservice.go:38-333 | every thin bound holds in every state of a well-addressed run |
| LvServices.RunConserves | internal/lvmd/lvservice.go:51-59 | in every state of a run allocated plus free is the size each group had at first |
| LvServices.RunKeepsShape | internal/lvmd/lvservice.go:38-333 | size and extent of every group stay the same over a run |
| LvServices.ThickResizeEscapes | internal/lvmd/lvservice.go:279-317 | a concrete state in which a thin volume resized through a thick class passes the check and breaks the bound of its pool |
| LvServices.SnapshotEscapes | internal/lvmd/lvservice.go:161-223 | a concrete state in which a snapshot of a volume outside the pool of the class passes the check and breaks the bound of its own pool |
| LvServices.TakenBoundedExactly | internal/lvmd/lvservice.go:220-234 | a snapshot keeps the bound of a pool if and only if its source is elsewhere or its rounded size is within the limit |
| Booking.CreateTakesItsSize | internal/lvmd/lvservice.go:51-78 | a creation takes its size in whole extents from its own class, or all that is left |
| Booking.SecondIsCreatable | internal/lvmd/lvservice.go:51-59 | after one creation another is granted if and only if it is well-formed, its name new, and both fit into what was free, the first in whole extents |
| Booking.CreateTakesNothingElse | internal/lvmd/lvservice.go:51-78 | and nothing from any other class |
| Booking.CreateAll | internal/lvmd/lvservice.go:51-59 | requests of whole sectors, in any order and for any classes, that add up in whole extents per class to at most what was advertised are all granted |
| VgServices.VgService.GetFreeBytes | internal/lvmd/vgservice.go:70-94 | the free bytes less the spare, for a class that has something to allocate from |
| VgServices.VgService.ThinItem | internal/lvmd/vgservice.go:117-159 | the item of a pool reports the advertised capacity of the one class that uses it |
| VgServices.VgService.ThickItem | internal/lvmd/vgservice.go:161-181 | the item of a group reports the free bytes less the spare of the one class that uses it |
| VgServices.VgService.Send | internal/lvmd/vgservice.go:96-184 | every class that has something to allocate from is reported with its advertised capacity, the default class once more, and nothing else is reported |
| NodeAnnotations.UpdateNode | internal/runners/metrics_exporter.go:249-258 | the annotations are those before with the default and every item written over them in turn |
| NodeAnnotations.NodeAdvertises | internal/runners/metrics_exporter.go:249-258 | after an update the annotation of such a class is its advertised capacity |
| NodeAnnotations.NodeAdvertisesDefault | internal/runners/metrics_exporter.go:249-250 | the default annotation is the capacity of the default class unless a class bears that name |
| Watching.RunKeepsInv | internal/lvmd/vgservice.go:186-236 | what every step of watchers and notifiers keeps |
| Watching.NoChangeIsLost | internal/lvmd/vgservice.go:204-236 | after every run a watcher that has not seen the newest notified change has a full slot or is between receiving and reading; one that waits on an empty channel has seen it |
| Watching.NumbersAreSafe | internal/lvmd/vgservice.go:186-202 | a number is never used twice, and unregistering always finds its number |
| Watching.Watchers.AddWatcher | internal/lvmd/vgservice.go:186-193 | registering is the step of that name: a number never used, under which exactly the new channel is registered |
| Watching.Watchers.RemoveWatcher | internal/lvmd/vgservice.go:195-202 | unregistering is the step of that name: it finds its number, and exactly that watcher is gone |
| Watching.Watchers.NotifyWatchers | internal/lvmd/vgservice.go:204-214 | notifying is a sequence of steps of a run: every registered channel ends with a signal, and the change that was there counts as notified |
| Watching.Watchers.Receive | internal/lvmd/vgservice.go:225-236 | a waiting watcher takes the signal out of its own channel, as in the step system |
| Watching.Watchers.WaitsUpToDate | internal/lvmd/vgservice.go:225-236 | a watcher that waits on an empty channel has read the newest notified change |
| LockById.MutualExclusion | internal/driver/lock.go:23-49 | after every run an ID is locked exactly when it has a holder, it has at most one, nobody sleeps for a free ID, and unlocking never panics |
| LockById.OthersDoNotWait | internal/driver/lock.go:23-36 | an attempt takes the lock if and only if nobody holds that very ID |
| LockById.ReleaseWakesAll | internal/driver/lock.go:46-48 | after a release every sleeper looks again |
| LockById.LockByID.TryLock | internal/driver/lock.go:27-35 | one pass of the loop does what the step system does |
| LockById.LockByID.UnlockByID | internal/driver/lock.go:38-49 | a holder finds its ID locked and releases just that |
| DeviceClasses.ValidateDeviceClasses | internal/lvmd/device_class_manager.go:36-104 | accepts exactly the non-empty lists of well-formed classes without equal names, equal targets or two defaults |
| DeviceClasses.CheckOne | internal/lvmd/device_class_manager.go:44-79 | the checks on one class accept exactly the well-formed ones |
| DeviceClasses.KeysAreTargets | internal/lvmd/device_class_manager.go:64-92 | with slash-free group names equal keys are equal targets |
| DeviceClasses.SearchFinds | internal/lvmd/device_class_manager.go:144-169 | in an accepted list a match is unique and the search returns it |
| DeviceClasses.DeviceClassManager.constructor | internal/lvmd/device_class_manager.go:115-141 | the indexes of any list whose thin classes have pools, with missing types filled in |
| DeviceClasses.DeviceClassManager.DeviceClass | internal/lvmd/device_class_manager.go:144-152 | the class a linear search by name finds; the empty name means the default |
| DeviceClasses.DeviceClassManager.FindDeviceClassByVGName | internal/lvmd/device_class_manager.go:155-160 | the thick class a linear search for the group finds |
| DeviceClasses.DeviceClassManager.FindDeviceClassByThinPoolName | internal/lvmd/device_class_manager.go:163-169 | the thin class with that key if and only if there is one; with slash-free group names the one a linear search for group and pool finds |
| DeviceClasses.ThinPoolSearch | internal/lvmd/device_class_manager.go:163-169 | with slash-free group names the key stands for exactly one group and pool |
| CapacityConversion.ConversionIsExact | internal/driver/controller.go:420-475 | the conversion answers with an error exactly when it should and with the best capacity otherwise, if and only if the request is at most 2^63 - 4096 or is refused before rounding; any other request passes with a negative capacity |
| CapacityConversion.ConvertedPassesSectorCheck | internal/lvmd/command/lvm.go:208-210 | a converted capacity is positive, whole sectors, at least the request and within any limit |
| CapacityConversion.RoundUpToIs | internal/driver/controller.go:467-470 | rounding up is exact as long as the sum does not overflow |
| CapacityConversion.RoundUpToWraps | internal/driver/controller.go:467-470 | above that it is negative |
| CapacityConversion.GetMinimumAllocationSize | internal/driver/allocation_settings.go:79-107 | the first capability that says how the volume is accessed decides, and negative settings count as zero |
| CapacityConversion.MinMaxAllocationsFromSettings | internal/driver/allocation_settings.go:59-72 | the request raised to the configured minimum and never negative, the limit as it was |
| CapacityConversion.CapacityToCreate | internal/driver/controller.go:175-213 | end to end the capacity of a new volume is the best one that covers the request and the configured minimum within the limit, or an error exactly when there is none; a need above 2^63 - 4096 that the limit admits becomes negative |
| Decimal.IntRoundTrip | internal/hook/mutate_pod.go:91-93 | a written number reads back exactly when it is a 64-bit integer |
| Decimal.UintRoundTrip | internal/scheduler/predicate.go:53-56 | the same for unsigned numbers |
| PodMutators.TargetSC.Get | internal/hook/mutate_pod.go:108-128 | the memo answers what a direct lookup would, and remembers it |
| PodMutators.PvcCapacity | internal/hook/mutate_pod.go:164-223 | what a claim asks for, from which class, or that it is bound |
| PodMutators.EphemeralCapacity | internal/hook/mutate_pod.go:225-259 | the same for a claim template |
| PodMutators.VolumesCapacity | internal/hook/mutate_pod.go:130-162 | exactly the classes the volumes ask for, each with the sum of what they ask; nothing when one is bound |
| PodMutators.Annotate | internal/hook/mutate_pod.go:91-93 | the capacities under the keys of their classes, everything else as it was |
| PodMutators.Handle | internal/hook/mutate_pod.go:45-101 | a pod is patched with exactly its capacities and one unit of the capacity resource on its first container, or left alone because it asks for nothing or is bound |
| Schedulers.ExtractRequestedSize | internal/scheduler/predicate.go:64-79 | exactly the capacity annotations that can be read |
| Schedulers.AnnotationRoundTrip | internal/scheduler/predicate.go:64-79 | what the webhook wrote is read back over what was readable before |
| Schedulers.WebhookRoundTrip | internal/hook/mutate_pod.go:91-161 | a pod without prior annotations yields exactly the sum of its requests per class |
| Schedulers.FilterNode | internal/scheduler/predicate.go:47-62 | no reason is given exactly when the node meets every class |
| Schedulers.FilterNodes | internal/scheduler/predicate.go:14-45 | the nodes that meet the request in their order, every other one named as failed, and all nodes for an empty request |
| Schedulers.KeptExactly | internal/scheduler/predicate.go:37-43 | a node is kept if and only if it is listed and meets the request |
| Schedulers.FilterIsExact | internal/scheduler/predicate.go:47-62 | on a node that advertises a class a request is met if and only if it is within the advertised capacity |
| Placement.WebhookCounts | internal/hook/mutate_pod.go:130-162 | under every name the webhook counts what the volumes will take under it, and under the default annotation no less |
| Placement.DemandIs | internal/lvmd/lvservice.go:38-59 | what the volumes of a pod take from a class is what they ask for under its names, each in whole extents |
| Placement.AnnotatedPodRequests | internal/scheduler/predicate.go:64-79 | what the scheduler reads from a pod without prior annotations is what its volumes ask for |
| Placement.RoomExactly | internal/lvmd/lvservice.go:51-59 | a node has room for the volumes of a pod if and only if, in whole extents, what they ask for under the names of each class is within its advertised capacity |
| Placement.KeptNodeHasRoom | internal/scheduler/predicate.go:47-62 | the same for a node that the scheduler keeps, whatever the sizes; for whole-extent requests that comes down to what they ask for under the two names of the default class fitting together |
| Placement.Provision | internal/lvmd/lvservice.go:38-108 | where there is room lvmd grants every volume of the pod |
| Placement.ProvisionKept | internal/lvmd/lvservice.go:38-108 | so it does on a kept node for whole-extent requests that fit together under the two names of the default class |
| Placement.BothNamesOverbook | internal/scheduler/predicate.go:47-62 | on every node whose default class has capacity, two volumes of that capacity, one without a class and one naming it, pass the scheduler and are more than the class advertises |
| Placement.SecondIsRefused | internal/lvmd/lvservice.go:51-59 | lvmd refuses the second of them after the first wherever the two are more than the class has free, and so for every thin class |
| Placement.RoundingOverbooks | internal/scheduler/predicate.go:47-62 | on every node that advertises two sectors but not two extents for a class, two volumes of one sector pass the scheduler and are more than the class advertises |

## Left out

- LifecycleProtocol.RunKeepsInv: runs take a reconcile as one turn that reads the current object, since `LosesRecordExactly` shows what interleaving it with the snapshotter costs.
- LifecycleProtocol.RecordHoldsFinalizer: objects that are also restored into are excluded; `RecordKeptExactly` covers them.
- LogicalVolumeReconcilers.LogicalVolumeReconciler.UpdateSnapshotOperationStatus: a stored phase Succeeded, which the code would write over, is excluded; no caller finds one within a turn.
- LogicalVolumeReconcilers.LogicalVolumeReconciler.RemoveFinalizer: that the code drops the finalizer of the fresh object without looking at its status is modelled in `StaleDeletions.Finish`.
- LogicalVolumeReconcilers.LogicalVolumeReconciler.CreateLV: the restore annotation is left out, because the code sets it only on its own copy and writes back only the status.
- NodeReconcilers.NodeReconciler.DoFinalize: the deletion of PersistentVolumeClaims is left out.
- LvServices.LvService.CreateLV: lvcreate options, stripes and RAID are left out; option classes are known or unknown.
- LvServices.LvService.RemoveLV: hidden volumes such as thin-pool metadata take no space in the model.
- LvServices.LvService.CreateIn: sizes in responses are not narrowed to signed 64-bit integers.
- VolumeGroups.FindVolume: paths, device numbers, tags and fill percentages are copied by the same code on both paths and are left out.
- VolumeGroups.Usage: the sum is reduced to 64 bits once at the end, which is the same as after each addition.
- VolumeGroups.Capacity: the ratio is a real number, so IEEE rounding is left out, and so is a capacity beyond 64 bits.
- LockById.LockByID.TryLock: the wait loop is a step system, since how long a caller sleeps depends on others.
- CapacityConversion.MinMaxAllocationsFromSettings: minimums are whole numbers of bytes.
- PodMutators.Handle: the namespace of the pod is left out; the API does not change during one call.
- CapacityConversion.CapacityToCreate: the check of the access mode is left out.
- Booking.CreateTakesItsSize: promises of a pool that pass 64 bits with the new volume are left out.
- Times and messages of conditions, requeue intervals, logging, the node-name filter and gRPC and HTTP transport.
- ThinPool.Resize, CreatePool, Rename, VerifyHealth and the parsing of JSON reports and volume attributes.
- The scoring of nodes in internal/scheduler/prioritize.go, the PVC and backup-storage reconcilers, and the CSI calls other than the request arithmetic.
