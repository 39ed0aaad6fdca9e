/**
 * The life of one LogicalVolume as a step system: its object in the API, the LVM volume named by its
 * UID, its executor pods and its mount. Every effect an actor has on them is an event. `Enabled` says
 * what must be true of the current state for the effect to be allowed, `Apply` what it does.
 * A run is any sequence of enabled events, so a crash may fall between any two of them.
 */
module LifecycleProtocol {
  import opened Wrappers
  import opened Conditions
  import opened LogicalVolumes

  datatype Object = Unborn | Live(lv: LogicalVolume) | Gone

  /** The process inside an executor pod: it has loaded the object, is at work, or has finished. */
  datatype Stage = Loaded | Working | Done

  datatype Pod = Pod(terminating: bool, stage: Stage)

  /**
   * What other objects say about this one: whether it is itself an online snapshot to back up, whether its source
   * is one to restore from, and whether the storage for snapshots and the persistent volume exist.
   */
  datatype Role = Role(backup: bool, restore: bool, storage: bool, claim: bool)

  datatype Slice = Slice(
    uid: string,
    stored: Object,
    volume: Option<nat>,       // the LVM volume named by the UID, with its size in bytes
    pods: map<Operation, Pod>, // executor pods known to the API
    mounted: bool,
    detached: bool,            // history: the node reconciler has taken the finalizer away
    succeeded: bool,           // history: the snapshot phase has been Succeeded
    lowered: bool,             // history: the requested size was once lowered
    role: Role)

  datatype Event =
      // users, the CSI controller, the kubelet
    | CreateObject(lv: LogicalVolume)
    | RequestDelete
    | EditSpec(size: nat)
    | DropForeignFinalizers
    | ChangeRole(role: Role)
    | TerminatePod(op: Operation)
    | PodVanishes(op: Operation)
      // the process inside an executor pod
    | SnapshotterStarts(op: Operation)
    | SnapshotterSucceeds(op: Operation, id: string)
    | SnapshotterFails(op: Operation)
    | DeleterWrites(conditions: seq<Condition>)
      // the snapshot-pod reconciler and the node reconciler
    | PodMissing(op: Operation, message: string)
    | NodeDetach
      // the LogicalVolume reconciler
    | AddFinalizer
    | AddLabel
    | CreateVolume(size: nat)
    | GrowVolume(size: nat)
    | RemoveVolume
    | DropFinalizer
    | WriteStatus(status: Status)
    | CreatePod(op: Operation)
    | Mount
    | Unmount

  predicate IsEnvironment(e: Event) {
    e.CreateObject? || e.RequestDelete? || e.EditSpec? || e.DropForeignFinalizers? || e.ChangeRole? || e.TerminatePod? || e.PodVanishes? ||
    e.SnapshotterStarts? || e.SnapshotterSucceeds? || e.SnapshotterFails? || e.DeleterWrites? || e.PodMissing?
  }

  function Initial(uid: string): Slice {
    Slice(uid, Unborn, None, map[], false, false, false, false, Role(false, false, false, false))
  }

  /** What a status write of the LogicalVolume reconciler may change. */
  predicate StatusRule(s: Slice, st: Status)
    requires s.stored.Live?
  {
    var was := s.stored.lv.status;
    && (st.volumeId == was.volumeId || (was.volumeId == "" && st.volumeId == s.uid && s.volume.Some?))
    && (st.currentSize == was.currentSize || (s.volume.Some? && st.currentSize == Some(s.volume.value)))
    && (st.volumeId == "" ==> st.currentSize == None)
    && (PhaseIs(st, Succeeded) ==> PhaseIs(was, Succeeded))
    && (HasSnapshot(was) ==> st.snapshot == was.snapshot)
    && (HasSnapshot(st) ==> HasSnapshot(was))
    && DeleteSucceeded(st) == DeleteSucceeded(was)
  }

  predicate PodAt(s: Slice, op: Operation, stage: Stage) {
    op in s.pods && s.pods[op].stage == stage
  }

  /** The operation whose executor may be at work on the volume; only objects with a source have one. */
  function InFlight(s: Slice): Option<Operation>
    requires s.stored.Live?
  {
    if s.stored.lv.source == "" then None
    else if s.role.backup then Some(Backup)
    else if s.role.restore then Some(Restore)
    else None
  }

  /** The executor of the operation is gone from the API and the volume is not mounted. */
  predicate Stopped(s: Slice, op: Operation) {
    op !in s.pods && !s.mounted
  }

  /**
   * An LVM volume may go once its content is backed up, or while its object is being deleted; an operation in
   * flight has to be stopped first.
   */
  predicate RemovalRule(s: Slice)
    requires s.stored.Live?
  {
    var lv := s.stored.lv;
    if !lv.deleting then PhaseIs(lv.status, Succeeded)
    else HasSnapshot(lv.status) || InFlight(s).None? || Stopped(s, InFlight(s).value)
  }

  /** An executor is started on a mounted volume with its operation on record, the delete executor on an unmounted one. */
  predicate StartRule(s: Slice, op: Operation)
    requires s.stored.Live?
  {
    var lv := s.stored.lv;
    if op == Delete then lv.deleting && HasSnapshot(lv.status) && (s.mounted ==> s.volume.None?)
    else
      && !lv.deleting && lv.source != "" && !OperationComplete(lv.status)
      && lv.status.snapshot.Some? && !PhaseIs(lv.status, NoPhase) && s.mounted
  }

  /** The rules for an object that exists. */
  predicate EnabledOn(s: Slice, lv: LogicalVolume, e: Event)
    requires s.stored == Live(lv)
  {
    match e
    case CreateObject(_) => false
    case RequestDelete => !lv.deleting
    case EditSpec(_) => true
    case DropForeignFinalizers => true
    case ChangeRole(_) => true
    case TerminatePod(op) => op in s.pods
    case PodVanishes(op) => op in s.pods
    case SnapshotterStarts(op) => op != Delete && PodAt(s, op, Loaded)
    case SnapshotterSucceeds(op, id) => op != Delete && PodAt(s, op, Working)
    case SnapshotterFails(op) => op != Delete && PodAt(s, op, Working)
    case DeleterWrites(_) => Delete in s.pods
    case PodMissing(op, message) => !lv.deleting && FailOperation(lv.status, op, message).Some?
    case NodeDetach => lv.finalizer && !HasSnapshot(lv.status)
    case AddFinalizer => !lv.finalizer && !lv.deleting && !lv.pendingDeletion
    case AddLabel => true
    case CreateVolume(size) => lv.finalizer && !lv.deleting && lv.status.volumeId == "" && s.volume.None?
    case GrowVolume(size) => lv.finalizer && !lv.deleting && s.volume.Some? && s.volume.value < lv.size <= size
    case RemoveVolume => lv.finalizer && s.volume.Some? && RemovalRule(s)
    case DropFinalizer =>
      lv.finalizer && lv.deleting && s.volume.None? && (HasSnapshot(lv.status) ==> DeleteSucceeded(lv.status))
    case WriteStatus(st) => lv.finalizer && StatusRule(s, st)
    case CreatePod(op) => op !in s.pods && lv.finalizer && StartRule(s, op)
    case Mount => !lv.deleting && lv.status.volumeId != "" && s.volume.Some?
    case Unmount => true
  }

  predicate Enabled(s: Slice, e: Event) {
    if s.stored.Live? then EnabledOn(s, s.stored.lv, e)
    else if e.CreateObject? then
      s.stored.Unborn? && !e.lv.deleting && !e.lv.finalizer && !e.lv.pendingDeletion &&
      e.lv.status == Status("", OK, "", None, [], None)
    else (e.TerminatePod? || e.PodVanishes?) && e.op in s.pods
  }

  /** The API removes an object that is being deleted once its last finalizer is gone. */
  function Settle(lv: LogicalVolume): Object {
    if lv.deleting && !lv.finalizer && !lv.foreignFinalizers then Gone else Live(lv)
  }

  function WithStatus(s: Slice, st: Status): Slice
    requires s.stored.Live?
  {
    s.(stored := Live(s.stored.lv.(status := st)), succeeded := s.succeeded || PhaseIs(st, Succeeded))
  }

  function SetStage(s: Slice, op: Operation, stage: Stage): Slice
    requires op in s.pods
  {
    s.(pods := s.pods[op := s.pods[op].(stage := stage)])
  }

  function Apply(s: Slice, e: Event): Slice
    requires Enabled(s, e)
  {
    match e
    case CreateObject(lv) => s.(stored := Live(lv))
    case RequestDelete => s.(stored := Settle(s.stored.lv.(deleting := true)))
    case EditSpec(size) => s.(stored := Live(s.stored.lv.(size := size)), lowered := s.lowered || size < s.stored.lv.size)
    case DropForeignFinalizers => s.(stored := Settle(s.stored.lv.(foreignFinalizers := false)))
    case ChangeRole(role) => s.(role := role)
    case TerminatePod(op) => s.(pods := s.pods[op := s.pods[op].(terminating := true)])
    case PodVanishes(op) => s.(pods := s.pods - {op})
    case SnapshotterStarts(op) => WithStatus(SetStage(s, op, Working), MarkRunning(s.stored.lv.status, op))
    case SnapshotterSucceeds(op, id) => WithStatus(SetStage(s, op, Done), MarkSucceeded(s.stored.lv.status, op, id))
    case SnapshotterFails(op) => WithStatus(SetStage(s, op, Done), MarkFailed(s.stored.lv.status))
    case DeleterWrites(conditions) =>
      var st := s.stored.lv.status;
      WithStatus(s, st.(conditions := conditions, snapshot := if st.snapshot.None? then Some(EMPTY_SNAPSHOT) else st.snapshot))
    case PodMissing(op, message) => WithStatus(s, FailOperation(s.stored.lv.status, op, message).value)
    case NodeDetach => s.(stored := Settle(s.stored.lv.(finalizer := false, pendingDeletion := true)), detached := true)
    case AddFinalizer => s.(stored := Live(s.stored.lv.(finalizer := true)))
    case AddLabel => s.(stored := Live(s.stored.lv.(labeled := true)))
    case CreateVolume(size) => s.(volume := Some(size))
    case GrowVolume(size) => s.(volume := Some(size))
    case RemoveVolume => s.(volume := None)
    case DropFinalizer => s.(stored := Settle(s.stored.lv.(finalizer := false)))
    case WriteStatus(st) => WithStatus(s, st)
    case CreatePod(op) => s.(pods := s.pods[op := Pod(false, Loaded)])
    case Mount => s.(mounted := true)
    case Unmount => s.(mounted := false)
  }

  // ---------------------------------------------------------------- runs

  /** Every event of the log was enabled when it happened. */
  ghost predicate Legal(s: Slice, log: seq<Event>) {
    log == [] || (Legal(s, log[..|log| - 1]) && Enabled(Replay(s, log[..|log| - 1]), log[|log| - 1]))
  }

  ghost function Replay(s: Slice, log: seq<Event>): Slice {
    if log == [] then s
    else
      var before := Replay(s, log[..|log| - 1]);
      if Enabled(before, log[|log| - 1]) then Apply(before, log[|log| - 1]) else before
  }

  /** The state after the first i events of a run. */
  ghost function At(uid: string, log: seq<Event>, i: nat): Slice
    requires i <= |log|
  {
    Replay(Initial(uid), log[..i])
  }

  ghost predicate Run(uid: string, log: seq<Event>) {
    uid != "" && Legal(Initial(uid), log)
  }

  lemma {:induction false} PrefixIsLegal(s: Slice, log: seq<Event>, i: nat)
    requires Legal(s, log) && i <= |log|
    ensures Legal(s, log[..i])
  {
    if i < |log| {
      var shorter := log[..|log| - 1];
      PrefixIsLegal(s, shorter, i);
      assert shorter[..i] == log[..i];
    } else {
      assert log[..i] == log;
    }
  }

  lemma StepAt(uid: string, log: seq<Event>, i: nat)
    requires Run(uid, log) && i < |log|
    ensures Enabled(At(uid, log, i), log[i])
    ensures At(uid, log, i + 1) == Apply(At(uid, log, i), log[i])
  {
    PrefixIsLegal(Initial(uid), log, i + 1);
    assert log[..i + 1][..i] == log[..i];
  }

  // ---------------------------------------------------------------- the invariant

  predicate ObjectInv(s: Slice, lv: LogicalVolume) {
    var st := lv.status;
    && (st.volumeId == "" || st.volumeId == s.uid)
    && (PhaseIs(st, Succeeded) ==> s.succeeded)
    && (st.volumeId == s.uid && !lv.deleting && !s.succeeded ==> s.volume.Some?)
    && (s.mounted ==> st.volumeId != "")
    && (lv.deleting ==> lv.finalizer || lv.foreignFinalizers)
    && (st.volumeId == "" ==> st.currentSize == None)
    && (st.currentSize.Some? && s.volume.Some? ==>
          st.currentSize.value <= s.volume.value &&
          (st.currentSize.value == s.volume.value || s.lowered || st.currentSize.value < lv.size))
    && (lv.source == "" ==> !s.succeeded && Backup !in s.pods && Restore !in s.pods)
  }

  predicate Inv(s: Slice) {
    && s.uid != ""
    && (s.volume.Some? ==> s.detached || (s.stored.Live? && s.stored.lv.finalizer))
    && (s.stored.Unborn? ==> s == Initial(s.uid))
    && (s.stored.Live? ==> ObjectInv(s, s.stored.lv))
  }

  /** Writes of the process in an executor pod. */
  predicate IsExecutor(e: Event) {
    e.SnapshotterStarts? || e.SnapshotterSucceeds? || e.SnapshotterFails? || e.DeleterWrites?
  }

  /** Effects on the object itself, without its status. */
  predicate IsMetadata(e: Event) {
    e.NodeDetach? || e.AddFinalizer? || e.AddLabel? || e.DropFinalizer?
  }

  lemma UserKeepsInv(s: Slice, e: Event)
    requires Inv(s) && Enabled(s, e) && IsEnvironment(e) && !IsExecutor(e) && !e.PodMissing?
    ensures Inv(Apply(s, e)) && Apply(s, e).uid == s.uid
  {
  }

  lemma ExecutorKeepsInv(s: Slice, e: Event)
    requires Inv(s) && Enabled(s, e) && IsExecutor(e)
    ensures Inv(Apply(s, e)) && Apply(s, e).uid == s.uid
  {
  }

  lemma PodReconcilerKeepsInv(s: Slice, e: Event)
    requires Inv(s) && Enabled(s, e) && e.PodMissing?
    ensures Inv(Apply(s, e)) && Apply(s, e).uid == s.uid
  {
  }

  lemma MetadataKeepsInv(s: Slice, e: Event)
    requires Inv(s) && Enabled(s, e) && IsMetadata(e)
    ensures Inv(Apply(s, e)) && Apply(s, e).uid == s.uid
  {
  }

  lemma ReconcilerKeepsInv(s: Slice, e: Event)
    requires Inv(s) && Enabled(s, e) && !IsEnvironment(e) && !IsMetadata(e)
    ensures Inv(Apply(s, e)) && Apply(s, e).uid == s.uid
  {
  }

  lemma StepKeepsInv(s: Slice, e: Event)
    requires Inv(s) && Enabled(s, e)
    ensures Inv(Apply(s, e)) && Apply(s, e).uid == s.uid
  {
    if IsExecutor(e) {
      ExecutorKeepsInv(s, e);
    } else if e.PodMissing? {
      PodReconcilerKeepsInv(s, e);
    } else if IsEnvironment(e) {
      UserKeepsInv(s, e);
    } else if IsMetadata(e) {
      MetadataKeepsInv(s, e);
    } else {
      ReconcilerKeepsInv(s, e);
    }
  }

  lemma {:induction false} RunKeepsInv(uid: string, log: seq<Event>, i: nat)
    requires Run(uid, log) && i <= |log|
    ensures Inv(At(uid, log, i)) && At(uid, log, i).uid == uid
  {
    if i > 0 {
      RunKeepsInv(uid, log, i - 1);
      StepAt(uid, log, i - 1);
      StepKeepsInv(At(uid, log, i - 1), log[i - 1]);
    }
  }

  // ---------------------------------------------------------------- what every run guarantees

  /** No LVM volume outlives its object, unless the node reconciler detached the object from it. */
  lemma VolumeNeedsFinalizer(uid: string, log: seq<Event>, i: nat)
    requires Run(uid, log) && i <= |log|
    requires At(uid, log, i).volume.Some?
    ensures (At(uid, log, i).stored.Live? && At(uid, log, i).stored.lv.finalizer)
         || exists k :: 0 <= k < i && log[k] == NodeDetach
  {
    RunKeepsInv(uid, log, i);
    if At(uid, log, i).detached {
      DetachedByNode(uid, log, i);
    }
  }

  lemma OnlyNodeDetaches(s: Slice, e: Event)
    requires Enabled(s, e) && Apply(s, e).detached && !s.detached
    ensures e == NodeDetach
  {
  }

  lemma {:induction false} DetachedByNode(uid: string, log: seq<Event>, i: nat)
    requires Run(uid, log) && i <= |log|
    requires At(uid, log, i).detached
    ensures exists k :: 0 <= k < i && log[k] == NodeDetach
  {
    if i > 0 {
      StepAt(uid, log, i - 1);
      if At(uid, log, i - 1).detached {
        DetachedByNode(uid, log, i - 1);
      } else {
        OnlyNodeDetaches(At(uid, log, i - 1), log[i - 1]);
      }
    }
  }

  predicate HasSucceeded(s: Slice) {
    s.stored.Live? && PhaseIs(s.stored.lv.status, Succeeded)
  }

  lemma StepSucceeds(s: Slice, e: Event)
    requires Enabled(s, e) && !s.succeeded && Apply(s, e).succeeded
    ensures HasSucceeded(Apply(s, e))
  {
  }

  /** The succeeded history flag means what it says. */
  lemma {:induction false} SucceededAtSomePoint(uid: string, log: seq<Event>, i: nat)
    requires Run(uid, log) && i <= |log|
    requires At(uid, log, i).succeeded
    ensures exists k :: 0 <= k <= i && HasSucceeded(At(uid, log, k))
  {
    if i > 0 {
      StepAt(uid, log, i - 1);
      if At(uid, log, i - 1).succeeded {
        SucceededAtSomePoint(uid, log, i - 1);
      } else {
        StepSucceeds(At(uid, log, i - 1), log[i - 1]);
      }
    }
  }

  /** A pending, running or failed backup never costs a live object its local volume. */
  lemma LiveVolumeIsKept(uid: string, log: seq<Event>, i: nat)
    requires Run(uid, log) && i <= |log|
    requires At(uid, log, i).stored.Live?
    requires var lv := At(uid, log, i).stored.lv; !lv.deleting && lv.status.volumeId != ""
    ensures At(uid, log, i).volume.Some?
         || exists k :: 0 <= k <= i && HasSucceeded(At(uid, log, k))
  {
    RunKeepsInv(uid, log, i);
    if At(uid, log, i).succeeded {
      SucceededAtSomePoint(uid, log, i);
    }
  }

  /** A recorded backup, with its remote copy still to be deleted. */
  predicate Recorded(s: Slice, snapshot: SnapshotStatus) {
    s.stored.Live? && s.stored.lv.finalizer && HasSnapshot(s.stored.lv.status) && s.stored.lv.status.snapshot == Some(snapshot)
  }

  predicate BackupIsOver(s: Slice) {
    Restore !in s.pods &&
    (s.stored.Live? && HasSnapshot(s.stored.lv.status) && Backup in s.pods ==> s.pods[Backup].stage == Done)
  }

  lemma StepKeepsBackupOver(s: Slice, e: Event)
    requires Enabled(s, e) && BackupIsOver(s) && e != CreatePod(Restore)
    ensures BackupIsOver(Apply(s, e))
  {
  }

  lemma {:induction false} BackupOverWhenRecorded(uid: string, log: seq<Event>, i: nat)
    requires Run(uid, log) && i <= |log|
    requires CreatePod(Restore) !in log
    ensures BackupIsOver(At(uid, log, i))
  {
    if i > 0 {
      BackupOverWhenRecorded(uid, log, i - 1);
      StepAt(uid, log, i - 1);
      assert log[i - 1] in log;
      StepKeepsBackupOver(At(uid, log, i - 1), log[i - 1]);
    }
  }

  /** The executor writes that replace a record: a start, a failure, a success with another snapshot. */
  predicate ErasesRecord(e: Event, snapshot: SnapshotStatus) {
    e.SnapshotterStarts? || e.SnapshotterFails? || (e.SnapshotterSucceeds? && e.op == Backup && e.id != snapshot.snapshotId)
  }

  lemma ReconcilerKeepsRecord(s: Slice, e: Event, snapshot: SnapshotStatus)
    requires Enabled(s, e) && Recorded(s, snapshot) && !DeleteSucceeded(s.stored.lv.status) && !IsEnvironment(e)
    ensures Recorded(Apply(s, e), snapshot) && !ErasesRecord(e, snapshot)
  {
    match e {
      case WriteStatus(_) =>
      case NodeDetach =>
      case DropFinalizer =>
      case AddFinalizer =>
      case AddLabel =>
      case _ =>
    }
  }

  lemma StepKeepsRecord(s: Slice, e: Event, snapshot: SnapshotStatus)
    requires Enabled(s, e) && Recorded(s, snapshot) && !DeleteSucceeded(s.stored.lv.status)
    ensures Recorded(Apply(s, e), snapshot) <==> !ErasesRecord(e, snapshot)
  {
    if !IsEnvironment(e) {
      ReconcilerKeepsRecord(s, e, snapshot);
    }
  }

  ghost predicate NotYetDeleted(uid: string, log: seq<Event>, i: nat, j: nat)
    requires i <= j <= |log|
  {
    forall k {:trigger Undeleted(At(uid, log, k))} :: i <= k < j ==> Undeleted(At(uid, log, k))
  }

  predicate Undeleted(s: Slice) {
    s.stored.Live? ==> !DeleteSucceeded(s.stored.lv.status)
  }

  lemma RecordStep(uid: string, log: seq<Event>, k: nat, snapshot: SnapshotStatus)
    requires Run(uid, log) && k < |log| && Recorded(At(uid, log, k), snapshot) && Undeleted(At(uid, log, k))
    ensures Recorded(At(uid, log, k + 1), snapshot) <==> !ErasesRecord(log[k], snapshot)
  {
    StepAt(uid, log, k);
    StepKeepsRecord(At(uid, log, k), log[k], snapshot);
  }

  ghost predicate RecordedThroughout(uid: string, log: seq<Event>, i: nat, j: nat, snapshot: SnapshotStatus)
    requires i <= j <= |log|
  {
    forall k {:trigger Recorded(At(uid, log, k), snapshot)} :: i <= k <= j ==> Recorded(At(uid, log, k), snapshot)
  }

  /**
   * Until the delete executor has reported the remote snapshot as deleted, a recorded backup keeps
   * its record and its finalizer through any stretch of the run exactly when no executor writes over
   * the record in that stretch. No step of a reconciler ever does.
   */
  lemma {:induction false} RecordKeptExactly(uid: string, log: seq<Event>, i: nat, j: nat, snapshot: SnapshotStatus)
    requires Run(uid, log) && i <= j <= |log| && NotYetDeleted(uid, log, i, j)
    requires Recorded(At(uid, log, i), snapshot)
    ensures RecordedThroughout(uid, log, i, j, snapshot) <==> NeverErased(log, i, j, snapshot)
  {
    if i < j {
      RecordKeptExactly(uid, log, i, j - 1, snapshot);
      RecordOneFurther(uid, log, i, j - 1, snapshot);
    }
  }

  /** No executor writes over the record in this stretch. */
  ghost predicate NeverErased(log: seq<Event>, i: nat, j: nat, snapshot: SnapshotStatus)
    requires i <= j <= |log|
  {
    forall k {:trigger ErasesRecord(log[k], snapshot)} :: i <= k < j ==> !ErasesRecord(log[k], snapshot)
  }

  lemma RecordOneFurther(uid: string, log: seq<Event>, i: nat, j: nat, snapshot: SnapshotStatus)
    requires Run(uid, log) && i <= j < |log| && NotYetDeleted(uid, log, i, j + 1)
    ensures RecordedThroughout(uid, log, i, j + 1, snapshot) <==>
      RecordedThroughout(uid, log, i, j, snapshot) && !ErasesRecord(log[j], snapshot)
    ensures NeverErased(log, i, j + 1, snapshot) <==> NeverErased(log, i, j, snapshot) && !ErasesRecord(log[j], snapshot)
  {
    assert Undeleted(At(uid, log, j));
    if Recorded(At(uid, log, j), snapshot) {
      RecordStep(uid, log, j, snapshot);
    }
    assert RecordedThroughout(uid, log, i, j + 1, snapshot) ==> Recorded(At(uid, log, j), snapshot) && Recorded(At(uid, log, j + 1), snapshot);
  }

  /** An object that is never a restore target keeps its record throughout. */
  lemma {:induction false} RecordHoldsFinalizer(uid: string, log: seq<Event>, i: nat, j: nat, snapshot: SnapshotStatus)
    requires Run(uid, log) && i <= j <= |log| && NotYetDeleted(uid, log, i, j)
    requires CreatePod(Restore) !in log
    requires Recorded(At(uid, log, i), snapshot)
    ensures Recorded(At(uid, log, j), snapshot)
  {
    if i < j {
      RecordHoldsFinalizer(uid, log, i, j - 1, snapshot);
      StepAt(uid, log, j - 1);
      BackupOverWhenRecorded(uid, log, j - 1);
      NoExecutorLeft(At(uid, log, j - 1), log[j - 1], snapshot);
      assert Undeleted(At(uid, log, j - 1));
      RecordStep(uid, log, j - 1, snapshot);
    }
  }

  lemma NoExecutorLeft(s: Slice, e: Event, snapshot: SnapshotStatus)
    requires Enabled(s, e) && Recorded(s, snapshot) && BackupIsOver(s)
    ensures !ErasesRecord(e, snapshot)
  {
  }

  predicate Deleting(s: Slice) {
    s.stored.Gone? || (s.stored.Live? && s.stored.lv.deleting)
  }

  lemma StepKeepsDeleting(s: Slice, e: Event, op: Operation)
    requires Enabled(s, e) && Deleting(s) && op != Delete
    ensures Deleting(Apply(s, e)) && e != CreatePod(op)
    ensures op !in s.pods ==> op !in Apply(s, e).pods
    ensures !s.mounted ==> !Apply(s, e).mounted
    ensures s.volume.None? ==> Apply(s, e).volume.None?
  {
  }

  /**
   * After deletion was requested no backup or restore pod is created any more: an executor that has
   * gone never returns, a mount that was undone stays undone, a removed volume stays removed.
   */
  lemma {:induction false} DeletionIsQuiet(uid: string, log: seq<Event>, i: nat, j: nat, op: Operation)
    requires Run(uid, log) && i <= j <= |log|
    requires op != Delete && Deleting(At(uid, log, i))
    ensures Deleting(At(uid, log, j))
    ensures op !in At(uid, log, i).pods ==> op !in At(uid, log, j).pods
    ensures !At(uid, log, i).mounted ==> !At(uid, log, j).mounted
    ensures At(uid, log, i).volume.None? ==> At(uid, log, j).volume.None?
    ensures forall k :: i <= k < j ==> log[k] != CreatePod(op)
  {
    if i < j {
      DeletionIsQuiet(uid, log, i, j - 1, op);
      StepAt(uid, log, j - 1);
      StepKeepsDeleting(At(uid, log, j - 1), log[j - 1], op);
    }
  }

  /**
   * In-flight deletion: when the volume of an object with an operation in flight is removed, the executor of the
   * operation is gone and the volume unmounted, and no executor of it and no mount ever sees the volume again.
   */
  lemma InFlightRemovalIsFinal(uid: string, log: seq<Event>, i: nat, j: nat)
    requires Run(uid, log) && i < j <= |log| && log[i] == RemoveVolume
    requires At(uid, log, i).stored.Live? && InFlight(At(uid, log, i)).Some?
    requires var lv := At(uid, log, i).stored.lv; lv.deleting && !HasSnapshot(lv.status)
    ensures Stopped(At(uid, log, i), InFlight(At(uid, log, i)).value)
    ensures Stopped(At(uid, log, j), InFlight(At(uid, log, i)).value) && At(uid, log, j).volume.None?
  {
    StepAt(uid, log, i);
    DeletionIsQuiet(uid, log, i, i + 1, InFlight(At(uid, log, i)).value);
    DeletionIsQuiet(uid, log, i + 1, j, InFlight(At(uid, log, i)).value);
  }

  // ---------------------------------------------------------------- many LogicalVolumes

  type World = map<string, Slice>

  datatype WorldEvent = On(uid: string, event: Event)

  /** The events of one object, in order. */
  ghost function Project(log: seq<WorldEvent>, uid: string): seq<Event> {
    if log == [] then []
    else
      var rest := Project(log[..|log| - 1], uid);
      if log[|log| - 1].uid == uid then rest + [log[|log| - 1].event] else rest
  }

  ghost predicate WorldRun(log: seq<WorldEvent>, w: World) {
    if log == [] then forall uid :: uid in w ==> uid != "" && w[uid] == Initial(uid)
    else
      var e := log[|log| - 1];
      exists before: World :: WorldRun(log[..|log| - 1], before) && e.uid in before && Enabled(before[e.uid], e.event) &&
        w == before[e.uid := Apply(before[e.uid], e.event)]
  }

  /** Seen through one object, a run of the whole cluster is a run of that object. */
  lemma {:induction false} WorldRunProjects(log: seq<WorldEvent>, w: World, uid: string)
    requires WorldRun(log, w) && uid in w
    ensures Run(uid, Project(log, uid)) && w[uid] == Replay(Initial(uid), Project(log, uid))
  {
    if log != [] {
      var e := log[|log| - 1];
      var before: World :| WorldRun(log[..|log| - 1], before) && e.uid in before && Enabled(before[e.uid], e.event) &&
        w == before[e.uid := Apply(before[e.uid], e.event)];
      WorldRunProjects(log[..|log| - 1], before, uid);
      if e.uid == uid {
        var rest := Project(log[..|log| - 1], uid);
        assert (rest + [e.event])[..|rest|] == rest;
      }
    }
  }

  /** In a cluster of any number of objects, every LVM volume belongs to a live object holding its finalizer, or to a detached one. */
  lemma NoOrphanVolumes(log: seq<WorldEvent>, w: World)
    requires WorldRun(log, w)
    ensures forall uid :: uid in w && w[uid].volume.Some? ==>
      (w[uid].stored.Live? && w[uid].stored.lv.finalizer) || On(uid, NodeDetach) in log
  {
    forall uid | uid in w && w[uid].volume.Some?
      ensures (w[uid].stored.Live? && w[uid].stored.lv.finalizer) || On(uid, NodeDetach) in log
    {
      WorldRunProjects(log, w, uid);
      var mine := Project(log, uid);
      assert mine[..|mine|] == mine;
      VolumeNeedsFinalizer(uid, mine, |mine|);
      if k :| 0 <= k < |mine| && mine[k] == NodeDetach {
        ProjectedFrom(log, uid, NodeDetach);
      }
    }
  }

  lemma {:induction false} ProjectedFrom(log: seq<WorldEvent>, uid: string, e: Event)
    requires e in Project(log, uid)
    ensures On(uid, e) in log
  {
    if log != [] {
      var last := log[|log| - 1];
      if last != On(uid, e) {
        ProjectedFrom(log[..|log| - 1], uid, e);
      }
    }
  }
}
