/**
 * The LogicalVolume reconciler of topolvm-node. A reconcile reads the object once and runs without
 * interleaving; any of its calls may fail, and it may die between any two effects. Every method keeps
 * `cluster.Valid()`: whatever fails, the effects issued so far extend the run legally.
 */
module LogicalVolumeReconcilers {
  import opened Wrappers
  import opened Conditions
  import opened LogicalVolumes
  import opened LifecycleProtocol
  import opened Clusters

  datatype Result = Fine | Requeue | Error

  const REMOVED_MESSAGE := "LVM snapshot removed after backup completion"

  /** How far an object is from its settled form. */
  function Rank(lv: LogicalVolume): nat {
    if !lv.finalizer then 4
    else if !lv.labeled then 3
    else if lv.status.volumeId == "" then 2
    else if lv.status.currentSize.None? || lv.status.currentSize.value < lv.size then 1
    else 0
  }

  /** A fault-free reconcile comes closer to the settled form, stays in it, or has recorded why it cannot. */
  predicate Progress(s: Slice, t: Slice)
    requires s.stored.Live?
  {
    t.stored.Live? &&
    t.stored.lv == s.stored.lv.(finalizer := t.stored.lv.finalizer, labeled := t.stored.lv.labeled, status := t.stored.lv.status) &&
    (Rank(t.stored.lv) < Rank(s.stored.lv) || (t == s && Rank(t.stored.lv) == 0) || t.stored.lv.status.code != OK)
  }

  /** The object is gone, or waits only for finalizers of others. */
  predicate Released(s: Slice) {
    s.volume.None? && (s.stored.Gone? || (s.stored.Live? && !s.stored.lv.finalizer))
  }

  /** A reconcile acts on an object that exists and is not left to the node reconciler. */
  predicate Touches(s: Slice) {
    s.stored.Live? && !s.stored.lv.pendingDeletion && (s.stored.lv.deleting ==> s.stored.lv.finalizer)
  }

  /**
   * What one fault-free reconcile of a deletion achieves. With a recorded backup the volume goes at
   * once and the finalizer when the delete executor has reported. Otherwise everything goes, unless
   * an executor pod has first to terminate.
   */
  predicate DeletionProgress(s: Slice, t: Slice)
    requires s.stored.Live?
  {
    if HasSnapshot(s.stored.lv.status) then
      && t.volume.None?
      && (if DeleteSucceeded(s.stored.lv.status) then Released(t)
          else IsDecided(s.stored.lv.status.conditions, DeleteExecutorEnsured) || Delete in t.pods)
    else
      Released(t) || exists op :: op in t.pods && op != Delete && t.pods[op].terminating
  }

  /** An operation that is not decided yet is started, or has failed for lack of storage or of its volume. */
  predicate OperationProgress(s: Slice, t: Slice, op: Operation)
    requires s.stored.Live?
  {
    StartProgress(Stored(s, Initialized(s.stored.lv.status, op)), t, op)
  }

  /** The same once the operation is on record. */
  predicate StartProgress(s: Slice, t: Slice, op: Operation)
    requires s.stored.Live?
  {
    if !s.role.storage then t == Stored(s, WithoutStorage(s.stored.lv.status, op))
    else if s.volume.None? then t == Stored(s, WithoutVolume(StorageFound(s.stored.lv.status), op))
    else op in t.pods && t.mounted
  }

  /** The executor was told to stop and does not find the volume mounted. */
  predicate Halted(s: Slice, op: Operation) {
    (op in s.pods ==> s.pods[op].terminating) && (s.mounted ==> s.volume.None?)
  }

  /**
   * What one fault-free reconcile of a backup achieves: the executor of an open backup is there, and the local
   * volume of a successful one is gone once its executor was told to stop. A failed backup keeps its volume.
   */
  predicate BackupProgress(s: Slice, t: Slice)
    requires s.stored.Live?
  {
    var st := s.stored.lv.status;
    if !OperationComplete(st) then
      if IsDecided(st.conditions, BackupExecutorEnsured) then t == s else OperationProgress(s, t, Backup)
    else if PhaseIs(st, Succeeded) && !IsDecided(st.conditions, LvmSnapshotCleaned) then
      && t.volume.None? && t.stored.Live?
      && IsDecided(t.stored.lv.status.conditions, BackupExecutorCleaned) && IsDecided(t.stored.lv.status.conditions, LvmSnapshotCleaned)
      && (Backup in t.pods && !IsDecided(st.conditions, BackupExecutorCleaned) ==> t.pods[Backup].terminating)
    else t.volume == s.volume
  }

  /** What one fault-free reconcile of a restore achieves; a restore waits for its persistent volume. */
  predicate RestoreProgress(s: Slice, t: Slice)
    requires s.stored.Live?
  {
    var st := s.stored.lv.status;
    if OperationComplete(st) then
      && t.volume == s.volume && t.stored.Live? && IsDecided(t.stored.lv.status.conditions, RestoreExecutorCleaned)
      && (!IsDecided(st.conditions, RestoreExecutorCleaned) ==> Halted(t, Restore))
    else if IsDecided(st.conditions, RestoreExecutorEnsured) || !s.role.claim then t == s
    else OperationProgress(s, t, Restore)
  }

  /** Writing a condition decides its own type and no other. */
  lemma WriteDecides(st: Status, c: Condition, kind: Kind)
    requires c.status != IsUnknown
    ensures IsDecided(WithCondition(st, c).conditions, kind) <==> kind == c.kind || IsDecided(st.conditions, kind)
  {
    SetStatusConditionAt(st.conditions, c, kind);
  }

  /** A restore that does not end the reconcile: it is over or on its way, or it came to an end just now. */
  predicate GoesOn(s: Slice)
    requires s.stored.Live?
  {
    var st := s.stored.lv.status;
    || OperationComplete(st) || IsDecided(st.conditions, RestoreExecutorEnsured)
    || (s.role.claim && (s.volume.Some? || !s.role.storage))
  }

  predicate Restores(s: Slice) {
    s.stored.Live? && s.stored.lv.source != "" && s.role.restore
  }

  predicate BacksUp(s: Slice) {
    s.stored.Live? && s.stored.lv.source != "" && s.role.backup
  }

  /** A bound object has first its restore and then its backup driven on; `restored` is the state in between. */
  predicate Driven(s: Slice, restored: Slice, t: Slice)
    requires s.stored.Live?
  {
    && (if Restores(s) then RestoreProgress(s, restored) else restored == s)
    && (if restored.stored.Live? && BacksUp(s) && (Restores(s) ==> GoesOn(s)) then BackupProgress(restored, t) else t == restored)
  }

  /** The size on record is missing or too small. */
  predicate ExpansionIsDue(lv: LogicalVolume) {
    lv.status.currentSize.None? || lv.status.currentSize.value < lv.size
  }

  function Resized(st: Status, size: nat): Status {
    st.(currentSize := Some(size), code := OK, message := "")
  }

  function NotResized(st: Status, code: Code): Status {
    st.(code := code, message := "volume not resized")
  }

  lemma ResizeWritesAreAllowed(s: Slice, size: nat, code: Code)
    requires s.stored.Live? && s.stored.lv.status.volumeId != ""
    ensures s.volume == Some(size) ==> StatusRule(s, Resized(s.stored.lv.status, size))
    ensures StatusRule(s, NotResized(s.stored.lv.status, code))
  {
  }

  lemma ResizeWritesAre(s: Slice, t: Slice, code: Code)
    requires s.stored.Live? && t == s.(volume := t.volume)
    ensures t.volume.Some? && s.stored.lv.size <= t.volume.value ==> Expanded(s, WithStatus(t, Resized(s.stored.lv.status, t.volume.value)))
    ensures t == s && code != OK ==> Unexpanded(s, WithStatus(t, NotResized(s.stored.lv.status, code)))
  {
  }

  /** The volume has grown, and its size is on record. */
  predicate Expanded(s: Slice, t: Slice)
    requires s.stored.Live?
  {
    && t.volume.Some? && s.stored.lv.size <= t.volume.value
    && t == WithStatus(s.(volume := t.volume), Resized(s.stored.lv.status, t.volume.value))
  }

  /** lvmd refused to grow the volume, and its code is on record. */
  predicate Unexpanded(s: Slice, t: Slice)
    requires s.stored.Live?
  {
    && t.stored.Live? && t.stored.lv.status.code != OK
    && t == WithStatus(s, NotResized(s.stored.lv.status, t.stored.lv.status.code))
  }

  /** A volume that is there is adopted, a new one is bound with its size, and a refusal leaves a status behind. */
  predicate CreationOutcome(lv: LogicalVolume, restore: bool, s: Slice, t: Slice)
    requires s.stored.Live?
  {
    var bound := lv.status.(volumeId := s.uid, code := OK, message := "");
    if s.volume.Some? then t == WithStatus(s, bound)
    else if t.volume.Some? then
      lv.size <= t.volume.value && t == WithStatus(s.(volume := t.volume), bound.(currentSize := t.volume))
    else RefusalOutcome(lv, restore, s, t)
  }

  /**
   * What one fault-free reconcile of a live object achieves whatever its source: a missing finalizer or label is
   * added; an unbound object is bound, refused, or left alone with its code; the volume of a bound one is expanded
   * where that is due, and then its restore and its backup are driven on.
   */
  predicate SourceProgress(s: Slice, expanded: Slice, restored: Slice, t: Slice)
    requires s.stored.Live?
  {
    var lv := s.stored.lv;
    if Rank(lv) >= 3 then Progress(s, t)
    else if Rank(lv) == 2 then
      if lv.status.code != OK then t == s else CreationOutcome(lv, Restores(s), s, t)
    else if Rank(lv) == 1 then
      (Expanded(s, expanded) && Driven(expanded, restored, t)) || (Unexpanded(s, expanded) && t == expanded)
    else Driven(s, restored, t)
  }

  lemma AdoptionIsProgress(lv: LogicalVolume, s: Slice, t: Slice)
    requires s.stored == Live(lv) && Rank(lv) == 2 && lv.source == "" && s.uid != ""
    requires s.volume.Some? || t.volume.Some?
    requires CreationOutcome(lv, false, s, t)
    ensures Progress(s, t)
  {
  }

  lemma RefusalIsProgress(lv: LogicalVolume, s: Slice, t: Slice)
    requires s.stored == Live(lv) && lv.source == "" && RefusalOutcome(lv, false, s, t)
    ensures Progress(s, t)
  {
  }

  lemma ExpansionIsProgress(s: Slice, t: Slice)
    requires s.stored.Live? && Rank(s.stored.lv) == 1 && (Expanded(s, t) || Unexpanded(s, t))
    ensures Progress(s, t)
  {
  }

  /** For an object without a source that is progress towards its settled form. */
  lemma SourcelessProgress(s: Slice, expanded: Slice, restored: Slice, t: Slice)
    requires s.stored.Live? && s.uid != "" && s.stored.lv.source == "" && SourceProgress(s, expanded, restored, t)
    ensures Progress(s, t)
  {
    var lv := s.stored.lv;
    if Rank(lv) == 2 && lv.status.code == OK {
      if s.volume.Some? || t.volume.Some? {
        AdoptionIsProgress(lv, s, t);
      } else {
        RefusalIsProgress(lv, s, t);
      }
    } else if Rank(lv) == 1 {
      ExpansionIsProgress(s, expanded);
    }
  }

  /** The volume of an object in deletion with an operation in flight goes only after the operation was stopped. */
  predicate StoppedBeforeRemoval(s: Slice, t: Slice) {
    s.stored.Live? && s.stored.lv.deleting && !HasSnapshot(s.stored.lv.status) && InFlight(s).Some? && t.volume != s.volume ==>
      InFlight(s).value !in s.pods && Stopped(t, InFlight(s).value)
  }

  /** A settled object describes its volume, exactly so unless the requested size was once lowered. */
  lemma SettledIsRight(uid: string, log: seq<Event>, i: nat)
    requires Run(uid, log) && i <= |log|
    requires At(uid, log, i).stored.Live?
    requires var lv := At(uid, log, i).stored.lv; Rank(lv) == 0 && !lv.deleting && lv.source == ""
    ensures var s := At(uid, log, i);
      && s.stored.lv.status.volumeId == uid
      && s.volume.Some? && s.stored.lv.status.currentSize.Some?
      && s.stored.lv.size <= s.stored.lv.status.currentSize.value <= s.volume.value
      && (!s.lowered ==> s.stored.lv.status.currentSize == s.volume)
  {
    RunKeepsInv(uid, log, i);
  }

  /** The same state with another status on record; the phase has not become Succeeded. */
  function Stored(s: Slice, st: Status): Slice
    requires s.stored.Live?
  {
    s.(stored := Live(s.stored.lv.(status := st)))
  }

  lemma StoredIs(s: Slice, st: Status)
    requires s.stored.Live? && !PhaseIs(st, Succeeded)
    ensures WithStatus(s, st) == Stored(s, st)
  {
  }

  lemma StoredTwice(s: Slice, first: Status, second: Status)
    requires s.stored.Live?
    ensures Stored(Stored(s, first), second) == Stored(s, second)
  {
  }

  lemma WriteKeepsHalted(s: Slice, st: Status, op: Operation)
    requires s.stored.Live?
    ensures Halted(WithStatus(s, st), op) <==> Halted(s, op)
    ensures WithStatus(s, st).role == s.role && WithStatus(s, st).volume == s.volume
  {
  }

  /** A creation that came to nothing leaves a code; what is wrong with the source of a snapshot leaves none. */
  predicate RefusalOutcome(lv: LogicalVolume, restore: bool, s: Slice, t: Slice)
    requires s.stored.Live?
  {
    t.stored.Live? &&
    var st := t.stored.lv.status;
    && t == WithStatus(s, st)
    && st == lv.status.(code := st.code, message := st.message)
    && (st.code != OK || (lv.source != "" && !restore && st == lv.status))
  }

  lemma RefusalIs(lv: LogicalVolume, restore: bool, s: Slice, code: Code, message: string)
    requires s.stored == Live(lv)
    requires code != OK || (lv.source != "" && !restore && code == lv.status.code && message == lv.status.message)
    ensures RefusalOutcome(lv, restore, s, WithStatus(s, lv.status.(code := code, message := message)))
  {
  }

  function Cleaned(op: Operation): Kind {
    if op == Backup then BackupExecutorCleaned else RestoreExecutorCleaned
  }

  function Outcome(kind: Kind, holds: bool, reason: string): Condition {
    Condition(kind, if holds then IsTrue else IsFalse, reason, "")
  }

  lemma ConditionWriteIsAllowed(s: Slice, c: Condition)
    requires Inv(s) && s.stored.Live? && c.kind != DeleteEnsured
    ensures StatusRule(s, WithCondition(s.stored.lv.status, c))
  {
    WithConditionKeeps(s.stored.lv.status, c);
  }

  function WithPhase(st: Status, op: Operation, phase: Phase): Status {
    var snapshot := if st.snapshot.None? then EMPTY_SNAPSHOT else st.snapshot.value;
    st.(snapshot := Some(snapshot.(operation := Some(op), phase := phase)))
  }

  /** An operation without a phase becomes Pending, and one that has a phase keeps it. */
  function Initialized(st: Status, op: Operation): Status {
    if st.snapshot.None? || st.snapshot.value.phase == NoPhase then WithPhase(st, op, Pending) else st
  }

  function Ensured(op: Operation): Kind {
    if op == Backup then BackupExecutorEnsured else RestoreExecutorEnsured
  }

  /** The record of an operation whose storage was not found. */
  function WithoutStorage(st: Status, op: Operation): Status {
    WithCondition(StorageNotFound(WithPhase(st, op, Failed)), Outcome(Ensured(op), false, "FailedToEnsureExecutor"))
  }

  function StorageFound(st: Status): Status {
    WithCondition(st, Outcome(BackupStorageFound, true, "SnapshotBackupStorageFound"))
  }

  /** The record of an operation that found no volume to mount. */
  function WithoutVolume(st: Status, op: Operation): Status {
    WithCondition(WithPhase(st, op, Failed), Outcome(Ensured(op), false, "SnapshotExecutor"))
  }

  function StorageNotFound(st: Status): Status {
    WithCondition(st, Outcome(BackupStorageFound, false, "SnapshotBackupStorageNotFound"))
  }

  lemma PhaseWriteIsAllowed(s: Slice, op: Operation, phase: Phase)
    requires Inv(s) && s.stored.Live? && !PhaseIs(s.stored.lv.status, Succeeded) && phase != Succeeded
    ensures StatusRule(s, WithPhase(s.stored.lv.status, op, phase))
  {
  }

  class LogicalVolumeReconciler {
    const cluster: Cluster

    constructor (cluster: Cluster)
      ensures this.cluster == cluster
    {
      this.cluster := cluster;
    }

    ghost predicate Holds(lv: LogicalVolume)
      reads cluster
    {
      cluster.Valid() && cluster.slice.stored == Live(lv) && lv.finalizer
    }

    /** A live object whose snapshot operation may be driven forward. */
    ghost predicate HoldsLive(lv: LogicalVolume)
      reads cluster
    {
      Holds(lv) && !lv.deleting && lv.source != "" && lv.status.volumeId != ""
    }

    /**
     * A fault-free reconcile of an object without a source comes closer to the settled form, and any
     * fault-free deletion comes to its end unless it has to wait for an executor. An expansion that is due is
     * tried in every reconcile, a creation only while no code is on record.
     */
    method Reconcile() returns (ghost expanded: Slice, ghost restored: Slice)
      requires cluster.Valid()
      modifies cluster, cluster.requests
      ensures cluster.Valid()
      ensures Touches(old(cluster.slice)) && !cluster.faulted && !old(cluster.slice).stored.lv.deleting &&
              old(cluster.slice).stored.lv.source == "" ==>
        Progress(old(cluster.slice), cluster.slice)
      ensures Touches(old(cluster.slice)) && !cluster.faulted && old(cluster.slice).stored.lv.deleting ==>
        DeletionProgress(old(cluster.slice), cluster.slice)
      ensures Touches(old(cluster.slice)) && !cluster.faulted && !old(cluster.slice).stored.lv.deleting ==>
        SourceProgress(old(cluster.slice), expanded, restored, cluster.slice)
      ensures Touches(old(cluster.slice)) && !cluster.faulted && !old(cluster.slice).stored.lv.deleting ==>
        Tried(old(cluster.slice), cluster.requests.count - old(cluster.requests.count))
      ensures StoppedBeforeRemoval(old(cluster.slice), cluster.slice)
      ensures !Touches(old(cluster.slice)) ==> cluster.slice == old(cluster.slice)
    {
      expanded, restored := cluster.slice, cluster.slice;
      var ok, found := cluster.Get();
      if !ok || found.None? || found.value.pendingDeletion {
        return;
      }
      if found.value.deleting {
        HandleDeletion(found.value);
      } else {
        expanded, restored := ReconcileLive(found.value);
      }
    }

    // -------------------------------------------------------------- a live object

    method ReconcileLive(lv: LogicalVolume) returns (ghost expanded: Slice, ghost restored: Slice)
      requires cluster.Valid() && cluster.slice.stored == Live(lv) && !lv.deleting && !lv.pendingDeletion
      modifies cluster, cluster.requests
      ensures cluster.Valid()
      ensures lv.source == "" && !cluster.faulted ==> Progress(old(cluster.slice), cluster.slice)
      ensures !cluster.faulted ==> SourceProgress(old(cluster.slice), expanded, restored, cluster.slice)
      ensures !cluster.faulted ==> Tried(old(cluster.slice), cluster.requests.count - old(cluster.requests.count))
    {
      assert cluster.slice.uid != "" by { cluster.Facts(); }
      expanded, restored := Advance(lv);
      if lv.source == "" && !cluster.faulted {
        SourcelessProgress(old(cluster.slice), expanded, restored, cluster.slice);
      }
    }

    method Advance(lv: LogicalVolume) returns (ghost expanded: Slice, ghost restored: Slice)
      requires cluster.Valid() && cluster.slice.stored == Live(lv) && !lv.deleting && !lv.pendingDeletion
      modifies cluster, cluster.requests
      ensures cluster.Valid()
      ensures !cluster.faulted ==> SourceProgress(old(cluster.slice), expanded, restored, cluster.slice)
      ensures !cluster.faulted ==> Tried(old(cluster.slice), cluster.requests.count - old(cluster.requests.count))
    {
      expanded, restored := cluster.slice, cluster.slice;
      var r := EnsureFinalizerAndLabels(lv);
      if !r.Fine? {
        return;
      }
      var ok, shouldRestore := SnapshotContextForRestore(lv);
      if !ok {
        return;
      }
      if lv.status.volumeId == "" {
        CreateLV(lv, shouldRestore);
        return;
      }
      var r1, lv1 := ExpandLV(lv);
      expanded, restored := cluster.slice, cluster.slice;
      if !r1.Fine? {
        return;
      }
      restored := Drive(lv1, shouldRestore);
    }

    /** The snapshot operations of a bound object: its restore, and its backup unless the restore has to wait. */
    method Drive(lv: LogicalVolume, shouldRestore: bool) returns (ghost restored: Slice)
      requires Holds(lv) && !lv.deleting && lv.status.volumeId != "" && shouldRestore == Restores(cluster.slice)
      modifies cluster
      ensures cluster.Valid()
      ensures !cluster.faulted ==> !old(cluster.faulted)
      ensures !cluster.faulted ==> Driven(old(cluster.slice), restored, cluster.slice)
    {
      restored := cluster.slice;
      var lv1 := lv;
      if shouldRestore {
        var r;
        r, lv1 := ReconcileSnapshotRestore(lv);
        restored := cluster.slice;
        if !r.Fine? {
          return;
        }
      }
      var ok, shouldBackup := SnapshotContextForBackup(lv1);
      if ok && shouldBackup {
        ReconcileSnapshotBackup(lv1);
      }
    }

    /** How often lvmd is asked in a fault-free reconcile. */
    ghost predicate Tried(s: Slice, times: int)
      requires s.stored.Live?
    {
      var lv := s.stored.lv;
      if Rank(lv) == 1 then times == 1
      else if Rank(lv) == 2 && lv.status.code == OK && s.volume.None? then times <= 1 && (lv.source == "" || Restores(s) ==> times == 1)
      else times == 0
    }

    method EnsureFinalizerAndLabels(lv: LogicalVolume) returns (r: Result)
      requires cluster.Valid() && cluster.slice.stored == Live(lv) && !lv.deleting && !lv.pendingDeletion
      modifies cluster
      ensures cluster.Valid()
      ensures r.Fine? <==> lv.finalizer && lv.labeled
      ensures r.Fine? ==> cluster.slice == old(cluster.slice)
      ensures !cluster.faulted ==> !old(cluster.faulted)
      ensures !r.Fine? && !cluster.faulted ==> Progress(old(cluster.slice), cluster.slice)
    {
      if !lv.finalizer {
        var ok := cluster.Do(AddFinalizer);
        return if ok then Requeue else Error;
      }
      if !lv.labeled {
        var ok := cluster.Do(AddLabel);
        return if ok then Requeue else Error;
      }
      return Fine;
    }

    /** Whether the source is an online snapshot to restore from: looked up only for objects with a source. */
    method SnapshotContextForRestore(lv: LogicalVolume) returns (ok: bool, shouldRestore: bool)
      requires cluster.Valid()
      modifies cluster
      ensures cluster.Valid() && cluster.slice == old(cluster.slice)
      ensures ok ==> shouldRestore == (lv.source != "" && cluster.slice.role.restore)
      ensures !cluster.faulted ==> ok && !old(cluster.faulted)
    {
      if lv.source == "" {
        return true, false;
      }
      ok := cluster.Reach();
      shouldRestore := cluster.slice.role.restore;
    }

    /** Whether the object is itself an online snapshot to back up: likewise. */
    method SnapshotContextForBackup(lv: LogicalVolume) returns (ok: bool, shouldBackup: bool)
      requires cluster.Valid()
      modifies cluster
      ensures cluster.Valid() && cluster.slice == old(cluster.slice)
      ensures ok ==> shouldBackup == (lv.source != "" && cluster.slice.role.backup)
      ensures !cluster.faulted ==> ok && !old(cluster.faulted)
    {
      if lv.source == "" {
        return true, false;
      }
      ok := cluster.Reach();
      shouldBackup := cluster.slice.role.backup;
    }

    method Refuse(lv: LogicalVolume, restore: bool, code: Code, message: string)
      requires Holds(lv) && !lv.deleting
      requires code != OK || (lv.source != "" && !restore && code == lv.status.code && message == lv.status.message)
      modifies cluster
      ensures cluster.Valid()
      ensures !cluster.faulted ==> !old(cluster.faulted) && RefusalOutcome(lv, restore, old(cluster.slice), cluster.slice)
    {
      cluster.Facts();
      RefusalIs(lv, restore, cluster.slice, code, message);
      var _ := cluster.PutStatus(lv.status.(code := code, message := message));
    }

    /** Asks lvmd for the volume, empty or as a snapshot; a refusal is recorded in the status. */
    method MakeVolume(lv: LogicalVolume, restore: bool) returns (size: Option<nat>)
      requires Holds(lv) && !lv.deleting && lv.status.volumeId == "" && lv.status.code == OK && cluster.slice.volume.None?
      modifies cluster, cluster.requests
      ensures cluster.Valid()
      ensures cluster.requests.count <= old(cluster.requests.count) + 1
      ensures lv.source == "" || restore || size.Some? ==> cluster.requests.count == old(cluster.requests.count) + 1
      ensures cluster.requests.count >= old(cluster.requests.count)
      ensures !cluster.faulted ==> !old(cluster.faulted)
      ensures size.Some? ==> lv.size <= size.value && cluster.slice == old(cluster.slice).(volume := size)
      ensures size.None? && !cluster.faulted ==> RefusalOutcome(lv, restore, old(cluster.slice), cluster.slice)
    {
      if lv.source != "" && !restore {
        var sourceSize: nat :| 0 <= sourceSize;
        var ok := cluster.Reach();
        if (lv.accessType != "ro" && lv.accessType != "rw") || !ok || lv.size < sourceSize {
          Refuse(lv, restore, lv.status.code, lv.status.message);
          return None;
        }
      }
      var created := cluster.CreateLV(lv.size);
      if created.Failure? {
        Refuse(lv, restore, created.error, "volume not created");
        return None;
      }
      return Some(created.value);
    }

    method CreateLV(lv: LogicalVolume, restore: bool)
      requires Holds(lv) && !lv.deleting && lv.status.volumeId == ""
      modifies cluster, cluster.requests
      ensures cluster.Valid()
      ensures old(cluster.requests.count) <= cluster.requests.count <= old(cluster.requests.count) + 1
      ensures lv.status.code != OK || old(cluster.slice).volume.Some? ==> cluster.requests.count == old(cluster.requests.count)
      ensures !cluster.faulted && lv.status.code == OK && old(cluster.slice).volume.None? && (lv.source == "" || restore) ==>
        cluster.requests.count == old(cluster.requests.count) + 1
      ensures lv.status.code != OK ==> cluster.slice == old(cluster.slice)
      ensures !cluster.faulted && lv.status.code == OK ==> CreationOutcome(lv, restore, old(cluster.slice), cluster.slice)
    {
      if lv.status.code != OK {
        return;
      }
      assert cluster.slice.uid == cluster.uid && lv.status.currentSize.None? by { cluster.Facts(); }
      var st := lv.status;
      var ok := cluster.Reach();
      if !ok {
        var _ := cluster.PutStatus(st.(code := INTERNAL, message := "failed to check volume existence"));
        return;
      }
      if cluster.slice.volume.Some? {
        // A crash came between the creation of the volume and this status; its size is not trusted.
        st := st.(volumeId := cluster.uid, code := OK, message := "");
      } else {
        var size := MakeVolume(lv, restore);
        if size.None? {
          return;
        }
        st := st.(volumeId := cluster.uid, currentSize := size, code := OK, message := "");
      }
      var _, _ := UpdateLVStatus(lv, st);
    }

    method ExpandLV(lv: LogicalVolume) returns (r: Result, lv': LogicalVolume)
      requires Holds(lv) && !lv.deleting && lv.status.volumeId != ""
      modifies cluster, cluster.requests
      ensures cluster.Valid()
      ensures cluster.requests.count == old(cluster.requests.count) + if ExpansionIsDue(lv) then 1 else 0
      ensures ExpansionIsDue(lv) && !cluster.faulted ==>
        if r.Fine? then Expanded(old(cluster.slice), cluster.slice) else Unexpanded(old(cluster.slice), cluster.slice)
      ensures r.Fine? ==> Holds(lv') && lv' == lv.(status := lv'.status) && lv'.status.volumeId == lv.status.volumeId
      ensures cluster.slice.role == old(cluster.slice).role
      ensures !cluster.faulted ==> !old(cluster.faulted)
      ensures !ExpansionIsDue(lv) ==> r.Fine? && lv' == lv && cluster.slice == old(cluster.slice)
    {
      if lv.status.currentSize.Some? && lv.size <= lv.status.currentSize.value {
        return Fine, lv;
      }
      r, lv' := Resize(lv);
    }

    /** An expansion that is due is asked for, whatever code is on record from before. */
    method Resize(lv: LogicalVolume) returns (r: Result, lv': LogicalVolume)
      requires Holds(lv) && !lv.deleting && lv.status.volumeId != ""
      modifies cluster, cluster.requests
      ensures cluster.Valid() && cluster.requests.count == old(cluster.requests.count) + 1
      ensures !cluster.faulted ==> !old(cluster.faulted)
      ensures !cluster.faulted ==>
        if r.Fine? then Expanded(old(cluster.slice), cluster.slice) else Unexpanded(old(cluster.slice), cluster.slice)
      ensures r.Fine? ==> Holds(lv') && lv' == lv.(status := lv'.status) && lv'.status.volumeId == lv.status.volumeId
      ensures cluster.slice.role == old(cluster.slice).role
    {
      var resized := cluster.ResizeLV(lv.size);
      ghost var s := old(cluster.slice);
      if resized.Failure? {
        ResizeWritesAre(s, cluster.slice, resized.error);
        RecordRefusal(lv, resized.error);
        return Error, lv;
      }
      ResizeWritesAre(s, cluster.slice, OK);
      r, lv' := RecordSize(lv, resized.value);
    }

    method RecordRefusal(lv: LogicalVolume, code: Code)
      requires Holds(lv) && lv.status.volumeId != ""
      modifies cluster
      ensures cluster.Valid() && cluster.slice.role == old(cluster.slice).role
      ensures !cluster.faulted ==> !old(cluster.faulted) && cluster.slice == WithStatus(old(cluster.slice), NotResized(lv.status, code))
    {
      ResizeWritesAreAllowed(cluster.slice, 0, code);
      var _, _ := UpdateLVStatus(lv, NotResized(lv.status, code));
    }

    method RecordSize(lv: LogicalVolume, size: nat) returns (r: Result, lv': LogicalVolume)
      requires Holds(lv) && lv.status.volumeId != "" && cluster.slice.volume == Some(size)
      modifies cluster
      ensures cluster.Valid() && cluster.slice.role == old(cluster.slice).role
      ensures r.Fine? ==> Holds(lv') && lv' == lv.(status := Resized(lv.status, size))
      ensures r.Fine? ==> cluster.slice == WithStatus(old(cluster.slice), Resized(lv.status, size))
      ensures !cluster.faulted ==> r.Fine? && !old(cluster.faulted)
    {
      ResizeWritesAreAllowed(cluster.slice, size, OK);
      var ok, updated := UpdateLVStatus(lv, Resized(lv.status, size));
      return if ok then Fine else Error, updated;
    }

    // -------------------------------------------------------------- status writes

    /** Overwrites the whole status with the caller's copy of it. */
    method UpdateLVStatus(lv: LogicalVolume, st: Status) returns (ok: bool, lv': LogicalVolume)
      requires Holds(lv) && StatusRule(cluster.slice, st)
      modifies cluster
      ensures cluster.Valid()
      ensures cluster.slice == old(cluster.slice) || cluster.slice == WithStatus(old(cluster.slice), st)
      ensures ok ==> cluster.slice == WithStatus(old(cluster.slice), st) && lv' == lv.(status := st)
      ensures !cluster.faulted ==> ok && !old(cluster.faulted)
    {
      ok := cluster.Reach();
      if ok {
        ok := cluster.PutStatus(st);
      }
      lv' := if ok then lv.(status := st) else lv;
    }

    /** Re-reads the object and sets one condition on what is stored. */
    method UpdateLVStatusCondition(lv: LogicalVolume, kind: Kind, holds: bool, reason: string) returns (ok: bool, lv': LogicalVolume)
      requires cluster.Valid() && cluster.slice.stored.Live? && cluster.slice.stored.lv.finalizer
      requires kind != DeleteEnsured
      modifies cluster
      ensures cluster.Valid()
      ensures cluster.faults == old(cluster.faults) + if ok then 0 else 1
      ensures var st := WithCondition(old(cluster.slice).stored.lv.status, Outcome(kind, holds, reason));
        && (cluster.slice == old(cluster.slice) || cluster.slice == WithStatus(old(cluster.slice), st))
        && (ok ==> cluster.slice == WithStatus(old(cluster.slice), st) && cluster.slice.stored == Live(lv'))
      ensures !cluster.faulted ==> ok && !old(cluster.faulted)
    {
      var found;
      ok, found := cluster.Get();
      if !ok {
        return false, lv;
      }
      var c := Outcome(kind, holds, reason);
      var st := WithCondition(found.value.status, c);
      assert StatusRule(cluster.slice, st) by {
        cluster.Facts();
        ConditionWriteIsAllowed(cluster.slice, c);
      }
      ok := cluster.PutStatus(st);
      lv' := if ok then found.value.(status := st) else lv;
    }

    /** Re-reads the object and moves its snapshot operation to a phase the controller may set. */
    method UpdateSnapshotOperationStatus(lv: LogicalVolume, op: Operation, phase: Phase) returns (ok: bool, lv': LogicalVolume)
      requires cluster.Valid() && cluster.slice.stored.Live? && cluster.slice.stored.lv.finalizer
      requires !PhaseIs(cluster.slice.stored.lv.status, Succeeded) && phase in {Pending, Failed}
      modifies cluster
      ensures cluster.Valid()
      ensures var st := WithPhase(old(cluster.slice).stored.lv.status, op, phase);
        && (cluster.slice == old(cluster.slice) || cluster.slice == WithStatus(old(cluster.slice), st))
        && (ok ==> cluster.slice == WithStatus(old(cluster.slice), st) && cluster.slice.stored == Live(lv'))
      ensures !cluster.faulted ==> ok && !old(cluster.faulted)
    {
      var found;
      ok, found := cluster.Get();
      if !ok {
        return false, lv;
      }
      var st := WithPhase(found.value.status, op, phase);
      assert StatusRule(cluster.slice, st) by {
        cluster.Facts();
        PhaseWriteIsAllowed(cluster.slice, op, phase);
      }
      ok := cluster.PutStatus(st);
      lv' := if ok then found.value.(status := st) else lv;
    }

    // -------------------------------------------------------------- backup and restore

    method ReconcileSnapshotRestore(lv: LogicalVolume) returns (r: Result, lv': LogicalVolume)
      requires HoldsLive(lv)
      modifies cluster
      ensures cluster.Valid()
      ensures r.Fine? ==> HoldsLive(lv')
      ensures !cluster.faulted ==> !old(cluster.faulted)
      ensures !cluster.faulted ==> RestoreProgress(old(cluster.slice), cluster.slice) && (r.Fine? <==> GoesOn(old(cluster.slice)))
      ensures r.Fine? ==> cluster.slice.role == old(cluster.slice).role
    {
      if OperationComplete(lv.status) {
        if !IsDecided(lv.status.conditions, RestoreExecutorCleaned) {
          ghost var stopped;
          r, lv', stopped := ExecuteCleanerOperation(lv, Restore);
          return;
        }
        return Fine, lv;
      }
      if IsDecided(lv.status.conditions, RestoreExecutorEnsured) {
        return Fine, lv;
      }
      var ok := cluster.Reach();
      if !ok {
        return Error, lv;
      }
      if !cluster.slice.role.claim {
        return Requeue, lv;
      }
      r, lv' := RunOperation(lv, Restore);
    }

    method ReconcileSnapshotBackup(lv: LogicalVolume)
      requires HoldsLive(lv)
      modifies cluster
      ensures cluster.Valid()
      ensures !cluster.faulted ==> !old(cluster.faulted)
      ensures !cluster.faulted ==> BackupProgress(old(cluster.slice), cluster.slice)
    {
      if OperationComplete(lv.status) {
        FinishBackup(lv);
        return;
      }
      if IsDecided(lv.status.conditions, BackupExecutorEnsured) {
        return;
      }
      var _, _ := RunOperation(lv, Backup);
    }

    /** A backup that is over: its executor is stopped and, if it succeeded, its volume removed. */
    method FinishBackup(lv: LogicalVolume)
      requires HoldsLive(lv) && OperationComplete(lv.status)
      modifies cluster
      ensures cluster.Valid()
      ensures !cluster.faulted ==> !old(cluster.faulted)
      ensures !cluster.faulted ==> BackupProgress(old(cluster.slice), cluster.slice)
    {
      var lv1 := lv;
      if !IsDecided(lv.status.conditions, BackupExecutorCleaned) {
        var r: Result;
        ghost var stopped;
        r, lv1, stopped := ExecuteCleanerOperation(lv, Backup);
        if !r.Fine? {
          return;
        }
      }
      if !IsDecided(lv1.status.conditions, LvmSnapshotCleaned) &&
         IsDecided(lv1.status.conditions, BackupExecutorCleaned) &&
         PhaseIs(lv1.status, Succeeded) {
        CleanupLVMSnapshotAfterBackup(lv1);
        return;
      }
      if IsDecided(lv1.status.conditions, LvmSnapshotCleaned) && lv1.status.message != REMOVED_MESSAGE {
        var _, _ := UpdateLVStatus(lv1, lv1.status.(message := REMOVED_MESSAGE)) by { cluster.Facts(); }
      }
    }

    /** backupSnapshot and restoreFromSnapshot: record the operation, find the storage, mount, start the executor. */
    method RunOperation(lv: LogicalVolume, op: Operation) returns (r: Result, lv': LogicalVolume)
      requires HoldsLive(lv) && !OperationComplete(lv.status) && op != Delete
      modifies cluster
      ensures cluster.Valid()
      ensures r.Fine? ==> HoldsLive(lv')
      ensures !cluster.faulted ==> !old(cluster.faulted)
      ensures !cluster.faulted ==> OperationProgress(old(cluster.slice), cluster.slice, op)
      ensures !cluster.faulted ==> (r.Fine? <==> old(cluster.slice).volume.Some? || !old(cluster.slice).role.storage || op == Backup)
      ensures r.Fine? ==> cluster.slice.role == old(cluster.slice).role
    {
      var ok;
      ok, lv' := InitializeSnapshotStatus(lv, op);
      if !ok {
        return Error, lv';
      }
      r, lv' := Proceed(lv', op);
    }

    /** The operation is on record: it starts, or fails for lack of storage. */
    method Proceed(lv: LogicalVolume, op: Operation) returns (r: Result, lv': LogicalVolume)
      requires HoldsLive(lv) && op != Delete && Startable(lv.status)
      modifies cluster
      ensures cluster.Valid()
      ensures r.Fine? ==> HoldsLive(lv') && cluster.slice.role == old(cluster.slice).role
      ensures !cluster.faulted ==> !old(cluster.faulted)
      ensures !cluster.faulted ==> StartProgress(old(cluster.slice), cluster.slice, op)
      ensures !cluster.faulted ==> (r.Fine? <==> old(cluster.slice).volume.Some? || !old(cluster.slice).role.storage || op == Backup)
    {
      var reached := cluster.Reach();
      if reached && cluster.slice.role.storage {
        r, lv' := StartWithStorage(lv, op);
      } else {
        r, lv' := HandleSnapshotStorageNotFound(lv, op);
      }
    }

    method StartWithStorage(lv: LogicalVolume, op: Operation) returns (r: Result, lv': LogicalVolume)
      requires HoldsLive(lv) && op != Delete && Startable(lv.status)
      modifies cluster
      ensures cluster.Valid()
      ensures r.Fine? ==> HoldsLive(lv') && cluster.slice.role == old(cluster.slice).role
      ensures !cluster.faulted ==> !old(cluster.faulted) && (r.Fine? <==> old(cluster.slice).volume.Some? || op == Backup)
      ensures !cluster.faulted && old(cluster.slice).volume.Some? ==> op in cluster.slice.pods && cluster.slice.mounted
      ensures !cluster.faulted && old(cluster.slice).volume.None? ==>
        cluster.slice == Stored(old(cluster.slice), WithoutVolume(StorageFound(lv.status), op))
    {
      ghost var s := cluster.slice;
      StoredIs(s, StorageFound(lv.status));
      StoredTwice(s, StorageFound(lv.status), WithoutVolume(StorageFound(lv.status), op));
      var ok;
      ok, lv' := UpdateLVStatusCondition(lv, BackupStorageFound, true, "SnapshotBackupStorageFound");
      if !ok {
        return Error, lv';
      }
      r, lv' := StartExecutor(lv', op);
    }

    /** An operation that has no phase yet becomes pending. */
    method InitializeSnapshotStatus(lv: LogicalVolume, op: Operation) returns (ok: bool, lv': LogicalVolume)
      requires HoldsLive(lv) && !OperationComplete(lv.status)
      modifies cluster
      ensures cluster.Valid()
      ensures ok ==> HoldsLive(lv') && lv' == lv.(status := Initialized(lv.status, op))
      ensures ok ==> cluster.slice == Stored(old(cluster.slice), Initialized(lv.status, op))
      ensures !cluster.faulted ==> ok && !old(cluster.faulted)
    {
      ok, lv' := true, lv;
      if lv.status.snapshot.None? || lv.status.snapshot.value.phase == NoPhase {
        ok, lv' := UpdateSnapshotOperationStatus(lv, op, Pending);
      }
    }

    /** A failed restore is returned as an error; a failed backup is only recorded. */
    method StartExecutor(lv: LogicalVolume, op: Operation) returns (r: Result, lv': LogicalVolume)
      requires HoldsLive(lv) && op != Delete && Startable(lv.status)
      modifies cluster
      ensures cluster.Valid()
      ensures r.Fine? ==> HoldsLive(lv') && cluster.slice.role == old(cluster.slice).role
      ensures !cluster.faulted ==> !old(cluster.faulted) && (r.Fine? <==> old(cluster.slice).volume.Some? || op == Backup)
      ensures !cluster.faulted && old(cluster.slice).volume.Some? ==> op in cluster.slice.pods && cluster.slice.mounted
      ensures !cluster.faulted && old(cluster.slice).volume.None? ==> cluster.slice == Stored(old(cluster.slice), WithoutVolume(lv.status, op))
    {
      ghost var s, failed := cluster.slice, WithPhase(lv.status, op, Failed);
      StoredIs(Stored(s, failed), WithoutVolume(lv.status, op));
      StoredTwice(s, failed, WithoutVolume(lv.status, op));
      var executed := MountAndExecute(lv, op);
      var ok;
      ok, lv' := UpdateLVStatusCondition(lv, Ensured(op), executed, "SnapshotExecutor");
      return if ok && (executed || op == Backup) then Fine else Error, lv';
    }

    /** An operation on record that is not over. */
    ghost predicate Startable(st: Status) {
      !OperationComplete(st) && st.snapshot.Some? && !PhaseIs(st, NoPhase)
    }

    method MountAndStart(lv: LogicalVolume, op: Operation) returns (executed: bool)
      requires HoldsLive(lv) && op != Delete && Startable(lv.status)
      modifies cluster
      ensures cluster.Valid()
      ensures cluster.slice == old(cluster.slice).(mounted := cluster.slice.mounted, pods := cluster.slice.pods)
      ensures executed ==> op in cluster.slice.pods && cluster.slice.mounted
      ensures !cluster.faulted ==> !old(cluster.faulted) && executed == old(cluster.slice).volume.Some?
      ensures !cluster.faulted && !executed ==> cluster.slice == old(cluster.slice)
    {
      executed := cluster.MountVolume(lv);
      if executed {
        executed := cluster.EnsurePod(op);
      }
    }

    /** Without faults the executor is started exactly if there is a volume to mount, and otherwise the failure is recorded. */
    method MountAndExecute(lv: LogicalVolume, op: Operation) returns (executed: bool)
      requires HoldsLive(lv) && op != Delete && Startable(lv.status)
      modifies cluster
      ensures cluster.Valid() && cluster.slice.stored.Live?
      ensures cluster.slice.stored.lv in [lv, lv.(status := WithPhase(lv.status, op, Failed))]
      ensures cluster.slice.role == old(cluster.slice).role
      ensures !cluster.faulted ==> !old(cluster.faulted) && executed == old(cluster.slice).volume.Some?
      ensures executed ==> op in cluster.slice.pods && cluster.slice.mounted && cluster.slice.stored == Live(lv)
      ensures !cluster.faulted && !executed ==> cluster.slice == Stored(old(cluster.slice), WithPhase(lv.status, op, Failed))
    {
      StoredIs(cluster.slice, WithPhase(lv.status, op, Failed));
      executed := MountAndStart(lv, op);
      if !executed {
        var _, _ := UpdateSnapshotOperationStatus(lv, op, Failed);
      }
    }

    /** The failure of the operation and the missing storage; a failing first write does not stop the second. */
    method RecordStorageNotFound(lv: LogicalVolume, op: Operation) returns (ok: bool, lv': LogicalVolume)
      requires HoldsLive(lv) && !PhaseIs(lv.status, Succeeded)
      modifies cluster
      ensures cluster.Valid()
      ensures ok ==> HoldsLive(lv') && cluster.slice.role == old(cluster.slice).role && !PhaseIs(lv'.status, Succeeded)
      ensures !cluster.faulted ==> ok && !old(cluster.faulted)
      ensures !cluster.faulted ==>
        && lv' == lv.(status := StorageNotFound(WithPhase(lv.status, op, Failed)))
        && cluster.slice == Stored(old(cluster.slice), lv'.status)
    {
      ghost var s, failed := cluster.slice, WithPhase(lv.status, op, Failed);
      StoredIs(s, failed);
      StoredIs(s, StorageNotFound(failed));
      StoredIs(s, StorageNotFound(lv.status));
      StoredIs(Stored(s, failed), StorageNotFound(failed));
      StoredTwice(s, failed, StorageNotFound(failed));
      var _, _ := UpdateSnapshotOperationStatus(lv, op, Failed);
      ok, lv' := UpdateLVStatusCondition(lv, BackupStorageFound, false, "SnapshotBackupStorageNotFound");
    }

    method HandleSnapshotStorageNotFound(lv: LogicalVolume, op: Operation) returns (r: Result, lv': LogicalVolume)
      requires HoldsLive(lv) && !PhaseIs(lv.status, Succeeded)
      modifies cluster
      ensures cluster.Valid()
      ensures r.Fine? ==> HoldsLive(lv') && cluster.slice.role == old(cluster.slice).role
      ensures !cluster.faulted ==> r.Fine? && !old(cluster.faulted)
      ensures !cluster.faulted ==>
        cluster.slice == Stored(old(cluster.slice), WithoutStorage(lv.status, op))
    {
      ghost var s, found := cluster.slice, StorageNotFound(WithPhase(lv.status, op, Failed));
      StoredIs(Stored(s, found), WithoutStorage(lv.status, op));
      StoredTwice(s, found, WithoutStorage(lv.status, op));
      var ok;
      ok, lv' := RecordStorageNotFound(lv, op);
      if !ok {
        return Error, lv';
      }
      ok, lv' := UpdateLVStatusCondition(lv', Ensured(op), false, "FailedToEnsureExecutor");
      return if ok then Fine else Error, lv';
    }

    method StopExecutor(lv: LogicalVolume, op: Operation) returns (ok: bool)
      requires cluster.Valid() && cluster.slice.stored == Live(lv)
      modifies cluster
      ensures cluster.Valid()
      ensures cluster.slice == old(cluster.slice).(mounted := cluster.slice.mounted, pods := cluster.slice.pods)
      ensures ok ==> Halted(cluster.slice, op)
      ensures !cluster.faulted ==> ok && !old(cluster.faulted)
      ensures cluster.faults == old(cluster.faults) + if ok then 0 else 1
    {
      ok := cluster.UnmountVolume(lv);
      if ok {
        ok := cluster.DeletePod(op);
      }
    }

    /** Whether the executor was stopped is recorded as a condition, unless that write fails as well. */
    method ExecuteCleanerOperation(lv: LogicalVolume, op: Operation) returns (r: Result, lv': LogicalVolume, ghost executed: bool)
      requires HoldsLive(lv) && op != Delete && OperationComplete(lv.status)
      modifies cluster
      ensures cluster.Valid()
      ensures cluster.slice.volume == old(cluster.slice).volume
      ensures var cleaned := WithCondition(lv.status, Outcome(Cleaned(op), executed, "SnapshotExecutorCleanup"));
        && cluster.slice.stored in {Live(lv), Live(lv.(status := cleaned))}
        && (r.Fine? ==> executed && cluster.slice.stored == Live(lv.(status := cleaned)))
        && (executed ==> Halted(cluster.slice, op))
      ensures !executed ==> r.Error?
      ensures cluster.faults == old(cluster.faults) + (if executed then 0 else 1) ==>
        cluster.slice.stored == Live(lv.(status := WithCondition(lv.status, Outcome(Cleaned(op), executed, "SnapshotExecutorCleanup"))))
      ensures r.Fine? ==>
        && HoldsLive(lv') && lv'.status.snapshot == lv.status.snapshot
        && IsDecided(lv'.status.conditions, Cleaned(op))
        && (IsDecided(lv'.status.conditions, LvmSnapshotCleaned) <==> IsDecided(lv.status.conditions, LvmSnapshotCleaned))
        && Halted(cluster.slice, op) && cluster.slice.role == old(cluster.slice).role
      ensures !cluster.faulted ==> r.Fine? && !old(cluster.faulted)
    {
      var cleaned := Cleaned(op);
      var stopped := StopExecutor(lv, op);
      executed := stopped;
      var ok;
      ghost var c := Outcome(cleaned, executed, "SnapshotExecutorCleanup");
      WriteDecides(lv.status, c, cleaned);
      WriteDecides(lv.status, c, LvmSnapshotCleaned);
      WriteKeepsHalted(cluster.slice, WithCondition(lv.status, c), op);
      ok, lv' := UpdateLVStatusCondition(lv, cleaned, stopped, "SnapshotExecutorCleanup");
      return if ok && stopped then Fine else Error, lv', executed;
    }

    method CleanupLVMSnapshotAfterBackup(lv: LogicalVolume)
      requires HoldsLive(lv) && PhaseIs(lv.status, Succeeded)
      modifies cluster
      ensures cluster.Valid()
      ensures cluster.slice.pods == old(cluster.slice).pods
      ensures !cluster.faulted ==>
        && cluster.slice.volume.None? && cluster.slice.stored.Live?
        && cluster.slice.stored.lv.status == WithCondition(lv.status, Outcome(LvmSnapshotCleaned, true, "LVMSnapshotCleanup"))
      ensures !cluster.faulted ==> forall kind :: IsDecided(cluster.slice.stored.lv.status.conditions, kind) <==>
        kind == LvmSnapshotCleaned || IsDecided(lv.status.conditions, kind)
      ensures !cluster.faulted ==> !old(cluster.faulted)
    {
      forall kind
        ensures IsDecided(WithCondition(lv.status, Outcome(LvmSnapshotCleaned, true, "LVMSnapshotCleanup")).conditions, kind) <==>
          kind == LvmSnapshotCleaned || IsDecided(lv.status.conditions, kind)
      {
        WriteDecides(lv.status, Outcome(LvmSnapshotCleaned, true, "LVMSnapshotCleanup"), kind);
      }
      var ok := cluster.RemoveLV();
      var _, _ := UpdateLVStatusCondition(lv, LvmSnapshotCleaned, ok, "LVMSnapshotCleanup");
    }

    // -------------------------------------------------------------- deletion

    method HandleDeletion(lv: LogicalVolume)
      requires cluster.Valid() && cluster.slice.stored == Live(lv) && lv.deleting
      modifies cluster
      ensures cluster.Valid()
      ensures !lv.finalizer ==> cluster.slice == old(cluster.slice)
      ensures lv.finalizer && !cluster.faulted ==> DeletionProgress(old(cluster.slice), cluster.slice)
      ensures StoppedBeforeRemoval(old(cluster.slice), cluster.slice)
    {
      if !lv.finalizer {
        return;
      }
      if HasSnapshot(lv.status) {
        DeletionWithSnapshot(lv);
        return;
      }
      var ok, op := SnapshotOperationToCleanUp(lv);
      if !ok {
        return;
      }
      if op.Some? {
        var r := DeleteSnapshotPodAndUnmount(lv, op.value);
        if !r.Fine? {
          return;
        }
      }
      DeletionWithoutSnapshot(lv);
    }

    method DeletionWithSnapshot(lv: LogicalVolume)
      requires Holds(lv) && lv.deleting && HasSnapshot(lv.status)
      modifies cluster
      ensures cluster.Valid()
      ensures !cluster.faulted ==> DeletionProgress(old(cluster.slice), cluster.slice)
      ensures !DeleteSucceeded(lv.status) ==> cluster.slice.stored.Live? && cluster.slice.stored.lv.finalizer
    {
      var lv1 := lv;
      if !IsDecided(lv.status.conditions, DeleteExecutorEnsured) {
        var ok;
        ok, lv1 := ExecuteSnapshotDeleteOperation(lv);
        if !ok {
          return;
        }
      }
      var ok := cluster.RemoveLV();
      if ok && DeleteSucceeded(lv1.status) {
        RemoveFinalizer();
      }
    }

    method StartDeleter(lv: LogicalVolume) returns (ok: bool)
      requires Holds(lv) && lv.deleting && HasSnapshot(lv.status)
      modifies cluster
      ensures cluster.Valid()
      ensures cluster.slice == old(cluster.slice).(mounted := cluster.slice.mounted, pods := cluster.slice.pods)
      ensures ok ==> Delete in cluster.slice.pods && (cluster.slice.mounted ==> cluster.slice.volume.None?)
      ensures !cluster.faulted ==> ok && !old(cluster.faulted)
    {
      ok := cluster.UnmountVolume(lv);
      if ok {
        ok := cluster.EnsurePod(Delete);
      }
    }

    method ExecuteSnapshotDeleteOperation(lv: LogicalVolume) returns (ok: bool, lv': LogicalVolume)
      requires Holds(lv) && lv.deleting && HasSnapshot(lv.status)
      modifies cluster
      ensures cluster.Valid()
      ensures ok ==> Holds(lv') && lv'.deleting && HasSnapshot(lv'.status)
      ensures ok ==> Delete in cluster.slice.pods && DeleteSucceeded(lv'.status) == DeleteSucceeded(lv.status)
      ensures ok ==> (cluster.slice.mounted ==> cluster.slice.volume.None?)
      ensures cluster.slice.stored.Live? && cluster.slice.stored.lv.finalizer
      ensures !cluster.faulted ==> ok && !old(cluster.faulted)
    {
      ok := cluster.Reach();
      if !ok {
        return false, lv;
      }
      var executed := StartDeleter(lv);
      WithConditionKeeps(lv.status, Outcome(DeleteExecutorEnsured, executed, "SnapshotDeleteExecutor"));
      ok, lv' := UpdateLVStatusCondition(lv, DeleteExecutorEnsured, executed, "SnapshotDeleteExecutor");
      ok := ok && executed;
    }

    method SnapshotOperationToCleanUp(lv: LogicalVolume) returns (ok: bool, op: Option<Operation>)
      requires cluster.Valid() && cluster.slice.stored == Live(lv)
      modifies cluster
      ensures cluster.Valid() && cluster.slice == old(cluster.slice)
      ensures ok ==> op == InFlight(cluster.slice)
      ensures !cluster.faulted ==> ok && !old(cluster.faulted)
    {
      var isBackup, isRestore;
      ok, isBackup := SnapshotContextForBackup(lv);
      if !ok || isBackup {
        return ok, if isBackup then Some(Backup) else None;
      }
      ok, isRestore := SnapshotContextForRestore(lv);
      op := if isRestore then Some(Restore) else None;
    }

    method DeleteSnapshotPodAndUnmount(lv: LogicalVolume, op: Operation) returns (r: Result)
      requires Holds(lv) && lv.deleting
      modifies cluster
      ensures cluster.Valid()
      ensures r.Fine? ==> cluster.slice == old(cluster.slice).(mounted := cluster.slice.mounted)
      ensures r.Fine? ==> op !in cluster.slice.pods && (cluster.slice.volume.None? || !cluster.slice.mounted)
      ensures cluster.slice.volume == old(cluster.slice).volume
      ensures !cluster.faulted ==> !old(cluster.faulted)
      ensures !cluster.faulted && !r.Fine? ==> op in cluster.slice.pods && cluster.slice.pods[op].terminating
    {
      r := DeleteRunningSnapshotPod(op);
      if r.Fine? {
        var ok := cluster.UnmountVolume(lv);
        r := if ok then Fine else Error;
      }
    }

    /** Fine only when the pod is gone from the API; a pod that is still there costs a requeue. */
    method DeleteRunningSnapshotPod(op: Operation) returns (r: Result)
      requires cluster.Valid() && cluster.slice.stored.Live?
      modifies cluster
      ensures cluster.Valid()
      ensures r.Fine? ==> cluster.slice == old(cluster.slice) && op !in cluster.slice.pods
      ensures cluster.slice.volume == old(cluster.slice).volume
      ensures !cluster.faulted ==> !old(cluster.faulted)
      ensures !cluster.faulted && !r.Fine? ==> op in cluster.slice.pods && cluster.slice.pods[op].terminating
    {
      var ok := cluster.Reach();
      if !ok {
        return Error;
      }
      if op !in cluster.slice.pods {
        return Fine;
      }
      if cluster.slice.pods[op].terminating {
        return Requeue;
      }
      ok := cluster.Do(TerminatePod(op));
      return if ok then Requeue else Error;
    }

    method DeletionWithoutSnapshot(lv: LogicalVolume)
      requires Holds(lv) && lv.deleting && !HasSnapshot(lv.status)
      requires cluster.slice.volume.Some? ==> RemovalRule(cluster.slice)
      modifies cluster
      ensures cluster.Valid()
      ensures cluster.slice.pods == old(cluster.slice).pods && cluster.slice.mounted == old(cluster.slice).mounted
      ensures cluster.slice.volume == old(cluster.slice).volume || cluster.slice.volume.None?
      ensures !cluster.faulted ==> Released(cluster.slice)
    {
      var ok := cluster.RemoveLV();
      if ok {
        RemoveFinalizer();
      }
    }

    /** Reads the object again before it lets go of it. */
    method RemoveFinalizer()
      requires cluster.Valid() && cluster.slice.stored.Live? && cluster.slice.volume.None?
      requires Enabled(cluster.slice, DropFinalizer)
      modifies cluster
      ensures cluster.Valid()
      ensures cluster.slice.pods == old(cluster.slice).pods && cluster.slice.mounted == old(cluster.slice).mounted
      ensures cluster.slice.volume.None?
      ensures !cluster.faulted ==> Released(cluster.slice) && !old(cluster.faulted)
    {
      var ok, found := cluster.Get();
      if !ok || found.None? || !found.value.finalizer {
        return;
      }
      var _ := cluster.Do(DropFinalizer);
    }
  }
}
