/** The LogicalVolume custom resource: the parts of it that its controllers read and write. */
module LogicalVolumes {
  import opened Wrappers
  import opened Conditions

  datatype Operation = Backup | Restore | Delete

  /** `NoPhase` is the empty string that a freshly initialised snapshot status carries. */
  datatype Phase = NoPhase | Pending | Running | Succeeded | Failed

  datatype SnapshotStatus = SnapshotStatus(operation: Option<Operation>, phase: Phase, snapshotId: string)

  const EMPTY_SNAPSHOT := SnapshotStatus(None, NoPhase, "")

  /** gRPC status codes; zero is OK. */
  type Code = int
  const OK: Code := 0
  const INTERNAL: Code := 13

  datatype Status = Status(
    volumeId: string,
    code: Code,
    message: string,
    currentSize: Option<nat>,
    conditions: seq<Condition>,
    snapshot: Option<SnapshotStatus>)

  datatype LogicalVolume = LogicalVolume(
    finalizer: bool,          // holds the LogicalVolume finalizer
    foreignFinalizers: bool,  // holds finalizers of other owners
    labeled: bool,            // carries the created-by label
    deleting: bool,           // deletionTimestamp is set
    pendingDeletion: bool,    // carries the pending-deletion annotation
    size: nat,
    source: string,
    accessType: string,
    status: Status)

  const DELETE_SUCCEEDED := "SnapshotDeleteSucceeded"

  /** A finished backup is on record: it has a phase and a snapshot to delete remotely. */
  predicate HasSnapshot(st: Status) {
    st.snapshot.Some? && st.snapshot.value.phase == Succeeded && st.snapshot.value.snapshotId != ""
  }

  predicate PhaseIs(st: Status, phase: Phase) {
    st.snapshot.Some? && st.snapshot.value.phase == phase
  }

  predicate OperationComplete(st: Status) {
    PhaseIs(st, Succeeded) || PhaseIs(st, Failed)
  }

  predicate DeleteSucceeded(st: Status) {
    exists c :: c in st.conditions && c.kind == DeleteEnsured && c.status == IsTrue && c.reason == DELETE_SUCCEEDED
  }

  /** What the controller's condition writer makes of a freshly read status. */
  function WithCondition(st: Status, c: Condition): (r: Status) {
    st.(snapshot := if st.snapshot.None? then Some(EMPTY_SNAPSHOT) else st.snapshot,
        conditions := SetStatusCondition(st.conditions, c))
  }

  /** What the pod reconciler makes of a freshly read status; None when it leaves the object alone. */
  function FailOperation(st: Status, op: Operation, message: string): (r: Option<Status>) {
    if st.snapshot.None? || st.snapshot.value.operation != Some(op) || OperationComplete(st) then None
    else Some(st.(
      conditions := SetStatusCondition(st.conditions, Condition(ExecutorPodMissing, IsTrue, "ExecutorPodMissing", message)),
      snapshot := Some(st.snapshot.value.(phase := Failed))))
  }

  /** The snapshotter's own three status writes. A restore also stamps its operation when it starts. */
  function MarkRunning(st: Status, op: Operation): (r: Status) {
    var s := if st.snapshot.None? then EMPTY_SNAPSHOT else st.snapshot.value;
    var s := s.(phase := Running);
    st.(snapshot := Some(if op == Restore then s.(operation := Some(Restore)) else s))
  }

  function MarkSucceeded(st: Status, op: Operation, id: string): (r: Status) {
    var s := if st.snapshot.None? then EMPTY_SNAPSHOT else st.snapshot.value;
    var s := s.(phase := Succeeded);
    st.(snapshot := Some(if op == Backup then s.(snapshotId := id) else s))
  }

  function MarkFailed(st: Status): (r: Status) {
    var s := if st.snapshot.None? then EMPTY_SNAPSHOT else st.snapshot.value;
    st.(snapshot := Some(s.(phase := Failed)))
  }

  lemma WithConditionKeeps(st: Status, c: Condition)
    requires c.kind != DeleteEnsured
    ensures DeleteSucceeded(WithCondition(st, c)) == DeleteSucceeded(st)
    ensures HasSnapshot(WithCondition(st, c)) == HasSnapshot(st)
  {
    forall d: Condition | d.kind == DeleteEnsured
      ensures d in st.conditions <==> d in SetStatusCondition(st.conditions, c)
    {
      SetStatusConditionKeepsEntries(st.conditions, c, d);
    }
  }
}
