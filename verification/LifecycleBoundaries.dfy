/** Runs that show where the guarantees of the lifecycle end, in the order in which the reconciler issues its effects. */
module LifecycleBoundaries {
  import opened Wrappers
  import opened Conditions
  import opened LogicalVolumes
  import opened LifecycleProtocol
  import opened LogicalVolumeReconcilers

  const OBJECT := LogicalVolume(false, false, false, false, false, 4096, "source", "ro", Status("", OK, "", None, [], None))

  /** One more step of a run, with the states on both sides of it. */
  lemma Step(uid: string, log: seq<Event>, e: Event, s: Slice, t: Slice)
    requires Run(uid, log) && Replay(Initial(uid), log) == s && Enabled(s, e) && Apply(s, e) == t
    ensures Run(uid, log + [e]) && Replay(Initial(uid), log + [e]) == t
  {
    assert (log + [e])[..|log|] == log;
  }

  /** A log leads to a state. */
  ghost predicate LeadsTo(uid: string, log: seq<Event>, s: Slice) {
    Run(uid, log) && Replay(Initial(uid), log) == s
  }

  /** The states on both ends of the last part of a run. */
  lemma Joined(uid: string, log: seq<Event>, last: seq<Event>, s: Slice, t: Slice)
    requires LeadsTo(uid, log, s) && LeadsTo(uid, log + last, t)
    ensures Run(uid, log + last) && At(uid, log + last, |log|) == s && At(uid, log + last, |log + last|) == t
    ensures (log + last)[|log|..] == last
  {
    assert (log + last)[..|log|] == log && (log + last)[..|log + last|] == log + last;
  }

  lemma LeadsToInv(uid: string, log: seq<Event>, s: Slice)
    requires LeadsTo(uid, log, s)
    ensures Inv(s) && s.uid == uid && At(uid, log, |log|) == s
  {
    assert log[..|log|] == log;
    RunKeepsInv(uid, log, |log|);
  }

  lemma Write(uid: string, log: seq<Event>, s: Slice, st: Status)
    requires LeadsTo(uid, log, s) && s.stored.Live? && s.stored.lv.finalizer && StatusRule(s, st) && !PhaseIs(st, Succeeded)
    ensures LeadsTo(uid, log + [WriteStatus(st)], Stored(s, st))
  {
    StoredIs(s, st);
    Step(uid, log, WriteStatus(st), s, Stored(s, st));
  }

  // ---------------------------------------------------------------- a settled object

  function Settled(uid: string, role: Role): Slice {
    Slice(uid, Live(OBJECT.(finalizer := true, labeled := true, status := Status(uid, OK, "", Some(4096), [], None))),
          Some(4096), map[], false, false, false, false, role)
  }

  lemma Labeled(uid: string, role: Role) returns (log: seq<Event>)
    requires uid != ""
    ensures LeadsTo(uid, log, Initial(uid).(stored := Live(OBJECT.(finalizer := true, labeled := true)), role := role))
    ensures forall k :: 0 <= k < |log| ==> !log[k].CreatePod?
  {
    var s0 := Initial(uid);
    var s1 := s0.(stored := Live(OBJECT));
    var s2 := s1.(role := role);
    var s3 := s2.(stored := Live(OBJECT.(finalizer := true)));
    log := [];
    Step(uid, log, CreateObject(OBJECT), s0, s1);
    log := log + [CreateObject(OBJECT)];
    Step(uid, log, ChangeRole(role), s1, s2);
    log := log + [ChangeRole(role)];
    Step(uid, log, AddFinalizer, s2, s3);
    log := log + [AddFinalizer];
    Step(uid, log, AddLabel, s3, s2.(stored := Live(OBJECT.(finalizer := true, labeled := true))));
    log := log + [AddLabel];
  }

  /** Three reconciles: finalizer, label, and a volume that is bound to the object. */
  lemma Settling(uid: string, role: Role) returns (log: seq<Event>)
    requires uid != ""
    ensures LeadsTo(uid, log, Settled(uid, role))
    ensures forall k :: 0 <= k < |log| ==> !log[k].CreatePod?
  {
    log := Labeled(uid, role);
    var s := Initial(uid).(stored := Live(OBJECT.(finalizer := true, labeled := true)), role := role);
    var t := s.(volume := Some(4096));
    Step(uid, log, CreateVolume(4096), s, t);
    log := log + [CreateVolume(4096)];
    Write(uid, log, t, Status(uid, OK, "", Some(4096), [], None));
    log := log + [WriteStatus(Status(uid, OK, "", Some(4096), [], None))];
  }

  // ---------------------------------------------------------------- an operation is started

  /** A bound object whose operation is not over. */
  predicate Open(s: Slice) {
    && s.stored.Live? && s.volume.Some?
    && var lv := s.stored.lv;
    && lv.finalizer && !lv.deleting && lv.source != "" && lv.status.volumeId != "" && !OperationComplete(lv.status)
  }

  function Begun(s: Slice, op: Operation): Slice
    requires Open(s)
  {
    Stored(s, Initialized(s.stored.lv.status, op))
  }

  function WithOutcome(s: Slice, kind: Kind, reason: string): Slice
    requires Open(s)
  {
    Stored(s, WithCondition(s.stored.lv.status, Outcome(kind, true, reason)))
  }

  function Executing(s: Slice, op: Operation): Slice {
    s.(mounted := true, pods := s.pods[op := Pod(false, Loaded)])
  }

  /** What RunOperation makes of an object when nothing fails. */
  function Operating(s: Slice, op: Operation): Slice
    requires Open(s) && op != Delete
  {
    WithOutcome(Executing(WithOutcome(Begun(s, op), BackupStorageFound, "SnapshotBackupStorageFound"), op), Ensured(op), "SnapshotExecutor")
  }

  lemma Begin(uid: string, log: seq<Event>, s: Slice, op: Operation) returns (log': seq<Event>)
    requires LeadsTo(uid, log, s) && Open(s)
    ensures LeadsTo(uid, log', Begun(s, op)) && Open(Begun(s, op)) && log <= log'
    ensures forall k :: |log| <= k < |log'| ==> !log'[k].CreatePod?
  {
    var st := Initialized(s.stored.lv.status, op);
    log' := log;
    if st != s.stored.lv.status {
      LeadsToInv(uid, log, s);
      PhaseWriteIsAllowed(s, op, Pending);
      Write(uid, log, s, st);
      log' := log + [WriteStatus(st)];
    }
  }

  lemma Record(uid: string, log: seq<Event>, s: Slice, kind: Kind, reason: string) returns (log': seq<Event>)
    requires LeadsTo(uid, log, s) && Open(s) && kind != DeleteEnsured
    ensures LeadsTo(uid, log', WithOutcome(s, kind, reason)) && Open(WithOutcome(s, kind, reason)) && log <= log'
    ensures forall k :: |log| <= k < |log'| ==> !log'[k].CreatePod?
  {
    var st := WithCondition(s.stored.lv.status, Outcome(kind, true, reason));
    LeadsToInv(uid, log, s);
    ConditionWriteIsAllowed(s, Outcome(kind, true, reason));
    Write(uid, log, s, st);
    log' := log + [WriteStatus(st)];
  }

  lemma Execute(uid: string, log: seq<Event>, s: Slice, op: Operation) returns (log': seq<Event>)
    requires LeadsTo(uid, log, s) && Open(s) && op != Delete && op !in s.pods
    requires s.stored.lv.status.snapshot.Some? && !PhaseIs(s.stored.lv.status, NoPhase)
    ensures LeadsTo(uid, log', Executing(s, op)) && log < log'
    ensures forall k :: |log| <= k < |log'| && log'[k].CreatePod? ==> log'[k] == CreatePod(op)
  {
    log' := log;
    var t := s.(mounted := true);
    if !s.mounted {
      Step(uid, log', Mount, s, t);
      log' := log' + [Mount];
    }
    Step(uid, log', CreatePod(op), t, Executing(s, op));
    log' := log' + [CreatePod(op)];
  }

  /** The effects of RunOperation: status, storage, mount, pod and outcome. */
  lemma Operate(uid: string, log: seq<Event>, s: Slice, op: Operation) returns (log': seq<Event>)
    requires LeadsTo(uid, log, s) && Open(s) && op != Delete && op !in s.pods
    ensures LeadsTo(uid, log', Operating(s, op)) && Open(Operating(s, op)) && log < log'
    ensures forall k :: |log| <= k < |log'| && log'[k].CreatePod? ==> log'[k] == CreatePod(op)
  {
    var l1 := Begin(uid, log, s, op);
    var found := WithOutcome(Begun(s, op), BackupStorageFound, "SnapshotBackupStorageFound");
    var l2 := Record(uid, l1, Begun(s, op), BackupStorageFound, "SnapshotBackupStorageFound");
    var l3 := Execute(uid, l2, found, op);
    log' := Record(uid, l3, Executing(found, op), Ensured(op), "SnapshotExecutor");
  }

  // ---------------------------------------------------------------- the executor at work

  function Started(s: Slice, op: Operation): Slice
    requires s.stored.Live? && op in s.pods
  {
    WithStatus(SetStage(s, op, Working), MarkRunning(s.stored.lv.status, op))
  }

  function Finished(s: Slice, id: string): Slice
    requires s.stored.Live? && Backup in s.pods
  {
    WithStatus(SetStage(s, Backup, Done), MarkSucceeded(s.stored.lv.status, Backup, id))
  }

  const FINISH := [SnapshotterStarts(Backup), SnapshotterSucceeds(Backup, "id")]

  lemma FinishBackup(uid: string, log: seq<Event>, s: Slice)
    requires LeadsTo(uid, log, s) && s.stored.Live? && PodAt(s, Backup, Loaded)
    ensures LeadsTo(uid, log + FINISH, Finished(Started(s, Backup), "id"))
  {
    Step(uid, log, SnapshotterStarts(Backup), s, Started(s, Backup));
    var started := log + [SnapshotterStarts(Backup)];
    Step(uid, started, SnapshotterSucceeds(Backup, "id"), Started(s, Backup), Finished(Started(s, Backup), "id"));
    assert started + [SnapshotterSucceeds(Backup, "id")] == log + FINISH;
  }

  const BOTH := Role(true, true, true, true)

  lemma OperatingHas(s: Slice, op: Operation)
    requires Open(s) && op != Delete
    ensures var t := Operating(s, op);
      && PodAt(t, op, Loaded) && t.pods == s.pods[op := Pod(false, Loaded)] && t.mounted && t.volume == s.volume
      && t.stored.lv == s.stored.lv.(status := t.stored.lv.status) && t.role == s.role
      && t.stored.lv.status.snapshot == Initialized(s.stored.lv.status, op).snapshot
  {
  }

  lemma RestoreAfterBackup(s: Slice)
    requires s.stored.Live? && s.stored.lv.finalizer && PodAt(s, Backup, Loaded) && PodAt(s, Restore, Loaded)
    requires s.stored.lv.status.snapshot == Some(SnapshotStatus(Some(Restore), Pending, ""))
    ensures var done := Finished(Started(s, Backup), "id");
      && Recorded(done, SnapshotStatus(Some(Restore), Succeeded, "id"))
      && done.stored.Live? && Enabled(done, SnapshotterStarts(Restore))
      && Apply(done, SnapshotterStarts(Restore)) == Started(done, Restore)
      && !HasSnapshot(Started(done, Restore).stored.lv.status)
  {
  }

  /**
   * An object that is backed up and restored into at the same time can lose the record of its backup: one reconcile
   * starts the restore and then the backup, the backup finishes, and the executor of the restore comes up.
   */
  lemma RestoreErasesRecord(uid: string) returns (log: seq<Event>, i: nat)
    requires uid != ""
    ensures Run(uid, log) && i < |log| && log[i..] == [SnapshotterStarts(Restore)]
    ensures Recorded(At(uid, log, i), SnapshotStatus(Some(Restore), Succeeded, "id"))
    ensures var s := At(uid, log, |log|); s.stored.Live? && s.stored.lv.finalizer && !HasSnapshot(s.stored.lv.status)
  {
    var l2, s2 := StartBoth(uid);
    FinishBackup(uid, l2, s2);
    RestoreAfterBackup(s2);
    var l3, s3 := l2 + FINISH, Finished(Started(s2, Backup), "id");
    Step(uid, l3, SnapshotterStarts(Restore), s3, Started(s3, Restore));
    Joined(uid, l3, [SnapshotterStarts(Restore)], s3, Started(s3, Restore));
    log, i := l3 + [SnapshotterStarts(Restore)], |l3|;
  }

  /** One reconcile drives the restore and then the backup. */
  lemma StartBoth(uid: string) returns (l2: seq<Event>, s2: Slice)
    requires uid != ""
    ensures LeadsTo(uid, l2, s2) && s2.stored.Live? && s2.stored.lv.finalizer && PodAt(s2, Backup, Loaded) && PodAt(s2, Restore, Loaded)
    ensures s2.stored.lv.status.snapshot == Some(SnapshotStatus(Some(Restore), Pending, ""))
  {
    var l0 := Settling(uid, BOTH);
    var s0 := Settled(uid, BOTH);
    var l1 := Operate(uid, l0, s0, Restore);
    var s1 := Operating(s0, Restore);
    OperatingHas(s0, Restore);
    l2 := Operate(uid, l1, s1, Backup);
    s2 := Operating(s1, Backup);
    OperatingHas(s1, Backup);
  }
}
