/**
 * A deletion that does not exclude the snapshotter. It decides on the copy of the object that it read, and other
 * actors go on while it looks for the executor pod and unmounts; removing the volume and dropping the finalizer
 * look at the status no more.
 */
module StaleDeletions {
  import opened Wrappers
  import opened Conditions
  import opened LogicalVolumes
  import opened LifecycleProtocol
  import opened LogicalVolumeReconcilers
  import opened LifecycleBoundaries

  /** The copy sends the deletion down the path for objects without a recorded backup. */
  predicate DecidesToDelete(s: Slice) {
    s.stored.Live? && var lv := s.stored.lv; lv.deleting && lv.finalizer && !lv.pendingDeletion && !HasSnapshot(lv.status)
  }

  /** What may happen between that read and the removal: anything of others, and the unmount of the deletion itself. */
  predicate MayIntervene(e: Event) {
    IsEnvironment(e) || e == NodeDetach || e == Unmount
  }

  /** The checks that are left for the state the deletion acts on: the executor is gone, the volume is unmounted. */
  predicate PassesChecks(s: Slice) {
    s.stored.Live? && (InFlight(s).Some? ==> Stopped(s, InFlight(s).value))
  }

  /** A run in which a deletion read the object after i events and is about to act after all of them. */
  ghost predicate StaleDeletion(uid: string, log: seq<Event>, i: nat) {
    && Run(uid, log) && i <= |log|
    && DecidesToDelete(At(uid, log, i))
    && Interventions(log, i)
    && PassesChecks(At(uid, log, |log|))
  }

  ghost predicate Interventions(log: seq<Event>, i: nat)
    requires i <= |log|
  {
    forall k {:trigger log[k]} :: i <= k < |log| ==> MayIntervene(log[k])
  }

  /** lvremove, and removeFinalizer on a fresh copy whose status it does not look at. */
  function Finish(s: Slice): Slice
    requires s.stored.Live?
  {
    s.(volume := None, stored := Settle(s.stored.lv.(finalizer := false)))
  }

  /** A recorded backup whose remote copy nobody has deleted; after Finish nothing waits for that any more. */
  predicate LosesRecord(s: Slice) {
    s.stored.Live? && HasSnapshot(s.stored.lv.status) && !DeleteSucceeded(s.stored.lv.status)
  }

  lemma FinishLetsGo(s: Slice)
    requires s.stored.Live?
    ensures Finish(s).volume.None? && (Finish(s).stored.Live? ==> !Finish(s).stored.lv.finalizer)
  {
  }

  predicate Records(e: Event) {
    e.SnapshotterSucceeds? && e.op == Backup && e.id != ""
  }

  /** Between the read and the removal: the object is there, no delete executor has reported, and no restore interferes. */
  predicate Watched(s: Slice) {
    s.stored.Live? && s.stored.lv.deleting && Delete !in s.pods && !DeleteSucceeded(s.stored.lv.status) && BackupIsOver(s)
  }

  /** Without a recorded backup there is no delete executor. */
  predicate NoDeleter(s: Slice) {
    && BackupIsOver(s)
    && (s.stored.Live? && !HasSnapshot(s.stored.lv.status) ==> Delete !in s.pods && !DeleteSucceeded(s.stored.lv.status))
    && (s.stored.Unborn? ==> s.pods == map[])
  }

  lemma StepKeepsNoDeleter(s: Slice, e: Event)
    requires Enabled(s, e) && NoDeleter(s) && e != CreatePod(Restore)
    ensures NoDeleter(Apply(s, e))
  {
    StepKeepsBackupOver(s, e);
  }

  lemma {:induction false} RunKeepsNoDeleter(uid: string, log: seq<Event>, i: nat)
    requires Run(uid, log) && i <= |log| && CreatePod(Restore) !in log
    ensures NoDeleter(At(uid, log, i))
  {
    if i > 0 {
      RunKeepsNoDeleter(uid, log, i - 1);
      StepAt(uid, log, i - 1);
      assert log[i - 1] in log;
      StepKeepsNoDeleter(At(uid, log, i - 1), log[i - 1]);
    }
  }

  /** While it is watched, an object comes to have a recorded backup exactly by the success of its executor. */
  lemma InterventionStep(s: Slice, e: Event)
    requires Enabled(s, e) && MayIntervene(e) && Watched(s) && e != CreatePod(Restore)
    ensures Apply(s, e).stored.Live? ==> Watched(Apply(s, e))
    ensures Apply(s, e).stored.Live? ==>
      (HasSnapshot(Apply(s, e).stored.lv.status) <==> HasSnapshot(s.stored.lv.status) || Records(e))
  {
    StepKeepsBackupOver(s, e);
  }

  lemma GoneStaysGone(s: Slice, e: Event)
    requires Enabled(s, e) && s.stored.Gone?
    ensures Apply(s, e).stored.Gone?
  {
  }

  lemma DeletingEnds(s: Slice, e: Event)
    requires Enabled(s, e) && s.stored.Live? && MayIntervene(e)
    ensures !Apply(s, e).stored.Unborn?
  {
    match e {
      case RequestDelete =>
      case DropForeignFinalizers =>
      case NodeDetach =>
      case EditSpec(_) =>
      case _ =>
    }
  }

  /** The executor of the backup succeeds in this stretch of a run. */
  ghost predicate RecordedIn(log: seq<Event>, i: nat, j: nat)
    requires i <= j <= |log|
  {
    exists k {:trigger log[k]} :: i <= k < j && Records(log[k])
  }

  lemma RecordedOneFurther(log: seq<Event>, i: nat, j: nat)
    requires i <= j < |log|
    ensures RecordedIn(log, i, j + 1) <==> RecordedIn(log, i, j) || Records(log[j])
  {
  }

  /** The object is gone, or watched with a recorded backup exactly if there was one or the executor succeeded. */
  predicate WatchedWith(s: Slice, recorded: bool) {
    s.stored.Gone? || (Watched(s) && (HasSnapshot(s.stored.lv.status) <==> recorded))
  }

  lemma WatchedStep(s: Slice, e: Event, recorded: bool)
    requires Enabled(s, e) && MayIntervene(e) && e != CreatePod(Restore) && WatchedWith(s, recorded)
    ensures WatchedWith(Apply(s, e), recorded || Records(e))
  {
    if s.stored.Gone? {
      GoneStaysGone(s, e);
    } else {
      InterventionStep(s, e);
      DeletingEnds(s, e);
    }
  }

  lemma {:induction false} InterventionRun(uid: string, log: seq<Event>, i: nat, j: nat)
    requires Run(uid, log) && i <= j <= |log| && CreatePod(Restore) !in log
    requires DecidesToDelete(At(uid, log, i)) && Interventions(log, i)
    ensures WatchedWith(At(uid, log, j), RecordedIn(log, i, j))
  {
    if i == j {
      RunKeepsNoDeleter(uid, log, i);
    } else {
      InterventionRun(uid, log, i, j - 1);
      RecordedOneFurther(log, i, j - 1);
      StepAt(uid, log, j - 1);
      assert log[j - 1] in log && MayIntervene(log[j - 1]);
      WatchedStep(At(uid, log, j - 1), log[j - 1], RecordedIn(log, i, j - 1));
    }
  }

  // ---------------------------------------------------------------- with executors of restores as well

  /** The last verdict of an executor in a stretch of a run is a success. */
  ghost predicate EndsInSuccess(log: seq<Event>, i: nat, j: nat)
    requires i <= j <= |log|
    decreases j
  {
    i < j &&
    (log[j - 1].SnapshotterSucceeds? ||
     (!log[j - 1].SnapshotterStarts? && !log[j - 1].SnapshotterFails? && EndsInSuccess(log, i, j - 1)))
  }

  /** The snapshot ID after it: that of the last finished backup, or the one from before. */
  ghost function LastId(log: seq<Event>, i: nat, j: nat, id: string): string
    requires i <= j <= |log|
    decreases j
  {
    if i == j then id
    else if log[j - 1].SnapshotterSucceeds? && log[j - 1].op == Backup then log[j - 1].id
    else LastId(log, i, j - 1, id)
  }

  function SnapshotIdOf(s: Slice): string
    requires s.stored.Live?
  {
    if s.stored.lv.status.snapshot.None? then "" else s.stored.lv.status.snapshot.value.snapshotId
  }

  /** What an event makes of the phase and the snapshot ID. */
  predicate VerdictOf(s: Slice, e: Event, t: Slice) {
    && s.stored.Live? && t.stored.Live? && t.stored.lv.deleting
    && (HasSucceeded(t) <==> e.SnapshotterSucceeds? || (HasSucceeded(s) && !e.SnapshotterStarts? && !e.SnapshotterFails?))
    && SnapshotIdOf(t) == if e.SnapshotterSucceeds? && e.op == Backup then e.id else SnapshotIdOf(s)
  }

  lemma ExecutorVerdict(s: Slice, e: Event)
    requires Enabled(s, e) && IsExecutor(e) && s.stored.Live? && s.stored.lv.deleting
    ensures VerdictOf(s, e, Apply(s, e))
  {
  }

  lemma StatusIsKept(s: Slice, e: Event)
    requires Enabled(s, e) && MayIntervene(e) && !IsExecutor(e) && s.stored.Live? && s.stored.lv.deleting && Apply(s, e).stored.Live?
    ensures Apply(s, e).stored.lv.deleting && Apply(s, e).stored.lv.status == s.stored.lv.status
  {
    match e {
      case EditSpec(_) =>
      case DropForeignFinalizers =>
      case NodeDetach =>
      case ChangeRole(_) =>
      case TerminatePod(_) =>
      case PodVanishes(_) =>
      case _ =>
    }
  }

  lemma VerdictStep(s: Slice, e: Event)
    requires Enabled(s, e) && MayIntervene(e) && s.stored.Live? && s.stored.lv.deleting && Apply(s, e).stored.Live?
    ensures VerdictOf(s, e, Apply(s, e))
  {
    if IsExecutor(e) {
      ExecutorVerdict(s, e);
    } else {
      StatusIsKept(s, e);
    }
  }

  /** After the read the phase is Succeeded exactly through a last verdict of that kind, and the ID is the one written last. */
  lemma {:induction false} VerdictRun(uid: string, log: seq<Event>, i: nat, j: nat)
    requires Run(uid, log) && i <= j <= |log| && Interventions(log, i)
    requires At(uid, log, i).stored.Live? && At(uid, log, i).stored.lv.deleting
    ensures !At(uid, log, j).stored.Unborn?
    ensures At(uid, log, j).stored.Live? ==>
      && At(uid, log, j).stored.lv.deleting
      && (HasSucceeded(At(uid, log, j)) <==> EndsInSuccess(log, i, j) || (HasSucceeded(At(uid, log, i)) && NoVerdict(log, i, j)))
      && SnapshotIdOf(At(uid, log, j)) == LastId(log, i, j, SnapshotIdOf(At(uid, log, i)))
  {
    if i < j {
      VerdictRun(uid, log, i, j - 1);
      StepAt(uid, log, j - 1);
      assert MayIntervene(log[j - 1]);
      if At(uid, log, j - 1).stored.Gone? {
        GoneStaysGone(At(uid, log, j - 1), log[j - 1]);
      } else {
        DeletingEnds(At(uid, log, j - 1), log[j - 1]);
        if At(uid, log, j).stored.Live? {
          VerdictStep(At(uid, log, j - 1), log[j - 1]);
        }
      }
    }
  }

  /** No executor writes a phase in this stretch. */
  ghost predicate NoVerdict(log: seq<Event>, i: nat, j: nat)
    requires i <= j <= |log|
    decreases j
  {
    i < j ==>
      !log[j - 1].SnapshotterSucceeds? && !log[j - 1].SnapshotterStarts? && !log[j - 1].SnapshotterFails? && NoVerdict(log, i, j - 1)
  }

  /** A phase of success without a new verdict is that of an object without a snapshot ID. */
  lemma {:induction false} NoVerdictKeepsId(log: seq<Event>, i: nat, j: nat, id: string)
    requires i <= j <= |log| && NoVerdict(log, i, j)
    ensures LastId(log, i, j, id) == id && !EndsInSuccess(log, i, j)
  {
    if i < j {
      NoVerdictKeepsId(log, i, j - 1, id);
    }
  }

  /**
   * A deletion that is not atomic lets go of the volume and the finalizer of an object with a recorded backup exactly
   * when, between its read and the removal, the last word of the executors is a success and leaves a snapshot ID.
   * Unless the object is also restored into, that means that the executor of the backup succeeds with an ID.
   */
  lemma LosesRecordExactly(uid: string, log: seq<Event>, i: nat)
    requires StaleDeletion(uid, log, i)
    ensures var end := At(uid, log, |log|);
      Finish(end).volume.None? && (Finish(end).stored.Live? ==> !Finish(end).stored.lv.finalizer)
    ensures HasSnapshot(At(uid, log, |log|).stored.lv.status) <==>
      EndsInSuccess(log, i, |log|) && LastId(log, i, |log|, SnapshotIdOf(At(uid, log, i))) != ""
    ensures CreatePod(Restore) !in log ==> (LosesRecord(At(uid, log, |log|)) <==> RecordedIn(log, i, |log|))
  {
    FinishLetsGo(At(uid, log, |log|));
    VerdictRun(uid, log, i, |log|);
    if NoVerdict(log, i, |log|) {
      NoVerdictKeepsId(log, i, |log|, SnapshotIdOf(At(uid, log, i)));
    }
    if CreatePod(Restore) !in log {
      InterventionRun(uid, log, i, |log|);
    }
  }

  const BACKED_UP := Role(true, false, true, false)

  lemma DeletionSteps(s: Slice)
    requires BackupLoaded(s)
    ensures Enabled(s, RequestDelete)
    ensures var read := Apply(s, RequestDelete);
      && DecidesToDelete(read) && PodAt(read, Backup, Loaded)
      && PassesChecks(Interrupted(read)) && LosesRecord(Interrupted(read)) && Finish(Interrupted(read)).stored.Gone?
  {
  }

  lemma NotDeletedYet(s: Slice)
    requires Open(s) && s.stored.lv.status.conditions == []
    ensures !DeleteSucceeded(Operating(s, Backup).stored.lv.status)
  {
    var st := Initialized(s.stored.lv.status, Backup);
    WithConditionKeeps(st, Outcome(BackupStorageFound, true, "SnapshotBackupStorageFound"));
    var found := WithCondition(st, Outcome(BackupStorageFound, true, "SnapshotBackupStorageFound"));
    WithConditionKeeps(found, Outcome(Ensured(Backup), true, "SnapshotExecutor"));
  }

  /** An object whose backup executor is loaded, before the deletion is requested. */
  predicate BackupLoaded(s: Slice) {
    && Open(s) && PodAt(s, Backup, Loaded) && s.pods.Keys == {Backup} && !s.stored.lv.pendingDeletion && !s.stored.lv.foreignFinalizers
    && s.stored.lv.status.snapshot == Some(SnapshotStatus(Some(Backup), Pending, "")) && !DeleteSucceeded(s.stored.lv.status)
  }

  lemma LoadBackup(uid: string) returns (log: seq<Event>, s: Slice)
    requires uid != ""
    ensures LeadsTo(uid, log, s) && BackupLoaded(s) && CreatePod(Restore) !in log
  {
    var l0 := Settling(uid, BACKED_UP);
    var s0 := Settled(uid, BACKED_UP);
    log := Operate(uid, l0, s0, Backup);
    s := Operating(s0, Backup);
    OperatingHas(s0, Backup);
    NotDeletedYet(s0);
  }

  /** The state in which the deletion acts, and the events that lead to it. */
  function Interrupted(read: Slice): Slice
    requires read.stored.Live? && Backup in read.pods
  {
    var done := Finished(Started(read, Backup), "id");
    done.(pods := done.pods - {Backup}, mounted := false)
  }

  const INTERRUPTION := FINISH + [PodVanishes(Backup), Unmount]

  lemma Interrupt(uid: string, log: seq<Event>, read: Slice)
    requires LeadsTo(uid, log, read) && read.stored.Live? && PodAt(read, Backup, Loaded)
    ensures LeadsTo(uid, log + INTERRUPTION, Interrupted(read))
  {
    FinishBackup(uid, log, read);
    Cleared(uid, log + FINISH, Finished(Started(read, Backup), "id"));
    assert log + FINISH + [PodVanishes(Backup)] + [Unmount] == log + INTERRUPTION;
  }

  /** The executor is gone and the volume unmounted. */
  lemma Cleared(uid: string, log: seq<Event>, s: Slice)
    requires LeadsTo(uid, log, s) && s.stored.Live? && Backup in s.pods
    ensures LeadsTo(uid, log + [PodVanishes(Backup)] + [Unmount], s.(pods := s.pods - {Backup}, mounted := false))
  {
    var gone := s.(pods := s.pods - {Backup});
    Step(uid, log, PodVanishes(Backup), s, gone);
    Step(uid, log + [PodVanishes(Backup)], Unmount, gone, gone.(mounted := false));
  }

  /** Such a run: the backup ends while the deletion is on its way, and the object goes with its record. */
  lemma InterleavedDeletionLosesRecord(uid: string) returns (log: seq<Event>, i: nat)
    requires uid != ""
    ensures StaleDeletion(uid, log, i) && CreatePod(Restore) !in log
    ensures log[i..] == INTERRUPTION
    ensures LosesRecord(At(uid, log, |log|)) && Finish(At(uid, log, |log|)).stored.Gone?
  {
    var l, read := ReadForDeletion(uid);
    Interrupt(uid, l, read);
    Joined(uid, l, INTERRUPTION, read, Interrupted(read));
    log, i := l + INTERRUPTION, |l|;
    forall k | i <= k < |log|
      ensures MayIntervene(log[k])
    {
      assert log[k] == INTERRUPTION[k - i];
    }
  }

  lemma ReadForDeletion(uid: string) returns (log: seq<Event>, read: Slice)
    requires uid != ""
    ensures LeadsTo(uid, log, read) && DecidesToDelete(read) && PodAt(read, Backup, Loaded) && CreatePod(Restore) !in log
    ensures PassesChecks(Interrupted(read)) && LosesRecord(Interrupted(read)) && Finish(Interrupted(read)).stored.Gone?
  {
    var before, s := LoadBackup(uid);
    DeletionSteps(s);
    read := Apply(s, RequestDelete);
    Step(uid, before, RequestDelete, s, read);
    log := before + [RequestDelete];
  }
}
