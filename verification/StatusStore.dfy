/**
 * The status of one LogicalVolume in the API server, under optimistic concurrency: a reader may get
 * any version ever committed, and an update commits only when it was computed from the latest one.
 */
module StatusStores {
  import opened Wrappers
  import opened Conditions
  import opened LogicalVolumes

  datatype Version = Version(status: Status, deleting: bool)

  /**
   * Who committed a version. `Wholesale` is a writer that puts back the conditions of a copy it read, whatever else
   * it changes: updateLVStatus of the controller, and the snapshotter's condition write.
   */
  datatype Author =
    | PodReconciler(op: Operation, message: string)
    | ConditionWriter(condition: Condition)
    | Starter(op: Operation)
    | Finisher(op: Operation, id: string)
    | Failer
    | Metadata
    | Wholesale(read: nat, copy: Version)

  /** What each author may make of the version it replaces. */
  predicate Authored(was: Version, author: Author, now: Version) {
    match author
    case PodReconciler(op, message) =>
      FailOperation(was.status, op, message) == Some(now.status) && now.deleting == was.deleting
    case ConditionWriter(c) => now == was.(status := WithCondition(was.status, c))
    case Starter(op) => now == was.(status := MarkRunning(was.status, op))
    case Finisher(op, id) => now == was.(status := MarkSucceeded(was.status, op, id))
    case Failer => now == was.(status := MarkFailed(was.status))
    case Metadata => now.status == was.status
    case Wholesale(_, copy) => now.status.conditions == copy.status.conditions && now.deleting == was.deleting
  }

  /** The copy that a wholesale writer puts back is a version that was committed when it read. */
  predicate CopyIsCommitted(versions: seq<Version>, author: Author) {
    author.Wholesale? ==> author.read < |versions| && author.copy == versions[author.read]
  }

  ghost predicate History(versions: seq<Version>, authors: seq<Author>) {
    && |versions| == |authors| + 1
    && (forall i {:trigger CommittedAt(versions, authors, i)} :: 0 <= i < |authors| ==> CommittedAt(versions, authors, i))
  }

  ghost predicate CommittedAt(versions: seq<Version>, authors: seq<Author>, i: nat)
    requires |versions| == |authors| + 1 && i < |authors|
  {
    Authored(versions[i], authors[i], versions[i + 1]) && CopyIsCommitted(versions[..i + 1], authors[i])
  }

  lemma HistoryGrows(versions: seq<Version>, authors: seq<Author>, version: Version, author: Author)
    requires History(versions, authors) && Authored(versions[|versions| - 1], author, version) && CopyIsCommitted(versions, author)
    ensures History(versions + [version], authors + [author])
  {
    var vs, ws := versions + [version], authors + [author];
    forall i | 0 <= i < |ws|
      ensures CommittedAt(vs, ws, i)
    {
      if i < |authors| {
        assert CommittedAt(versions, authors, i);
        assert vs[..i + 1] == versions[..i + 1];
      } else {
        assert vs[..i + 1] == versions;
      }
    }
  }

  datatype Commit = Commit(author: Author, version: Version)

  class StatusStore {
    var versions: seq<Version>
    ghost var authors: seq<Author>

    ghost predicate Valid()
      reads this
    {
      History(versions, authors)
    }

    constructor ()
      ensures Valid() && versions == [Version(Status("", OK, "", None, [], None), false)]
    {
      versions, authors := [Version(Status("", OK, "", None, [], None), false)], [];
    }

    /** A read from a cache that lags behind by any number of versions. */
    method Get(age: nat) returns (rv: nat, version: Version)
      requires Valid()
      ensures rv < |versions| && version == versions[rv]
      ensures age == 0 ==> rv == |versions| - 1
    {
      rv := if age < |versions| then |versions| - 1 - age else 0;
      version := versions[rv];
    }

    /** An update computed from version rv: it fails with a conflict unless that is still the latest. */
    method Update(rv: nat, version: Version, ghost author: Author) returns (ok: bool)
      requires Valid() && rv < |versions| && Authored(versions[rv], author, version) && CopyIsCommitted(versions, author)
      modifies this
      ensures Valid()
      ensures ok == (rv == |old(versions)| - 1)
      ensures versions == if ok then old(versions) + [version] else old(versions)
      ensures authors == if ok then old(authors) + [author] else old(authors)
    {
      ok := rv == |versions| - 1;
      if ok {
        HistoryGrows(versions, authors, version, author);
        versions := versions + [version];
        authors := authors + [author];
      }
    }

    /** Everything other clients commit while a writer is between its read and its update. */
    method Interfere(others: seq<Commit>)
      requires Valid()
      modifies this
      ensures Valid() && old(versions) <= versions && old(authors) <= authors
      ensures others == [] ==> versions == old(versions)
    {
      for i := 0 to |others|
        invariant Valid() && old(versions) <= versions && old(authors) <= authors
        invariant others == [] ==> versions == old(versions)
      {
        if Authored(versions[|versions| - 1], others[i].author, others[i].version) && CopyIsCommitted(versions, others[i].author) {
          HistoryGrows(versions, authors, others[i].version, others[i].author);
          versions := versions + [others[i].version];
          authors := authors + [others[i].author];
        }
      }
    }

    /** The author of the last commit. */
    ghost predicate JustCommitted(author: Author)
      reads this
    {
      authors != [] && authors[|authors| - 1] == author
    }

    method FailSnapshotOperation(op: Operation, message: string, age: nat, others: seq<Commit>) returns (committed: bool)
      requires Valid()
      modifies this
      ensures Valid() && old(versions) <= versions
      ensures committed ==> JustCommitted(PodReconciler(op, message))
      ensures age == 0 && others == [] ==>
        committed == FailOperation(old(versions)[|old(versions)| - 1].status, op, message).Some?
    {
      var rv, current := Get(age);
      var st := current.status;
      if st.snapshot.None? || st.snapshot.value.operation != Some(op) {
        return false;
      }
      if OperationComplete(st) {
        return false;
      }
      st := st.(conditions := SetStatusCondition(st.conditions, Condition(ExecutorPodMissing, IsTrue, "ExecutorPodMissing", message)));
      st := st.(snapshot := Some(SnapshotStatus(Some(op), Failed, st.snapshot.value.snapshotId)));
      Interfere(others);
      committed := Update(rv, current.(status := st), PodReconciler(op, message));
    }

    method UpdateLVStatusCondition(c: Condition, age: nat, others: seq<Commit>) returns (committed: bool)
      requires Valid()
      modifies this
      ensures Valid() && old(versions) <= versions
      ensures committed ==> JustCommitted(ConditionWriter(c))
      ensures age == 0 && others == [] ==> committed
    {
      var rv, current := Get(age);
      var st := current.status;
      if st.snapshot.None? {
        st := st.(snapshot := Some(EMPTY_SNAPSHOT));
      }
      st := st.(conditions := SetStatusCondition(st.conditions, c));
      Interfere(others);
      committed := Update(rv, current.(status := st), ConditionWriter(c));
    }

    /** The whole status is put back as the caller has it; only the version number is fresh. */
    method UpdateLVStatus(read: nat, edit: Version -> Status, age: nat, others: seq<Commit>) returns (committed: bool)
      requires Valid() && read < |versions| && forall v :: edit(v).conditions == v.status.conditions
      modifies this
      ensures Valid() && old(versions) <= versions
      ensures committed ==>
        JustCommitted(Wholesale(read, old(versions)[read])) && versions[|versions| - 1].status == edit(old(versions)[read])
      ensures age == 0 && others == [] ==> committed
    {
      var copy := versions[read];
      var rv, current := Get(age);
      Interfere(others);
      committed := Update(rv, current.(status := edit(copy)), Wholesale(read, copy));
    }

    /** The snapshotter starts from the copy it loaded when its pod came up. */
    method SetStatusRunning(op: Operation, age: nat, others: seq<Commit>) returns (committed: bool)
      requires Valid()
      modifies this
      ensures Valid() && old(versions) <= versions
      ensures committed ==> JustCommitted(Starter(op))
      ensures age == 0 && others == [] ==> committed
    {
      var rv, loaded := Get(age);
      Interfere(others);
      committed := Update(rv, loaded.(status := MarkRunning(loaded.status, op)), Starter(op));
    }

    method SetStatusSuccess(op: Operation, id: string, age: nat, others: seq<Commit>) returns (committed: bool)
      requires Valid()
      modifies this
      ensures Valid() && old(versions) <= versions
      ensures committed ==> JustCommitted(Finisher(op, id))
      ensures age == 0 && others == [] ==> committed
    {
      var rv, current := Get(age);
      Interfere(others);
      committed := Update(rv, current.(status := MarkSucceeded(current.status, op, id)), Finisher(op, id));
    }
  }

  // ---------------------------------------------------------------- the snapshot-pod reconciler

  function Prefix(op: Operation): string {
    match op
    case Backup => "backup-"
    case Restore => "restore-"
    case Delete => "delete-"
  }

  /** The name of the executor pod of an operation on a LogicalVolume. */
  function BuildSnapshotPodName(op: Operation, lvName: string): string {
    Prefix(op) + lvName
  }

  function SplitSnapshotPodName(podName: string): Option<(string, Operation)> {
    if Prefix(Backup) <= podName then Some((podName[7..], Backup))
    else if Prefix(Restore) <= podName then Some((podName[8..], Restore))
    else if Prefix(Delete) <= podName then Some((podName[7..], Delete))
    else None
  }

  /** A vanished pod is traced back to exactly its LogicalVolume and operation, whatever the name. */
  lemma PodNameRoundTrip(op: Operation, lvName: string)
    ensures SplitSnapshotPodName(BuildSnapshotPodName(op, lvName)) == Some((lvName, op))
  {
    var name := BuildSnapshotPodName(op, lvName);
    assert name[|Prefix(op)|..] == lvName;
    assert name[0] == Prefix(op)[0];
  }

  datatype PodView = NotFound | Found(lvName: string, op: Option<Operation>, failed: bool)

  /** The pod ran this operation on this LogicalVolume and is gone or has failed. */
  predicate Concerns(podName: string, pod: PodView, lvName: string, op: Operation) {
    if pod.NotFound? then SplitSnapshotPodName(podName) == Some((lvName, op))
    else pod.failed && pod.op == Some(op) && pod.lvName == lvName
  }

  class SnapshotPodReconciler {
    constructor () {
    }

    /**
     * Both reads of the object may be stale by any amount and others commit in between. The verdict
     * is committed only over a version in which this very operation was still open.
     */
    method Reconcile(store: StatusStore, podName: string, pod: PodView, lvName: string, age: nat, age': nat,
                     between: seq<Commit>, others: seq<Commit>) returns (committed: bool, ghost rv: nat)
      requires store.Valid()
      modifies store
      ensures store.Valid() && old(store.versions) <= store.versions
      ensures committed ==> exists op, message :: store.JustCommitted(PodReconciler(op, message)) && Concerns(podName, pod, lvName, op)
      ensures age == 0 ==> rv == |old(store.versions)| - 1
      ensures committed ==>
        rv < |old(store.versions)| && !old(store.versions)[rv].deleting && !OperationComplete(old(store.versions)[rv].status)
    {
      var target := if pod.NotFound? then SplitSnapshotPodName(podName)
                    else if pod.lvName == "" || pod.op.None? then None
                    else Some((pod.lvName, pod.op.value));
      var current, lv := store.Get(age);
      rv := current;
      if target.None? || target.value.0 != lvName {
        return false, rv;
      }
      if !pod.NotFound? && !pod.failed {
        return false, rv;
      }
      if lv.deleting || OperationComplete(lv.status) {
        return false, rv;
      }
      var message := if pod.NotFound? then "executor pod was deleted before the operation completed"
                     else "executor pod reached PodFailed before the operation completed";
      store.Interfere(between);
      committed := store.FailSnapshotOperation(target.value.1, message, age', others);
    }
  }

  // ---------------------------------------------------------------- what every interleaving guarantees

  /** The pod reconciler replaces only open operations of the kind it was called for, and only their phase. */
  lemma PodReconcilerNeverOverwrites(versions: seq<Version>, authors: seq<Author>, i: nat, kind: Kind)
    requires History(versions, authors) && i < |authors| && authors[i].PodReconciler?
    ensures var was, now := versions[i].status, versions[i + 1].status;
      && was.snapshot.Some? && was.snapshot.value.operation == Some(authors[i].op)
      && !PhaseIs(was, Succeeded) && !PhaseIs(was, Failed) && PhaseIs(now, Failed)
      && now == was.(snapshot := Some(was.snapshot.value.(phase := Failed)), conditions := now.conditions)
      && (kind != ExecutorPodMissing ==> Find(now.conditions, kind) == Find(was.conditions, kind))
  {
    assert CommittedAt(versions, authors, i);
    SetStatusConditionAt(versions[i].status.conditions, Condition(ExecutorPodMissing, IsTrue, "ExecutorPodMissing", authors[i].message), kind);
  }

  predicate IsController(a: Author) {
    a.PodReconciler? || a.ConditionWriter? || a.Metadata?
  }

  /** A committed Succeeded or Failed outlives every interleaving of pod reconcilers and condition writers. */
  lemma {:induction false} VerdictIsFinal(versions: seq<Version>, authors: seq<Author>, i: nat, j: nat)
    requires History(versions, authors) && i <= j <= |authors|
    requires forall k :: i <= k < j ==> IsController(authors[k])
    requires OperationComplete(versions[i].status)
    ensures versions[j].status.snapshot == versions[i].status.snapshot
  {
    if i < j {
      VerdictIsFinal(versions, authors, i, j - 1);
      assert CommittedAt(versions, authors, j - 1);
    }
  }

  /** The condition an author sets, if any. */
  function Sets(a: Author): Option<Condition> {
    match a
    case PodReconciler(_, message) => Some(Condition(ExecutorPodMissing, IsTrue, "ExecutorPodMissing", message))
    case ConditionWriter(c) => Some(c)
    case _ => None
  }

  /** The last value written for a condition type in a stretch of history. */
  function LastWrite(authors: seq<Author>, i: nat, j: nat, kind: Kind): Option<Condition>
    requires i <= j <= |authors|
    decreases j
  {
    if i == j then None
    else if Sets(authors[j - 1]).Some? && Sets(authors[j - 1]).value.kind == kind then Sets(authors[j - 1])
    else LastWrite(authors, i, j - 1, kind)
  }

  /** A write of a condition sets its own type and leaves every other one as it was committed. */
  lemma WriteSetsOwnType(before: Version, author: Author, after: Version, kind: Kind)
    requires Authored(before, author, after) && !author.Wholesale?
    ensures Find(after.status.conditions, kind) ==
      if Sets(author).Some? && Sets(author).value.kind == kind then Sets(author) else Find(before.status.conditions, kind)
  {
    if Sets(author).Some? {
      SetStatusConditionAt(before.status.conditions, Sets(author).value, kind);
    }
  }

  /** No author in this stretch of history puts back a whole status. */
  ghost predicate NoWholesale(authors: seq<Author>, i: nat, j: nat)
    requires i <= j <= |authors|
  {
    forall k {:trigger authors[k]} :: i <= k < j ==> !authors[k].Wholesale?
  }

  /** What a stretch of history leaves of a type. */
  ghost predicate EndsWithLast(versions: seq<Version>, authors: seq<Author>, i: nat, j: nat, kind: Kind)
    requires |versions| == |authors| + 1 && i <= j <= |authors|
  {
    var last := LastWrite(authors, i, j, kind);
    Find(versions[j].status.conditions, kind) == if last.Some? then last else Find(versions[i].status.conditions, kind)
  }

  lemma OneWriteFurther(versions: seq<Version>, authors: seq<Author>, i: nat, j: nat, kind: Kind)
    requires History(versions, authors) && i <= j < |authors| && !authors[j].Wholesale?
    requires EndsWithLast(versions, authors, i, j, kind)
    ensures EndsWithLast(versions, authors, i, j + 1, kind)
  {
    assert CommittedAt(versions, authors, j);
    WriteSetsOwnType(versions[j], authors[j], versions[j + 1], kind);
  }

  /**
   * No condition is lost: however the writers interleave and however stale the copies they began
   * from, each type ends with the value committed for it last, or as it was.
   */
  lemma {:induction false} NoLostConditions(versions: seq<Version>, authors: seq<Author>, i: nat, j: nat, kind: Kind)
    requires History(versions, authors) && i <= j <= |authors| && NoWholesale(authors, i, j)
    ensures EndsWithLast(versions, authors, i, j, kind)
  {
    if i < j {
      assert !authors[j - 1].Wholesale?;
      NoLostConditions(versions, authors, i, j - 1, kind);
      OneWriteFurther(versions, authors, i, j - 1, kind);
    }
  }

  /** Hence every writer's type is still there at the end. */
  lemma {:induction false} EveryWriterIsRetained(versions: seq<Version>, authors: seq<Author>, i: nat, k: nat, j: nat)
    requires History(versions, authors) && i <= k < j <= |authors| && NoWholesale(authors, i, j)
    requires Sets(authors[k]).Some?
    ensures Find(versions[j].status.conditions, Sets(authors[k]).value.kind).Some?
  {
    NoLostConditions(versions, authors, i, j, Sets(authors[k]).value.kind);
    LastWriteExists(authors, i, k, j);
  }

  lemma {:induction false} LastWriteExists(authors: seq<Author>, i: nat, k: nat, j: nat)
    requires i <= k < j <= |authors| && Sets(authors[k]).Some?
    ensures LastWrite(authors, i, j, Sets(authors[k]).value.kind).Some?
    decreases j
  {
    if k < j - 1 {
      LastWriteExists(authors, i, k, j - 1);
    }
  }

  /** A whole-status writer is different: a condition committed after its read disappears with its own commit. */
  lemma WholesaleLosesCondition(read: Version, c: Condition) returns (versions: seq<Version>, authors: seq<Author>)
    requires Find(read.status.conditions, c.kind).None?
    ensures History(versions, authors) && versions[0] == read && authors == [ConditionWriter(c), Wholesale(0, read)]
    ensures Find(versions[1].status.conditions, c.kind) == Some(c)
    ensures Find(versions[2].status.conditions, c.kind).None?
  {
    var written := read.(status := WithCondition(read.status, c));
    HistoryGrows([read], [], written, ConditionWriter(c));
    HistoryGrows([read] + [written], [] + [ConditionWriter(c)], read, Wholesale(0, read));
    versions := [read] + [written] + [read];
    authors := [] + [ConditionWriter(c)] + [Wholesale(0, read)];
    SetStatusConditionAt(read.status.conditions, c, c.kind);
  }

  /**
   * Exactly when it is harmless: the value committed is the one in the version read. With only other kinds of writers
   * in between that means that the type was not committed since the read, or last with the value that was read.
   */
  lemma WholesaleKeepsExactly(versions: seq<Version>, authors: seq<Author>, i: nat, kind: Kind)
    requires History(versions, authors) && i < |authors| && authors[i].Wholesale?
    ensures authors[i].read <= i
    ensures KeepsType(versions, i, kind) <==>
      Find(versions[i].status.conditions, kind) == Find(versions[authors[i].read].status.conditions, kind)
    ensures NoWholesale(authors, authors[i].read, i) ==>
      var last := LastWrite(authors, authors[i].read, i, kind);
      KeepsType(versions, i, kind) <==> last.None? || last == Find(versions[authors[i].read].status.conditions, kind)
  {
    assert CommittedAt(versions, authors, i);
    if NoWholesale(authors, authors[i].read, i) {
      NoLostConditions(versions, authors, authors[i].read, i, kind);
    }
  }

  /** The commit after version i leaves the value of a type as it was committed. */
  predicate KeepsType(versions: seq<Version>, i: nat, kind: Kind)
    requires i + 1 < |versions|
  {
    Find(versions[i + 1].status.conditions, kind) == Find(versions[i].status.conditions, kind)
  }
}
