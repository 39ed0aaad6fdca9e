/** Status conditions of a Kubernetes object, kept as the ordered list the API stores. */
module Conditions {
  import opened Wrappers

  datatype ConditionStatus = IsTrue | IsFalse | IsUnknown

  /** The condition types the controllers write, and any other one. */
  datatype Kind =
    | BackupStorageFound
    | BackupExecutorEnsured
    | RestoreExecutorEnsured
    | BackupExecutorCleaned
    | RestoreExecutorCleaned
    | LvmSnapshotCleaned
    | DeleteExecutorEnsured
    | ExecutorPodMissing
    | DeleteEnsured
    | OtherKind(name: string)

  datatype Condition = Condition(kind: Kind, status: ConditionStatus, reason: string, message: string)

  /** Position of the first condition of the given type, or the length of the list. */
  function IndexOf(cs: seq<Condition>, kind: Kind): (i: nat)
    ensures i <= |cs|
    ensures forall j :: 0 <= j < i ==> cs[j].kind != kind
    ensures i < |cs| ==> cs[i].kind == kind
  {
    if cs == [] || cs[0].kind == kind then 0 else 1 + IndexOf(cs[1..], kind)
  }

  function Find(cs: seq<Condition>, kind: Kind): Option<Condition> {
    var i := IndexOf(cs, kind);
    if i < |cs| then Some(cs[i]) else None
  }

  /** Replaces the first condition of the same type where it stands, or appends a new one. */
  function SetStatusCondition(cs: seq<Condition>, c: Condition): seq<Condition> {
    var i := IndexOf(cs, c.kind);
    if i < |cs| then cs[i := c] else cs + [c]
  }

  /** The type is recorded, as true or as false. */
  predicate IsDecided(cs: seq<Condition>, kind: Kind) {
    var c := Find(cs, kind);
    c.Some? && c.value.status != IsUnknown
  }

  lemma IndexOfIs(cs: seq<Condition>, kind: Kind, i: nat)
    requires i <= |cs|
    requires forall j :: 0 <= j < i ==> cs[j].kind != kind
    requires i < |cs| ==> cs[i].kind == kind
    ensures IndexOf(cs, kind) == i
  {
  }

  /** Writing one type leaves the committed value of every other type alone, and its own reads back. */
  lemma SetStatusConditionAt(cs: seq<Condition>, c: Condition, kind: Kind)
    ensures Find(SetStatusCondition(cs, c), kind) == if kind == c.kind then Some(c) else Find(cs, kind)
  {
    var r := SetStatusCondition(cs, c);
    if kind == c.kind {
      IndexOfIs(r, kind, IndexOf(cs, c.kind));
    } else {
      var i := IndexOf(cs, kind);
      IndexOfIs(r, kind, if i < |cs| then i else |r|);
    }
  }

  /** No entry of another type appears, moves or disappears. */
  lemma SetStatusConditionKeepsEntries(cs: seq<Condition>, c: Condition, other: Condition)
    requires other.kind != c.kind
    ensures other in cs <==> other in SetStatusCondition(cs, c)
    ensures forall i :: 0 <= i < |cs| && cs[i].kind != c.kind ==> SetStatusCondition(cs, c)[i] == cs[i]
  {
    var r := SetStatusCondition(cs, c);
    forall i | 0 <= i < |cs| && cs[i] == other
      ensures other in r
    {
      assert r[i] == other;
    }
    forall i | 0 <= i < |r| && r[i] == other
      ensures other in cs
    {
      assert i < |cs|;
      assert cs[i] == other;
    }
  }
}
