/** The node reconciler's finalization of a deleted node, and whole runs of all actors. */
module NodeReconcilers {
  import opened Wrappers
  import opened LogicalVolumes
  import opened LifecycleProtocol
  import opened Clusters
  import opened LogicalVolumeReconcilers

  /** What becomes of an object of a deleted node: a recorded backup protects it, otherwise it is let go. */
  predicate Finalized(s: Slice, t: Slice)
    requires s.stored.Live?
  {
    if HasSnapshot(s.stored.lv.status) then t == s
    else t.volume == s.volume && t.stored == Settle(LetGo(s.stored.lv))
  }

  /** An object in deletion without the finalizer, marked if the finalizer was taken away here. */
  function LetGo(lv: LogicalVolume): LogicalVolume {
    lv.(finalizer := false, pendingDeletion := lv.pendingDeletion || lv.finalizer, deleting := true)
  }

  predicate Protected(s: Slice) {
    s.stored.Live? && HasSnapshot(s.stored.lv.status)
  }

  class NodeReconciler {
    const skipNodeFinalize: bool

    constructor (skipNodeFinalize: bool)
      ensures this.skipNodeFinalize == skipNodeFinalize
    {
      this.skipNodeFinalize := skipNodeFinalize;
    }

    /** Takes the finalizer away and leaves a mark on the object. */
    method Detach(lv: Cluster) returns (ok: bool)
      requires lv.Valid() && lv.slice.stored.Live? && lv.slice.stored.lv.finalizer && !HasSnapshot(lv.slice.stored.lv.status)
      modifies lv
      ensures lv.Valid() && lv.slice.volume == old(lv.slice).volume
      ensures ok ==> lv.slice.stored == Settle(old(lv.slice).stored.lv.(finalizer := false, pendingDeletion := true))
    {
      ok := lv.Do(NodeDetach);
    }

    method Delete(lv: Cluster) returns (ok: bool)
      requires lv.Valid() && lv.slice.stored.Live? && !lv.slice.stored.lv.deleting
      modifies lv
      ensures lv.Valid() && lv.slice.volume == old(lv.slice).volume
      ensures ok ==> lv.slice.stored == Settle(old(lv.slice).stored.lv.(deleting := true))
    {
      ok := lv.Do(RequestDelete);
    }

    method CleanupLogicalVolume(lv: Cluster) returns (ok: bool)
      requires lv.Valid() && lv.slice.stored.Live? && !HasSnapshot(lv.slice.stored.lv.status)
      modifies lv
      ensures lv.Valid()
      ensures lv.slice.volume == old(lv.slice).volume
      ensures ok ==> Finalized(old(lv.slice), lv.slice)
    {
      lv.Facts();
      if lv.slice.stored.lv.finalizer {
        ok := Detach(lv);
        if !ok {
          return;
        }
      }
      if lv.slice.stored.Live? && !lv.slice.stored.lv.deleting {
        ok := Delete(lv);
      } else {
        ok := lv.Reach();
      }
    }

    /** An object with a recorded backup is left alone, any other one that exists is finalized. */
    method FinalizeOne(lv: Cluster) returns (ok: bool)
      requires lv.Valid()
      modifies lv
      ensures lv.Valid()
      ensures Protected(old(lv.slice)) ==> lv.slice == old(lv.slice)
      ensures ok && old(lv.slice).stored.Live? ==> Finalized(old(lv.slice), lv.slice)
    {
      if lv.slice.stored.Live? && !HasSnapshot(lv.slice.stored.lv.status) {
        ok := CleanupLogicalVolume(lv);
      } else {
        ok := true;
      }
    }

    /** Objects are visited in turn; the first failure ends the round. */
    method DoFinalize(lvs: seq<Cluster>) returns (ok: bool)
      requires AllValid(lvs)
      requires AllDifferent(lvs)
      modifies lvs
      ensures AllValid(lvs)
      ensures forall i :: 0 <= i < |lvs| && Protected(old(lvs[i].slice)) ==> lvs[i].slice == old(lvs[i].slice)
      ensures ok && !skipNodeFinalize ==>
        forall i :: 0 <= i < |lvs| && old(lvs[i].slice).stored.Live? ==> Finalized(old(lvs[i].slice), lvs[i].slice)
      ensures skipNodeFinalize ==> ok && forall i :: 0 <= i < |lvs| ==> lvs[i].slice == old(lvs[i].slice)
    {
      if skipNodeFinalize {
        return true;
      }
      ghost var before := SlicesOf(lvs);
      for n := 0 to |lvs|
        invariant AllValid(lvs)
        invariant Kept(lvs, before, n) && ProtectedKept(lvs, before) && FinalizedUpTo(lvs, before, n)
      {
        ok := Visit(lvs, before, n);
        if !ok {
          return;
        }
      }
      return true;
    }

    method Visit(lvs: seq<Cluster>, ghost before: seq<Slice>, n: nat) returns (ok: bool)
      requires AllValid(lvs) && AllDifferent(lvs) && n < |lvs| == |before|
      requires Kept(lvs, before, n) && ProtectedKept(lvs, before) && FinalizedUpTo(lvs, before, n)
      modifies lvs[n]
      ensures AllValid(lvs) && ProtectedKept(lvs, before)
      ensures ok ==> Kept(lvs, before, n + 1) && FinalizedUpTo(lvs, before, n + 1)
    {
      assert lvs[n].Valid() && lvs[n].slice == before[n];
      ok := FinalizeOne(lvs[n]);
    }
  }

  ghost predicate AllValid(lvs: seq<Cluster>)
    reads lvs
  {
    forall i {:trigger lvs[i].Valid()} :: 0 <= i < |lvs| ==> lvs[i].Valid()
  }

  ghost predicate AllDifferent(lvs: seq<Cluster>) {
    forall i, j :: 0 <= i < j < |lvs| ==> lvs[i] != lvs[j]
  }

  ghost function SlicesOf(lvs: seq<Cluster>): (s: seq<Slice>)
    reads lvs
    ensures |s| == |lvs| && forall i {:trigger s[i]} {:trigger lvs[i]} :: 0 <= i < |lvs| ==> s[i] == lvs[i].slice
  {
    if lvs == [] then [] else SlicesOf(lvs[..|lvs| - 1]) + [lvs[|lvs| - 1].slice]
  }

  /** The objects from n on are as they were. */
  ghost predicate Kept(lvs: seq<Cluster>, before: seq<Slice>, n: nat)
    requires |before| == |lvs|
    reads lvs
  {
    forall i {:trigger lvs[i]} :: n <= i < |lvs| ==> lvs[i].slice == before[i]
  }

  ghost predicate ProtectedKept(lvs: seq<Cluster>, before: seq<Slice>)
    requires |before| == |lvs|
    reads lvs
  {
    forall i {:trigger lvs[i]} :: 0 <= i < |lvs| && Protected(before[i]) ==> lvs[i].slice == before[i]
  }

  /** The first n objects are finalized. */
  ghost predicate FinalizedUpTo(lvs: seq<Cluster>, before: seq<Slice>, n: nat)
    requires n <= |before| == |lvs|
    reads lvs
  {
    forall i {:trigger lvs[i]} :: 0 <= i < n && before[i].stored.Live? ==> Finalized(before[i], lvs[i].slice)
  }

  /** Who acts next: an actor with its own code, or any event of the environment. */
  datatype Turn = LvReconcile | NodeFinalize | Environment(event: Event) | LvRestart | NodeRestart

  /**
   * Every interleaving of reconciles, node finalization, restarts and environment events, with any call failing and
   * each of the two processes dying anywhere on its own: what the actors promise together.
   */
  method RunSystem(cluster: Cluster, turns: seq<Turn>, skipNodeFinalize: bool)
    requires cluster.Valid()
    modifies cluster, cluster.requests
    ensures cluster.Valid() && Inv(cluster.slice)
    ensures cluster.slice.volume.Some? ==>
      (cluster.slice.stored.Live? && cluster.slice.stored.lv.finalizer) || cluster.slice.detached
  {
    var lvReconciler := new LogicalVolumeReconciler(cluster);
    var nodeReconciler := new NodeReconciler(skipNodeFinalize);
    var lvDead, nodeDead := false, false;
    for i := 0 to |turns|
      invariant cluster.Valid()
    {
      match turns[i]
      case LvReconcile =>
        cluster.Enter(lvDead);
        var _, _ := lvReconciler.Reconcile();
        lvDead := cluster.crashed;
      case NodeFinalize =>
        cluster.Enter(nodeDead);
        var _ := nodeReconciler.DoFinalize([cluster]);
        nodeDead := cluster.crashed;
      case Environment(e) =>
        if IsEnvironment(e) && Enabled(cluster.slice, e) {
          cluster.Happens(e);
        }
      case LvRestart =>
        lvDead := false;
      case NodeRestart =>
        nodeDead := false;
    }
    cluster.Facts();
  }

  /**
   * Reconciles until the object is settled. Without faults four rounds are enough, from wherever a
   * crash has left it; lvmd may still refuse, and then the reason is on record.
   */
  method Converge(cluster: Cluster)
    requires cluster.Valid() && !cluster.faulted && cluster.slice.stored.Live?
    requires var lv := cluster.slice.stored.lv; !lv.deleting && !lv.pendingDeletion && lv.source == ""
    modifies cluster, cluster.requests
    ensures cluster.Valid()
    ensures !cluster.faulted ==> cluster.slice.stored.Live?
    ensures !cluster.faulted && cluster.slice.stored.lv.status.code == OK ==>
      && cluster.slice.stored.lv.status.volumeId == cluster.uid
      && cluster.slice.volume.Some? && cluster.slice.stored.lv.size <= cluster.slice.volume.value
      && (!cluster.slice.lowered ==> cluster.slice.stored.lv.status.currentSize == cluster.slice.volume)
  {
    var reconciler := new LogicalVolumeReconciler(cluster);
    var rounds := 0;
    while rounds < 4 && !cluster.faulted && cluster.slice.stored.lv.status.code == OK && Rank(cluster.slice.stored.lv) > 0
      invariant rounds <= 4 && cluster.Valid()
      invariant !cluster.faulted ==> cluster.slice.stored.Live?
      invariant !cluster.faulted ==>
        var lv := cluster.slice.stored.lv; !lv.deleting && !lv.pendingDeletion && lv.source == ""
      invariant !cluster.faulted ==> Rank(cluster.slice.stored.lv) + rounds <= 4 || cluster.slice.stored.lv.status.code != OK
    {
      var _, _ := reconciler.Reconcile();
      rounds := rounds + 1;
    }
    if !cluster.faulted && cluster.slice.stored.lv.status.code == OK {
      ghost var log := cluster.log;
      assert log[..|log|] == log;
      SettledIsRight(cluster.uid, log, |log|);
    }
  }
}
