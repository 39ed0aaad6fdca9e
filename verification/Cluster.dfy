/** The API server, lvmd, the node's mounts and its pods, as one LogicalVolume sees them. */
module Clusters {
  import opened Wrappers
  import opened LogicalVolumes
  import opened LifecycleProtocol

  /** How one call ends. After `Lost` the effect is in place but the caller sees an error. */
  datatype Fault = NoFault | Refused | Lost | Crash

  /** How often lvmd was asked to make or to grow the volume. */
  class Requests {
    ghost var count: nat

    constructor ()
      ensures count == 0
    {
      count := 0;
    }
  }

  class Cluster {
    const uid: string
    const requests: Requests
    var slice: Slice
    var crashed: bool  // the calling process is dead: nothing it still tries has an effect
    var faulted: bool  // some call of the process has failed
    ghost var faults: nat // how many of its calls have failed
    ghost var log: seq<Event>

    /** The present state is the outcome of a legal run. */
    ghost predicate Valid()
      reads this
    {
      Run(uid, log) && slice == Replay(Initial(uid), log)
    }

    constructor (uid: string)
      requires uid != ""
      ensures Valid() && this.uid == uid && slice == Initial(uid) && !crashed && !faulted
      ensures fresh(requests) && requests.count == 0
    {
      this.uid := uid;
      requests := new Requests();
      slice := Initial(uid);
      crashed, faulted, faults := false, false, 0;
      log := [];
    }

    /** Another process becomes the caller, alive or dead. */
    method Enter(dead: bool)
      requires Valid()
      modifies `crashed, `faulted
      ensures Valid() && crashed == dead && faulted == dead
    {
      crashed, faulted := dead, dead;
    }

    /** Something happens that is no call of a process of TopoLVM. */
    method Happens(e: Event)
      requires Valid() && Enabled(slice, e)
      modifies `slice, `log
      ensures Valid() && slice == Apply(old(slice), e) && log == old(log) + [e]
    {
      log := log + [e];
      assert log[..|log| - 1] == old(log);
      slice := Apply(slice, e);
    }

    lemma Facts()
      requires Valid()
      ensures Inv(slice) && slice.uid == uid
    {
      assert log[..|log|] == log;
      RunKeepsInv(uid, log, |log|);
    }

    /** Issues one effect. The call may fail before or after the effect, and the caller may die first. */
    method Do(e: Event) returns (ok: bool)
      requires Valid() && Enabled(slice, e)
      modifies this
      ensures Valid()
      ensures (slice == old(slice) && log == old(log)) || (slice == Apply(old(slice), e) && log == old(log) + [e])
      ensures ok ==> slice == Apply(old(slice), e)
      ensures !faulted ==> ok && !old(faulted)
      ensures old(crashed) ==> slice == old(slice)
      ensures faults == old(faults) + if ok then 0 else 1
    {
      var fault: Fault :| crashed ==> fault == Crash;
      if fault.Crash? || fault.Refused? {
        crashed := crashed || fault.Crash?;
        faulted, faults := true, faults + 1;
        return false;
      }
      log := log + [e];
      assert log[..|log| - 1] == old(log);
      slice := Apply(slice, e);
      if fault.Lost? {
        faulted, faults := true, faults + 1;
      }
      return fault.NoFault?;
    }

    /** Issues a read, which may fail. */
    method Reach() returns (ok: bool)
      requires Valid()
      modifies this
      ensures Valid() && slice == old(slice) && log == old(log)
      ensures !faulted ==> ok && !old(faulted)
      ensures faults == old(faults) + if ok then 0 else 1
    {
      ok := *;
      ok := ok && !crashed;
      if !ok {
        faulted, faults := true, faults + 1;
      }
    }

    /** Reads the object from the API: None stands for NotFound. */
    method Get() returns (ok: bool, found: Option<LogicalVolume>)
      requires Valid()
      modifies this
      ensures Valid() && slice == old(slice) && log == old(log)
      ensures ok ==> found == if slice.stored.Live? then Some(slice.stored.lv) else None
      ensures !faulted ==> ok && !old(faulted)
      ensures faults == old(faults) + if ok then 0 else 1
    {
      ok := Reach();
      found := if slice.stored.Live? then Some(slice.stored.lv) else None;
    }

    /** Replaces the stored status. */
    method PutStatus(st: Status) returns (ok: bool)
      requires Valid() && slice.stored.Live? && slice.stored.lv.finalizer && StatusRule(slice, st)
      modifies this
      ensures Valid()
      ensures slice == old(slice) || slice == WithStatus(old(slice), st)
      ensures ok ==> slice == WithStatus(old(slice), st)
      ensures !faulted ==> ok && !old(faulted)
      ensures faults == old(faults) + if ok then 0 else 1
    {
      ok := Do(WriteStatus(st));
    }

    /** The lvmd calls that make the volume: CreateLV and CreateLVSnapshot. lvmd may refuse without any fault. */
    method CreateLV(size: nat) returns (r: Result<nat, Code>)
      requires Valid() && forall n :: Enabled(slice, CreateVolume(n))
      modifies this, requests
      ensures Valid() && requests.count == old(requests.count) + 1
      ensures r.Success? ==> size <= r.value && slice == Apply(old(slice), CreateVolume(r.value))
      ensures r.Failure? ==> r.error != OK && slice == old(slice).(volume := slice.volume)
      ensures r.Failure? && !faulted ==> slice == old(slice)
      ensures !faulted ==> !old(faulted)
    {
      requests.count := requests.count + 1;
      var rounding: nat :| 0 <= rounding;
      var code: Code := *;
      if code != OK {
        return Failure(code);
      }
      var ok := Do(CreateVolume(size + rounding));
      return if ok then Success(size + rounding) else Failure(INTERNAL);
    }

    /** lvmd's ResizeLV: it answers with the present size when no growth is needed. */
    method ResizeLV(size: nat) returns (r: Result<nat, Code>)
      requires Valid() && slice.stored.Live? && slice.stored.lv.finalizer && !slice.stored.lv.deleting
      requires size == slice.stored.lv.size
      modifies this, requests
      ensures Valid() && requests.count == old(requests.count) + 1
      ensures slice == old(slice).(volume := slice.volume)
      ensures r.Failure? && !faulted ==> slice == old(slice)
      ensures r.Success? ==> size <= r.value && slice.volume == Some(r.value)
      ensures r.Failure? ==> r.error != OK
      ensures !faulted ==> !old(faulted)
    {
      requests.count := requests.count + 1;
      if slice.volume.None? {
        return Failure(5);
      }
      if size <= slice.volume.value {
        var ok := Reach();
        return if ok then Success(slice.volume.value) else Failure(INTERNAL);
      }
      var rounding: nat :| 0 <= rounding;
      var code: Code := *;
      if code != OK {
        return Failure(code);
      }
      var ok := Do(GrowVolume(size + rounding));
      return if ok then Success(size + rounding) else Failure(INTERNAL);
    }

    /** lvmd's RemoveLV: an absent volume answers NotFound, which every caller takes for success. */
    method RemoveLV() returns (ok: bool)
      requires Valid() && slice.stored.Live? && slice.stored.lv.finalizer && (slice.volume.Some? ==> RemovalRule(slice))
      modifies this
      ensures Valid()
      ensures slice == old(slice).(volume := slice.volume) && (slice.volume == old(slice).volume || slice.volume.None?)
      ensures ok ==> slice.volume.None?
      ensures !faulted ==> ok && !old(faulted)
    {
      if slice.volume.None? {
        ok := Reach();
      } else {
        ok := Do(RemoveVolume);
      }
    }

    /** Unmount succeeds without doing anything when the volume is not found. */
    method UnmountVolume(lv: LogicalVolume) returns (ok: bool)
      requires Valid() && slice.stored == Live(lv)
      modifies this
      ensures Valid()
      ensures slice == old(slice).(mounted := slice.mounted) && (slice.mounted ==> old(slice).mounted)
      ensures ok ==> slice.mounted ==> slice.volume.None?
      ensures !faulted ==> ok && !old(faulted)
      ensures faults == old(faults) + if ok then 0 else 1
    {
      Facts();
      ok := Reach();
      if !ok || slice.volume.None? || lv.status.volumeId == "" {
        return;
      }
      if slice.mounted {
        ok := Do(Unmount);
      }
    }

    method MountVolume(lv: LogicalVolume) returns (ok: bool)
      requires Valid() && slice.stored.Live? && slice.stored.lv.status.volumeId == lv.status.volumeId && !slice.stored.lv.deleting
      modifies this
      ensures Valid()
      ensures slice == old(slice).(mounted := slice.mounted)
      ensures ok ==> slice.mounted
      ensures !faulted ==> !old(faulted) && ok == (slice.volume.Some? && lv.status.volumeId != "")
      ensures !faulted && !ok ==> slice == old(slice)
    {
      ok := Reach();
      if !ok || slice.volume.None? || lv.status.volumeId == "" {
        return false;
      }
      if !slice.mounted {
        ok := Do(Mount);
      }
    }

    /** Asks the API to delete the executor pod of an operation, if it is there. */
    method DeletePod(op: Operation) returns (ok: bool)
      requires Valid()
      modifies this
      ensures Valid()
      ensures slice == old(slice).(pods := slice.pods)
      ensures ok && op in slice.pods ==> slice.pods[op].terminating
      ensures !faulted ==> ok && !old(faulted)
      ensures faults == old(faults) + if ok then 0 else 1
    {
      ok := Reach();
      if ok && op in slice.pods {
        ok := Do(TerminatePod(op));
      }
    }

    /** Creates the executor pod of an operation unless it is there already. */
    method EnsurePod(op: Operation) returns (ok: bool)
      requires Valid() && slice.stored.Live? && slice.stored.lv.finalizer
      requires StartRule(slice, op)
      modifies this
      ensures Valid()
      ensures slice == old(slice).(pods := slice.pods)
      ensures ok ==> op in slice.pods
      ensures !faulted ==> ok && !old(faulted)
    {
      ok := Reach();
      if ok && op !in slice.pods {
        ok := Do(CreatePod(op));
      }
    }
  }
}
