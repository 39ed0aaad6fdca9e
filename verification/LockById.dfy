/**
 * The driver's lock by ID: a monitor whose callers wait until nobody holds their ID. Each pass through the
 * monitor is one step; waiting gives up the monitor in the same step in which it puts the caller to sleep.
 */
module LockById {

  /** Signalled is a caller that a broadcast has woken and that has not yet looked again. */
  datatype Caller = Outside | Asleep(id: string) | Signalled(id: string) | Holding(id: string)

  datatype State = State(locked: set<string>, callers: map<nat, Caller>)

  datatype Event = Arrive(c: nat, id: string) | Retry(c: nat) | Unlock(c: nat)

  predicate Enabled(s: State, e: Event) {
    e.c in s.callers &&
    match e
    case Arrive(c, _) => s.callers[c].Outside?
    case Retry(c) => s.callers[c].Signalled?
    case Unlock(c) => s.callers[c].Holding?
  }

  /** Takes the lock if it is free, and goes to sleep otherwise. */
  function Attempt(s: State, c: nat, id: string): State {
    if id in s.locked then s.(callers := s.callers[c := Asleep(id)])
    else State(s.locked + {id}, s.callers[c := Holding(id)])
  }

  function Wake(caller: Caller): Caller {
    if caller.Asleep? then Signalled(caller.id) else caller
  }

  function Broadcast(callers: map<nat, Caller>): map<nat, Caller> {
    map c | c in callers :: Wake(callers[c])
  }

  function Apply(s: State, e: Event): State
    requires Enabled(s, e)
  {
    match e
    case Arrive(c, id) => Attempt(s, c, id)
    case Retry(c) => Attempt(s, c, s.callers[c].id)
    case Unlock(c) => State(s.locked - {s.callers[c].id}, Broadcast(s.callers[c := Outside]))
  }

  ghost predicate Start(s: State) {
    s.locked == {} && forall c :: c in s.callers ==> s.callers[c].Outside?
  }

  ghost predicate Legal(s: State, log: seq<Event>)
    decreases |log|
  {
    log == [] || (Enabled(s, log[0]) && Legal(Apply(s, log[0]), log[1..]))
  }

  ghost function Replay(s: State, log: seq<Event>): State
    requires Legal(s, log)
    decreases |log|
  {
    if log == [] then s else Replay(Apply(s, log[0]), log[1..])
  }

  ghost predicate HeldBy(s: State, id: string, c: nat) {
    c in s.callers && s.callers[c] == Holding(id)
  }

  ghost predicate CallerOk(s: State, c: nat)
    requires c in s.callers
  {
    (s.callers[c].Holding? || s.callers[c].Asleep?) ==> s.callers[c].id in s.locked
  }

  ghost predicate Exclusive(s: State, c: nat, d: nat) {
    c in s.callers && d in s.callers && s.callers[c].Holding? && s.callers[c] == s.callers[d] ==> c == d
  }

  ghost predicate Inv(s: State) {
    && (forall id :: id in s.locked ==> exists c :: HeldBy(s, id, c))
    && (forall c :: c in s.callers ==> CallerOk(s, c))
    && (forall c, d :: Exclusive(s, c, d))
  }

  lemma AttemptKeepsInv(s: State, c: nat, id: string)
    requires Inv(s) && c in s.callers && !s.callers[c].Holding?
    ensures Inv(Attempt(s, c, id))
  {
    var after := Attempt(s, c, id);
    forall i | i in after.locked
      ensures exists d :: HeldBy(after, i, d)
    {
      if i in s.locked {
        var d :| HeldBy(s, i, d);
        assert HeldBy(after, i, d);
      } else {
        assert HeldBy(after, i, c);
      }
    }
    forall d | d in after.callers
      ensures CallerOk(after, d)
    {
      assert d in s.callers && CallerOk(s, d);
    }
    forall d, e
      ensures Exclusive(after, d, e)
    {
      assert Exclusive(s, d, e);
      if d in s.callers { assert CallerOk(s, d); }
      if e in s.callers { assert CallerOk(s, e); }
    }
  }

  lemma UnlockKeepsInv(s: State, c: nat)
    requires Inv(s) && Enabled(s, Unlock(c))
    ensures Inv(Apply(s, Unlock(c)))
  {
    var after := Apply(s, Unlock(c));
    forall i | i in after.locked
      ensures exists d :: HeldBy(after, i, d)
    {
      var d :| HeldBy(s, i, d);
      assert HeldBy(after, i, d);
    }
    forall d | d in after.callers
      ensures CallerOk(after, d)
    {
      assert CallerOk(s, d) && Exclusive(s, c, d);
    }
    forall d, e
      ensures Exclusive(after, d, e)
    {
      assert Exclusive(s, d, e);
    }
  }

  lemma {:induction false} RunKeepsInv(s: State, log: seq<Event>)
    requires Inv(s) && Legal(s, log)
    ensures Inv(Replay(s, log))
    decreases |log|
  {
    if log != [] {
      match log[0] {
        case Arrive(c, id) => AttemptKeepsInv(s, c, id);
        case Retry(c) => AttemptKeepsInv(s, c, s.callers[c].id);
        case Unlock(c) => UnlockKeepsInv(s, c);
      }
      RunKeepsInv(Apply(s, log[0]), log[1..]);
    }
  }

  /**
   * After every run: an ID is locked exactly when it has a holder, and then exactly one; no caller sleeps for an
   * ID that is free; and unlocking never finds its ID unlocked.
   */
  lemma MutualExclusion(s: State, log: seq<Event>, id: string)
    requires Start(s) && Legal(s, log)
    ensures var t := Replay(s, log);
      && (id in t.locked <==> exists c :: HeldBy(t, id, c))
      && (forall c, d :: HeldBy(t, id, c) && HeldBy(t, id, d) ==> c == d)
      && (forall c :: c in t.callers && t.callers[c] == Asleep(id) ==> id in t.locked)
      && (forall c :: Enabled(t, Unlock(c)) ==> t.callers[c].id in t.locked)
  {
    RunKeepsInv(s, log);
    var t := Replay(s, log);
    forall c | c in t.callers
      ensures CallerOk(t, c)
    {
    }
    forall c, d | HeldBy(t, id, c) && HeldBy(t, id, d)
      ensures c == d
    {
      assert Exclusive(t, c, d);
    }
  }

  /** Callers with different IDs do not wait for each other. */
  lemma OthersDoNotWait(s: State, log: seq<Event>, e: Event, id: string)
    requires Start(s) && Legal(s, log) && Enabled(Replay(s, log), e)
    requires e == Arrive(e.c, id) || (e == Retry(e.c) && Replay(s, log).callers[e.c].id == id)
    ensures HeldBy(Apply(Replay(s, log), e), id, e.c) <==> forall c :: !HeldBy(Replay(s, log), id, c)
  {
    MutualExclusion(s, log, id);
  }

  /** A release leaves nobody asleep, so every caller that waited for the ID looks again. */
  lemma ReleaseWakesAll(s: State, c: nat)
    requires Enabled(s, Unlock(c))
    ensures var after := Apply(s, Unlock(c));
      forall d :: d in s.callers && s.callers[d].Asleep? ==> d in after.callers && Enabled(after, Retry(d))
  {
    var after := Apply(s, Unlock(c));
    forall d | d in s.callers && s.callers[d].Asleep?
      ensures d in after.callers && Enabled(after, Retry(d))
    {
      assert after.callers[d] == Wake(s.callers[d]);
    }
  }

  // ---------------------------------------------------------------- the monitor's own code

  class LockByID {
    var locked: set<string>

    constructor ()
      ensures locked == {}
    {
      locked := {};
    }

    /** One pass through the loop of LockByID; false means that the caller goes to sleep. */
    method TryLock(id: string, ghost s: State, ghost c: nat) returns (taken: bool)
      requires locked == s.locked
      modifies this
      ensures locked == Attempt(s, c, id).locked
      ensures taken <==> Attempt(s, c, id).callers == s.callers[c := Holding(id)]
    {
      taken := id !in locked;
      if taken {
        locked := locked + {id};
      }
      assert Attempt(s, c, id).callers[c] == if taken then Holding(id) else Asleep(id);
    }

    method UnlockByID(id: string, ghost s: State, ghost c: nat)
      requires locked == s.locked && Inv(s) && HeldBy(s, id, c)
      modifies this
      ensures old(id in locked) && locked == Apply(s, Unlock(c)).locked
    {
      assert CallerOk(s, c);
      locked := locked - {id};
    }
  }
}
