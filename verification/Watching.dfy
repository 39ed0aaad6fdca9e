/**
 * Watchers of lvmd and the coalescing notifications they get. Registering, unregistering and notifying exclude
 * each other; receiving from a one-slot channel and reading LVM do not wait for anybody.
 */
module Watching {

  /** Where a call of Watch is: before reading LVM, before sending what it read, waiting for its channel, or on its way out. */
  datatype Phase = ToRead | ToSend | Waiting | Leaving

  /** lastRead is the version of LVM that the call has seen; told is the newest version it was notified of. */
  datatype Session = Session(phase: Phase, lastRead: nat, told: nat)

  /** Who holds the lock of the watchers for longer than one step. */
  datatype Notifier = Idle | Notifying(version: nat, pending: set<nat>)

  /** Versions count the changes of LVM; notified is the newest version for which notifying is complete. */
  datatype State = State(
    version: nat, counter: nat, channels: map<nat, bool>, sessions: map<nat, Session>, used: set<nat>,
    notifier: Notifier, notified: nat)

  datatype Event =
    | Change
    | Register
    | Unregister(num: nat)
    | BeginNotify
    | NotifyOne(num: nat)
    | EndNotify
    | Receive(num: nat)
    | Read(num: nat)
    | Sent(num: nat)
    | Stop(num: nat)

  const START := State(0, 0, map[], map[], {}, Idle, 0)

  predicate In(s: State, num: nat, phase: Phase) {
    num in s.sessions && s.sessions[num].phase == phase
  }

  predicate Enabled(s: State, e: Event) {
    match e
    case Change => true
    case Register => s.notifier.Idle?
    case Unregister(num) => s.notifier.Idle? && In(s, num, Leaving)
    case BeginNotify => s.notifier.Idle?
    case NotifyOne(num) => s.notifier.Notifying? && num in s.notifier.pending
    case EndNotify => s.notifier.Notifying? && s.notifier.pending == {}
    case Receive(num) => In(s, num, Waiting) && num in s.channels && s.channels[num]
    case Read(num) => In(s, num, ToRead)
    case Sent(num) => In(s, num, ToSend)
    case Stop(num) => num in s.sessions && s.sessions[num].phase != Leaving
  }

  function Max(a: nat, b: nat): nat { if a < b then b else a }

  function Move(s: State, num: nat, phase: Phase): map<nat, Session>
    requires num in s.sessions
  {
    s.sessions[num := s.sessions[num].(phase := phase)]
  }

  function Apply(s: State, e: Event): State
    requires Enabled(s, e)
  {
    match e
    case Change => s.(version := s.version + 1)
    case Register =>
      s.(counter := s.counter + 1, channels := s.channels[s.counter := false],
         sessions := s.sessions[s.counter := Session(ToRead, 0, 0)], used := s.used + {s.counter})
    case Unregister(num) => s.(channels := s.channels - {num}, sessions := s.sessions - {num})
    case BeginNotify => s.(notifier := Notifying(s.version, s.channels.Keys))
    case NotifyOne(num) =>
      var marked := if num in s.sessions then s.sessions[num := s.sessions[num].(told := Max(s.sessions[num].told, s.notifier.version))] else s.sessions;
      s.(channels := s.channels[num := true], sessions := marked,
         notifier := Notifying(s.notifier.version, s.notifier.pending - {num}))
    case EndNotify => s.(notifier := Idle, notified := Max(s.notified, s.notifier.version))
    case Receive(num) => s.(channels := s.channels[num := false], sessions := Move(s, num, ToRead))
    case Read(num) => s.(sessions := s.sessions[num := s.sessions[num].(phase := ToSend, lastRead := s.version)])
    case Sent(num) => s.(sessions := Move(s, num, Waiting))
    case Stop(num) => s.(sessions := Move(s, num, Leaving))
  }

  ghost predicate Legal(log: seq<Event>)
    decreases |log|, 0
  {
    log == [] || (Legal(log[..|log| - 1]) && Enabled(Replay(log[..|log| - 1]), log[|log| - 1]))
  }

  /** The state after a run. */
  ghost function Replay(log: seq<Event>): State
    requires Legal(log)
    decreases |log|, 1
  {
    if log == [] then START else Apply(Replay(log[..|log| - 1]), log[|log| - 1])
  }

  /** A signal is on its way: the slot is full, or the watcher is between receiving and reading. */
  predicate Signalled(s: State, num: nat)
    requires num in s.sessions
  {
    (num in s.channels && s.channels[num]) || s.sessions[num].phase in {ToRead, Leaving}
  }

  ghost predicate SessionOk(s: State, num: nat)
    requires num in s.sessions
  {
    var w := s.sessions[num];
    && num in s.channels && num in s.used
    && w.lastRead <= s.version && w.told <= s.version
    && (w.told > w.lastRead ==> Signalled(s, num))
    && (s.notified > w.lastRead ==> Signalled(s, num))
    && (s.notifier.Notifying? && num !in s.notifier.pending ==> s.notifier.version <= w.told)
  }

  ghost predicate Inv(s: State) {
    && s.sessions.Keys == s.channels.Keys
    && (forall n :: n in s.used ==> n < s.counter)
    && s.notified <= s.version
    && (s.notifier.Notifying? ==> s.notifier.version <= s.version && s.notifier.pending <= s.channels.Keys)
    && (forall n :: n in s.sessions ==> SessionOk(s, n))
  }

  lemma StepKeepsSession(s: State, e: Event, n: nat)
    requires Inv(s) && Enabled(s, e) && n in Apply(s, e).sessions
    ensures SessionOk(Apply(s, e), n)
  {
    if n in s.sessions {
      assert SessionOk(s, n);
    }
  }

  lemma StepKeepsInv(s: State, e: Event)
    requires Inv(s) && Enabled(s, e)
    ensures Inv(Apply(s, e))
  {
    forall n | n in Apply(s, e).sessions
      ensures SessionOk(Apply(s, e), n)
    {
      StepKeepsSession(s, e, n);
    }
  }

  lemma {:induction false} RunKeepsInv(log: seq<Event>)
    requires Legal(log)
    ensures Inv(Replay(log))
    decreases |log|
  {
    if log != [] {
      RunKeepsInv(log[..|log| - 1]);
      StepKeepsInv(Replay(log[..|log| - 1]), log[|log| - 1]);
    }
  }

  /**
   * After every run, a watcher that has not seen the newest notified change has its slot full or is about to
   * read; so one that waits on an empty channel has seen it.
   */
  lemma NoChangeIsLost(log: seq<Event>, num: nat)
    requires Legal(log) && num in Replay(log).sessions && Replay(log).sessions[num].phase != Leaving
    ensures var s := Replay(log); var w := s.sessions[num];
      && num in s.channels
      && (s.notified > w.lastRead ==> s.channels[num] || w.phase == ToRead)
      && (w.phase == Waiting && !s.channels[num] ==> w.lastRead >= s.notified)
  {
    RunKeepsInv(log);
    assert SessionOk(Replay(log), num);
  }

  /** Unregistering always finds its number, and a new number was never used before. */
  lemma NumbersAreSafe(log: seq<Event>, e: Event)
    requires Legal(log) && Enabled(Replay(log), e)
    ensures e.Unregister? ==> e.num in Replay(log).channels
    ensures e.Register? ==> Replay(log).counter !in Replay(log).used && Replay(log).counter !in Replay(log).channels
  {
    RunKeepsInv(log);
    var s := Replay(log);
    forall n | n in s.channels
      ensures n in s.used
    {
      assert SessionOk(s, n);
    }
  }

  // ---------------------------------------------------------------- the service's own code

  /** A channel that holds at most one signal. */
  class Channel {
    var full: bool

    constructor ()
      ensures !full
    {
      full := false;
    }

    /** Sends if the slot is free, and otherwise leaves the signal that is there. */
    method TrySend()
      modifies this
      ensures full
    {
      if !full {
        full := true;
      }
    }
  }

  lemma Extend(log: seq<Event>, e: Event)
    requires Legal(log) && Enabled(Replay(log), e)
    ensures Legal(log + [e]) && Replay(log + [e]) == Apply(Replay(log), e)
  {
    assert (log + [e])[..|log|] == log;
  }

  class Watchers {
    var watcherCounter: nat
    var watchers: map<nat, Channel>
    ghost var log: seq<Event>

    /** The counter, the registered numbers and what is in their slots are those after a run. */
    ghost predicate Valid()
      reads this, watchers.Values
    {
      Legal(log) && Matches(Replay(log))
    }

    ghost predicate Matches(s: State)
      reads this, watchers.Values
    {
      && watcherCounter == s.counter && watchers.Keys == s.channels.Keys
      && (forall n :: n in watchers ==> watchers[n].full == s.channels[n])
      && (forall m, n :: m in watchers && n in watchers && watchers[m] == watchers[n] ==> m == n)
    }

    constructor ()
      ensures Valid() && watchers == map[] && log == []
    {
      watcherCounter, watchers, log := 0, map[], [];
    }

    /** The caller brings a new channel. */
    method AddWatcher(ch: Channel) returns (num: nat)
      requires Valid() && Enabled(Replay(log), Register) && !ch.full && ch !in watchers.Values
      modifies this
      ensures Valid() && log == old(log) + [Register]
      ensures num == old(watcherCounter) && num !in old(watchers) && watchers == old(watchers)[num := ch]
    {
      Extend(log, Register);
      NumbersAreSafe(log, Register);
      num := watcherCounter;
      watcherCounter := watcherCounter + 1;
      forall n | n in watchers
        ensures watchers[n] != ch
      {
        assert watchers[n] in watchers.Values;
      }
      watchers := watchers[num := ch];
      log := log + [Register];
    }

    /** A call of Watch that is on its way out takes its watcher with it. */
    method RemoveWatcher(num: nat)
      requires Valid() && Enabled(Replay(log), Unregister(num))
      modifies this
      ensures Valid() && log == old(log) + [Unregister(num)]
      ensures num in old(watchers) && watchers == old(watchers) - {num} && watcherCounter == old(watcherCounter)
    {
      Extend(log, Unregister(num));
      NumbersAreSafe(log, Unregister(num));
      watchers := watchers - {num};
      log := log + [Unregister(num)];
    }

    /** Notifying is under way and has these watchers left. */
    ghost predicate Under(version: nat, left: set<nat>)
      reads this, watchers.Values
    {
      && Valid() && Replay(log).version == version && Replay(log).notifier == Notifying(version, left)
      && (forall n :: n in watchers && n !in left ==> watchers[n].full)
    }

    method NotifyOne(num: nat, ghost version: nat, ghost left: set<nat>)
      requires Under(version, left) && num in left && num in watchers
      modifies `log, watchers[num]
      ensures Under(version, left - {num}) && log == old(log) + [Event.NotifyOne(num)]
    {
      Extend(log, Event.NotifyOne(num));
      watchers[num].TrySend();
      log := log + [Event.NotifyOne(num)];
    }

    ghost method Begin()
      requires Valid() && Enabled(Replay(log), BeginNotify)
      modifies `log
      ensures Under(old(Replay(log).version), watchers.Keys) && log == old(log) + [BeginNotify]
    {
      Extend(log, BeginNotify);
      log := log + [BeginNotify];
    }

    ghost method End(version: nat)
      requires Under(version, {})
      modifies `log
      ensures Valid() && log == old(log) + [EndNotify] && Replay(log).notifier.Idle?
      ensures Replay(log).version == version <= Replay(log).notified
      ensures forall n :: n in watchers ==> watchers[n].full
    {
      Extend(log, EndNotify);
      log := log + [EndNotify];
    }

    method NotifyAll(ghost version: nat)
      requires Under(version, watchers.Keys)
      modifies `log, watchers.Values
      ensures Under(version, {}) && old(log) <= log
    {
      var all, left := watchers, watchers.Keys;
      while left != {}
        invariant watchers == all && left <= all.Keys
        invariant old(log) <= log
        invariant Under(version, left)
        decreases left
      {
        var n :| n in left;
        assert all[n] in all.Values;
        NotifyOne(n, version, left);
        left := left - {n};
      }
    }

    /** Every watcher ends up with a signal in its slot, and the change that was there is notified. */
    method NotifyWatchers()
      requires Valid() && Enabled(Replay(log), BeginNotify)
      modifies `log, watchers.Values
      ensures Valid() && old(log) <= log && Replay(log).notifier.Idle?
      ensures Replay(log).version == old(Replay(log).version) <= Replay(log).notified
      ensures forall n :: n in watchers ==> watchers[n].full
    {
      ghost var version := Replay(log).version;
      Begin();
      NotifyAll(version);
      End(version);
    }

    /** A waiting call of Watch takes the signal out of its channel. */
    method Receive(num: nat)
      requires Valid() && num in watchers && Enabled(Replay(log), Event.Receive(num))
      modifies `log, watchers[num]
      ensures Valid() && log == old(log) + [Event.Receive(num)] && old(watchers[num].full) && !watchers[num].full
    {
      Extend(log, Event.Receive(num));
      watchers[num].full := false;
      log := log + [Event.Receive(num)];
    }

    /** What happens without the watchers: LVM changes, and calls of Watch read, send and stop. */
    ghost method Elsewhere(e: Event)
      requires Valid() && Enabled(Replay(log), e) && (e.Change? || e.Read? || e.Sent? || e.Stop?)
      modifies `log
      ensures Valid() && log == old(log) + [e]
    {
      Extend(log, e);
      log := log + [e];
    }

    /** A call of Watch that waits on an empty channel has seen the newest change that was notified. */
    lemma WaitsUpToDate(num: nat)
      requires Valid() && In(Replay(log), num, Waiting) && num in watchers && !watchers[num].full
      ensures Replay(log).sessions[num].lastRead >= Replay(log).notified
    {
      NoChangeIsLost(log, num);
    }
  }
}
