/**
 * Remote-desktop sessions on the agent: the shared desk table (agent/desktop_linux.go) and the idle
 * watchdog that tears a desk down (agent/main.go). Times are in seconds.
 */
module Desks {
  import opened Wrappers

  const CONNECT_GRACE: int := 6 * 60
  const IDLE_TIMEOUT: int := 3 * 60

  datatype Desk = Desk(id: string, port: int)

  type Table = map<string, Desk>

  /** An empty id or a star stands for every desk. */
  predicate Wildcard(id: string) {
    id == "" || id == "*"
  }

  /** The keys a stop request for `id` takes out of the table. */
  function Victims(table: Table, id: string): set<string> {
    set k | k in table && (Wildcard(id) || k == id)
  }

  class DeskTable {
    var m: Table

    constructor ()
      ensures m == map[]
    {
      m := map[];
    }

    method RegisterDesk(d: Desk)
      modifies this
      ensures m == old(m)[d.id := d]
    {
      m := m[d.id := d];
    }

    /** Take the victims out under the lock; the caller then tears each of them down. */
    method StopDesktop(id: string) returns (victims: set<Desk>)
      modifies this
      ensures m == old(m) - Victims(old(m), id)
      ensures victims == set k | k in Victims(old(m), id) :: old(m)[k]
    {
      victims := {};
      var todo := m.Keys;
      ghost var gone: set<string> := {};
      while todo != {}
        invariant todo <= old(m).Keys && gone == Victims(old(m), id) - todo
        invariant m == old(m) - gone
        invariant victims == set k | k in gone :: old(m)[k]
        decreases todo
      {
        var k :| k in todo;
        todo := todo - {k};
        if id == "" || id == "*" || k == id {
          victims := victims + {m[k]};
          m := m - {k};
          gone := gone + {k};
        }
      }
    }
  }

  // ---------------------------------------------------------------- one watchdog

  /** A wake-up of the watchdog: the clock, whether a stream is open on its port, whether quit is closed. */
  datatype Tick = Tick(now: int, busy: bool, quit: bool)

  /** When the watchdog gives up: the idle timeout after the last busy tick, or the connect grace. */
  function Deadline(start: int, ticks: seq<Tick>): int {
    if ticks == [] then start + CONNECT_GRACE
    else
      var n := |ticks| - 1;
      if ticks[n].busy then ticks[n].now + IDLE_TIMEOUT else Deadline(start, ticks[..n])
  }

  datatype Ending = StillWatching | SessionGone(at: nat) | Idle(at: nat)

  predicate GoesOn(start: int, ticks: seq<Tick>, i: nat)
    requires i < |ticks|
  {
    !ticks[i].quit && (ticks[i].busy || ticks[i].now <= Deadline(start, ticks[..i]))
  }

  /** The watchdog's loop over its wake-ups: it ends at the first one that finds it gone or idle. */
  method WatchDesktopIdle(start: int, ticks: seq<Tick>) returns (ending: Ending)
    ensures ending.StillWatching? ==> forall i :: 0 <= i < |ticks| ==> GoesOn(start, ticks, i)
    ensures !ending.StillWatching? ==>
              && ending.at < |ticks| && !GoesOn(start, ticks, ending.at)
              && (forall i :: 0 <= i < ending.at ==> GoesOn(start, ticks, i))
              && (ending.SessionGone? <==> ticks[ending.at].quit)
  {
    var deadline := start + CONNECT_GRACE;
    for i := 0 to |ticks|
      invariant deadline == Deadline(start, ticks[..i])
      invariant forall j :: 0 <= j < i ==> GoesOn(start, ticks, j)
    {
      assert ticks[..i + 1][..i] == ticks[..i];
      if ticks[i].quit {
        return SessionGone(i);
      }
      if ticks[i].busy {
        deadline := ticks[i].now + IDLE_TIMEOUT;
      } else if ticks[i].now > deadline {
        return Idle(i);
      }
    }
    return StillWatching;
  }

  /**
   * At an idle ending nobody was connected at that tick, every earlier busy tick lies more than
   * three minutes back, and if there was none the start lies more than six minutes back.
   */
  lemma {:induction false} DeadlineBounds(start: int, ticks: seq<Tick>, now: int)
    requires forall i, j :: 0 <= i < j < |ticks| ==> ticks[i].now <= ticks[j].now
    ensures now > Deadline(start, ticks) <==>
              && (forall i :: 0 <= i < |ticks| && ticks[i].busy ==> now > ticks[i].now + IDLE_TIMEOUT)
              && ((forall i :: 0 <= i < |ticks| ==> !ticks[i].busy) ==> now > start + CONNECT_GRACE)
  {
    if ticks != [] && !ticks[|ticks| - 1].busy {
      var n := |ticks| - 1;
      DeadlineBounds(start, ticks[..n], now);
      assert forall i :: 0 <= i < n ==> ticks[..n][i] == ticks[i];
      if forall i :: 0 <= i < n ==> !ticks[..n][i].busy {
        assert forall i :: 0 <= i < |ticks| ==> !ticks[i].busy;
      }
    }
  }

  // ---------------------------------------------------------------- all watchdogs together

  /** A desk's watchdog: about to start, running since `start` with these wake-ups behind it, or over. */
  datatype Watch = Pending | Watching(start: int, ticks: seq<Tick>) | Over(start: int, ticks: seq<Tick>)

  datatype Cause = ByBroker(request: string) | ByIdle(watcher: string) | ByQuit(watcher: string)

  datatype Teardown = Teardown(cause: Cause, at: int)

  /** `torn` lists, for every desk ever registered, the teardowns it went through. */
  datatype State = State(
    now: int, quit: bool, busyPorts: set<int>, table: Table, ports: map<string, int>,
    watches: map<string, Watch>, torn: map<string, seq<Teardown>>)

  const INITIAL := State(0, false, {}, map[], map[], map[], map[])

  datatype Action =
    | Advance(seconds: nat)
    | Streams(busyPorts: set<int>)
    | Register(id: string, port: int)
    | StartWatch(id: string)
    | WakeUp(id: string)
    | SeeQuit(id: string)
    | BrokerStop(id: string)
    | Quit

  /** Desk ids are not reused; a watchdog acts only while it runs. */
  predicate Enabled(s: State, a: Action) {
    match a
    case Register(id, _) => id !in s.watches
    case StartWatch(id) => id in s.watches && s.watches[id].Pending?
    case WakeUp(id) => id in s.watches && id in s.ports && s.watches[id].Watching?
    case SeeQuit(id) => s.quit && id in s.watches && s.watches[id].Watching?
    case _ => true
  }

  function Stopped(s: State, id: string, cause: Cause): State {
    var victims := Victims(s.table, id);
    s.(table := s.table - victims,
       torn := map k | k in s.torn :: if k in victims then s.torn[k] + [Teardown(cause, s.now)] else s.torn[k])
  }

  /** Woken up, the watchdog finds its port unused and its deadline past. */
  predicate GivesUp(s: State, id: string)
    requires Enabled(s, WakeUp(id))
  {
    s.ports[id] !in s.busyPorts && s.now > Deadline(s.watches[id].start, s.watches[id].ticks)
  }

  function Act(s: State, a: Action): State
    requires Enabled(s, a)
  {
    match a
    case Advance(seconds) => s.(now := s.now + seconds)
    case Streams(busyPorts) => s.(busyPorts := busyPorts)
    case Register(id, port) =>
      s.(table := s.table[id := Desk(id, port)], ports := s.ports[id := port],
         watches := s.watches[id := Pending], torn := s.torn[id := []])
    case StartWatch(id) => s.(watches := s.watches[id := Watching(s.now, [])])
    case WakeUp(id) =>
      var w := s.watches[id];
      var tick := Tick(s.now, s.ports[id] in s.busyPorts, false);
      if GivesUp(s, id)
      then Stopped(s, id, ByIdle(id)).(watches := s.watches[id := Over(w.start, w.ticks + [tick])])
      else s.(watches := s.watches[id := Watching(w.start, w.ticks + [tick])])
    case SeeQuit(id) =>
      var w := s.watches[id];
      Stopped(s, id, ByQuit(id)).(watches := s.watches[id := Over(w.start, w.ticks)])
    case BrokerStop(id) => Stopped(s, id, ByBroker(id))
    case Quit => s.(quit := true)
  }

  ghost predicate IsRun(actions: seq<Action>)
    decreases |actions|, 0
  {
    actions == []
      || (IsRun(actions[..|actions| - 1]) && Enabled(After(actions[..|actions| - 1]), actions[|actions| - 1]))
  }

  ghost function After(actions: seq<Action>): State
    requires IsRun(actions)
    decreases |actions|, 1
  {
    if actions == [] then INITIAL else Act(After(actions[..|actions| - 1]), actions[|actions| - 1])
  }

  // ---------------------------------------------------------------- what every run keeps

  ghost predicate Chronological(w: Watch, now: int) {
    w.Pending? ||
    ((forall i, j :: 0 <= i < j < |w.ticks| ==> w.ticks[i].now <= w.ticks[j].now)
     && (forall i :: 0 <= i < |w.ticks| ==> w.ticks[i].now <= now))
  }

  /** The watchdog ended at time `at` finding its port unused past its deadline. */
  ghost predicate EndedIdle(w: Watch, at: int) {
    && w.Over? && w.ticks != []
    && var n := |w.ticks| - 1;
    && w.ticks[n] == Tick(at, false, false)
    && at > Deadline(w.start, w.ticks[..n])
  }

  ghost predicate CauseOk(watches: map<string, Watch>, id: string, t: Teardown) {
    match t.cause
    case ByBroker(request) => Wildcard(request) || request == id
    case ByIdle(w) => (Wildcard(w) || w == id) && w in watches && EndedIdle(watches[w], t.at)
    case ByQuit(w) => Wildcard(w) || w == id
  }

  /** A desk is in the table, untouched and watched, or out of it after one justified teardown. */
  ghost predicate DeskOk(s: State, id: string)
    requires id in s.watches && id in s.torn && id in s.ports
  {
    && Chronological(s.watches[id], s.now)
    && if id in s.table
       then s.table[id] == Desk(id, s.ports[id]) && s.torn[id] == [] && !s.watches[id].Over?
       else |s.torn[id]| == 1 && CauseOk(s.watches, id, s.torn[id][0])
  }

  ghost predicate Inv(s: State) {
    && s.table.Keys <= s.watches.Keys == s.torn.Keys == s.ports.Keys
    && forall id :: id in s.watches ==> DeskOk(s, id)
  }

  /** A finished watchdog stays as it ended, so what it justified stays justified. */
  lemma {:induction false} CausesPersist(s: State, a: Action, id: string, t: Teardown)
    requires Enabled(s, a) && CauseOk(s.watches, id, t)
    ensures CauseOk(Act(s, a).watches, id, t)
  {
  }

  /** What a stop does to one desk: nothing, or the one teardown with the given cause. */
  lemma {:induction false} StoppedDesk(s: State, request: string, cause: Cause, id: string)
    requires Inv(s) && id in s.watches
    ensures var s' := Stopped(s, request, cause);
            && s'.watches == s.watches && s'.ports == s.ports && s'.now == s.now
            && id in s'.torn && s'.torn.Keys == s.torn.Keys
            && (id in s'.table <==> id in s.table && !Wildcard(request) && request != id)
            && (id in s'.table ==> s'.table[id] == s.table[id])
            && s'.torn[id] == if id in s.table && id !in s'.table then [Teardown(cause, s.now)] else s.torn[id]
  {
    assert DeskOk(s, id);
  }

  lemma {:induction false} EndsIdle(s: State, id: string)
    requires Enabled(s, WakeUp(id)) && GivesUp(s, id)
    ensures EndedIdle(Act(s, WakeUp(id)).watches[id], s.now)
  {
    var w := s.watches[id];
    var all := w.ticks + [Tick(s.now, false, false)];
    assert all[..|all| - 1] == w.ticks;
  }

  /** Each desk stays in order over a step: the ones a stop may touch first, then the rest. */
  lemma {:induction false} QuietWakeUpKeepsDesk(s: State, w: string, id: string)
    requires Inv(s) && Enabled(s, WakeUp(w)) && !GivesUp(s, w) && id in s.watches
    ensures var s' := Act(s, WakeUp(w)); id in s'.torn && id in s'.ports && DeskOk(s', id)
  {
    assert DeskOk(s, id);
    if id !in s.table { CausesPersist(s, WakeUp(w), id, s.torn[id][0]); }
    if id == w { ChronologicalSnoc(s.watches[w], s.now, s.ports[w] in s.busyPorts); }
  }

  lemma {:induction false} ChronologicalSnoc(w: Watch, now: int, busy: bool)
    requires w.Watching? && Chronological(w, now)
    ensures Chronological(Watching(w.start, w.ticks + [Tick(now, busy, false)]), now)
    ensures Chronological(Over(w.start, w.ticks + [Tick(now, busy, false)]), now)
  {
  }

  lemma {:induction false} IdleWakeUpKeepsDesk(s: State, w: string, id: string)
    requires Inv(s) && Enabled(s, WakeUp(w)) && GivesUp(s, w) && id in s.watches
    ensures var s' := Act(s, WakeUp(w)); id in s'.torn && id in s'.ports && DeskOk(s', id)
  {
    var s' := Act(s, WakeUp(w));
    assert DeskOk(s, id);
    StoppedDesk(s, w, ByIdle(w), id);
    if id == w { ChronologicalSnoc(s.watches[w], s.now, false); }
    if id !in s.table {
      CausesPersist(s, WakeUp(w), id, s.torn[id][0]);
    } else if id !in s'.table {
      EndsIdle(s, w);
      assert CauseOk(s'.watches, id, Teardown(ByIdle(w), s.now));
    }
  }

  lemma {:induction false} StopKeepsDesk(s: State, a: Action, id: string)
    requires Inv(s) && Enabled(s, a) && id in s.watches && (a.SeeQuit? || a.BrokerStop?)
    ensures var s' := Act(s, a); id in s'.torn && id in s'.ports && DeskOk(s', id)
  {
    assert DeskOk(s, id);
    if id !in s.table { CausesPersist(s, a, id, s.torn[id][0]); }
    StoppedDesk(s, a.id, if a.SeeQuit? then ByQuit(a.id) else ByBroker(a.id), id);
  }

  lemma {:induction false} OtherActKeepsDesk(s: State, a: Action, id: string)
    requires Inv(s) && Enabled(s, a) && id in Act(s, a).watches && !a.WakeUp? && !a.SeeQuit? && !a.BrokerStop?
    ensures var s' := Act(s, a); id in s'.torn && id in s'.ports && DeskOk(s', id)
  {
    if id in s.watches {
      assert DeskOk(s, id);
      if id !in s.table { CausesPersist(s, a, id, s.torn[id][0]); }
    }
  }

  lemma {:induction false} ActKeepsKeys(s: State, a: Action)
    requires Inv(s) && Enabled(s, a)
    ensures var s' := Act(s, a); s'.table.Keys <= s'.watches.Keys == s'.torn.Keys == s'.ports.Keys
    ensures a.WakeUp? || a.SeeQuit? || a.BrokerStop? ==> Act(s, a).watches.Keys == s.watches.Keys
  {
    match a
    case WakeUp(id) => StoppedKeys(s, id, ByIdle(id));
    case SeeQuit(id) => StoppedKeys(s, id, ByQuit(id));
    case BrokerStop(id) => StoppedKeys(s, id, ByBroker(id));
    case _ =>
  }

  lemma {:induction false} StoppedKeys(s: State, id: string, cause: Cause)
    ensures var s' := Stopped(s, id, cause);
            s'.table.Keys <= s.table.Keys && s'.watches == s.watches && s'.torn.Keys == s.torn.Keys
              && s'.ports == s.ports
  {
  }

  lemma {:induction false} ActKeepsInv(s: State, a: Action)
    requires Inv(s) && Enabled(s, a)
    ensures Inv(Act(s, a))
  {
    var s' := Act(s, a);
    ActKeepsKeys(s, a);
    forall id | id in s'.watches ensures DeskOk(s', id) {
      if a.WakeUp? && GivesUp(s, a.id) { IdleWakeUpKeepsDesk(s, a.id, id); }
      else if a.WakeUp? { QuietWakeUpKeepsDesk(s, a.id, id); }
      else if a.SeeQuit? || a.BrokerStop? { StopKeepsDesk(s, a, id); }
      else { OtherActKeepsDesk(s, a, id); }
    }
  }

  lemma {:induction false} RunKeepsInv(actions: seq<Action>)
    requires IsRun(actions)
    ensures Inv(After(actions))
  {
    if actions != [] {
      RunKeepsInv(actions[..|actions| - 1]);
      ActKeepsInv(After(actions[..|actions| - 1]), actions[|actions| - 1]);
    }
  }

  // ---------------------------------------------------------------- the theorems

  /** In every run each desk is torn down at most once, and exactly when it is no longer in the table. */
  lemma {:induction false} TornDownAtMostOnce(actions: seq<Action>, id: string)
    requires IsRun(actions) && id in After(actions).watches
    ensures var s := After(actions);
            id in s.torn && |s.torn[id]| <= 1 && (|s.torn[id]| == 1 <==> id !in s.table)
  {
    RunKeepsInv(actions);
    assert DeskOk(After(actions), id);
  }

  /** Once the session has quit and its watchdogs have run, no desk is left. */
  lemma {:induction false} NoneLeftAfterQuit(actions: seq<Action>)
    requires IsRun(actions)
    requires forall id :: id in After(actions).watches ==> After(actions).watches[id].Over?
    ensures After(actions).table == map[]
  {
    RunKeepsInv(actions);
    var s := After(actions);
    assert forall id :: id in s.watches ==> DeskOk(s, id);
  }

  /** After a quit every running watchdog can take its last step, which ends it and clears its desk. */
  lemma {:induction false} QuitCanFinish(actions: seq<Action>, id: string)
    requires IsRun(actions) && After(actions).quit
    requires id in After(actions).watches && After(actions).watches[id].Watching?
    ensures var s := After(actions);
            Enabled(s, SeeQuit(id)) && Act(s, SeeQuit(id)).watches[id].Over? && id !in Act(s, SeeQuit(id)).table
  {
    RunKeepsInv(actions);
    StoppedDesk(After(actions), id, ByQuit(id), id);
  }

  /**
   * A desk torn down for idleness by a watchdog with a proper id was that watchdog's own; at that
   * wake-up no stream was open on its port, more than three minutes had passed since every wake-up
   * that saw one, and if none ever did, more than six minutes since the watchdog started.
   */
  lemma {:induction false} IdleTeardownIsJustified(actions: seq<Action>, id: string, watcher: string)
    requires IsRun(actions) && id in After(actions).torn && |After(actions).torn[id]| == 1
    requires After(actions).torn[id][0].cause == ByIdle(watcher) && !Wildcard(watcher)
    ensures var s := After(actions);
            var at := s.torn[id][0].at;
            && watcher == id && id in s.watches && s.watches[id].Over? && s.watches[id].ticks != []
            && var (start, ticks) := (s.watches[id].start, s.watches[id].ticks);
            && var n := |ticks| - 1;
            && ticks[n] == Tick(at, false, false)
            && (forall i :: 0 <= i < n && ticks[i].busy ==> at > ticks[i].now + IDLE_TIMEOUT)
            && ((forall i :: 0 <= i < n ==> !ticks[i].busy) ==> at > start + CONNECT_GRACE)
  {
    RunKeepsInv(actions);
    var s := After(actions);
    assert DeskOk(s, id);
    var w := s.watches[id];
    var before := w.ticks[..|w.ticks| - 1];
    DeadlineBounds(w.start, before, s.torn[id][0].at);
    assert forall i :: 0 <= i < |before| ==> before[i] == w.ticks[i];
  }

  // ---------------------------------------------------------------- exactly when idleness stays at home

  /** Position n of the run is a wake-up of this desk's watchdog that finds its port unused. */
  ghost predicate UnusedWakeUp(actions: seq<Action>, n: nat, id: string, at: int) {
    && n < |actions| && IsRun(actions[..n]) && actions[n] == WakeUp(id)
    && var s := After(actions[..n]);
    && id in s.ports && s.ports[id] !in s.busyPorts && s.now == at
  }

  /** The i-th teardown of the desk, in the last state of the run, was caused by the watcher's idleness. */
  ghost predicate TornByIdle(actions: seq<Action>, id: string, i: nat, watcher: string)
    requires IsRun(actions)
  {
    var s := After(actions);
    id in s.torn && i < |s.torn[id]| && s.torn[id][i].cause == ByIdle(watcher)
  }

  /** In every run this watcher's idleness only takes down its own desk, found unused at that wake-up. */
  ghost predicate IdleStaysHome(watcher: string) {
    forall actions: seq<Action>, id: string, i: nat :: IsRun(actions) && TornByIdle(actions, id, i, watcher) ==>
      watcher == id && exists n: nat :: UnusedWakeUp(actions, n, id, After(actions).torn[id][i].at)
  }

  lemma {:induction false} RunSnoc(actions: seq<Action>, a: Action)
    requires IsRun(actions) && Enabled(After(actions), a)
    ensures IsRun(actions + [a]) && After(actions + [a]) == Act(After(actions), a)
  {
    assert (actions + [a])[..|actions|] == actions;
  }

  /** An idle teardown happened at a wake-up of its watcher that gave up, with the desk among the victims. */
  ghost predicate GaveUpAt(actions: seq<Action>, n: nat, id: string, watcher: string, at: int) {
    && n < |actions| && IsRun(actions[..n]) && actions[n] == WakeUp(watcher)
    && var s := After(actions[..n]);
    && Enabled(s, WakeUp(watcher)) && GivesUp(s, watcher) && id in Victims(s.table, watcher) && s.now == at
  }

  lemma {:induction false} TornAtWakeUp(actions: seq<Action>, id: string, i: nat, watcher: string) returns (n: nat)
    requires IsRun(actions) && TornByIdle(actions, id, i, watcher)
    ensures GaveUpAt(actions, n, id, watcher, After(actions).torn[id][i].at)
  {
    var m := |actions| - 1;
    var before, a := actions[..m], actions[m];
    var s := After(before);
    RunKeepsInv(before);
    if TornByIdle(before, id, i, watcher) {
      n := TornAtWakeUp(before, id, i, watcher);
      assert before[..n] == actions[..n];
      TeardownsPersist(s, a, id, i);
    } else {
      n := m;
      NewTeardown(s, a, id, i, watcher);
    }
  }

  lemma {:induction false} TeardownsPersist(s: State, a: Action, id: string, i: nat)
    requires Inv(s) && Enabled(s, a) && id in s.torn && i < |s.torn[id]|
    ensures id in Act(s, a).torn && i < |Act(s, a).torn[id]| && Act(s, a).torn[id][i] == s.torn[id][i]
  {
  }

  /** A step that adds a teardown for idleness is a wake-up that gives up. */
  lemma {:induction false} NewTeardown(s: State, a: Action, id: string, i: nat, watcher: string)
    requires Inv(s) && Enabled(s, a) && id in Act(s, a).torn && i < |Act(s, a).torn[id]|
    requires Act(s, a).torn[id][i].cause == ByIdle(watcher)
    requires id in s.torn && i < |s.torn[id]| ==> s.torn[id][i].cause != ByIdle(watcher)
    ensures a == WakeUp(watcher) && GivesUp(s, watcher) && id in Victims(s.table, watcher)
    ensures Act(s, a).torn[id][i].at == s.now
  {
    match a
    case WakeUp(w) => if GivesUp(s, w) && id in s.torn { StoppedDesk(s, w, ByIdle(w), id); }
    case SeeQuit(w) => if id in s.torn { StoppedDesk(s, w, ByQuit(w), id); }
    case BrokerStop(w) => if id in s.torn { StoppedDesk(s, w, ByBroker(w), id); }
    case _ =>
  }

  /** With a wildcard for its id, an idle watchdog takes down every desk in the table, in use or not. */
  lemma {:induction false} WildcardDeskIdTakesOthersDown(s: State, watcher: string, id: string)
    requires Inv(s) && Enabled(s, WakeUp(watcher)) && id in s.table && Wildcard(watcher) && GivesUp(s, watcher)
    ensures var s' := Act(s, WakeUp(watcher));
            id in s'.torn && s'.torn[id] == [Teardown(ByIdle(watcher), s.now)] && s'.table == map[]
  {
    StoppedDesk(s, watcher, ByIdle(watcher), id);
    assert DeskOk(s, id);
  }

  /** A desk with a wildcard id, another desk in use, and six minutes gone by. */
  function StrayRun(watcher: string): seq<Action> {
    [Register(watcher, 1), Register("d", 2), StartWatch(watcher), Streams({2}), Advance(361)]
  }

  /** What the first steps of that run lead to. */
  lemma {:induction false} TwoDesks(watcher: string)
    requires watcher != "d"
    ensures IsRun(StrayRun(watcher)[..2])
    ensures After(StrayRun(watcher)[..2])
            == State(0, false, {}, map[watcher := Desk(watcher, 1), "d" := Desk("d", 2)], map[watcher := 1, "d" := 2],
                     map[watcher := Pending, "d" := Pending], map[watcher := [], "d" := []])
  {
    var r := StrayRun(watcher);
    assert r[..0] == [] && IsRun(r[..0]);
    assert r[..1][..0] == r[..0] && r[..2][..1] == r[..1];
    var s1 := Act(INITIAL, Register(watcher, 1));
    assert After(r[..1]) == s1;
    assert s1.table == map[watcher := Desk(watcher, 1)] && s1.ports == map[watcher := 1];
    assert s1.watches == map[watcher := Pending] && s1.torn == map[watcher := []];
    assert Enabled(s1, Register("d", 2)) && r[..2][1] == Register("d", 2);
    assert IsRun(r[..2]);
    assert After(r[..2]) == Act(s1, Register("d", 2));
  }

  lemma {:induction false} StrayRunReaches(watcher: string)
    requires Wildcard(watcher)
    ensures IsRun(StrayRun(watcher)) && watcher != "d"
    ensures var s := After(StrayRun(watcher));
            && Enabled(s, WakeUp(watcher)) && GivesUp(s, watcher)
            && "d" in s.table && s.ports == map[watcher := 1, "d" := 2] && s.busyPorts == {2}
  {
    var r := StrayRun(watcher);
    assert watcher != "d" by { assert "d"[0] == 'd'; }
    TwoDesks(watcher);
    assert r[..3][..2] == r[..2] && r[..4][..3] == r[..3] && r[..5][..4] == r[..4] && r[..5] == r;
    var s2 := After(r[..2]);
    var s3 := Act(s2, StartWatch(watcher));
    assert IsRun(r[..3]) && After(r[..3]) == s3;
    assert Enabled(s3, Streams({2})) && r[..4][3] == Streams({2});
    var s4 := Act(s3, Streams({2}));
    assert IsRun(r[..4]) && After(r[..4]) == s4;
    assert Enabled(s4, Advance(361)) && r[4] == Advance(361);
    assert IsRun(r) && After(r) == Act(s4, Advance(361));
  }

  /** The run in which a wildcard watcher's idleness tears down the desk that is in use. */
  lemma {:induction false} DeskInUseTornDown(watcher: string)
    requires Wildcard(watcher)
    ensures var actions := StrayRun(watcher) + [WakeUp(watcher)];
            && IsRun(StrayRun(watcher)) && After(StrayRun(watcher)).ports == map[watcher := 1, "d" := 2]
            && After(StrayRun(watcher)).busyPorts == {2}
            && IsRun(actions) && watcher != "d" && TornByIdle(actions, "d", 0, watcher)
  {
    StrayRunReaches(watcher);
    RunKeepsInv(StrayRun(watcher));
    WildcardDeskIdTakesOthersDown(After(StrayRun(watcher)), watcher, "d");
    RunSnoc(StrayRun(watcher), WakeUp(watcher));
  }

  /**
   * In every run an idle teardown hits the watchdog's own desk, at a wake-up that finds its port
   * unused, if and only if the watchdog's id is no wildcard.
   */
  lemma {:induction false} IdleStaysHomeExactly(watcher: string)
    ensures IdleStaysHome(watcher) <==> !Wildcard(watcher)
  {
    if Wildcard(watcher) {
      DeskInUseTornDown(watcher);
    } else {
      forall actions: seq<Action>, id: string, i: nat | IsRun(actions) && TornByIdle(actions, id, i, watcher)
        ensures watcher == id && exists n: nat :: UnusedWakeUp(actions, n, id, After(actions).torn[id][i].at)
      {
        var n := TornAtWakeUp(actions, id, i, watcher);
        assert UnusedWakeUp(actions, n, id, After(actions).torn[id][i].at);
      }
    }
  }
}
