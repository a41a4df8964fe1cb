/**
 * One agent session as a whole: the tunnel's steps and those of the desk table and its watchdogs,
 * interleaved. A watchdog that wakes up asks the tunnel's tables for streams on its port, and sees
 * the tunnel's quit (agent/main.go).
 */
module DesksOverTunnel {
  import opened Wrappers
  import opened TunnelSession
  import T = Tunnel
  import L = TunnelLaws
  import D = Desks

  datatype World = World(tunnel: T.State, desks: D.State)

  datatype Action = OfTunnel(step: T.Action) | OfDesk(act: D.Action)

  const INITIAL := World(T.INITIAL, D.INITIAL)

  /** What the desks see of the tunnel: the ports of its streams, and whether it has quit. */
  function Seen(w: World): D.State {
    w.desks.(busyPorts := w.tunnel.core.streamPorts.Values, quit := w.desks.quit || w.tunnel.core.quit)
  }

  predicate Enabled(w: World, a: Action) {
    match a
    case OfTunnel(step) => T.Enabled(w.tunnel, step)
    case OfDesk(act) => !act.Streams? && !act.Quit? && D.Enabled(Seen(w), act)
  }

  function Act(w: World, a: Action): World
    requires Enabled(w, a)
  {
    match a
    case OfTunnel(step) => w.(tunnel := T.Act(w.tunnel, step))
    case OfDesk(act) => w.(desks := D.Act(Seen(w), act))
  }

  ghost predicate IsRun(actions: seq<Action>)
    decreases |actions|, 0
  {
    actions == []
    || (IsRun(actions[..|actions| - 1]) && Enabled(After(actions[..|actions| - 1]), actions[|actions| - 1]))
  }

  ghost function After(actions: seq<Action>): World
    requires IsRun(actions)
    decreases |actions|, 1
  {
    if actions == [] then INITIAL else Act(After(actions[..|actions| - 1]), actions[|actions| - 1])
  }

  /** Seen from either side, a joint run is a run of that side. */
  lemma {:induction false} Sides(actions: seq<Action>) returns (steps: seq<T.Action>, acts: seq<D.Action>)
    requires IsRun(actions)
    ensures T.IsRun(steps) && After(actions).tunnel == T.After(steps)
    ensures D.IsRun(acts) && After(actions).desks == D.After(acts)
  {
    if actions == [] { return [], []; }
    var before, a := After(actions[..|actions| - 1]), actions[|actions| - 1];
    steps, acts := Sides(actions[..|actions| - 1]);
    match a
    case OfTunnel(step) => steps := OneMoreStep(steps, step);
    case OfDesk(act) =>
      acts := SeenRun(before, acts);
      D.RunSnoc(acts, act);
      acts := acts + [act];
  }

  lemma {:induction false} OneMoreStep(steps: seq<T.Action>, step: T.Action) returns (longer: seq<T.Action>)
    requires T.IsRun(steps) && T.Enabled(T.After(steps), step)
    ensures T.IsRun(longer) && T.After(longer) == T.Act(T.After(steps), step)
  {
    longer := steps + [step];
    assert longer[..|steps|] == steps;
  }

  lemma {:induction false} SeenRun(w: World, acts: seq<D.Action>) returns (longer: seq<D.Action>)
    requires D.IsRun(acts) && w.desks == D.After(acts)
    ensures D.IsRun(longer) && D.After(longer) == Seen(w)
  {
    var ports := w.tunnel.core.streamPorts.Values;
    assert D.Enabled(w.desks, D.Streams(ports));
    D.RunSnoc(acts, D.Streams(ports));
    longer := acts + [D.Streams(ports)];
    if w.tunnel.core.quit {
      assert D.Enabled(D.After(longer), D.Quit);
      D.RunSnoc(longer, D.Quit);
      longer := longer + [D.Quit];
    }
  }

  /** In every reachable state a watchdog finds a port busy exactly if an undropped socket is dialled to it. */
  lemma {:induction false} BusyExactly(actions: seq<Action>, port: int)
    requires IsRun(actions)
    ensures var sockets := After(actions).tunnel.sockets;
            port in Seen(After(actions)).busyPorts
            <==> exists h :: 0 <= h < |sockets| && sockets[h].until.None? && sockets[h].port == port
  {
    var steps, _ := Sides(actions);
    L.TablesAgree(steps);
    assert AnyOnPort(After(actions).tunnel.core, port) <==> port in Seen(After(actions)).busyPorts;
  }

  /**
   * Whenever the idleness of a watchdog with a proper id takes a desk down, it is its own desk, and
   * no socket of the tunnel is then open toward that desk's port.
   */
  lemma {:induction false} IdleTeardownFindsNoSocket(actions: seq<Action>, watcher: string, id: string)
    requires IsRun(actions) && Enabled(After(actions), OfDesk(D.WakeUp(watcher))) && !D.Wildcard(watcher)
    requires id in After(actions).desks.table
    requires id !in Act(After(actions), OfDesk(D.WakeUp(watcher))).desks.table
    ensures var w := After(actions);
            && watcher == id && id in w.desks.ports && w.desks.table[id] == D.Desk(id, w.desks.ports[id])
            && forall h :: 0 <= h < |w.tunnel.sockets| && w.tunnel.sockets[h].until.None?
                 ==> w.tunnel.sockets[h].port != w.desks.ports[id]
  {
    var w := After(actions);
    var _, acts := Sides(actions);
    D.RunKeepsInv(acts);
    assert D.DeskOk(w.desks, id);
    BusyExactly(actions, w.desks.ports[id]);
  }
}
