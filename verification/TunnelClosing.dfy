/**
 * Which connections of a tunnel session are still open to its streams: closeStream and closeAll of
 * agent/main.go over every interleaving.
 */
module TunnelClosing {
  import opened Wrappers
  import opened TunnelSession
  import opened Tunnel
  import opened TunnelLaws

  /** The step closes the stream: for its pump, for the reader, for the broker, or with all others. */
  predicate Drops(s: State, a: Action, id: StreamId)
    requires Enabled(s, a)
  {
    match a
    case PumpCloses(h) => s.sockets[h].id == id
    case ReaderCloses => s.reader.id == id
    case BrokerCloses(other) => other == id
    case ClosesAll => true
    case _ => false
  }

  /** No step of the run since socket h was registered closed its stream. */
  ghost predicate NeverClosed(actions: seq<Action>, h: nat)
    requires IsRun(actions)
    decreases |actions|
  {
    actions == []
    || (var before := actions[..|actions| - 1];
        var s, a := After(before), actions[|actions| - 1];
        NeverClosed(before, h) && (h < |s.sockets| ==> !Drops(s, a, s.sockets[h].id)))
  }

  // ---------------------------------------------------------------- one step

  lemma {:induction false} DroppedExactly(s: State, id: StreamId, h: nat)
    requires TablesOk(s) && DistinctIds(s) && h < |s.sockets|
    ensures |Dropped(s, id).sockets| == |s.sockets|
    ensures Dropped(s, id).sockets[h].until.None? <==> s.sockets[h].until.None? && s.sockets[h].id != id
  {
    assert SocketListed(s, h);
    if id in s.core.streams { assert StreamBacked(s, id); }
  }

  lemma {:induction false} AllDroppedExactly(s: State, h: nat)
    requires TablesOk(s) && h < |s.sockets|
    ensures AllDropped(s)[h].until.Some?
  {
    assert SocketListed(s, h);
  }

  lemma {:induction false} OtherStepDropsNone(s: State, a: Action, h: nat)
    requires Enabled(s, a) && h < |s.sockets|
    requires !a.PumpCloses? && !a.ReaderCloses? && !a.BrokerCloses? && !a.ClosesAll?
    ensures h < |Act(s, a).sockets| && Act(s, a).sockets[h].until == s.sockets[h].until
  {
  }

  /** A socket stays undropped in a step exactly if the step does not close its stream. */
  lemma {:induction false} StepDropsExactly(s: State, a: Action, h: nat)
    requires TablesOk(s) && DistinctIds(s) && Enabled(s, a) && h < |s.sockets|
    ensures h < |Act(s, a).sockets|
    ensures Act(s, a).sockets[h].until.None? <==> s.sockets[h].until.None? && !Drops(s, a, s.sockets[h].id)
  {
    match a
    case PumpCloses(g) => DroppedExactly(s, s.sockets[g].id, h);
    case ReaderCloses => DroppedExactly(s, s.reader.id, h);
    case BrokerCloses(id) => DroppedExactly(s, id, h);
    case ClosesAll => AllDroppedExactly(s, h);
    case _ => OtherStepDropsNone(s, a, h);
  }

  // ---------------------------------------------------------------- every run

  lemma {:induction false} NotYetThere(actions: seq<Action>, h: nat)
    requires IsRun(actions) && h >= |After(actions).sockets|
    ensures NeverClosed(actions, h)
  {
    if actions != [] {
      var before := actions[..|actions| - 1];
      OnlyDialsAddSockets(After(before), actions[|actions| - 1]);
      NotYetThere(before, h);
    }
  }

  /** In every interleaving a socket is undropped exactly if no step since its registration closed its stream. */
  lemma {:induction false} UndroppedExactly(actions: seq<Action>, h: nat)
    requires IsRun(actions) && h < |After(actions).sockets|
    ensures After(actions).sockets[h].until.None? <==> NeverClosed(actions, h)
  {
    if actions != [] {
      var before := actions[..|actions| - 1];
      var s, a := After(before), actions[|actions| - 1];
      RunKeepsInv(before);
      OnlyDialsAddSockets(s, a);
      if h < |s.sockets| {
        UndroppedExactly(before, h);
        StepDropsExactly(s, a, h);
      } else {
        NotYetThere(before, h);
      }
    }
  }

  lemma {:induction false} RunPrefix(before: seq<Action>, later: seq<Action>)
    requires IsRun(before + later)
    ensures IsRun(before) && |After(before).sockets| <= |After(before + later).sockets|
    decreases |later|
  {
    if later == [] {
      assert before + later == before;
    } else {
      var n := |later| - 1;
      assert (before + later)[..|before + later| - 1] == before + later[..n];
      RunPrefix(before, later[..n]);
      OnlyDialsAddSockets(After(before + later[..n]), later[n]);
    }
  }

  lemma {:induction false} ClosedStaysClosed(before: seq<Action>, later: seq<Action>, h: nat)
    requires IsRun(before + later) && IsRun(before) && !NeverClosed(before, h)
    ensures !NeverClosed(before + later, h)
    decreases |later|
  {
    if later == [] {
      assert before + later == before;
    } else {
      var n := |later| - 1;
      assert (before + later)[..|before + later| - 1] == before + later[..n];
      ClosedStaysClosed(before, later[..n], h);
    }
  }

  /**
   * What a closeAll leaves: the undropped sockets of a run that contains one are exactly those whose
   * dial came through after it and whose stream no later step closed. Those dialled before are dropped.
   */
  lemma {:induction false} LeftAfterCloseAll(before: seq<Action>, later: seq<Action>, h: nat)
    requires IsRun(before + [ClosesAll] + later) && h < |After(before + [ClosesAll] + later).sockets|
    ensures IsRun(before)
    ensures After(before + [ClosesAll] + later).sockets[h].until.None?
            <==> h >= |After(before).sockets| && NeverClosed(before + [ClosesAll] + later, h)
  {
    var through := before + [ClosesAll];
    RunPrefix(through, later);
    RunPrefix(before, [ClosesAll]);
    UndroppedExactly(through + later, h);
    if h < |After(before).sockets| {
      assert through[..|before|] == before;
      ClosedStaysClosed(through, later, h);
    }
  }

  /** Such a socket: the stream was being dialled when everything was closed. */
  lemma {:induction false} DialOutlivesCloseAll(id: StreamId, port: int)
    ensures var actions := [OpenStream(id, true, port)] + [ClosesAll] + [DialSucceeded(id)];
            && IsRun(actions) && After(actions).core.quit
            && After(actions).sockets == [Socket(id, port, [], [], 0, None, false)]
            && AnyOnPort(After(actions).core, port)
  {
    var first := [OpenStream(id, true, port)];
    var second := first + [ClosesAll];
    var actions := second + [DialSucceeded(id)];
    assert first[..0] == [] && second[..1] == first && actions[..2] == second;
    assert IsRun([]) && After([]) == INITIAL;
    var s1 := Act(INITIAL, OpenStream(id, true, port));
    assert IsRun(first) && After(first) == s1;
    var s2 := Act(s1, ClosesAll);
    assert IsRun(second) && After(second) == s2 && s2.sockets == [];
    assert Enabled(s2, DialSucceeded(id));
    var c := After(actions).core;
    assert id in c.streamPorts && c.streamPorts[id] == port && c.streamPorts[id] in c.streamPorts.Values;
  }
}
