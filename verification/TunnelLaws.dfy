/**
 * What every interleaving of the tunnel's steps keeps: bytes go through each stream once and in
 * order, in both directions, and each stream is closed toward the broker at most once.
 */
module TunnelLaws {
  import opened Wrappers
  import opened Bytes
  import opened TunnelSession
  import opened Tunnel

  // ---------------------------------------------------------------- the invariant

  /** The broker has asked for this stream and the opening goroutine is done with it. */
  predicate Settled(s: State, id: nat) {
    id in s.asked && id !in s.opening
  }

  /** The two stream tables name the same streams: exactly the sockets not yet dropped. */
  ghost predicate TablesOk(s: State) {
    && |s.pumps| == |s.sockets|
    && s.opening.Keys <= s.asked
    && s.core.streams.Keys == s.core.streamPorts.Keys
    && (forall h :: 0 <= h < |s.sockets| ==> SocketListed(s, h))
    && (forall id :: id in s.core.streams ==> StreamBacked(s, id))
  }

  ghost predicate SocketListed(s: State, h: nat)
    requires h < |s.sockets|
  {
    var k := s.sockets[h];
    && Settled(s, k.id)
    && (k.until.None? ==> k.id in s.core.streams)
    && (k.id in s.core.streams ==> s.core.streams[k.id] == h)
  }

  ghost predicate StreamBacked(s: State, id: StreamId)
    requires id in s.core.streams && id in s.core.streamPorts
  {
    var h := s.core.streams[id];
    && h < |s.sockets| && s.sockets[h].id == id && s.sockets[h].until.None?
    && s.core.streamPorts[id] == s.sockets[h].port
  }

  ghost predicate DistinctIds(s: State) {
    forall g, h :: 0 <= g < h < |s.sockets| ==> s.sockets[g].id != s.sockets[h].id
  }

  /** A frame that carries data of, or closes, a stream names a settled one. */
  ghost predicate FrameOk(s: State, f: Frame) {
    && (f.CloseStream? ==> Settled(s, f.id))
    && (f.Binary? && |f.data| >= 4 ==> Settled(s, Value(f.data[..4])))
  }

  ghost predicate QueueOk(s: State) {
    && |s.core.out| <= QUEUE_CAP
    && (!s.core.quit ==> s.wire + s.core.out == s.queued)
    && forall i :: 0 <= i < |s.queued| ==> FrameOk(s, s.queued[i])
  }

  ghost predicate ReaderOk(s: State) {
    match s.reader
    case Idle => true
    case Writing(h, _) => h < |s.sockets| && !s.sockets[h].failed
    case Failed(id) => Settled(s, id)
    case ReaderNotifying(id) => Settled(s, id)
  }

  /** What the pump has read but not yet put on the queue. */
  function Unsent(p: Pump): bytes {
    if p.Sending? then p.data else []
  }

  /** Until quit, every byte read is on the queue's history, in order, or in the pump's hands. */
  ghost predicate UpstreamOk(s: State, h: nat)
    requires h < |s.sockets| && h < |s.pumps|
  {
    s.core.quit || Carried(s.queued, s.sockets[h].id) + Unsent(s.pumps[h]) == s.sockets[h].read
  }

  /** The messages a socket is to be given: those received between its registration and its drop. */
  function Upto(s: State, k: Socket): nat {
    if k.until.Some? then k.until.value else |s.inbox|
  }

  function Due(s: State, k: Socket): bytes
    requires k.since <= Upto(s, k) <= |s.inbox|
  {
    Payloads(s.inbox[k.since..Upto(s, k)], k.id)
  }

  function InHand(s: State, h: nat): bytes {
    if s.reader.Writing? && s.reader.handle == h then s.reader.payload else []
  }

  /** Every message due has been written, in order, or is being written; up to a failed write. */
  ghost predicate DownstreamOk(s: State, h: nat)
    requires h < |s.sockets|
  {
    var k := s.sockets[h];
    && k.since <= Upto(s, k) <= |s.inbox|
    && (k.failed ==> (k.until.Some? || s.reader == Failed(k.id)) && k.written <= Due(s, k))
    && (!k.failed ==> k.written + InHand(s, h) == Due(s, k))
  }

  function Claims(s: State, h: nat, id: StreamId): nat
    requires h < |s.pumps|
  {
    (if s.pumps[h].Notifying? then 1 else 0) + if s.reader == ReaderNotifying(id) then 1 else 0
  }

  /** Close frames queued or about to be: none while the stream is in the table, at most one after. */
  ghost predicate NoticeOk(s: State, h: nat)
    requires h < |s.sockets| && h < |s.pumps|
  {
    var k := s.sockets[h];
    CloseCount(s.queued, k.id) + Claims(s, h, k.id) <= if k.until.Some? then 1 else 0
  }

  ghost predicate SocketsOk(s: State)
    requires |s.pumps| == |s.sockets|
  {
    forall h :: 0 <= h < |s.sockets| ==> UpstreamOk(s, h) && DownstreamOk(s, h) && NoticeOk(s, h)
  }

  ghost predicate Inv(s: State) {
    TablesOk(s) && DistinctIds(s) && QueueOk(s) && ReaderOk(s) && SocketsOk(s)
  }

  // ---------------------------------------------------------------- queueing a frame

  /** Queueing a frame extends every stream's data and close count by what the frame holds. */
  lemma {:induction false} PostedQueue(s: State, f: Frame, drop: bool)
    requires QueueOk(s) && CanPost(s, drop) && FrameOk(s, f)
    ensures QueueOk(Posted(s, f, drop))
    ensures forall id: nat :: Carried(Posted(s, f, drop).queued, id)
              == Carried(s.queued, id) + if !drop && DataFor(f, id) then f.data[4..] else []
    ensures forall id: nat :: CloseCount(Posted(s, f, drop).queued, id)
              == CloseCount(s.queued, id) + if !drop && f == CloseStream(id) then 1 else 0
  {
    forall id: nat
      ensures Carried(s.queued + [f], id) == Carried(s.queued, id) + if DataFor(f, id) then f.data[4..] else []
      ensures CloseCount(s.queued + [f], id) == CloseCount(s.queued, id) + if f == CloseStream(id) then 1 else 0
    {
      CarriedSnoc(s.queued, f, id);
    }
    forall id: nat ensures Carried(s.queued, id) + [] == Carried(s.queued, id) {
    }
    assert s.wire + (s.core.out + [f]) == s.wire + s.core.out + [f];
  }

  /** A stream not settled yet has neither data nor a close frame on the queue. */
  lemma {:induction false} NothingQueuedBefore(s: State, frames: seq<Frame>, id: nat)
    requires !Settled(s, id) && forall i :: 0 <= i < |frames| ==> FrameOk(s, frames[i])
    ensures Carried(frames, id) == [] && CloseCount(frames, id) == 0
  {
    if frames != [] {
      NothingQueuedBefore(s, frames[..|frames| - 1], id);
      assert FrameOk(s, frames[|frames| - 1]);
    }
  }

  /** The frame a step offers to the queue, if it offers one. */
  function Offered(s: State, a: Action): Option<Frame>
    requires Enabled(s, a)
  {
    match a
    case SendRefusal(id, _) => Some(StreamError(id))
    case Announce(h, _) => Some(StreamOpened(s.sockets[h].id))
    case SendData(h, _) => Some(DataFrame(s.sockets[h].id, s.pumps[h].data))
    case PumpNotifies(h, _) => Some(CloseStream(s.sockets[h].id))
    case ReaderNotifies(_) => Some(CloseStream(s.reader.id))
    case SendOther(_) => Some(Other)
    case _ => None
  }

  // ---------------------------------------------------------------- the tables

  /** A step that leaves both tables, and every socket's identity, alone. */
  ghost predicate SameTables(s: State, s': State) {
    && s'.core.streams == s.core.streams && s'.core.streamPorts == s.core.streamPorts
    && |s'.sockets| == |s.sockets| && |s'.pumps| == |s.pumps|
    && (forall h :: 0 <= h < |s.sockets| ==> SameSocket(s.sockets[h], s'.sockets[h]))
    && s.asked <= s'.asked && s'.opening.Keys <= s'.asked
    && (forall id :: id in s.asked && id !in s.opening ==> id !in s'.opening)
  }

  predicate SameSocket(k: Socket, k': Socket) {
    k'.id == k.id && k'.port == k.port && k'.until == k.until
  }

  lemma {:induction false} SameTablesKept(s: State, s': State)
    requires TablesOk(s) && SameTables(s, s')
    ensures TablesOk(s')
  {
    forall h | 0 <= h < |s'.sockets| ensures SocketListed(s', h) {
      assert SocketListed(s, h) && SameSocket(s.sockets[h], s'.sockets[h]);
    }
    forall id | id in s'.core.streams ensures StreamBacked(s', id) {
      assert StreamBacked(s, id);
      assert SameSocket(s.sockets[s.core.streams[id]], s'.sockets[s.core.streams[id]]);
    }
  }

  lemma {:induction false} DroppedKeepsTables(s: State, id: StreamId)
    requires TablesOk(s)
    ensures TablesOk(Dropped(s, id))
  {
    var s' := Dropped(s, id);
    if id in s.core.streams { assert StreamBacked(s, id); }
    forall h | 0 <= h < |s'.sockets| ensures SocketListed(s', h) {
      assert SocketListed(s, h);
    }
    forall other | other in s'.core.streams ensures StreamBacked(s', other) {
      assert StreamBacked(s, other);
    }
  }

  lemma {:induction false} ClosesAllKeepsTables(s: State)
    requires TablesOk(s)
    ensures TablesOk(Act(s, ClosesAll))
  {
    var s' := Act(s, ClosesAll);
    forall h | 0 <= h < |s'.sockets| ensures SocketListed(s', h) {
      assert SocketListed(s, h);
    }
  }

  lemma {:induction false} StreamIsSettled(s: State, id: StreamId)
    requires TablesOk(s) && id in s.core.streams
    ensures Settled(s, id)
  {
    assert StreamBacked(s, id);
    assert SocketListed(s, s.core.streams[id]);
  }

  lemma {:induction false} RegistrationKeepsTables(s: State, id: StreamId)
    requires TablesOk(s) && Enabled(s, DialSucceeded(id))
    ensures TablesOk(Act(s, DialSucceeded(id))) && id !in s.core.streams
  {
    var s' := Act(s, DialSucceeded(id));
    if id in s.core.streams {
      StreamIsSettled(s, id);
    }
    forall h | 0 <= h < |s'.sockets| ensures SocketListed(s', h) {
      if h < |s.sockets| { assert SocketListed(s, h); }
    }
    forall other | other in s'.core.streams ensures StreamBacked(s', other) {
      if other != id { assert StreamBacked(s, other); }
    }
  }

  predicate ChangesTables(a: Action) {
    a.DialSucceeded? || a.PumpCloses? || a.ReaderCloses? || a.BrokerCloses? || a.ClosesAll?
  }

  lemma {:induction false} LocalActsKeepTables(s: State, a: Action)
    requires TablesOk(s) && Enabled(s, a) && (a.ReadLocal? || a.WriteLocal?)
    ensures SameTables(s, Act(s, a))
  {
  }

  lemma {:induction false} OpeningActsKeepTables(s: State, a: Action)
    requires TablesOk(s) && Enabled(s, a) && (a.OpenStream? || a.DialFailed?)
    ensures SameTables(s, Act(s, a))
  {
  }

  lemma {:induction false} QuietActsKeepTables(s: State, a: Action)
    requires TablesOk(s) && Enabled(s, a) && !ChangesTables(a) && Offered(s, a).None?
    requires !a.ReadLocal? && !a.WriteLocal? && !a.OpenStream? && !a.DialFailed?
    ensures SameTables(s, Act(s, a))
  {
  }

  lemma {:induction false} OfferingActsKeepTables(s: State, a: Action)
    requires TablesOk(s) && Enabled(s, a) && Offered(s, a).Some?
    ensures SameTables(s, Act(s, a)) && Act(s, a).sockets == s.sockets
  {
  }

  lemma {:induction false} PumpCloseKeepsTables(s: State, h: nat)
    requires TablesOk(s) && Enabled(s, PumpCloses(h))
    ensures TablesOk(Act(s, PumpCloses(h)))
  {
    DroppedKeepsTables(s, s.sockets[h].id);
    SameTablesKept(Dropped(s, s.sockets[h].id), Act(s, PumpCloses(h)));
  }

  lemma {:induction false} ReaderCloseKeepsTables(s: State)
    requires TablesOk(s) && Enabled(s, ReaderCloses)
    ensures TablesOk(Act(s, ReaderCloses))
  {
    DroppedKeepsTables(s, s.reader.id);
    SameTablesKept(Dropped(s, s.reader.id), Act(s, ReaderCloses));
  }

  lemma {:induction false} UnlistingActKeepsTables(s: State, a: Action)
    requires TablesOk(s) && Enabled(s, a) && !ChangesTables(a)
    ensures TablesOk(Act(s, a))
  {
    if Offered(s, a).Some? { OfferingActsKeepTables(s, a); }
    else if a.ReadLocal? || a.WriteLocal? { LocalActsKeepTables(s, a); }
    else if a.OpenStream? || a.DialFailed? { OpeningActsKeepTables(s, a); }
    else { QuietActsKeepTables(s, a); }
    SameTablesKept(s, Act(s, a));
  }

  lemma {:induction false} ActKeepsTables(s: State, a: Action)
    requires TablesOk(s) && Enabled(s, a)
    ensures TablesOk(Act(s, a))
  {
    match a
    case DialSucceeded(id) => RegistrationKeepsTables(s, id);
    case PumpCloses(h) => PumpCloseKeepsTables(s, h);
    case ReaderCloses => ReaderCloseKeepsTables(s);
    case BrokerCloses(id) => DroppedKeepsTables(s, id);
    case ClosesAll => ClosesAllKeepsTables(s);
    case _ =>
      UnlistingActKeepsTables(s, a);
  }

  lemma {:induction false} OnlyDialsAddSockets(s: State, a: Action)
    requires Enabled(s, a)
    ensures |Act(s, a).sockets| == if a.DialSucceeded? then |s.sockets| + 1 else |s.sockets|
  {
  }

  lemma {:induction false} SocketPersists(s: State, a: Action, h: nat)
    requires Enabled(s, a) && h < |s.sockets|
    ensures h < |Act(s, a).sockets| && Act(s, a).sockets[h].id == s.sockets[h].id
  {
  }

  /** A step changes no socket's id and forgets none; a new one has an id no socket had. */
  lemma {:induction false} ActKeepsDistinct(s: State, a: Action)
    requires TablesOk(s) && DistinctIds(s) && Enabled(s, a)
    ensures DistinctIds(Act(s, a))
    ensures |s.sockets| <= |Act(s, a).sockets|
    ensures forall h :: 0 <= h < |s.sockets| ==> Act(s, a).sockets[h].id == s.sockets[h].id
  {
    OnlyDialsAddSockets(s, a);
    forall h | 0 <= h < |s.sockets| ensures h < |Act(s, a).sockets| && Act(s, a).sockets[h].id == s.sockets[h].id {
      SocketPersists(s, a, h);
    }
    if a.DialSucceeded? {
      forall h | 0 <= h < |s.sockets| ensures s.sockets[h].id != a.id {
        assert SocketListed(s, h);
      }
    }
  }

  lemma {:induction false} ActKeepsReader(s: State, a: Action)
    requires TablesOk(s) && ReaderOk(s) && Enabled(s, a) && SocketsOk(s)
    ensures ReaderOk(Act(s, a))
  {
    match a
    case Receive(msg) =>
      if |msg| >= 4 && Value(msg[..4]) in s.core.streams {
        var id: nat := Value(msg[..4]);
        assert StreamBacked(s, id);
        assert DownstreamOk(s, s.core.streams[id]);
      }
    case WriteLocal(_) => assert SocketListed(s, s.reader.handle);
    case _ =>
  }

  /** Queued frames stay in order: what was settled stays settled. */
  lemma {:induction false} FramesStayOk(s: State, a: Action)
    requires QueueOk(s) && Enabled(s, a)
    ensures forall i :: 0 <= i < |s.queued| ==> FrameOk(Act(s, a), s.queued[i])
  {
    forall i | 0 <= i < |s.queued| ensures FrameOk(Act(s, a), s.queued[i]) {
      assert FrameOk(s, s.queued[i]);
    }
  }

  lemma {:induction false} OfferedIsPosted(s: State, a: Action)
    requires Enabled(s, a) && Offered(s, a).Some?
    ensures var s', p := Act(s, a), Posted(s, Offered(s, a).value, a.drop);
            s'.core == p.core && s'.queued == p.queued && s'.wire == s.wire && s'.inbox == s.inbox
              && s'.asked == s.asked
    ensures CanPost(s, a.drop)
  {
  }

  lemma {:induction false} OfferedFrameOk(s: State, a: Action)
    requires TablesOk(s) && ReaderOk(s) && Enabled(s, a) && Offered(s, a).Some?
    ensures FrameOk(s, Offered(s, a).value) && FrameOk(Act(s, a), Offered(s, a).value)
  {
    match a
    case SendData(h, drop) =>
      assert SocketListed(s, h);
      DataFrameNames(s.sockets[h].id, s.pumps[h].data, s.sockets[h].id);
    case PumpNotifies(h, drop) => assert SocketListed(s, h);
    case _ =>
  }

  lemma {:induction false} OfferKeepsQueue(s: State, a: Action)
    requires TablesOk(s) && QueueOk(s) && ReaderOk(s) && Enabled(s, a) && Offered(s, a).Some?
    ensures QueueOk(Act(s, a))
  {
    OfferedIsPosted(s, a);
    OfferedFrameOk(s, a);
    PostedQueue(s, Offered(s, a).value, a.drop);
    FramesStayOk(s, a);
  }

  lemma {:induction false} OtherActKeepsQueue(s: State, a: Action)
    requires QueueOk(s) && Enabled(s, a) && Offered(s, a).None?
    ensures QueueOk(Act(s, a)) && Act(s, a).queued == s.queued
  {
    FramesStayOk(s, a);
    if a.WriterTakes? {
      assert s.wire + s.core.out == (s.wire + [s.core.out[0]]) + s.core.out[1..];
    }
  }

  lemma {:induction false} ActKeepsQueue(s: State, a: Action)
    requires TablesOk(s) && QueueOk(s) && ReaderOk(s) && Enabled(s, a)
    ensures QueueOk(Act(s, a))
  {
    if Offered(s, a).Some? { OfferKeepsQueue(s, a); } else { OtherActKeepsQueue(s, a); }
  }

  // ---------------------------------------------------------------- toward the broker

  /** One socket's upstream account over a step. */
  lemma {:induction false} ActKeepsUpstream(s: State, a: Action, h: nat)
    requires Inv(s) && Enabled(s, a) && h < |s.sockets|
    ensures h < |Act(s, a).sockets| && h < |Act(s, a).pumps| && UpstreamOk(Act(s, a), h)
  {
    assert UpstreamOk(s, h);
    var id := s.sockets[h].id;
    if Offered(s, a).Some? {
      OfferedKeepsUpstream(s, a, h);
    } else {
      OtherActKeepsQueue(s, a);
      OtherActKeepsUpstream(s, a, h);
    }
  }

  lemma {:induction false} OfferedKeepsUpstream(s: State, a: Action, h: nat)
    requires Inv(s) && Enabled(s, a) && h < |s.sockets| && Offered(s, a).Some?
    ensures h < |Act(s, a).sockets| && h < |Act(s, a).pumps| && UpstreamOk(Act(s, a), h)
  {
    var s', f, id := Act(s, a), Offered(s, a).value, s.sockets[h].id;
    assert UpstreamOk(s, h);
    OfferingActsKeepTables(s, a);
    OfferedIsPosted(s, a);
    OfferedFrameOk(s, a);
    PostedQueue(s, f, a.drop);
    if a.SendData? {
      SentDataKeepsUpstream(s, a, h);
    } else {
      assert !DataFor(f, id);
      assert Carried(s.queued, id) + [] == Carried(s.queued, id);
      assert Unsent(s'.pumps[h]) == Unsent(s.pumps[h]);
    }
  }

  lemma {:induction false} SentDataKeepsUpstream(s: State, a: Action, h: nat)
    requires Inv(s) && Enabled(s, a) && h < |s.sockets| && a.SendData?
    requires Carried(Act(s, a).queued, s.sockets[h].id)
          == Carried(s.queued, s.sockets[h].id)
             + if !a.drop && DataFor(Offered(s, a).value, s.sockets[h].id) then Offered(s, a).value.data[4..] else []
    ensures h < |Act(s, a).sockets| && h < |Act(s, a).pumps| && UpstreamOk(Act(s, a), h)
  {
    var g, id := a.handle, s.sockets[h].id;
    assert UpstreamOk(s, h);
    DataFrameNames(s.sockets[g].id, s.pumps[g].data, id);
    assert g != h ==> s.sockets[g].id != id;
    assert Carried(s.queued, id) + [] == Carried(s.queued, id);
    assert Carried(s.queued, id) + s.pumps[g].data + [] == Carried(s.queued, id) + s.pumps[g].data;
  }

  lemma {:induction false} OtherActKeepsUpstream(s: State, a: Action, h: nat)
    requires TablesOk(s) && Enabled(s, a) && h < |s.sockets| && Offered(s, a).None? && UpstreamOk(s, h)
    requires Act(s, a).queued == s.queued
    ensures h < |Act(s, a).sockets| && h < |Act(s, a).pumps| && UpstreamOk(Act(s, a), h)
  {
    if a.ReadLocal? && a.handle == h {
      ReadKeepsUpstream(s, a, h);
    } else {
      OtherActLeaves(s, a, h);
    }
  }

  lemma {:induction false} ReadKeepsUpstream(s: State, a: Action, h: nat)
    requires Enabled(s, a) && a.ReadLocal? && a.handle == h && UpstreamOk(s, h)
    ensures UpstreamOk(Act(s, a), h)
  {
    var carried := Carried(s.queued, s.sockets[h].id);
    assert carried + [] == carried;
    assert carried + [] + a.data == carried + a.data;
  }

  lemma {:induction false} OtherActLeaves(s: State, a: Action, h: nat)
    requires Enabled(s, a) && h < |s.sockets| && h < |s.pumps| && Offered(s, a).None?
    requires a.ReadLocal? ==> a.handle != h
    ensures var s' := Act(s, a);
            && h < |s'.sockets| && h < |s'.pumps| && (s.core.quit ==> s'.core.quit)
            && s'.sockets[h].id == s.sockets[h].id && s'.sockets[h].read == s.sockets[h].read
            && Unsent(s'.pumps[h]) == Unsent(s.pumps[h])
  {
    OtherActLeavesRead(s, a, h);
  }

  lemma {:induction false} OtherActLeavesRead(s: State, a: Action, h: nat)
    requires Enabled(s, a) && h < |s.sockets| && Offered(s, a).None?
    requires a.ReadLocal? ==> a.handle != h
    ensures h < |Act(s, a).sockets| && Act(s, a).sockets[h].id == s.sockets[h].id
    ensures Act(s, a).sockets[h].read == s.sockets[h].read
  {
  }

  // ---------------------------------------------------------------- toward the connections

  /** One socket's downstream account over the steps of the reader. */
  lemma {:induction false} ReceiveKeepsDownstream(s: State, msg: bytes, h: nat)
    requires TablesOk(s) && DistinctIds(s) && Enabled(s, Receive(msg)) && h < |s.sockets| && DownstreamOk(s, h)
    ensures DownstreamOk(Act(s, Receive(msg)), h)
  {
    if |msg| >= 4 {
      var k, m := s.sockets[h], Data(Value(msg[..4]), msg[4..]);
      assert SocketListed(s, h);
      if k.until.None? {
        MessageFallsDue(s, Act(s, Receive(msg)), k, m);
        AppendNothing(k.written);
      } else {
        assert (s.inbox + [m])[k.since..k.until.value] == s.inbox[k.since..k.until.value];
        NotInHand(s, m.id, h);
      }
    }
  }

  /** A message received while a socket is registered falls due to it if it names its stream. */
  lemma {:induction false} MessageFallsDue(s: State, s': State, k: Socket, m: Data)
    requires k.until.None? && k.since <= |s.inbox| && s'.inbox == s.inbox + [m]
    ensures Due(s', k) == if m.id == k.id then Due(s, k) + m.payload else Due(s, k)
  {
    assert (s.inbox + [m])[k.since..] == s.inbox[k.since..] + [m];
    PayloadsSnoc(s.inbox[k.since..], m, k.id);
    DueNow(s, k);
    DueNow(s', k);
    AppendNothing(Payloads(s.inbox[k.since..], k.id));
  }

  lemma {:induction false} AppendNothing(b: bytes)
    ensures b + [] == b
  {
  }

  lemma {:induction false} DueNow(s: State, k: Socket)
    requires k.until.None? && k.since <= |s.inbox|
    ensures Due(s, k) == Payloads(s.inbox[k.since..], k.id)
  {
    assert s.inbox[k.since..|s.inbox|] == s.inbox[k.since..];
  }

  /** A dropped socket is no stream's any more. */
  lemma {:induction false} NotInHand(s: State, id: nat, h: nat)
    requires TablesOk(s) && h < |s.sockets| && s.sockets[h].until.Some?
    ensures id in s.core.streams ==> s.core.streams[id] != h
  {
    if id in s.core.streams { assert StreamBacked(s, id); }
  }

  lemma {:induction false} WriteKeepsDownstream(s: State, failedAfter: Option<nat>, h: nat)
    requires Enabled(s, WriteLocal(failedAfter)) && ReaderOk(s) && h < |s.sockets| && DownstreamOk(s, h)
    ensures DownstreamOk(Act(s, WriteLocal(failedAfter)), h)
  {
    var k, payload := s.sockets[h], s.reader.payload;
    if h == s.reader.handle {
      AppendNothing(k.written + payload);
      if failedAfter.Some? {
        assert payload == payload[..failedAfter.value] + payload[failedAfter.value..];
        assert k.written + payload == (k.written + payload[..failedAfter.value]) + payload[failedAfter.value..];
      }
    } else if k.failed {
      assert k.until.Some? || s.reader == Failed(k.id);
    }
  }

  /** Dropping a stream fixes what its socket is due; the others are untouched. */
  lemma {:induction false} DropKeepsDownstream(s: State, id: StreamId, h: nat)
    requires TablesOk(s) && h < |s.sockets| && DownstreamOk(s, h)
    ensures DownstreamOk(Dropped(s, id), h) && InHand(Dropped(s, id), h) == InHand(s, h)
    ensures s.sockets[h].id == id ==> Dropped(s, id).sockets[h].until.Some?
  {
    assert SocketListed(s, h);
    if id in s.core.streams { assert StreamBacked(s, id); }
  }

  lemma {:induction false} ClosesAllKeepsDownstream(s: State, h: nat)
    requires TablesOk(s) && h < |s.sockets| && DownstreamOk(s, h)
    ensures DownstreamOk(Act(s, ClosesAll), h)
  {
    assert SocketListed(s, h);
    if s.sockets[h].id in s.core.streams { assert StreamBacked(s, s.sockets[h].id); }
  }

  lemma {:induction false} ReaderCloseKeepsDownstream(s: State, h: nat)
    requires TablesOk(s) && Enabled(s, ReaderCloses) && h < |s.sockets| && DownstreamOk(s, h)
    ensures DownstreamOk(Act(s, ReaderCloses), h)
  {
    DropKeepsDownstream(s, s.reader.id, h);
  }

  lemma {:induction false} PumpCloseKeepsDownstream(s: State, g: nat, h: nat)
    requires TablesOk(s) && Enabled(s, PumpCloses(g)) && h < |s.sockets| && DownstreamOk(s, h)
    ensures DownstreamOk(Act(s, PumpCloses(g)), h)
  {
    DropKeepsDownstream(s, s.sockets[g].id, h);
    UnconcernedDownstream(Dropped(s, s.sockets[g].id), Act(s, PumpCloses(g)), h);
  }

  /** The account of a socket that a step does not concern. */
  lemma {:induction false} UnconcernedDownstream(s: State, s': State, h: nat)
    requires h < |s.sockets| && h < |s'.sockets| && DownstreamOk(s, h) && s'.inbox == s.inbox
    requires s'.sockets[h] == s.sockets[h].(read := s'.sockets[h].read)
    requires s'.reader == s.reader || (s.reader.ReaderNotifying? && s'.reader.Idle?)
    ensures DownstreamOk(s', h)
  {
  }

  lemma {:induction false} ActKeepsDownstream(s: State, a: Action, h: nat)
    requires Inv(s) && Enabled(s, a) && h < |s.sockets|
    ensures h < |Act(s, a).sockets| && DownstreamOk(Act(s, a), h)
  {
    assert DownstreamOk(s, h);
    if ConcernsReader(a) {
      ReaderActKeepsDownstream(s, a, h);
    } else {
      SilentActKeepsDownstream(s, a, h);
    }
  }

  lemma {:induction false} ReaderActKeepsDownstream(s: State, a: Action, h: nat)
    requires TablesOk(s) && DistinctIds(s) && ReaderOk(s) && Enabled(s, a) && ConcernsReader(a)
    requires h < |s.sockets| && DownstreamOk(s, h)
    ensures h < |Act(s, a).sockets| && DownstreamOk(Act(s, a), h)
  {
    match a
    case Receive(msg) => ReceiveKeepsDownstream(s, msg, h);
    case WriteLocal(failedAfter) => WriteKeepsDownstream(s, failedAfter, h);
    case ReaderCloses => ReaderCloseKeepsDownstream(s, h);
    case PumpCloses(g) => PumpCloseKeepsDownstream(s, g, h);
    case BrokerCloses(id) => DropKeepsDownstream(s, id, h);
    case ClosesAll => ClosesAllKeepsDownstream(s, h);
  }

  predicate ConcernsReader(a: Action) {
    a.Receive? || a.WriteLocal? || a.ReaderCloses? || a.PumpCloses? || a.BrokerCloses? || a.ClosesAll?
  }

  lemma {:induction false} SilentActKeepsDownstream(s: State, a: Action, h: nat)
    requires Enabled(s, a) && !ConcernsReader(a) && h < |s.sockets| && h < |s.pumps| && DownstreamOk(s, h)
    ensures h < |Act(s, a).sockets| && DownstreamOk(Act(s, a), h)
  {
    SilentActLeaves(s, a, h);
    UnconcernedDownstream(s, Act(s, a), h);
  }

  lemma {:induction false} SilentActLeaves(s: State, a: Action, h: nat)
    requires Enabled(s, a) && !ConcernsReader(a) && h < |s.sockets| && h < |s.pumps|
    ensures var s' := Act(s, a);
            && h < |s'.sockets| && s'.sockets[h] == s.sockets[h].(read := s'.sockets[h].read)
            && s'.inbox == s.inbox && (s'.reader == s.reader || (s.reader.ReaderNotifying? && s'.reader.Idle?))
  {
  }

  // ---------------------------------------------------------------- closing once

  /** A drop leaves queue and claims alone and, for the dropped socket, allows one notice. */
  lemma {:induction false} DropKeepsNotice(s: State, id: StreamId, h: nat)
    requires TablesOk(s) && h < |s.sockets| && NoticeOk(s, h)
    ensures var s' := Dropped(s, id);
            && |s'.sockets| == |s.sockets| && s'.sockets[h].id == s.sockets[h].id
            && s'.queued == s.queued && s'.pumps == s.pumps && s'.reader == s.reader && NoticeOk(s', h)
            && (id in s.core.streams && s.sockets[h].id == id ==> s.sockets[h].until.None? && s'.sockets[h].until.Some?)
  {
    assert SocketListed(s, h);
    if id in s.core.streams { assert StreamBacked(s, id); }
  }

  lemma {:induction false} PumpCloseKeepsNotice(s: State, g: nat, h: nat)
    requires TablesOk(s) && DistinctIds(s) && Enabled(s, PumpCloses(g)) && h < |s.sockets| && NoticeOk(s, h)
    ensures h < |Act(s, PumpCloses(g)).sockets| && h < |Act(s, PumpCloses(g)).pumps|
            && NoticeOk(Act(s, PumpCloses(g)), h)
  {
    DropKeepsNotice(s, s.sockets[g].id, h);
    assert g != h ==> s.sockets[g].id != s.sockets[h].id;
  }

  lemma {:induction false} ReaderCloseKeepsNotice(s: State, h: nat)
    requires TablesOk(s) && Enabled(s, ReaderCloses) && h < |s.sockets| && NoticeOk(s, h)
    ensures h < |Act(s, ReaderCloses).sockets| && h < |Act(s, ReaderCloses).pumps| && NoticeOk(Act(s, ReaderCloses), h)
  {
    DropKeepsNotice(s, s.reader.id, h);
  }

  /** What an offered close frame does to the claims it settles. */
  lemma {:induction false} OfferClaims(s: State, a: Action, h: nat)
    requires TablesOk(s) && DistinctIds(s) && Enabled(s, a) && h < |s.sockets| && Offered(s, a).Some?
    ensures |Act(s, a).pumps| == |s.pumps|
    ensures Claims(Act(s, a), h, s.sockets[h].id)
            == Claims(s, h, s.sockets[h].id) - if Offered(s, a) == Some(CloseStream(s.sockets[h].id)) then 1 else 0
  {
    if a.PumpNotifies? {
      assert a.handle != h ==> s.sockets[a.handle].id != s.sockets[h].id;
    }
  }

  lemma {:induction false} OfferedKeepsNotice(s: State, a: Action, h: nat)
    requires Inv(s) && Enabled(s, a) && h < |s.sockets| && Offered(s, a).Some?
    ensures h < |Act(s, a).sockets| && h < |Act(s, a).pumps| && NoticeOk(Act(s, a), h)
  {
    var s', f, id := Act(s, a), Offered(s, a).value, s.sockets[h].id;
    assert NoticeOk(s, h);
    OfferingActsKeepTables(s, a);
    OfferedIsPosted(s, a);
    OfferedFrameOk(s, a);
    PostedQueue(s, f, a.drop);
    OfferClaims(s, a, h);
    ClaimsSettled(s, s', h, f, a.drop);
  }

  lemma {:induction false} ClaimsSettled(s: State, s': State, h: nat, f: Frame, drop: bool)
    requires h < |s.sockets| == |s'.sockets| && h < |s.pumps| == |s'.pumps| && NoticeOk(s, h)
    requires s'.sockets[h].id == s.sockets[h].id && s'.sockets[h].until == s.sockets[h].until
    requires var id := s.sockets[h].id;
             && CloseCount(s'.queued, id) == CloseCount(s.queued, id) + (if !drop && f == CloseStream(id) then 1 else 0)
             && Claims(s', h, id) == Claims(s, h, id) - if f == CloseStream(id) then 1 else 0
    ensures NoticeOk(s', h)
  {
  }

  lemma {:induction false} ClosesAllKeepsNotice(s: State, h: nat)
    requires TablesOk(s) && h < |s.sockets| && NoticeOk(s, h)
    ensures NoticeOk(Act(s, ClosesAll), h)
  {
    assert SocketListed(s, h);
  }

  /** A step with nothing to say about this socket's closing. */
  lemma {:induction false} UnconcernedNotice(s: State, s': State, h: nat)
    requires h < |s.sockets| && h < |s.pumps| && h < |s'.sockets| && h < |s'.pumps| && NoticeOk(s, h)
    requires s'.queued == s.queued && s'.sockets[h].id == s.sockets[h].id && s'.sockets[h].until == s.sockets[h].until
    requires s'.pumps[h].Notifying? ==> s.pumps[h].Notifying?
    requires s'.reader.ReaderNotifying? ==> s'.reader == s.reader
    ensures NoticeOk(s', h)
  {
  }

  lemma {:induction false} QuietActKeepsNotice(s: State, a: Action, h: nat)
    requires Enabled(s, a) && Offered(s, a).None? && h < |s.sockets| && h < |s.pumps| && NoticeOk(s, h)
    requires !a.PumpCloses? && !a.ReaderCloses? && !a.BrokerCloses? && !a.ClosesAll?
    ensures h < |Act(s, a).sockets| && h < |Act(s, a).pumps| && NoticeOk(Act(s, a), h)
  {
    QuietActLeaves(s, a, h);
    UnconcernedNotice(s, Act(s, a), h);
  }

  lemma {:induction false} QuietActLeaves(s: State, a: Action, h: nat)
    requires Enabled(s, a) && Offered(s, a).None? && h < |s.sockets| && h < |s.pumps|
    requires !a.PumpCloses? && !a.ReaderCloses? && !a.BrokerCloses? && !a.ClosesAll?
    ensures var s' := Act(s, a);
            && h < |s'.sockets| && h < |s'.pumps| && s'.queued == s.queued
            && s'.sockets[h].id == s.sockets[h].id && s'.sockets[h].until == s.sockets[h].until
            && (s'.pumps[h].Notifying? ==> s.pumps[h].Notifying?)
            && (s'.reader.ReaderNotifying? ==> s'.reader == s.reader)
  {
  }

  lemma {:induction false} ActKeepsNotice(s: State, a: Action, h: nat)
    requires Inv(s) && Enabled(s, a) && h < |s.sockets|
    ensures h < |Act(s, a).sockets| && h < |Act(s, a).pumps| && NoticeOk(Act(s, a), h)
  {
    assert NoticeOk(s, h);
    if Offered(s, a).Some? {
      OfferedKeepsNotice(s, a, h);
    } else {
      match a
      case PumpCloses(g) => PumpCloseKeepsNotice(s, g, h);
      case ReaderCloses => ReaderCloseKeepsNotice(s, h);
      case BrokerCloses(id) => DropKeepsNotice(s, id, h);
      case ClosesAll => ClosesAllKeepsNotice(s, h);
      case _ => QuietActKeepsNotice(s, a, h);
    }
  }

  // ---------------------------------------------------------------- every run

  /** A freshly registered socket has nothing behind it. */
  lemma {:induction false} NewSocketOk(s: State, id: StreamId)
    requires Inv(s) && Enabled(s, DialSucceeded(id))
    ensures var s', h := Act(s, DialSucceeded(id)), |s.sockets|;
            h < |s'.sockets| && h < |s'.pumps| && UpstreamOk(s', h) && DownstreamOk(s', h) && NoticeOk(s', h)
  {
    var s', h := Act(s, DialSucceeded(id)), |s.sockets|;
    NothingQueuedBefore(s, s.queued, id);
    NewSocketDueNothing(s, id);
    NewSocketUnclaimed(s, id);
    assert s'.pumps[h] == Announcing && s'.sockets[h].read == [] && s'.queued == s.queued;
    assert CloseCount(s'.queued, id) == 0;
  }

  lemma {:induction false} NewSocketDueNothing(s: State, id: StreamId)
    requires Enabled(s, DialSucceeded(id)) && ReaderOk(s)
    ensures DownstreamOk(Act(s, DialSucceeded(id)), |s.sockets|)
  {
    var s' := Act(s, DialSucceeded(id));
    assert s'.inbox[|s.inbox|..|s.inbox|] == [];
    assert InHand(s', |s.sockets|) == [];
    AppendNothing([]);
  }

  lemma {:induction false} NewSocketUnclaimed(s: State, id: StreamId)
    requires Enabled(s, DialSucceeded(id)) && ReaderOk(s) && TablesOk(s)
    ensures Claims(Act(s, DialSucceeded(id)), |s.sockets|, id) == 0
  {
  }

  lemma {:induction false} ActKeepsSockets(s: State, a: Action)
    requires Inv(s) && Enabled(s, a) && |Act(s, a).pumps| == |Act(s, a).sockets|
    ensures SocketsOk(Act(s, a))
  {
    var s' := Act(s, a);
    forall h | 0 <= h < |s'.sockets| ensures UpstreamOk(s', h) && DownstreamOk(s', h) && NoticeOk(s', h) {
      if h < |s.sockets| {
        ActKeepsUpstream(s, a, h);
        ActKeepsDownstream(s, a, h);
        ActKeepsNotice(s, a, h);
      } else {
        OnlyDialsAddSockets(s, a);
        NewSocketOk(s, a.id);
      }
    }
  }

  lemma {:induction false} RunKeepsInv(actions: seq<Action>)
    requires IsRun(actions)
    ensures Inv(After(actions))
  {
    if actions != [] {
      var s, a := After(actions[..|actions| - 1]), actions[|actions| - 1];
      RunKeepsInv(actions[..|actions| - 1]);
      ActKeepsTables(s, a);
      ActKeepsDistinct(s, a);
      ActKeepsQueue(s, a);
      ActKeepsReader(s, a);
      ActKeepsSockets(s, a);
    }
  }

  // ---------------------------------------------------------------- the theorems

  /**
   * In every interleaving, while the session runs, what has been written to the WebSocket for a
   * stream, what still waits on the queue, and what its pump holds are together, in this order,
   * exactly the bytes read from its connection: nothing is lost, doubled or reordered.
   */
  lemma {:induction false} UpstreamIsConserved(actions: seq<Action>, h: nat)
    requires IsRun(actions) && h < |After(actions).sockets| && !After(actions).core.quit
    ensures var s := After(actions);
            && h < |s.pumps|
            && Carried(s.wire, s.sockets[h].id) + Carried(s.core.out, s.sockets[h].id) + Unsent(s.pumps[h])
               == s.sockets[h].read
            && Carried(s.wire, s.sockets[h].id) <= s.sockets[h].read
  {
    RunKeepsInv(actions);
    var s := After(actions);
    assert UpstreamOk(s, h);
    CarriedConcat(s.wire, s.core.out, s.sockets[h].id);
  }

  /**
   * In every interleaving the bytes written to a connection are, in order, the payloads received for
   * its stream from its registration on, up to its drop or a failed write; all of them, unless a
   * write failed or the last is still being written.
   */
  lemma {:induction false} DownstreamIsInOrder(actions: seq<Action>, h: nat)
    requires IsRun(actions) && h < |After(actions).sockets|
    ensures var s := After(actions);
            var k := s.sockets[h];
            && k.since <= Upto(s, k) <= |s.inbox|
            && k.written <= Due(s, k)
            && (!k.failed && !(s.reader.Writing? && s.reader.handle == h) ==> k.written == Due(s, k))
  {
    RunKeepsInv(actions);
    var s := After(actions);
    assert DownstreamOk(s, h);
    AppendNothing(s.sockets[h].written);
  }

  /** In every interleaving, quit or not, at most one close-stream frame is ever queued for a stream. */
  lemma {:induction false} ClosedAtMostOnce(actions: seq<Action>, id: StreamId)
    requires IsRun(actions)
    ensures CloseCount(After(actions).queued, id) <= 1
  {
    RunKeepsInv(actions);
    var s := After(actions);
    if h :| 0 <= h < |s.sockets| && s.sockets[h].id == id {
      assert NoticeOk(s, h);
    } else {
      NoSocketNoNotice(actions, id);
    }
  }

  /** A close frame names a stream that was dialled. */
  lemma {:induction false} NoSocketNoNotice(actions: seq<Action>, id: StreamId)
    requires IsRun(actions)
    requires forall h :: 0 <= h < |After(actions).sockets| ==> After(actions).sockets[h].id != id
    ensures CloseCount(After(actions).queued, id) == 0
    ensures After(actions).reader != ReaderNotifying(id) && After(actions).reader != Failed(id)
  {
    if actions != [] {
      var s, a := After(actions[..|actions| - 1]), actions[|actions| - 1];
      RunKeepsInv(actions[..|actions| - 1]);
      ActKeepsDistinct(s, a);
      assert After(actions) == Act(s, a);
      forall h | 0 <= h < |s.sockets| ensures s.sockets[h].id != id {
        assert After(actions).sockets[h].id == s.sockets[h].id;
      }
      NoSocketNoNotice(actions[..|actions| - 1], id);
      StaysSilent(s, a, id);
    }
  }

  lemma {:induction false} StaysSilent(s: State, a: Action, id: StreamId)
    requires Inv(s) && Enabled(s, a)
    requires CloseCount(s.queued, id) == 0 && s.reader != ReaderNotifying(id) && s.reader != Failed(id)
    requires forall h :: 0 <= h < |s.sockets| ==> s.sockets[h].id != id
    ensures CloseCount(Act(s, a).queued, id) == 0
    ensures Act(s, a).reader != ReaderNotifying(id) && Act(s, a).reader != Failed(id)
  {
    if Offered(s, a).Some? {
      OfferedIsPosted(s, a);
      OfferedFrameOk(s, a);
      PostedQueue(s, Offered(s, a).value, a.drop);
    } else {
      OtherActKeepsQueue(s, a);
    }
  }

  /** The stream table and the port table always name the same streams, each backed by an open socket. */
  lemma {:induction false} TablesAgree(actions: seq<Action>)
    requires IsRun(actions)
    ensures var c := After(actions).core;
            c.streams.Keys == c.streamPorts.Keys && |c.out| <= QUEUE_CAP
    ensures forall port :: AnyOnPort(After(actions).core, port) <==>
              exists h ::
                0 <= h < |After(actions).sockets| && After(actions).sockets[h].until.None?
                && After(actions).sockets[h].port == port
  {
    RunKeepsInv(actions);
    var s := After(actions);
    forall port
      ensures AnyOnPort(s.core, port) <==>
                exists h :: 0 <= h < |s.sockets| && s.sockets[h].until.None? && s.sockets[h].port == port
    {
      if AnyOnPort(s.core, port) {
        var id :| id in s.core.streamPorts && s.core.streamPorts[id] == port;
        assert StreamBacked(s, id);
      }
      if h :| 0 <= h < |s.sockets| && s.sockets[h].until.None? && s.sockets[h].port == port {
        assert SocketListed(s, h);
        assert StreamBacked(s, s.sockets[h].id);
      }
    }
  }
}
