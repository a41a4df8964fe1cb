/**
 * The tunnel multiplexer of agent/main.go as interleaved steps: one goroutine per stream being
 * opened, one pump per open stream, one reader, one writer, and the main loop. A step is a critical
 * section, a queue operation, or one read or write on a socket.
 */
module Tunnel {
  import opened Wrappers
  import opened Bytes
  import opened TunnelSession

  const READ_BUFFER: nat := 32 * 1024

  /**
   * A dialled connection: the bytes read from and written to it, the messages received before it was
   * registered and before it was dropped, and whether a write on it failed.
   */
  datatype Socket = Socket(
    id: StreamId, port: int, read: bytes, written: bytes, since: nat, until: Option<nat>, failed: bool)

  datatype Pump = Announcing | Reading | Sending(data: bytes, ended: bool) | Closing | Notifying | Finished

  datatype Reader = Idle | Writing(handle: nat, payload: bytes) | Failed(id: StreamId) | ReaderNotifying(id: StreamId)

  datatype Opening = Dialling(port: int) | Refusing

  /** A data message from the broker. */
  datatype Data = Data(id: nat, payload: bytes)

  /** `queued` lists every frame ever put on the queue, `wire` every frame written to the WebSocket. */
  datatype State = State(
    core: Core, writerDone: bool, wire: seq<Frame>, queued: seq<Frame>,
    opening: map<StreamId, Opening>, asked: set<StreamId>,
    sockets: seq<Socket>, pumps: seq<Pump>, reader: Reader, inbox: seq<Data>)

  const INITIAL := State(EMPTY_CORE, false, [], [], map[], {}, [], [], Idle, [])

  /**
   * `drop` marks a send that took the quit branch instead of the queue. A dropped socket is closed
   * some time after its critical section, so reads and writes on it may still come through.
   */
  datatype Action =
    | OpenStream(id: StreamId, allowed: bool, port: int)
    | DialFailed(id: StreamId)
    | DialSucceeded(id: StreamId)
    | SendRefusal(id: StreamId, drop: bool)
    | Announce(handle: nat, drop: bool)
    | ReadLocal(handle: nat, data: bytes, ended: bool)
    | SendData(handle: nat, drop: bool)
    | PumpCloses(handle: nat)
    | PumpNotifies(handle: nat, drop: bool)
    | Receive(msg: bytes)
    | WriteLocal(failedAfter: Option<nat>)
    | ReaderCloses
    | ReaderNotifies(drop: bool)
    | BrokerCloses(id: StreamId)
    | SendOther(drop: bool)
    | WriterTakes(ok: bool)
    | WriterStops
    | Stops
    | ClosesAll

  predicate CanPost(s: State, drop: bool) {
    if drop then s.core.quit else |s.core.out| < QUEUE_CAP
  }

  predicate PumpIs(s: State, h: nat) {
    h < |s.pumps| && h < |s.sockets|
  }

  predicate Enabled(s: State, a: Action) {
    match a
    case OpenStream(id, _, _) => id !in s.asked
    case DialFailed(id) => id in s.opening && s.opening[id].Dialling?
    case DialSucceeded(id) => id in s.opening && s.opening[id].Dialling?
    case SendRefusal(id, drop) => id in s.opening && s.opening[id].Refusing? && CanPost(s, drop)
    case Announce(h, drop) => PumpIs(s, h) && s.pumps[h].Announcing? && CanPost(s, drop)
    case ReadLocal(h, data, _) => PumpIs(s, h) && s.pumps[h].Reading? && |data| <= READ_BUFFER
    case SendData(h, drop) => PumpIs(s, h) && s.pumps[h].Sending? && CanPost(s, drop)
    case PumpCloses(h) => PumpIs(s, h) && s.pumps[h].Closing?
    case PumpNotifies(h, drop) => PumpIs(s, h) && s.pumps[h].Notifying? && CanPost(s, drop)
    case Receive(_) => s.reader.Idle?
    case WriteLocal(failedAfter) =>
      && s.reader.Writing? && s.reader.handle < |s.sockets|
      && (failedAfter.Some? ==> failedAfter.value <= |s.reader.payload|)
    case ReaderCloses => s.reader.Failed?
    case ReaderNotifies(drop) => s.reader.ReaderNotifying? && CanPost(s, drop)
    case BrokerCloses(_) => s.reader.Idle?
    case SendOther(drop) => CanPost(s, drop)
    case WriterTakes(_) => !s.writerDone && s.core.out != []
    case WriterStops => !s.writerDone && s.core.quit
    case Stops => true
    case ClosesAll => true
  }

  // ---------------------------------------------------------------- the steps

  function Posted(s: State, f: Frame, drop: bool): State {
    if drop then s else s.(core := Enqueued(s.core, f), queued := s.queued + [f])
  }

  /** The stream's id in four bytes, then the data. */
  function DataFrame(id: StreamId, data: bytes): Frame {
    Binary(BigEndian(id, 4) + data)
  }

  function WithPump(s: State, h: nat, p: Pump): State
    requires h < |s.pumps|
  {
    s.(pumps := s.pumps[h := p])
  }

  /** The critical section of closeStream. */
  function Dropped(s: State, id: StreamId): State {
    var s' := s.(core := Unregistered(s.core, id));
    if id in s.core.streams && s.core.streams[id] < |s.sockets| then
      var h := s.core.streams[id];
      s'.(sockets := s.sockets[h := s.sockets[h].(until := Some(|s.inbox|))])
    else s'
  }

  function AllDropped(s: State): seq<Socket> {
    seq(|s.sockets|, h requires 0 <= h < |s.sockets| =>
      var k := s.sockets[h];
      if k.id in s.core.streams && s.core.streams[k.id] == h then k.(until := Some(|s.inbox|)) else k)
  }

  function Act(s: State, a: Action): State
    requires Enabled(s, a)
  {
    match a
    case OpenStream(id, allowed, port) =>
      s.(asked := s.asked + {id}, opening := s.opening[id := if allowed then Dialling(port) else Refusing])
    case DialFailed(id) => s.(opening := s.opening[id := Refusing])
    case DialSucceeded(id) =>
      var port := s.opening[id].port;
      s.(opening := s.opening - {id}, core := Registered(s.core, id, |s.sockets|, port),
         sockets := s.sockets + [Socket(id, port, [], [], |s.inbox|, None, false)], pumps := s.pumps + [Announcing])
    case SendRefusal(id, drop) => Posted(s.(opening := s.opening - {id}), StreamError(id), drop)
    case Announce(h, drop) => Posted(WithPump(s, h, Reading), StreamOpened(s.sockets[h].id), drop)
    case ReadLocal(h, data, ended) =>
      var s' := s.(sockets := s.sockets[h := s.sockets[h].(read := s.sockets[h].read + data)]);
      WithPump(s', h, if data != [] then Sending(data, ended) else if ended then Closing else Reading)
    case SendData(h, drop) =>
      Posted(WithPump(s, h, if s.pumps[h].ended then Closing else Reading),
             DataFrame(s.sockets[h].id, s.pumps[h].data), drop)
    case PumpCloses(h) =>
      var id := s.sockets[h].id;
      WithPump(Dropped(s, id), h, if id in s.core.streams then Notifying else Finished)
    case PumpNotifies(h, drop) => Posted(WithPump(s, h, Finished), CloseStream(s.sockets[h].id), drop)
    case Receive(msg) =>
      if |msg| < 4 then s
      else
        var id, payload := Value(msg[..4]), msg[4..];
        s.(inbox := s.inbox + [Data(id, payload)],
           reader := if id in s.core.streams then Writing(s.core.streams[id], payload) else Idle)
    case WriteLocal(failedAfter) =>
      var h, payload := s.reader.handle, s.reader.payload;
      var k := s.sockets[h];
      if failedAfter.None? then
        s.(sockets := s.sockets[h := k.(written := k.written + payload)], reader := Idle)
      else
        s.(sockets := s.sockets[h := k.(written := k.written + payload[..failedAfter.value], failed := true)],
           reader := Failed(k.id))
    case ReaderCloses =>
      var id := s.reader.id;
      Dropped(s, id).(reader := if id in s.core.streams then ReaderNotifying(id) else Idle)
    case ReaderNotifies(drop) => Posted(s.(reader := Idle), CloseStream(s.reader.id), drop)
    case BrokerCloses(id) => Dropped(s, id)
    case SendOther(drop) => Posted(s, Other, drop)
    case WriterTakes(ok) =>
      var s' := s.(core := s.core.(out := s.core.out[1..]));
      if ok then s'.(wire := s.wire + [s.core.out[0]])
      else s'.(core := s'.core.(quit := true), writerDone := true)
    case WriterStops => s.(writerDone := true)
    case Stops => s.(core := s.core.(quit := true))
    case ClosesAll => s.(core := AllClosed(s.core), sockets := AllDropped(s))
  }

  ghost predicate IsRun(actions: seq<Action>)
    decreases |actions|, 0
  {
    actions == []
      || (IsRun(actions[..|actions| - 1]) && Enabled(After(actions[..|actions| - 1]), actions[|actions| - 1]))
  }

  ghost function After(actions: seq<Action>): State
    requires IsRun(actions)
    decreases |actions|, 1
  {
    if actions == [] then INITIAL else Act(After(actions[..|actions| - 1]), actions[|actions| - 1])
  }

  // ---------------------------------------------------------------- what a stream's frames carry

  /** The stream a data frame names. */
  predicate DataFor(f: Frame, id: nat) {
    f.Binary? && |f.data| >= 4 && Value(f.data[..4]) == id
  }

  /** The payloads of a stream's data frames, concatenated. */
  function Carried(frames: seq<Frame>, id: nat): bytes {
    if frames == [] then []
    else
      var n := |frames| - 1;
      Carried(frames[..n], id) + if DataFor(frames[n], id) then frames[n].data[4..] else []
  }

  function CloseCount(frames: seq<Frame>, id: nat): nat {
    if frames == [] then 0
    else
      var n := |frames| - 1;
      CloseCount(frames[..n], id) + if frames[n] == CloseStream(id) then 1 else 0
  }

  /** The payloads of the messages for a stream, concatenated. */
  function Payloads(messages: seq<Data>, id: nat): bytes {
    if messages == [] then []
    else
      var n := |messages| - 1;
      Payloads(messages[..n], id) + if messages[n].id == id then messages[n].payload else []
  }

  lemma {:induction false} CarriedSnoc(frames: seq<Frame>, f: Frame, id: nat)
    ensures Carried(frames + [f], id) == Carried(frames, id) + if DataFor(f, id) then f.data[4..] else []
    ensures CloseCount(frames + [f], id) == CloseCount(frames, id) + if f == CloseStream(id) then 1 else 0
  {
    assert (frames + [f])[..|frames|] == frames;
  }

  lemma {:induction false} CarriedConcat(a: seq<Frame>, b: seq<Frame>, id: nat)
    ensures Carried(a + b, id) == Carried(a, id) + Carried(b, id)
    ensures CloseCount(a + b, id) == CloseCount(a, id) + CloseCount(b, id)
  {
    if b == [] {
      assert a + b == a;
    } else {
      var n := |b| - 1;
      assert (a + b)[..|a + b| - 1] == a + b[..n];
      CarriedConcat(a, b[..n], id);
      var last := if DataFor(b[n], id) then b[n].data[4..] else [];
      assert Carried(a, id) + (Carried(b[..n], id) + last) == Carried(a, id) + Carried(b[..n], id) + last;
    }
  }

  lemma {:induction false} PayloadsSnoc(messages: seq<Data>, m: Data, id: nat)
    ensures Payloads(messages + [m], id) == Payloads(messages, id) + if m.id == id then m.payload else []
  {
    assert (messages + [m])[..|messages|] == messages;
  }

  /** A data frame names its own stream, no other, and carries its data. */
  lemma {:induction false} DataFrameNames(id: StreamId, data: bytes, other: nat)
    ensures DataFor(DataFrame(id, data), other) <==> other == id
    ensures DataFrame(id, data).data[4..] == data
  {
    assert Pow256(0) == 1 && Pow256(1) == 256 && Pow256(2) == 65536 && Pow256(3) == 0x100_0000
           && Pow256(4) == 0x1_0000_0000;
    ValueOfBigEndian(id, 4);
    assert DataFrame(id, data).data[..4] == BigEndian(id, 4);
  }
}
