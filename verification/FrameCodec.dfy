/**
 * The WebSocket client of docker/remote-browser/autofill-helper.js: encoding one masked text frame,
 * decoding one frame from the front of a buffer, and the receive loop that is fed arbitrary chunks.
 * Frame layout: RFC 6455, section 5.2; masking: section 5.3.
 */
module FrameCodec {
  import opened Wrappers
  import opened Bytes

  /** The most a Node Buffer can hold; below it every length is an exact JavaScript number. */
  const MAX_BUFFER: nat := 0x1F_FFFF_FFFF_FFFF

  const TEXT: nat := 0x1
  const BINARY: nat := 0x2
  const CLOSE: nat := 0x8

  // ---------------------------------------------------------------- masking

  function Masked(payload: bytes, mask: bytes): (r: bytes)
    requires |mask| == 4
    ensures |r| == |payload|
  {
    seq(|payload|, i requires 0 <= i < |payload| => Xor(payload[i], mask[i % 4]))
  }

  lemma {:induction false} UnmaskMasked(payload: bytes, mask: bytes)
    requires |mask| == 4
    ensures Masked(Masked(payload, mask), mask) == payload
  {
    forall i | 0 <= i < |payload| ensures Masked(Masked(payload, mask), mask)[i] == payload[i] {
      XorInvolutive(payload[i], mask[i % 4]);
    }
  }

  /** XOR every byte with the mask byte of its position, into a new buffer. */
  method ApplyMask(payload: bytes, mask: bytes) returns (out: bytes)
    requires |mask| == 4
    ensures out == Masked(payload, mask)
  {
    var buffer := new byte[|payload|];
    for i := 0 to |payload|
      invariant forall j :: 0 <= j < i ==> buffer[j] == Xor(payload[j], mask[j % 4])
    {
      buffer[i] := Xor(payload[i], mask[i % 4]);
    }
    out := buffer[..];
  }

  // ---------------------------------------------------------------- encoding

  /** FIN and the text opcode, then the mask bit with one of the three length forms. */
  function Header(len: nat): bytes
    requires len <= MAX_BUFFER
  {
    if len < 126 then [0x81, 0x80 + len]
    else if len < 65536 then [0x81, 0x80 + 126, len / 256 % 256, len % 256]
    else [0x81, 0x80 + 127] + (BigEndian(len / 0x1_0000_0000, 4) + BigEndian(len % 0x1_0000_0000, 4))
  }

  function EncodeFrame(payload: bytes, mask: bytes): bytes
    requires |mask| == 4 && |payload| <= MAX_BUFFER
  {
    Header(|payload|) + mask + Masked(payload, mask)
  }

  method Encode(payload: bytes, mask: bytes) returns (frame: bytes)
    requires |mask| == 4 && |payload| <= MAX_BUFFER
    ensures frame == EncodeFrame(payload, mask)
  {
    var masked := ApplyMask(payload, mask);
    frame := Header(|payload|) + mask + masked;
  }

  // ---------------------------------------------------------------- decoding

  datatype Frame = Frame(opcode: nat, payload: bytes, rest: bytes)

  /** Where the payload (or its mask) starts, and how long it is. */
  datatype Extent = Extent(offset: nat, len: nat, masked: bool) {
    function BodyAt(): nat { offset + if masked then 4 else 0 }

    function End(): nat { BodyAt() + len }
  }

  /** The length form of the frame at the front of a buffer, once its bytes are there. */
  function ExtentOf(buf: bytes): Option<Extent> {
    if |buf| < 2 then None
    else
      var masked, len := buf[1] >= 0x80, buf[1] % 0x80;
      if len == 126 then
        if |buf| < 4 then None else Some(Extent(4, Value(buf[2..4]), masked))
      else if len == 127 then
        if |buf| < 10 then None else Some(Extent(10, Value(buf[2..10]), masked))
      else Some(Extent(2, len, masked))
  }

  /** The first frame of a buffer and what follows it, or None while the frame is incomplete. */
  function DecodeFrame(buf: bytes): (r: Option<Frame>)
    ensures r.Some? ==> |r.value.rest| + 2 <= |buf|
  {
    var extent := ExtentOf(buf);
    if extent.None? || |buf| < extent.value.End() then None
    else
      var e := extent.value;
      var body := buf[e.BodyAt()..e.End()];
      Some(Frame(buf[0] % 0x10,
                 if e.masked then Masked(body, buf[e.offset..e.offset + 4]) else body,
                 buf[e.End()..]))
  }

  method Decode(buf: bytes) returns (r: Option<Frame>)
    ensures r == DecodeFrame(buf)
  {
    if |buf| < 2 {
      return None;
    }
    var opcode := buf[0] % 0x10;
    var masked := buf[1] >= 0x80;
    var len: nat := buf[1] % 0x80;
    var offset := 2;
    if len == 126 {
      if |buf| < 4 {
        return None;
      }
      len := Value(buf[2..4]);
      offset := 4;
    } else if len == 127 {
      if |buf| < 10 {
        return None;
      }
      len := Value(buf[2..10]);
      offset := 10;
    }
    assert ExtentOf(buf) == Some(Extent(offset, len, masked));
    var maskLen := if masked then 4 else 0;
    if |buf| < offset + maskLen + len {
      return None;
    }
    var payload := buf[offset + maskLen..offset + maskLen + len];
    if masked {
      payload := ApplyMask(payload, buf[offset..offset + 4]);
    }
    return Some(Frame(opcode, payload, buf[offset + maskLen + len..]));
  }

  // ---------------------------------------------------------------- the codec's laws

  /** The header announces its own length, the payload length and the mask. */
  lemma {:induction false} HeaderExtent(len: nat, after: bytes)
    requires len <= MAX_BUFFER
    ensures ExtentOf(Header(len) + after) == Some(Extent(|Header(len)|, len, true))
    ensures (Header(len) + after)[0] == 0x81
    ensures forall k :: 0 <= k < |Header(len)| ==> ExtentOf((Header(len) + after)[..k]).None?
  {
    var buf := Header(len) + after;
    if len < 126 {
    } else if len < 65536 {
      assert buf[2..4] == [len / 256] + [len % 256];
      ValueOfConcat([len / 256], [len % 256]);
      SingleByte(len / 256);
      SingleByte(len % 256);
      assert Pow256(1) == 256;
    } else {
      var hi, lo := len / 0x1_0000_0000, len % 0x1_0000_0000;
      assert buf[2..10] == BigEndian(hi, 4) + BigEndian(lo, 4);
      FourBytes();
      ValueOfBigEndian(hi, 4);
      ValueOfBigEndian(lo, 4);
      ValueOfConcat(BigEndian(hi, 4), BigEndian(lo, 4));
    }
  }

  lemma {:induction false} SingleByte(b: byte)
    ensures Value([b]) == b
  {
    assert [b][..0] == [];
    assert Value([]) == 0;
  }

  lemma {:induction false} FourBytes()
    ensures Pow256(4) == 0x1_0000_0000
  {
    assert Pow256(0) == 1 && Pow256(1) == 256 && Pow256(2) == 65536 && Pow256(3) == 0x100_0000;
  }

  /** Decoding an encoded frame followed by anything gives the text opcode, the payload and the rest. */
  lemma {:induction false} DecodeOfEncode(payload: bytes, mask: bytes, tail: bytes)
    requires |mask| == 4 && |payload| <= MAX_BUFFER
    ensures DecodeFrame(EncodeFrame(payload, mask) + tail) == Some(Frame(TEXT, payload, tail))
  {
    var header, masked := Header(|payload|), Masked(payload, mask);
    var after := mask + masked + tail;
    assert EncodeFrame(payload, mask) + tail == header + after;
    HeaderExtent(|payload|, after);
    FrameSlices(header, mask, masked, tail);
    UnmaskMasked(payload, mask);
    assert 0x81 % 0x10 == TEXT;
  }

  lemma {:induction false} FrameSlices(header: bytes, mask: bytes, body: bytes, tail: bytes)
    ensures var buf, h, m := header + (mask + body + tail), |header|, |mask|;
            && |buf| == h + m + |body| + |tail|
            && buf[h..h + m] == mask
            && buf[h + m..h + m + |body|] == body
            && buf[h + m + |body|..] == tail
  {
  }

  /** The extent, once known, does not depend on bytes that come later. */
  lemma {:induction false} ExtentIsStable(buf: bytes, more: bytes)
    requires ExtentOf(buf).Some?
    ensures ExtentOf(buf + more) == ExtentOf(buf)
  {
    if |buf| >= 4 { assert (buf + more)[2..4] == buf[2..4]; }
    if |buf| >= 10 { assert (buf + more)[2..10] == buf[2..10]; }
  }

  /** A complete frame decodes the same whatever follows it. */
  lemma {:induction false} DecodeIsStable(buf: bytes, more: bytes)
    requires DecodeFrame(buf).Some?
    ensures var f := DecodeFrame(buf).value;
            DecodeFrame(buf + more) == Some(f.(rest := f.rest + more))
  {
    ExtentIsStable(buf, more);
    var e := ExtentOf(buf).value;
    assert (buf + more)[e.offset..e.BodyAt()] == buf[e.offset..e.BodyAt()];
    assert (buf + more)[e.BodyAt()..e.End()] == buf[e.BodyAt()..e.End()];
    assert (buf + more)[e.End()..] == buf[e.End()..] + more;
  }

  /** No proper prefix of a frame decodes: a frame with nothing after it is exactly as long as it needs. */
  lemma {:induction false} ProperPrefixIsIncomplete(buf: bytes, k: nat)
    requires DecodeFrame(buf).Some? && DecodeFrame(buf).value.rest == [] && k < |buf|
    ensures DecodeFrame(buf[..k]).None?
  {
    if DecodeFrame(buf[..k]).Some? {
      assert buf == buf[..k] + buf[k..];
      DecodeIsStable(buf[..k], buf[k..]);
    }
  }

  /** In particular the receiver waits for every byte of an encoded frame. */
  lemma {:induction false} EncodedPrefixIsIncomplete(payload: bytes, mask: bytes, k: nat)
    requires |mask| == 4 && |payload| <= MAX_BUFFER && k < |EncodeFrame(payload, mask)|
    ensures DecodeFrame(EncodeFrame(payload, mask)[..k]).None?
  {
    DecodeOfEncode(payload, mask, []);
    assert EncodeFrame(payload, mask) + [] == EncodeFrame(payload, mask);
    ProperPrefixIsIncomplete(EncodeFrame(payload, mask), k);
  }

  /** No masked frame with a payload of the same length is shorter than the encoded one. */
  lemma {:induction false} EncodingIsShortest(payload: bytes, mask: bytes, buf: bytes)
    requires |mask| == 4 && |payload| <= MAX_BUFFER
    requires DecodeFrame(buf).Some? && DecodeFrame(buf).value.rest == [] && buf[1] >= 0x80
    requires |DecodeFrame(buf).value.payload| == |payload|
    ensures |EncodeFrame(payload, mask)| <= |buf|
  {
    var e := ExtentOf(buf).value;
    assert |buf| == e.offset + 4 + |payload|;
    if e.offset == 4 {
      TwoByteValue(buf[2..4]);
    }
  }

  lemma {:induction false} TwoByteValue(b: bytes)
    requires |b| == 2
    ensures Value(b) < 65536
  {
    SingleByte(b[0]);
    assert b[..1] == [b[0]];
  }

  // ---------------------------------------------------------------- the receive loop

  datatype Message = Message(opcode: nat, payload: bytes)

  datatype Outcome = UpgradeRefused | Closed | Replied(value: string)

  /** What the peer and the JSON library decide: the reply a payload carries, if it is the awaited one. */
  datatype Env = Env(replyIn: bytes -> Option<string>, request: bytes)

  datatype Conn = Conn(upgraded: bool, buf: bytes, delivered: seq<Message>, outcome: Option<Outcome>)

  const FRESH := Conn(false, [], [], None)

  const BLANK_LINE: bytes := [13, 10, 13, 10]

  /** The characters of "HTTP/1.1 101". */
  const SWITCHING: bytes := [72, 84, 84, 80, 47, 49, 46, 49, 32, 49, 48, 49]

  predicate OccursAt(pattern: bytes, text: bytes, i: nat) {
    i + |pattern| <= |text| && text[i..i + |pattern|] == pattern
  }

  /** The first position from `i` on at which the pattern occurs. */
  function IndexOf(pattern: bytes, text: bytes, i: nat): (r: Option<nat>)
    ensures r.Some? ==> i <= r.value && OccursAt(pattern, text, r.value)
    ensures r.Some? ==> forall k: nat :: i <= k < r.value ==> !OccursAt(pattern, text, k)
    ensures r.None? ==> forall k: nat :: i <= k ==> !OccursAt(pattern, text, k)
    decreases |text| - i
  {
    if i + |pattern| > |text| then None
    else if OccursAt(pattern, text, i) then Some(i)
    else IndexOf(pattern, text, i + 1)
  }

  /** What a decoded frame does to the exchange: a close ends it, the awaited reply completes it. */
  function Verdict(env: Env, f: Frame): Option<Outcome> {
    if f.opcode == CLOSE then Some(Closed)
    else if f.opcode == TEXT || f.opcode == BINARY then
      var reply := env.replyIn(f.payload);
      if reply.Some? then Some(Replied(reply.value)) else None
    else None
  }

  /** Parse complete frames off the buffer until one decides the exchange or none is left. */
  function Drain(env: Env, buf: bytes): (seq<Message>, bytes, Option<Outcome>)
    decreases |buf|
  {
    var frame := DecodeFrame(buf);
    if frame.None? then ([], buf, None)
    else
      var f := frame.value;
      var m := Message(f.opcode, f.payload);
      if Verdict(env, f).Some? then ([m], f.rest, Verdict(env, f))
      else
        var (more, rest, outcome) := Drain(env, f.rest);
        ([m] + more, rest, outcome)
  }

  function Drained(env: Env, c: Conn): Conn {
    var (messages, rest, outcome) := Drain(env, c.buf);
    Conn(true, rest, c.delivered + messages, outcome)
  }

  /** How the response head looks: not complete, not a protocol switch, or done with `tail` after it. */
  datatype Opening = Waiting | Refused | Switched(tail: bytes)

  function OpeningOf(buf: bytes): Opening {
    var i := IndexOf(BLANK_LINE, buf, 0);
    if i.None? then Waiting
    else if IndexOf(SWITCHING, buf[..i.value], 0).None? then Refused
    else Switched(buf[i.value + 4..])
  }

  /** One data event; nothing is delivered after the socket has been destroyed. */
  function Feed(env: Env, c: Conn, chunk: bytes): Conn {
    if c.outcome.Some? then c
    else
      var buf := c.buf + chunk;
      if c.upgraded then Drained(env, c.(buf := buf))
      else match OpeningOf(buf)
        case Waiting => c.(buf := buf)
        case Refused => c.(buf := buf, outcome := Some(UpgradeRefused))
        case Switched(tail) => Drained(env, c.(buf := tail))
  }

  class CdpSocket {
    const env: Env
    var upgraded: bool
    var buf: bytes
    var sent: seq<bytes>
    var outcome: Option<Outcome>
    ghost var delivered: seq<Message>

    ghost function State(): Conn
      reads this
    {
      Conn(upgraded, buf, delivered, outcome)
    }

    constructor (env: Env)
      ensures this.env == env && State() == FRESH && sent == []
    {
      this.env := env;
      upgraded := false;
      buf := [];
      sent := [];
      outcome := None;
      delivered := [];
    }

    /** The handler of the socket's data event. */
    method OnData(chunk: bytes, mask: bytes)
      requires |mask| == 4 && |env.request| <= MAX_BUFFER
      modifies this
      ensures State() == Feed(env, old(State()), chunk)
      ensures sent == old(sent) + if upgraded && !old(upgraded) then [EncodeFrame(env.request, mask)] else []
    {
      if outcome.Some? {
        return;
      }
      buf := buf + chunk;
      if !upgraded {
        var i := IndexOf(BLANK_LINE, buf, 0);
        if i.None? {
          return;
        }
        var head := buf[..i.value];
        if IndexOf(SWITCHING, head, 0).None? {
          outcome := Some(UpgradeRefused);
          return;
        }
        upgraded := true;
        buf := buf[i.value + 4..];
        var request := Encode(env.request, mask);
        sent := sent + [request];
      }
      ParseFrames();
    }

    /** The loop over complete server frames. */
    method ParseFrames()
      requires upgraded && outcome.None?
      modifies this`buf, this`outcome, this`delivered
      ensures State() == Drained(env, old(State()))
    {
      ghost var start := State();
      ghost var seen: seq<Message> := [];
      assert [] + Drain(env, buf).0 == Drain(env, buf).0;
      var frame := Decode(buf);
      while frame.Some?
        invariant upgraded && outcome.None? && frame == DecodeFrame(buf) && delivered == start.delivered + seen
        invariant Parsed(env, start.buf, seen, buf)
        decreases |buf|
      {
        var f := frame.value;
        ParsedStep(env, start.buf, seen, buf);
        buf := f.rest;
        seen := seen + [Message(f.opcode, f.payload)];
        delivered := start.delivered + seen;
        if f.opcode == CLOSE {
          outcome := Some(Closed);
          return;
        }
        if f.opcode == TEXT || f.opcode == BINARY {
          var reply := env.replyIn(f.payload);
          if reply.Some? {
            outcome := Some(Replied(reply.value));
            return;
          }
        }
        frame := Decode(buf);
      }
      assert seen + [] == seen;
    }
  }

  /** Having delivered `seen`, the loop is left with `rest` of the buffer it started from. */
  ghost predicate Parsed(env: Env, start: bytes, seen: seq<Message>, rest: bytes) {
    Drain(env, start) == (seen + Drain(env, rest).0, Drain(env, rest).1, Drain(env, rest).2)
  }

  lemma {:induction false} ParsedStep(env: Env, start: bytes, seen: seq<Message>, rest: bytes)
    requires Parsed(env, start, seen, rest) && DecodeFrame(rest).Some?
    ensures var f := DecodeFrame(rest).value;
            var seen' := seen + [Message(f.opcode, f.payload)];
            if Verdict(env, f).Some? then Drain(env, start) == (seen', f.rest, Verdict(env, f))
            else Parsed(env, start, seen', f.rest)
  {
    var f := DecodeFrame(rest).value;
    var m := Message(f.opcode, f.payload);
    assert seen + ([m] + Drain(env, f.rest).0) == seen + [m] + Drain(env, f.rest).0;
  }

  // ---------------------------------------------------------------- chunking does not matter

  function FeedAll(env: Env, chunks: seq<bytes>): Conn {
    if chunks == [] then FRESH
    else Feed(env, FeedAll(env, chunks[..|chunks| - 1]), chunks[|chunks| - 1])
  }

  function Joined(chunks: seq<bytes>): bytes {
    if chunks == [] then [] else Joined(chunks[..|chunks| - 1]) + chunks[|chunks| - 1]
  }

  /** Two connections agree: same frames, same outcome, and the same bytes left over while it is open. */
  ghost predicate Agree(a: Conn, b: Conn) {
    && a.upgraded == b.upgraded && a.delivered == b.delivered && a.outcome == b.outcome
    && (a.outcome.None? ==> a.buf == b.buf)
  }

  /** More bytes leave a decided exchange alone and otherwise continue from what was left over. */
  lemma {:induction false} DrainContinues(env: Env, buf: bytes, more: bytes)
    ensures var (messages, rest, outcome) := Drain(env, buf);
            var (messages', rest', outcome') := Drain(env, buf + more);
            if outcome.Some? then messages' == messages && outcome' == outcome
            else
              var (later, rest'', outcome'') := Drain(env, rest + more);
              messages' == messages + later && rest' == rest'' && outcome' == outcome''
    decreases |buf|
  {
    if DecodeFrame(buf).None? {
      assert [] + Drain(env, buf + more).0 == Drain(env, buf + more).0;
    } else {
      var f := DecodeFrame(buf).value;
      DecodeIsStable(buf, more);
      if Verdict(env, f).None? {
        DrainContinues(env, f.rest, more);
        var m := Message(f.opcode, f.payload);
        var (messages, rest, outcome) := Drain(env, f.rest);
        var later := Drain(env, rest + more).0;
        assert [m] + (messages + later) == [m] + messages + later;
      }
    }
  }

  lemma {:induction false} IndexIsStable(pattern: bytes, text: bytes, more: bytes)
    requires IndexOf(pattern, text, 0).Some?
    ensures IndexOf(pattern, text + more, 0) == IndexOf(pattern, text, 0)
  {
    var all := text + more;
    var i := IndexOf(pattern, text, 0).value;
    assert all[i..i + |pattern|] == text[i..i + |pattern|];
    assert OccursAt(pattern, all, i);
    var j := IndexOf(pattern, all, 0).value;
    if j < i {
      assert all[j..j + |pattern|] == text[j..j + |pattern|];
      assert OccursAt(pattern, text, j);
    }
  }

  /** An upgraded connection that has parsed some bytes continues as if it had waited for the rest. */
  lemma {:induction false} DrainedContinues(env: Env, c: Conn, chunk: bytes)
    requires c.upgraded && c.outcome.None?
    ensures Agree(Feed(env, Drained(env, c), chunk), Drained(env, c.(buf := c.buf + chunk)))
  {
    DrainContinues(env, c.buf, chunk);
    var (messages, rest, outcome) := Drain(env, c.buf);
    var later := Drain(env, rest + chunk).0;
    assert c.delivered + messages + later == c.delivered + (messages + later);
  }

  lemma {:induction false} OpeningIsStable(buf: bytes, more: bytes)
    ensures match OpeningOf(buf)
            case Waiting => true
            case Refused => OpeningOf(buf + more) == Refused
            case Switched(tail) => OpeningOf(buf + more) == Switched(tail + more)
  {
    var i := IndexOf(BLANK_LINE, buf, 0);
    if i.Some? {
      IndexIsStable(BLANK_LINE, buf, more);
      assert (buf + more)[..i.value] == buf[..i.value];
      assert (buf + more)[i.value + 4..] == buf[i.value + 4..] + more;
    }
  }

  /** Feeding a chunk after some bytes agrees with feeding all of them at once to a fresh connection. */
  lemma {:induction false} FeedContinues(env: Env, sofar: bytes, chunk: bytes)
    ensures Agree(Feed(env, Feed(env, FRESH, sofar), chunk), Feed(env, FRESH, sofar + chunk))
  {
    assert [] + sofar == sofar && [] + (sofar + chunk) == sofar + chunk;
    OpeningIsStable(sofar, chunk);
    if OpeningOf(sofar).Switched? {
      DrainedContinues(env, Conn(true, OpeningOf(sofar).tail, [], None), chunk);
    }
  }

  lemma {:induction false} FeedAgrees(env: Env, a: Conn, b: Conn, chunk: bytes)
    requires Agree(a, b)
    ensures Agree(Feed(env, a, chunk), Feed(env, b, chunk))
  {
  }

  /** However the same bytes are cut into chunks, the receive loop delivers what one chunk would. */
  lemma {:induction false} ChunkingIsInvisible(env: Env, chunks: seq<bytes>)
    requires chunks != []
    ensures Agree(FeedAll(env, chunks), Feed(env, FRESH, Joined(chunks)))
  {
    var n := |chunks| - 1;
    if n == 0 {
      assert chunks[..0] == [];
      assert Joined(chunks) == [] + chunks[0] == chunks[0];
      assert FeedAll(env, chunks[..0]) == FRESH;
    } else {
      ChunkingIsInvisible(env, chunks[..n]);
      FeedAgrees(env, FeedAll(env, chunks[..n]), Feed(env, FRESH, Joined(chunks[..n])), chunks[n]);
      FeedContinues(env, Joined(chunks[..n]), chunks[n]);
    }
  }
}
