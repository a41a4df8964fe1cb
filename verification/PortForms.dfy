/**
 * The two ways a compose file can publish a port, `host:target[/proto]` and the long form with its
 * fields, read by addShortPort and addLongPort (compose-introspect.ts).
 */
module PortForms {
  import opened Wrappers
  import opened JsText
  import opened Replicator
  import opened ComposeIntrospect
  import opened ComposeLaws

  // ---------------------------------------------------------------- the texts

  function DepthOf(s: string, depth: nat): nat {
    if s == "" then depth else DepthOf(s[1..], DepthAfter(s[0], depth))
  }

  /** No colon outside braces, and every brace closed again. */
  predicate OneSegment(s: string, depth: nat) {
    Segments(s, depth) == [s] && DepthOf(s, depth) == 0
  }

  predicate PlainChar(c: char) {
    !IsSpace(c) && !IsQuote(c)
  }

  /** A host or target as a text of its own: one segment, no slash, no white space or quotes around it. */
  predicate PortText(s: string) {
    s != "" && PlainChar(s[0]) && PlainChar(s[|s| - 1]) && '/' !in s && OneSegment(s, 0)
  }

  function ProtoText(proto: Protocol): string {
    if proto.Udp? then "udp" else "tcp"
  }

  function ShortForm(host: string, target: string, proto: Option<Protocol>): string {
    (host + ":" + target) + match proto case None => "" case Some(p) => "/" + ProtoText(p)
  }

  function LongForm(service: Option<string>, host: string, target: string, proto: Option<Protocol>): LongPort {
    LongPort(service, Some(target), Some(host), match proto case None => None case Some(p) => Some(ProtoText(p)))
  }

  function ProtoGiven(proto: Option<Protocol>): Protocol {
    match proto case None => Tcp case Some(p) => p
  }

  // ---------------------------------------------------------------- reading the short form

  lemma {:induction false} SegmentThenColon(a: string, b: string, depth: nat)
    requires OneSegment(a, depth)
    ensures Segments(a + (":" + b), depth) == [a] + Segments(b, 0)
  {
    if a == "" {
      assert a + (":" + b) == ":" + b && (":" + b)[1..] == b;
    } else {
      var d, segs := DepthAfter(a[0], depth), Segments(a[1..], DepthAfter(a[0], depth));
      TailIsOneSegment(a, depth);
      SegmentThenColon(a[1..], b, d);
      var rest := [a[1..]] + Segments(b, 0);
      assert (a + (":" + b))[1..] == a[1..] + (":" + b);
      assert rest[0] == a[1..] && rest[1..] == Segments(b, 0) && [a[0]] + a[1..] == a;
    }
  }

  lemma {:induction false} TailIsOneSegment(a: string, depth: nat)
    requires a != "" && OneSegment(a, depth)
    ensures OneSegment(a[1..], DepthAfter(a[0], depth))
    ensures !(a[0] == ':' && DepthAfter(a[0], depth) == 0)
  {
    var segs := Segments(a[1..], DepthAfter(a[0], depth));
    if !(a[0] == ':' && DepthAfter(a[0], depth) == 0) {
      assert Segments(a, depth)[0] == [a[0]] + segs[0];
      assert segs[0] == ([a[0]] + segs[0])[1..] == a[1..];
      assert |Segments(a, depth)| == |segs|;
    }
  }

  lemma {:induction false} BothSegments(host: string, target: string)
    requires PortText(host) && PortText(target)
    ensures Segments(host + ":" + target, 0) == [host, target]
  {
    SegmentThenColon(host, target, 0);
    assert host + ":" + target == host + (":" + target);
  }

  lemma {:induction false} PlainEnds(s: string)
    requires s != "" && PlainChar(s[0]) && PlainChar(s[|s| - 1])
    ensures Trim(s) == s && StripQuotes(s) == s && TrimEnd(s) == s
  {
    TrimIsIdentity(s);
  }

  lemma {:induction false} UpToSlash(a: string, b: string)
    requires '/' !in a
    ensures BeforeSlash(a + ("/" + b)) == a && BeforeSlash(a) == a
  {
    var s := a + ("/" + b);
    var i := IndexFrom(s, '/', 0);
    assert s[|a|] == '/';
    assert forall k :: 0 <= k < |a| ==> s[k] == a[k] && a[k] in a;
    assert i == |a|;
  }

  lemma {:induction false} AsciiIsNoSpace(c: char, d: char)
    requires 'a' <= c <= 'z' && 'a' <= d <= 'z'
    ensures !IsSpace(c) && !IsSpace(d)
  {
  }

  lemma {:induction false} ProtoTextIsPlain(p: Protocol)
    ensures |ProtoText(p)| == 3 && PlainChar(ProtoText(p)[0]) && PlainChar(ProtoText(p)[2])
  {
    AsciiIsNoSpace('u', 'p');
    AsciiIsNoSpace('t', 'p');
    assert "tcp"[0] == 't' && "tcp"[2] == 'p' && "udp"[0] == 'u' && "udp"[2] == 'p';
  }

  lemma {:induction false} SuffixDecides(front: string, p: Protocol)
    ensures EndsWithLower(front + ("/" + ProtoText(p)), "/udp") <==> p.Udp?
  {
    var s := front + ("/" + ProtoText(p));
    assert |s| == |front| + 4 && s[|front|] == '/';
    assert s[|front| + 1] == ProtoText(p)[0] && s[|front| + 2] == ProtoText(p)[1] && s[|front| + 3] == ProtoText(p)[2];
    assert "/udp"[0] == '/' && "/udp"[1] == 'u' && "/udp"[2] == 'd' && "/udp"[3] == 'p';
    assert "tcp"[0] == 't' && "udp"[0] == 'u' && "udp"[1] == 'd' && "udp"[2] == 'p';
  }

  lemma {:induction false} NoSlashNoUdp(s: string)
    requires '/' !in s
    ensures !EndsWithLower(s, "/udp")
  {
    if |s| >= 4 {
      assert s[|s| - 4 + 0] in s;
      assert LowerAscii(s[|s| - 4 + 0]) != "/udp"[0];
    }
  }

  /** The short form has the two texts as its segments, and the given protocol. */
  lemma {:induction false} ShortFormParts(host: string, target: string, proto: Option<Protocol>)
    requires PortText(host) && PortText(target)
    ensures PortSegments(ShortForm(host, target, proto)) == [host, target]
    ensures ProtoOf(ShortForm(host, target, proto)) == ProtoGiven(proto)
  {
    var both, item := host + ":" + target, ShortForm(host, target, proto);
    BothSegments(host, target);
    assert '/' !in both;
    match proto
    case None =>
      assert item == both;
      PlainEnds(item);
      UpToSlash(both, "");
      NoSlashNoUdp(both);
    case Some(p) =>
      ProtoTextIsPlain(p);
      assert item[|item| - 1] == ProtoText(p)[2];
      PlainEnds(item);
      UpToSlash(both, ProtoText(p));
      SuffixDecides(both, p);
  }

  // ---------------------------------------------------------------- the two forms compared

  lemma {:induction false} ShortIsPublished(
    r: Reader, st: Scan, host: string, target: string, service: Option<string>, proto: Option<Protocol>)
    requires PortText(host) && PortText(target)
    ensures AddShortPort(r, st, ShortForm(host, target, proto), service)
            == PublishPort(st, host, service, PortOfSegments(r, [host, target]), ProtoGiven(proto))
  {
    ShortFormParts(host, target, proto);
  }

  lemma {:induction false} LongIsPublished(
    r: Reader, st: Scan, host: string, target: string, service: Option<string>, proto: Option<Protocol>)
    requires PortText(host)
    ensures AddLongPort(r, st, LongForm(service, host, target, proto))
            == PublishPort(st, host, service, ContainerPortOf(r, target), ProtoGiven(proto))
  {
    PlainEnds(host);
    if proto.Some? {
      ProtoTextIsPlain(proto.value);
      PlainEnds(ProtoText(proto.value));
      assert "tcp"[0] == 't' && "udp"[0] == 'u' && "udp"[1] == 'd' && "udp"[2] == 'p';
    }
  }

  lemma {:induction false} NoPortKnown(toks: seq<RawToken>, service: Option<string>)
    ensures forall i :: 0 <= i < |AddVars([], toks, HostPort, service, None)| ==>
              AddVars([], toks, HostPort, service, None)[i].containerPort.None?
  {
    if toks != [] { NoPortKnown(toks[..|toks| - 1], service); }
  }

  /** On an empty scan, a port published with a container port differs from one without. */
  lemma {:induction false} PortMatters(host: string, service: Option<string>, port: int, proto: Protocol)
    requires port > 0 && (TokensIn(host) != [] || LiteralRange(host).Some?)
    ensures PublishPort(START, host, service, Some(port), proto) != PublishPort(START, host, service, None, proto)
  {
    if TokensIn(host) != [] {
      PublishedTokensAreManaged(START, host, service, Some(port), proto, 0);
      NoPortKnown(TokensIn(host), service);
    }
  }

  lemma {:induction false} NothingPublished(
    st: Scan, host: string, service: Option<string>, port: Option<int>, proto: Protocol)
    requires TokensIn(host) == [] && LiteralRange(host).None?
    ensures PublishPort(st, host, service, port, proto) == st
  {
  }

  /** The container port the short form finds is the target's. */
  predicate SamePortFound(r: Reader, host: string, target: string) {
    ContainerPortOf(r, target).Some? || ContainerPortOf(r, host).None?
  }

  /**
   * The short and the long form of a port mean the same on every scan exactly when the target can be
   * read, or the host, on which the short form falls back, cannot, or the host publishes nothing.
   */
  lemma {:induction false} PortFormsAgreeExactly(
    r: Reader, host: string, target: string, service: Option<string>, proto: Option<Protocol>)
    requires PortText(host) && PortText(target)
    ensures (forall st :: AddShortPort(r, st, ShortForm(host, target, proto), service)
                          == AddLongPort(r, st, LongForm(service, host, target, proto)))
            <==> SamePortFound(r, host, target) || (TokensIn(host) == [] && LiteralRange(host).None?)
  {
    if SamePortFound(r, host, target) || (TokensIn(host) == [] && LiteralRange(host).None?) {
      forall st ensures AddShortPort(r, st, ShortForm(host, target, proto), service)
                        == AddLongPort(r, st, LongForm(service, host, target, proto))
      {
        ShortIsPublished(r, st, host, target, service, proto);
        LongIsPublished(r, st, host, target, service, proto);
        if !SamePortFound(r, host, target) {
          NothingPublished(st, host, service, PortOfSegments(r, [host, target]), ProtoGiven(proto));
          NothingPublished(st, host, service, ContainerPortOf(r, target), ProtoGiven(proto));
        }
      }
    } else {
      ContainerPortIsPositive(r, host);
      ShortIsPublished(r, START, host, target, service, proto);
      LongIsPublished(r, START, host, target, service, proto);
      PortMatters(host, service, ContainerPortOf(r, host).value, ProtoGiven(proto));
    }
  }
}
