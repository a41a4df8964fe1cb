/**
 * The shared state of one tunnel session (agent/main.go) and its critical sections: the bounded
 * outbound queue, the stream tables, the allow list and the quit flag. Sockets are numbered in the
 * order they were dialled.
 */
module TunnelSession {
  import opened Wrappers
  import opened Bytes
  import opened JsText

  const QUEUE_CAP: nat := 128

  /** An outbound frame: stream data, or one of the control messages. */
  datatype Frame =
    | Binary(data: bytes)
    | StreamOpened(id: nat)
    | StreamError(id: nat)
    | CloseStream(id: nat)
    | Other

  type StreamId = id: nat | id < 0x1_0000_0000

  /** What the session object holds of its streams. */
  datatype Core = Core(
    quit: bool, out: seq<Frame>, streams: map<StreamId, nat>, streamPorts: map<StreamId, int>)

  const EMPTY_CORE := Core(false, [], map[], map[])

  function Enqueued(c: Core, f: Frame): Core {
    c.(out := c.out + [f])
  }

  function Registered(c: Core, id: StreamId, handle: nat, port: int): Core {
    c.(streams := c.streams[id := handle], streamPorts := c.streamPorts[id := port])
  }

  /** Drop the stream from both tables, whether or not it is there. */
  function Unregistered(c: Core, id: StreamId): Core {
    c.(streams := c.streams - {id}, streamPorts := c.streamPorts - {id})
  }

  function AllClosed(c: Core): Core {
    c.(quit := true, streams := map[], streamPorts := c.streamPorts - c.streams.Keys)
  }

  predicate AnyOnPort(c: Core, port: int) {
    port in c.streamPorts.Values
  }

  // ---------------------------------------------------------------- the allow list

  datatype Target = Target(host: string, port: int)

  predicate Dialable(t: Target) {
    t.host != "" && 0 < t.port <= 65535
  }

  /** How the list is keyed: host, colon, port in decimal. A host may itself hold colons. */
  function KeyOf(t: Target): string {
    t.host + ":" + IntText(t.port)
  }

  /** No two targets share a key: the port is what follows the last colon. */
  lemma {:induction false} KeyIsInjective(a: Target, b: Target)
    requires KeyOf(a) == KeyOf(b)
    ensures a == b
  {
    NoColonInPort(a.port);
    NoColonInPort(b.port);
    LastColon(a.host, IntText(a.port), b.host, IntText(b.port));
    IntTextIsInjective(a.port, b.port);
  }

  lemma {:induction false} NoColonInPort(port: int)
    ensures ':' !in IntText(port)
  {
  }

  lemma {:induction false} LastColon(front: string, back: string, front': string, back': string)
    requires front + ":" + back == front' + ":" + back' && ':' !in back && ':' !in back'
    ensures front == front' && back == back'
  {
    var s := front + ":" + back;
    assert s[|front|] == ':' && s[|front'|] == ':';
    assert forall i :: |front| < i < |s| ==> s[i] == back[i - |front| - 1];
    assert forall i :: |front'| < i < |s| ==> s[i] == back'[i - |front'| - 1];
    assert |front| == |front'|;
    assert s[..|front|] == front && s[..|front'|] == front';
    assert s[|front| + 1..] == back && s[|front'| + 1..] == back';
  }

  /** A network as ParseCIDR reads it, an address as ParseIP reads it, and which contains which. */
  datatype Net<!Network, !Address> = Net(
    parseCidr: string -> Option<Network>, parseIp: string -> Option<Address>, contains: (Network, Address) -> bool)

  class Session<Network(==), Address> {
    const net: Net<Network, Address>
    var quit: bool
    var out: seq<Frame>
    var streams: map<StreamId, nat>
    var streamPorts: map<StreamId, int>
    var closed: set<nat>
    var allow: set<string>
    var egress: seq<Network>
    /** The targets whose keys the allow list holds. */
    ghost var listed: set<Target>

    ghost predicate Valid()
      reads this
    {
      allow == set t | t in listed :: KeyOf(t)
    }

    function View(): Core
      reads this
    {
      Core(quit, out, streams, streamPorts)
    }

    constructor (net: Net<Network, Address>, targets: set<Target>)
      ensures Valid() && View() == EMPTY_CORE && closed == {} && egress == [] && listed == targets && this.net == net
    {
      this.net := net;
      quit, out, streams, streamPorts, closed := false, [], map[], map[], {};
      egress := [];
      listed := targets;
      allow := set t | t in targets :: KeyOf(t);
    }

    method Stop()
      modifies this`quit
      ensures quit
    {
      quit := true;
    }

    /** Replace the allow list and the egress ranges by the valid entries of the broker's lists. */
    method SetAllow(entries: seq<Target>, cidrs: seq<string>)
      modifies this`allow, this`egress, this`listed
      ensures Valid() && listed == set t | t in entries && Dialable(t)
      ensures egress == ParsedCidrs(net, cidrs)
    {
      var m: set<string> := {};
      ghost var kept: set<Target> := {};
      for i := 0 to |entries|
        invariant kept == set t | t in entries[..i] && Dialable(t)
        invariant m == set t | t in kept :: KeyOf(t)
      {
        var e := entries[i];
        assert entries[..i + 1] == entries[..i] + [e];
        if e.host == "" || e.port <= 0 || e.port > 65535 {
          continue;
        }
        m := m + {KeyOf(e)};
        kept := kept + {e};
      }
      assert entries[..|entries|] == entries;
      var nets: seq<Network> := [];
      for i := 0 to |cidrs|
        invariant nets == ParsedCidrs(net, cidrs[..i])
      {
        assert cidrs[..i + 1][..i] == cidrs[..i];
        var n := net.parseCidr(cidrs[i]);
        if n.Some? {
          nets := nets + [n.value];
        }
      }
      assert cidrs[..|cidrs|] == cidrs;
      allow, egress := m, nets;
      listed := kept;
    }

    /** True exactly if the target itself is listed, or its host is an address inside an egress range. */
    method Allowed(host: string, port: int) returns (ok: bool)
      requires Valid()
      ensures ok <==> Target(host, port) in listed || InEgress(net, egress, host)
    {
      var key := KeyOf(Target(host, port));
      if key in allow {
        ghost var t :| t in listed && KeyOf(t) == key;
        KeyIsInjective(t, Target(host, port));
        return true;
      }
      var ip := net.parseIp(host);
      if ip.Some? {
        for i := 0 to |egress|
          invariant forall j :: 0 <= j < i ==> !net.contains(egress[j], ip.value)
        {
          if net.contains(egress[i], ip.value) {
            return true;
          }
        }
      }
      return false;
    }

    method AllowDesktopPort(port: int)
      requires Valid()
      modifies this`allow, this`listed
      ensures Valid() && listed == old(listed) + {Target("127.0.0.1", port)}
    {
      allow := allow + {KeyOf(Target("127.0.0.1", port))};
      listed := listed + {Target("127.0.0.1", port)};
    }

    method AnyStreamOnPort(port: int) returns (found: bool)
      ensures found == AnyOnPort(View(), port)
    {
      var todo := streamPorts.Keys;
      while todo != {}
        invariant todo <= streamPorts.Keys
        invariant forall id :: id in streamPorts.Keys - todo ==> streamPorts[id] != port
        decreases todo
      {
        var id :| id in todo;
        if streamPorts[id] == port {
          return true;
        }
        todo := todo - {id};
      }
      return false;
    }

    /** A send that found room in the queue. */
    method Enqueue(f: Frame)
      requires |out| < QUEUE_CAP
      modifies this`out
      ensures View() == Enqueued(old(View()), f)
    {
      out := out + [f];
    }

    method RegisterStream(id: StreamId, handle: nat, port: int)
      modifies this`streams, this`streamPorts
      ensures View() == Registered(old(View()), id, handle, port)
    {
      streams := streams[id := handle];
      streamPorts := streamPorts[id := port];
    }

    /** The critical section of closeStream: the socket taken out, if there was one, still open. */
    method RemoveStream(id: StreamId) returns (local: Option<nat>)
      modifies this`streams, this`streamPorts
      ensures View() == Unregistered(old(View()), id)
      ensures local == if id in old(streams) then Some(old(streams)[id]) else None
    {
      local := if id in streams then Some(streams[id]) else None;
      streams := streams - {id};
      streamPorts := streamPorts - {id};
    }

    method CloseSocket(local: nat)
      modifies this`closed
      ensures closed == old(closed) + {local}
    {
      closed := closed + {local};
    }

    method CloseAll()
      modifies this`quit, this`streams, this`streamPorts, this`closed
      ensures View() == AllClosed(old(View()))
      ensures closed == old(closed) + set id | id in old(streams) :: old(streams)[id]
    {
      Stop();
      ghost var before, gone: set<StreamId> := streams, {};
      while streams != map[]
        invariant quit && out == old(out) && gone <= before.Keys
        invariant streams == before - gone && streamPorts == old(streamPorts) - gone
        invariant closed == old(closed) + set id | id in gone :: before[id]
        decreases streams.Keys
      {
        var id :| id in streams;
        CloseSocket(streams[id]);
        streams := streams - {id};
        streamPorts := streamPorts - {id};
        gone := gone + {id};
      }
      assert gone == before.Keys;
    }
  }

  /** The ranges that parse, in order. */
  function ParsedCidrs<Network, Address>(net: Net<Network, Address>, cidrs: seq<string>): seq<Network> {
    if cidrs == [] then []
    else
      var n := net.parseCidr(cidrs[|cidrs| - 1]);
      ParsedCidrs(net, cidrs[..|cidrs| - 1]) + if n.Some? then [n.value] else []
  }

  predicate InEgress<Network, Address>(net: Net<Network, Address>, egress: seq<Network>, host: string) {
    var ip := net.parseIp(host);
    ip.Some? && exists i :: 0 <= i < |egress| && net.contains(egress[i], ip.value)
  }
}
