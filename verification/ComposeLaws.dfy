/** What introspection guarantees for every compose text. */
module ComposeLaws {
  import opened Wrappers
  import opened JsText
  import opened Replicator
  import opened Dollars
  import opened ComposeIntrospect
  import opened StableSort
  import D = Dotenv
  import M = SchemaMerge

  // ---------------------------------------------------------------- tokens

  lemma {:induction false} TokenIsNamed(s: string)
    requires TokenAt(s).Some?
    ensures IsIdentifier(TokenAt(s).value.name)
  {
    var end := D.IdentEnd(s, 3);
    assert TokenAt(s).value.name == s[2..end];
    assert forall i :: 0 < i < end - 2 ==> s[2..end][i] == s[2 + i] && IsNameChar(s[2 + i]);
  }

  predicate AllNamed(toks: seq<RawToken>) {
    forall i :: 0 <= i < |toks| ==> IsIdentifier(toks[i].name)
  }

  lemma {:induction false} TokensAreNamed(s: string)
    ensures AllNamed(TokensIn(s))
    decreases |s|
  {
    if s != "" {
      match TokenAt(s)
      case Some(t) => TokenIsNamed(s); TokensAreNamed(s[t.length..]);
      case None => TokensAreNamed(s[1..]);
    }
  }

  // ---------------------------------------------------------------- what the scan keeps

  /** A variable under construction: required exactly without a default, no secret yet. */
  predicate VarOk(v: Variable) {
    && IsIdentifier(v.name) && (v.required <==> v.default.None?)
    && !v.role.Secret? && !v.secret && v.source == Some(Compose) && v.envFile.None? && v.comment.None?
    && (v.containerPort.Some? ==> v.containerPort.value > 0)
  }

  predicate VarsOk(vars: seq<Variable>) {
    DistinctNames(vars) && forall i :: 0 <= i < |vars| ==> VarOk(vars[i])
  }

  predicate FixedOk(p: FixedPort) {
    && p.source.Compose? && p.hostPort > 0 && p.containerPort > 0 && (p.hostPortEnd.Some? ==> p.hostPortEnd.value > 0)
    && (p.mode.Published? ==> p.variable.None? && !p.adjustable)
    && (p.mode.HostNetwork? ==> p.variable.Some? && p.adjustable && p.hostPort == p.containerPort)
  }

  predicate AllFixedOk(ports: seq<FixedPort>) {
    forall i :: 0 <= i < |ports| ==> FixedOk(ports[i])
  }

  predicate ScanOk(st: Scan) {
    VarsOk(st.vars) && AllFixedOk(st.fixedPorts)
  }

  predicate PositivePort(p: Option<int>) {
    p.Some? ==> p.value > 0
  }

  lemma {:induction false} AddVarKeeps(
    vars: seq<Variable>, tok: RawToken, role: Role, service: Option<string>, containerPort: Option<int>)
    requires VarsOk(vars) && IsIdentifier(tok.name) && !role.Secret? && PositivePort(containerPort)
    ensures var after := AddVar(vars, tok, role, service, containerPort);
            VarsOk(after) && Grown(vars, after) && Recorded(after, tok, role, containerPort)
  {
    var i := IndexOf(vars, tok.name);
    var after := AddVar(vars, tok, role, service, containerPort);
    if i < |vars| { FoldedOk(vars[i], tok, role, service, containerPort); }
    assert RecordedAt(after[i], tok, role, containerPort);
  }

  lemma {:induction false} FoldedOk(
    v: Variable, tok: RawToken, role: Role, service: Option<string>, containerPort: Option<int>)
    requires VarOk(v) && !role.Secret? && PositivePort(containerPort)
    ensures var w := Folded(v, tok, role, service, containerPort);
            && VarOk(w) && w.name == v.name && Keeps(v, w)
            && (w.name == tok.name ==> RecordedAt(w, tok, role, containerPort))
  {
  }

  /** A role never falls back; a default and a container port, once known, stay. */
  predicate Keeps(v: Variable, w: Variable) {
    && Rank(w.role) >= Rank(v.role)
    && (v.default.Some? ==> w.default == v.default) && (v.containerPort.Some? ==> w.containerPort == v.containerPort)
  }

  /** Names stay in place, and what is known of a variable stays. */
  predicate Grown(vars: seq<Variable>, after: seq<Variable>) {
    |vars| <= |after| && forall i :: 0 <= i < |vars| ==> after[i].name == vars[i].name && Keeps(vars[i], after[i])
  }

  /** The variable has taken in the token: its default and container port are known, its role is no lower. */
  predicate RecordedAt(v: Variable, tok: RawToken, role: Role, containerPort: Option<int>) {
    && v.name == tok.name && Rank(v.role) >= Rank(role)
    && (tok.default.Some? ==> v.default.Some?) && (containerPort.Some? ==> v.containerPort.Some?)
  }

  predicate Recorded(vars: seq<Variable>, tok: RawToken, role: Role, containerPort: Option<int>) {
    exists i :: 0 <= i < |vars| && RecordedAt(vars[i], tok, role, containerPort)
  }

  // ---------------------------------------------------------------- folding in the tokens of a text

  function Lookup(vars: seq<Variable>, name: string): Option<Variable> {
    var i := IndexOf(vars, name);
    if i < |vars| then Some(vars[i]) else None
  }

  /** The default that counts for a name: the first one given. */
  function FirstDefault(toks: seq<RawToken>, name: string): Option<string> {
    if toks == [] then None
    else
      var tok, before := toks[|toks| - 1], FirstDefault(toks[..|toks| - 1], name);
      if before.Some? || tok.name != name then before else tok.default
  }

  predicate NamesToken(toks: seq<RawToken>, name: string) {
    exists i :: 0 <= i < |toks| && toks[i].name == name
  }

  function DefaultOf(vars: seq<Variable>, name: string): Option<string> {
    if Lookup(vars, name).Some? then Lookup(vars, name).value.default else None
  }

  /** The earlier default of a name if it has one, else the first that the tokens give it. */
  function DefaultAfter(vars: seq<Variable>, toks: seq<RawToken>, name: string): Option<string> {
    if DefaultOf(vars, name).Some? then DefaultOf(vars, name) else FirstDefault(toks, name)
  }

  lemma {:induction false} AddVarLookup(
    vars: seq<Variable>, tok: RawToken, role: Role, service: Option<string>, containerPort: Option<int>, name: string)
    ensures Lookup(AddVar(vars, tok, role, service, containerPort), name)
            == if name != tok.name then Lookup(vars, name)
               else if Lookup(vars, name).Some?
                 then Some(Folded(Lookup(vars, name).value, tok, role, service, containerPort))
               else Some(NewVar(tok, role, service, containerPort))
  {
    var after := AddVar(vars, tok, role, service, containerPort);
    var i, j := IndexOf(vars, name), IndexOf(after, name);
    assert forall k :: 0 <= k < |vars| ==> after[k].name == vars[k].name;
    if name == tok.name {
      assert after[i].name == name;
    } else if i < |vars| {
      assert after[i] == vars[i];
    }
  }

  lemma {:induction false} AddVarDefault(
    vars: seq<Variable>, tok: RawToken, role: Role, service: Option<string>, containerPort: Option<int>, name: string)
    ensures DefaultOf(AddVar(vars, tok, role, service, containerPort), name)
            == if DefaultOf(vars, name).Some? || tok.name != name then DefaultOf(vars, name) else tok.default
  {
    AddVarLookup(vars, tok, role, service, containerPort, name);
  }

  lemma {:induction false} AddVarsDefault(
    vars: seq<Variable>, toks: seq<RawToken>, role: Role, service: Option<string>, containerPort: Option<int>,
    name: string)
    ensures DefaultOf(AddVars(vars, toks, role, service, containerPort), name) == DefaultAfter(vars, toks, name)
  {
    if toks != [] {
      var n := |toks| - 1;
      AddVarsDefault(vars, toks[..n], role, service, containerPort, name);
      var before := AddVars(vars, toks[..n], role, service, containerPort);
      AddVarDefault(before, toks[n], role, service, containerPort, name);
    }
  }

  /** The variables grow, every token is recorded, and each name has the first default it was given. */
  lemma {:induction false} AddVarsKeeps(
    vars: seq<Variable>, toks: seq<RawToken>, role: Role, service: Option<string>, containerPort: Option<int>)
    requires VarsOk(vars) && AllNamed(toks) && !role.Secret? && PositivePort(containerPort)
    ensures var after := AddVars(vars, toks, role, service, containerPort);
            && VarsOk(after) && Grown(vars, after)
            && (forall k :: 0 <= k < |toks| ==> Recorded(after, toks[k], role, containerPort))
            && (forall name :: DefaultOf(after, name) == DefaultAfter(vars, toks, name))
  {
    AddVarsGrow(vars, toks, role, service, containerPort);
    forall name
      ensures DefaultOf(AddVars(vars, toks, role, service, containerPort), name) == DefaultAfter(vars, toks, name)
    {
      AddVarsDefault(vars, toks, role, service, containerPort, name);
    }
  }

  lemma {:induction false} AddVarsGrow(
    vars: seq<Variable>, toks: seq<RawToken>, role: Role, service: Option<string>, containerPort: Option<int>)
    requires VarsOk(vars) && AllNamed(toks) && !role.Secret? && PositivePort(containerPort)
    ensures var after := AddVars(vars, toks, role, service, containerPort);
            && VarsOk(after) && Grown(vars, after)
            && forall k :: 0 <= k < |toks| ==> Recorded(after, toks[k], role, containerPort)
  {
    if toks != [] {
      var n := |toks| - 1;
      var before := AddVars(vars, toks[..n], role, service, containerPort);
      var after := AddVars(vars, toks, role, service, containerPort);
      AddVarsGrow(vars, toks[..n], role, service, containerPort);
      AddVarKeeps(before, toks[n], role, service, containerPort);
      GrownTwice(vars, before, after);
      forall k | 0 <= k < |toks| ensures Recorded(after, toks[k], role, containerPort) {
        if k < n { StaysRecorded(before, after, toks[..n][k], role, containerPort); }
      }
    }
  }

  lemma {:induction false} StaysRecorded(
    before: seq<Variable>, after: seq<Variable>, tok: RawToken, role: Role, containerPort: Option<int>)
    requires Grown(before, after) && Recorded(before, tok, role, containerPort)
    ensures Recorded(after, tok, role, containerPort)
  {
    var i :| 0 <= i < |before| && RecordedAt(before[i], tok, role, containerPort);
    assert RecordedAt(after[i], tok, role, containerPort);
  }

  lemma {:induction false} ContainerPortIsPositive(r: Reader, seg: string)
    ensures PositivePort(ContainerPortOf(r, seg)) && PositivePort(PortOfSegment(r, seg))
  {
  }

  lemma {:induction false} PublishPortKeeps(
    st: Scan, host: string, service: Option<string>, containerPort: Option<int>, proto: Protocol)
    requires ScanOk(st) && PositivePort(containerPort)
    ensures ScanOk(PublishPort(st, host, service, containerPort, proto))
    ensures Grown(st.vars, PublishPort(st, host, service, containerPort, proto).vars)
  {
    TokensAreNamed(host);
    if TokensIn(host) != [] { AddVarsGrow(st.vars, TokensIn(host), HostPort, service, containerPort); }
  }

  /** A token in a published host port becomes a managed variable that knows its container port, if there is one. */
  lemma {:induction false} PublishedTokensAreManaged(
    st: Scan, host: string, service: Option<string>, containerPort: Option<int>, proto: Protocol, k: nat)
    requires ScanOk(st) && PositivePort(containerPort) && k < |TokensIn(host)|
    ensures Recorded(PublishPort(st, host, service, containerPort, proto).vars, TokensIn(host)[k], HostPort,
            containerPort)
    ensures PublishPort(st, host, service, containerPort, proto).fixedPorts == st.fixedPorts
  {
    TokensAreNamed(host);
    AddVarsGrow(st.vars, TokensIn(host), HostPort, service, containerPort);
  }

  lemma {:induction false} AddSegmentsKeeps(
    r: Reader, st: Scan, segs: seq<string>, service: Option<string>, proto: Protocol)
    requires ScanOk(st)
    ensures ScanOk(AddSegments(r, st, segs, service, proto))
            && Grown(st.vars, AddSegments(r, st, segs, service, proto).vars)
  {
    if |segs| >= 2 {
      var bound := st.(vars := WithBindAddress(st.vars, segs, service));
      var port := PortOfSegments(r, segs);
      BindAddressKeeps(st.vars, segs, service);
      SegmentsPortIsPositive(r, segs);
      PublishPortKeeps(bound, segs[|segs| - 2], service, port, proto);
      GrownTwice(st.vars, bound.vars, PublishPort(bound, segs[|segs| - 2], service, port, proto).vars);
    }
  }

  lemma {:induction false} BindAddressKeeps(vars: seq<Variable>, segs: seq<string>, service: Option<string>)
    requires VarsOk(vars)
    ensures VarsOk(WithBindAddress(vars, segs, service)) && Grown(vars, WithBindAddress(vars, segs, service))
  {
    if |segs| >= 3 {
      TokensAreNamed(segs[0]);
      AddVarsGrow(vars, TokensIn(segs[0]), HostIp, service, None);
    }
  }

  lemma {:induction false} SegmentsPortIsPositive(r: Reader, segs: seq<string>)
    requires |segs| >= 2
    ensures PositivePort(PortOfSegments(r, segs))
  {
    ContainerPortIsPositive(r, segs[|segs| - 1]);
    ContainerPortIsPositive(r, segs[|segs| - 2]);
  }

  lemma {:induction false} GrownTwice(a: seq<Variable>, b: seq<Variable>, c: seq<Variable>)
    requires Grown(a, b) && Grown(b, c)
    ensures Grown(a, c)
  {
  }

  lemma {:induction false} FlushedKeeps(r: Reader, st: Scan)
    requires ScanOk(st)
    ensures ScanOk(Flushed(r, st)) && Grown(st.vars, Flushed(r, st).vars)
  {
    match st.longPort
    case None =>
    case Some(item) =>
      var containerPort := if item.target.Some? then ContainerPortOf(r, item.target.value) else None;
      if item.target.Some? { ContainerPortIsPositive(r, item.target.value); }
      var published := if item.published.Some? then StripQuotes(Trim(item.published.value)) else "";
      PublishPortKeeps(st, published, item.service, containerPort, Tcp);
      PublishPortKeeps(st, published, item.service, containerPort, Udp);
  }

  lemma {:induction false} PortLineKeeps(r: Reader, st: Scan, line: Line, service: Option<string>)
    requires ScanOk(st)
    ensures ScanOk(PortLine(r, st, line, service)) && Grown(st.vars, PortLine(r, st, line, service).vars)
  {
    FlushedKeeps(r, st);
    if line.item.Some? {
      var content := Trim(line.item.value);
      AddSegmentsKeeps(r, st, PortSegments(content), service, ProtoOf(content));
    }
  }

  lemma {:induction false} EnteredKeeps(r: Reader, before: Scan, line: Line)
    requires ScanOk(before)
    ensures ScanOk(Entered(r, before, line)) && Grown(before.vars, Entered(r, before, line).vars)
    ensures Entered(r, before, line).stack == Popped(before.stack, line.indent)
  {
    FlushedKeeps(r, before.(stack := Popped(before.stack, line.indent)));
    FlushedKeepsStack(r, before.(stack := Popped(before.stack, line.indent)));
  }

  lemma {:induction false} FlushedKeepsStack(r: Reader, st: Scan)
    ensures Flushed(r, st).stack == st.stack
  {
  }

  lemma {:induction false} BookedKeeps(st: Scan, line: Line)
    ensures var after := Booked(st, line);
            after.vars == st.vars && after.fixedPorts == st.fixedPorts && after.stack == st.stack
  {
  }

  lemma {:induction false} CollectedKeeps(r: Reader, st: Scan, line: Line)
    requires ScanOk(st) && AllNamed(line.tokens)
    ensures ScanOk(Collected(r, st, line)) && Grown(st.vars, Collected(r, st, line).vars)
  {
    PortLineKeeps(r, st, line, ServiceOf(st.stack));
    AddVarsGrow(st.vars, line.tokens, RoleOf(line.key), ServiceOf(st.stack), None);
  }

  lemma {:induction false} StepKeeps(r: Reader, before: Scan, line: Line)
    requires ScanOk(before) && AllNamed(line.tokens)
    ensures ScanOk(Step(r, before, line)) && Grown(before.vars, Step(r, before, line).vars)
  {
    var entered := Entered(r, before, line);
    var booked := Booked(entered, line);
    EnteredKeeps(r, before, line);
    BookedKeeps(entered, line);
    CollectedKeeps(r, booked, line);
    GrownTwice(before.vars, entered.vars, Collected(r, booked, line).vars);
  }

  lemma {:induction false} ScannedKeeps(r: Reader, lines: seq<string>)
    ensures ScanOk(ScanOf(r, lines))
  {
    if lines != [] {
      var raw := lines[|lines| - 1];
      ScannedKeeps(r, lines[..|lines| - 1]);
      TokensAreNamed(raw);
      if ReadLine(raw).Some? { StepKeeps(r, ScanOf(r, lines[..|lines| - 1]), ReadLine(raw).value); }
    }
  }

  // ---------------------------------------------------------------- the fixed ports

  lemma {:induction false} HostNetworkPortsOk(services: seq<string>, vars: seq<Variable>)
    ensures AllFixedOk(HostNetworkPorts(services, vars))
  {
    if services != [] {
      HostNetworkPortsOk(services[1..], vars);
    }
  }

  predicate AllDifferent(ports: seq<FixedPort>) {
    forall i, j :: 0 <= i < j < |ports| ==> !SamePort(ports[i], ports[j])
  }

  /** Deduplicating keeps no two ports that count as one, and one for every port. */
  lemma {:induction false} DedupedExactly(ports: seq<FixedPort>, k: nat)
    requires AllFixedOk(ports) && k < |ports|
    ensures AllDifferent(Deduped(ports)) && AllFixedOk(Deduped(ports)) && Covers(Deduped(ports), ports[k])
  {
    var n := |ports| - 1;
    var kept, p := Deduped(ports[..n]), ports[n];
    if n > 0 { DedupedExactly(ports[..n], if k < n then k else 0); }
    if k < n {
      var i :| 0 <= i < |kept| && SamePort(kept[i], ports[..n][k]);
      assert SamePort(Deduped(ports)[i], ports[k]);
    } else if !Covers(kept, p) {
      assert SamePort(Deduped(ports)[|kept|], ports[k]);
    }
    if !Covers(kept, p) { AddDifferent(kept, p); }
  }

  lemma {:induction false} AddDifferent(kept: seq<FixedPort>, p: FixedPort)
    requires AllDifferent(kept) && !Covers(kept, p)
    ensures AllDifferent(kept + [p])
  {
  }

  // ---------------------------------------------------------------- every compose text

  /** What a variable of an introspected schema looks like. */
  predicate SchemaVarOk(r: Reader, v: Variable) {
    && IsIdentifier(v.name) && v.source == Some(Compose)
    && (v.required <==> v.default.None?)
    && (v.secret <==> v.role.Secret?)
    && (v.role.Secret? ==> r.looksSecret(v.name)) && (v.role.Plain? ==> !r.looksSecret(v.name))
    && PositivePort(v.containerPort)
  }

  lemma {:induction false} FinalScanOk(r: Reader, text: string)
    ensures ScanOk(Flushed(r, ScanOf(r, Split(D.NormalNewlines(text), '\n'))))
  {
    var lines := Split(D.NormalNewlines(text), '\n');
    ScannedKeeps(r, lines);
    FlushedKeeps(r, ScanOf(r, lines));
  }

  lemma {:induction false} FinalizedOk(r: Reader, vars: seq<Variable>)
    requires VarsOk(vars)
    ensures var out := Finalized(r, vars);
            M.FreshOk(out) && DistinctNames(out) && forall i :: 0 <= i < |out| ==> SchemaVarOk(r, out[i])
  {
  }

  // ---------------------------------------------------------------- the order of the form

  lemma {:induction false} InsertedKeepsDistinct(vars: seq<Variable>, k: nat, v: Variable)
    requires k <= |vars| && DistinctNames(vars)
    requires forall i :: 0 <= i < |vars| ==> vars[i].name != v.name
    ensures DistinctNames(Inserted(vars, k, v))
  {
    var t := Inserted(vars, k, v);
    forall i, j | 0 <= i < j < |t| ensures t[i].name != t[j].name {
      InsertedAt(vars, k, v, i);
      InsertedAt(vars, k, v, j);
    }
  }

  lemma {:induction false} SameMembers(a: seq<Variable>, b: seq<Variable>)
    requires multiset(a) == multiset(b)
    ensures |a| == |b| && forall v :: v in a <==> v in b
  {
    assert |multiset(a)| == |a| && |multiset(b)| == |b|;
    assert forall v :: v in a <==> v in multiset(a);
    assert forall v :: v in b <==> v in multiset(b);
  }

  /** Sorting only rearranges, so what holds of every variable and of every pair of names still does. */
  lemma {:induction false} SortedVars(compare: (Variable, Variable) -> int, vars: seq<Variable>)
    ensures |Sorted(compare, vars)| == |vars| && forall v :: v in Sorted(compare, vars) <==> v in vars
    ensures DistinctNames(vars) ==> DistinctNames(Sorted(compare, vars))
  {
    SortedMembers(compare, vars);
    SameMembers(Sorted(compare, vars), vars);
    if vars != [] && DistinctNames(vars) {
      var n := |vars| - 1;
      var before := Sorted(compare, vars[..n]);
      SortedVars(compare, vars[..n]);
      forall i | 0 <= i < |before| ensures before[i].name != vars[n].name {
        assert before[i] in before;
        assert before[i] in vars[..n];
      }
      InsertedKeepsDistinct(before, PlaceOf(compare, before, vars[n]), vars[n]);
    }
  }

  lemma {:induction false} LookupIsMember(vars: seq<Variable>, name: string, v: Variable)
    requires DistinctNames(vars)
    ensures Lookup(vars, name) == Some(v) <==> v in vars && v.name == name
  {
    if v in vars && v.name == name {
      var i :| 0 <= i < |vars| && vars[i] == v;
      assert IndexOf(vars, name) == i;
    }
  }

  lemma {:induction false} NoneIsAbsent(vars: seq<Variable>, name: string)
    ensures Lookup(vars, name).None? <==> forall i :: 0 <= i < |vars| ==> vars[i].name != name
  {
  }

  /** Under each name, the sorted schema has what the schema has. */
  lemma {:induction false} SortedLookup(compare: (Variable, Variable) -> int, vars: seq<Variable>, name: string)
    requires DistinctNames(vars)
    ensures Lookup(Sorted(compare, vars), name) == Lookup(vars, name)
  {
    var out := Sorted(compare, vars);
    SortedVars(compare, vars);
    if Lookup(vars, name).Some? {
      LookupIsMember(vars, name, Lookup(vars, name).value);
      LookupIsMember(out, name, Lookup(vars, name).value);
    } else {
      NoneIsAbsent(vars, name);
      NoneIsAbsent(out, name);
      assert forall i :: 0 <= i < |out| ==> out[i] in out && out[i] in vars;
    }
  }

  lemma {:induction false} FinalizedLookup(r: Reader, vars: seq<Variable>, name: string)
    ensures Lookup(Finalized(r, vars), name)
            == if Lookup(vars, name).Some? then Some(WithSecrecy(r, Lookup(vars, name).value)) else None
  {
    SameIndex(vars, Finalized(r, vars), name);
  }

  lemma {:induction false} SameIndex(a: seq<Variable>, b: seq<Variable>, name: string)
    requires |a| == |b| && forall k :: 0 <= k < |a| ==> a[k].name == b[k].name
    ensures IndexOf(a, name) == IndexOf(b, name)
  {
    if a != [] && a[0].name != name { SameIndex(a[1..], b[1..], name); }
  }

  lemma {:induction false} SortedStaysOk(r: Reader, vars: seq<Variable>)
    requires M.FreshOk(vars) && forall i :: 0 <= i < |vars| ==> SchemaVarOk(r, vars[i])
    ensures var out := Sorted(FormOrder(r), vars);
            M.FreshOk(out) && forall i :: 0 <= i < |out| ==> SchemaVarOk(r, out[i])
  {
    SortedVars(FormOrder(r), vars);
    var out := Sorted(FormOrder(r), vars);
    forall i | 0 <= i < |out| ensures SchemaVarOk(r, out[i]) {
      assert out[i] in out;
    }
  }

  lemma {:induction false} ResultPortsOk(r: Reader, scan: Scan)
    requires ScanOk(scan)
    ensures var p, vars := Result(r, scan), Finalized(r, scan.vars);
            && AllFixedOk(p.fixedPorts) && AllDifferent(p.fixedPorts)
            && (NoReachablePort in p.warnings <==> p.fixedPorts == [] && forall v :: v in vars ==> !v.role.HostPort?)
  {
    var vars := Finalized(r, scan.vars);
    var all := scan.fixedPorts + HostNetworkPorts(scan.hostServices, vars);
    HostNetworkPortsOk(scan.hostServices, vars);
    if all != [] { DedupedExactly(all, 0); }
    assert Deduped(all) == [] <==> all == [];
    HostWarningsOnly(scan.hostServices, vars);
  }

  lemma {:induction false} ResultOk(r: Reader, scan: Scan)
    requires ScanOk(scan)
    ensures var p := Result(r, scan);
            && AllFixedOk(p.fixedPorts) && AllDifferent(p.fixedPorts)
            && (NoReachablePort in p.warnings
                <==> p.fixedPorts == [] && forall v :: v in p.variables ==> !v.role.HostPort?)
  {
    ResultPortsOk(r, scan);
    SortedVars(FormOrder(r), Finalized(r, scan.vars));
  }

  lemma {:induction false} HostWarningsOnly(services: seq<string>, vars: seq<Variable>)
    ensures NoReachablePort !in HostNetworkWarnings(services, vars)
  {
    if services != [] { HostWarningsOnly(services[1..], vars); }
  }

  /**
   * Every compose text yields a well-formed schema: distinct identifiers, required exactly without a
   * default, secret exactly by role and only if the name looks like it; usable fixed ports, no two
   * the same; and a warning exactly when nothing is reachable.
   */
  lemma {:induction false} IntrospectionIsWellFormed(r: Reader, text: string)
    ensures var p := Introspected(r, text);
            && M.FreshOk(p.variables)
            && (forall i :: 0 <= i < |p.variables| ==> SchemaVarOk(r, p.variables[i]))
            && AllFixedOk(p.fixedPorts) && AllDifferent(p.fixedPorts)
            && (NoReachablePort in p.warnings
                <==> p.fixedPorts == [] && forall v :: v in p.variables ==> !v.role.HostPort?)
  {
    var scan := Flushed(r, ScanOf(r, Split(D.NormalNewlines(text), '\n')));
    FinalScanOk(r, text);
    FinalizedOk(r, scan.vars);
    SortedStaysOk(r, Finalized(r, scan.vars));
    ResultOk(r, scan);
  }

  /** The order of the form is one whenever the comparison of names is. */
  lemma {:induction false} FormOrderIsOrder(r: Reader)
    requires IsOrder(r.locale)
    ensures IsOrder(FormOrder(r))
  {
    var compare := FormOrder(r);
    forall a, b ensures compare(a, b) <= 0 || compare(b, a) <= 0 {
      assert r.locale(a.name, b.name) <= 0 || r.locale(b.name, a.name) <= 0;
    }
    forall a, b, c ensures Chains(compare, a, b, c) {
      assert Chains(r.locale, a.name, b.name, c.name);
    }
  }

  /** The variables of a schema stand in the order of the form. */
  lemma {:induction false} SchemaIsInOrder(r: Reader, text: string)
    requires IsOrder(r.locale)
    ensures InOrder(FormOrder(r), Introspected(r, text).variables)
  {
    FormOrderIsOrder(r);
    SortedInOrder(FormOrder(r), Finalized(r, Flushed(r, ScanOf(r, Split(D.NormalNewlines(text), '\n'))).vars));
  }

  /** So refreshing an app twice from the same compose text changes nothing the second time. */
  lemma {:induction false} RefreshFromComposeIsQuiet(r: Reader, text: string, existing: seq<Variable>)
    ensures M.SecondMergeIsQuiet(existing, Introspected(r, text).variables)
  {
    IntrospectionIsWellFormed(r, text);
    M.RefreshIsIdempotent(existing, Introspected(r, text).variables);
  }
}
