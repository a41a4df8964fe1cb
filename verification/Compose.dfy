/**
 * Reading an app's variables and ports out of its compose file (compose-introspect.ts), line by line.
 * `toNumber` stands for JavaScript's Number() on a string: the integer it denotes, or None for
 * anything that is not an integer; `looksSecret` says which names look like a credential; `locale`
 * is localeCompare.
 */
module ComposeIntrospect {
  import opened Wrappers
  import opened JsText
  import opened Replicator
  import opened Dollars
  import opened StableSort
  import D = Dotenv

  datatype Reader = Reader(
    toNumber: string -> Option<int>, looksSecret: string -> bool, locale: (string, string) -> int)

  datatype RawToken = RawToken(name: string, default: Option<string>)

  datatype Warning = HostNetworking(service: string) | NoContainerPort | NoReachablePort

  datatype Parsed = Parsed(
    variables: seq<Variable>, fixedPorts: seq<FixedPort>, services: seq<string>, envFiles: seq<string>,
    warnings: seq<Warning>)

  // ---------------------------------------------------------------- one line

  /** Only the two default operators declare a default. */
  function RawOf(t: Token): RawToken {
    RawToken(t.name, if t.op == ":-" || t.op == "-" then Some(t.arg) else None)
  }

  /** The tokens of a text, from left to right, none overlapping another. */
  function TokensIn(s: string): seq<RawToken>
    decreases |s|
  {
    if s == "" then []
    else
      match TokenAt(s)
      case Some(t) => [RawOf(t)] + TokensIn(s[t.length..])
      case None => TokensIn(s[1..])
  }

  /** The exec() loop: each match starts where the one before ended, or later. */
  method TokensOf(text: string) returns (out: seq<RawToken>)
    ensures out == TokensIn(text)
  {
    out := [];
    var rest := text;
    while rest != ""
      invariant out + TokensIn(rest) == TokensIn(text)
      decreases |rest|
    {
      match TokenAt(rest)
      case Some(t) =>
        out := out + [RawOf(t)];
        rest := rest[t.length..];
      case None => rest := rest[1..];
    }
  }

  /** Leading white space, a tab counting as two. */
  function Indent(s: string): nat {
    if s == "" then 0
    else if s[0] == ' ' then 1 + Indent(s[1..])
    else if s[0] == '\t' then 2 + Indent(s[1..])
    else 0
  }

  method IndentOf(line: string) returns (n: nat)
    ensures n == Indent(line)
  {
    n := 0;
    var i := 0;
    while i < |line| && (line[i] == ' ' || line[i] == '\t')
      invariant i <= |line| && Indent(line) == n + Indent(line[i..])
    {
      assert line[i..][1..] == line[i + 1..];
      n := n + if line[i] == ' ' then 1 else 2;
      i := i + 1;
    }
  }

  predicate IsQuote(c: char) {
    c == '"' || c == '\''
  }

  /** One quote off either end. */
  function StripQuotes(s: string): string {
    var t := if s != "" && IsQuote(s[0]) then s[1..] else s;
    if t != "" && IsQuote(t[|t| - 1]) then t[..|t| - 1] else t
  }

  predicate IsKeyChar(c: char) {
    IsNameChar(c) || c == '.' || c == '-'
  }

  function RunEnd(s: string, from: nat, inRun: char -> bool): (i: nat)
    requires from <= |s|
    ensures from <= i <= |s|
    ensures i < |s| ==> !inRun(s[i])
    ensures forall k :: from <= k < i ==> inRun(s[k])
    decreases |s| - from
  {
    if from < |s| && inRun(s[from]) then RunEnd(s, from + 1, inRun) else from
  }

  datatype Field = Field(key: string, value: string)

  /** A run of key characters from `at` on, a colon, and a value on the same line. */
  function FieldAt(s: string, at: nat, inKey: char -> bool): Option<Field>
    requires at <= |s|
  {
    var end := RunEnd(s, at, inKey);
    if at < end < |s| && s[end] == ':' && D.OneLine(TrimStart(s[end + 1..]))
    then Some(Field(s[at..end], TrimStart(s[end + 1..])))
    else None
  }

  /** `- item`. */
  function ItemAt(line: string): Option<string> {
    if line != "" && line[0] == '-' && D.OneLine(TrimStart(line[1..])) then Some(TrimStart(line[1..])) else None
  }

  /** The field that opens a long-form list item. */
  function LongFieldOf(content: string): Option<Field> {
    if content != "" && IsNameStart(content[0])
    then FieldAt(content, 0, (c: char) => IsNameChar(c) || c == '-') else None
  }

  datatype Line = Line(indent: nat, key: Option<Field>, item: Option<string>, tokens: seq<RawToken>)

  /** What the scan looks at in a line: `key: value`, `- item`, tokens; nothing for blank lines and comments. */
  function ReadLine(raw: string): Option<Line> {
    var line := TrimStart(raw);
    if Trim(raw) == "" || line[0] == '#' then None
    else Some(Line(Indent(raw), FieldAt(line, 0, IsKeyChar), ItemAt(line), TokensIn(raw)))
  }

  // ---------------------------------------------------------------- ports

  /** Up to the first slash. */
  function BeforeSlash(s: string): string {
    s[..IndexFrom(s, '/', 0)]
  }

  /** The colon segments of a text, colons inside braces not counting. */
  function Segments(s: string, depth: nat): (segs: seq<string>)
    ensures segs != []
  {
    if s == "" then [""]
    else
      var d := DepthAfter(s[0], depth);
      if s[0] == ':' && d == 0 then [""] + Segments(s[1..], d)
      else
        var segs := Segments(s[1..], d);
        [[s[0]] + segs[0]] + segs[1..]
  }

  function DepthAfter(c: char, depth: nat): nat {
    if c == '{' then depth + 1 else if c == '}' && depth > 0 then depth - 1 else depth
  }

  function PortSegments(item: string): seq<string> {
    Segments(BeforeSlash(StripQuotes(Trim(item))), 0)
  }

  function Attached(front: string, segs: seq<string>): seq<string>
    requires segs != []
  {
    [front + segs[0]] + segs[1..]
  }

  lemma {:induction false} AttachedSteps(done: seq<string>, cur: string, c: char, rest: seq<string>)
    requires rest != []
    ensures done + Attached(cur, [""] + rest) == done + [cur] + Attached("", rest)
    ensures Attached(cur, [[c] + rest[0]] + rest[1..]) == Attached(cur + [c], rest)
    ensures Attached("", rest) == rest && Attached(cur, [""]) == [cur]
  {
    assert "" + rest[0] == rest[0] && cur + "" == cur;
    assert rest == [rest[0]] + rest[1..];
    assert ([""] + rest)[1..] == rest;
    assert cur + ([c] + rest[0]) == cur + [c] + rest[0];
  }

  /** The scanning loop: the segments closed so far, and the one being read. */
  method PortSegmentsOf(item: string) returns (segs: seq<string>)
    ensures segs == PortSegments(item)
  {
    var s := BeforeSlash(StripQuotes(Trim(item)));
    segs := [];
    var depth: nat, cur := 0, "";
    AttachedSteps([], "", ':', Segments(s, 0));
    assert s[0..] == s;
    for i := 0 to |s|
      invariant segs + Attached(cur, Segments(s[i..], depth)) == Segments(s, 0)
    {
      var c := s[i];
      assert s[i..][1..] == s[i + 1..];
      AttachedSteps(segs, cur, c, Segments(s[i + 1..], DepthAfter(c, depth)));
      if c == '{' { depth := depth + 1; } else if c == '}' { depth := if depth > 0 then depth - 1 else 0; }
      if c == ':' && depth == 0 {
        segs := segs + [cur];
        cur := "";
      } else {
        cur := cur + [c];
      }
    }
    AttachedSteps(segs, cur, ':', [""]);
    segs := segs + [cur];
  }

  function Positive(n: Option<int>): Option<int> {
    if n.Some? && n.value > 0 then n else None
  }

  predicate Digits(s: string) {
    s != "" && forall i :: 0 <= i < |s| ==> IsDigit(s[i])
  }

  datatype Range = Range(start: int, end: Option<int>)

  /** A literal port or range; an end of zero counts as none. */
  function LiteralRange(seg: string): Option<Range> {
    var s := Trim(seg);
    var dash := IndexFrom(s, '-', 0);
    var front := s[..dash];
    if !Digits(front) || (dash < |s| && !Digits(s[dash + 1..])) then None
    else
      var start := DecimalValue(front);
      var end := if dash < |s| then DecimalValue(s[dash + 1..]) else 0;
      if start < 1 then None else Some(Range(start, if end > 0 then Some(end) else None))
  }

  function PortOfSegment(r: Reader, seg: string): Option<int> {
    var toks := TokensIn(seg);
    var fromDefault := if toks != [] && toks[0].default.Some?
                       then Positive(r.toNumber(toks[0].default.value)) else None;
    if fromDefault.Some? then fromDefault else Positive(r.toNumber(Trim(seg)))
  }

  function ContainerPortOf(r: Reader, seg: string): Option<int> {
    var p := PortOfSegment(r, seg);
    if p.Some? then p
    else match LiteralRange(seg) case Some(range) => Some(range.start) case None => None
  }

  function LowerAscii(c: char): char {
    if 'A' <= c <= 'Z' then c + ('a' - 'A') else c
  }

  /** `s` ends with `suffix`, ASCII letters of `s` taken in lower case. */
  predicate EndsWithLower(s: string, suffix: string) {
    |suffix| <= |s| && forall i :: 0 <= i < |suffix| ==> LowerAscii(s[|s| - |suffix| + i]) == suffix[i]
  }

  function ProtoOf(item: string): Protocol {
    if EndsWithLower(TrimEnd(StripQuotes(Trim(item))), "/udp") then Udp else Tcp
  }

  // ---------------------------------------------------------------- variables, in the order first seen

  function IndexOf(vars: seq<Variable>, name: string): (i: nat)
    ensures i <= |vars|
    ensures i < |vars| ==> vars[i].name == name
    ensures forall j :: 0 <= j < i ==> vars[j].name != name
  {
    if vars == [] || vars[0].name == name then 0 else 1 + IndexOf(vars[1..], name)
  }

  function Rank(role: Role): nat {
    match role
    case Plain => 0
    case Secret => 1
    case _ => 2
  }

  function NewVar(tok: RawToken, role: Role, service: Option<string>, containerPort: Option<int>): Variable {
    Variable(tok.name, tok.default, role, service, containerPort, tok.default.None?, false, Some(Compose), None, None)
  }

  /** A managed role wins over plain; the first default, container port and service are kept. */
  function Folded(
    v: Variable, tok: RawToken, role: Role, service: Option<string>, containerPort: Option<int>): Variable
  {
    v.(role := if Rank(role) > Rank(v.role) then role else v.role,
       default := if v.default.None? then tok.default else v.default,
       required := v.required && (v.default.Some? || tok.default.None?),
       containerPort := if v.containerPort.None? then containerPort else v.containerPort,
       service := if v.service.None? then service else v.service)
  }

  function AddVar(
    vars: seq<Variable>, tok: RawToken, role: Role, service: Option<string>, containerPort: Option<int>)
    : seq<Variable>
  {
    var i := IndexOf(vars, tok.name);
    if i == |vars| then vars + [NewVar(tok, role, service, containerPort)]
    else vars[i := Folded(vars[i], tok, role, service, containerPort)]
  }

  function AddVars(
    vars: seq<Variable>, toks: seq<RawToken>, role: Role, service: Option<string>, containerPort: Option<int>)
    : seq<Variable>
  {
    if toks == [] then vars
    else AddVar(AddVars(vars, toks[..|toks| - 1], role, service, containerPort), toks[|toks| - 1], role, service,
      containerPort)
  }

  // ---------------------------------------------------------------- the scan

  /** An open mapping key. */
  datatype Open = Open(indent: nat, key: string)

  /** A long-form ports item that is still being read. */
  datatype LongPort = LongPort(
    service: Option<string>, target: Option<string>, published: Option<string>, protocol: Option<string>)

  datatype Scan = Scan(
    services: seq<string>, vars: seq<Variable>, fixedPorts: seq<FixedPort>, hostServices: seq<string>,
    envFiles: seq<string>, stack: seq<Open>, longPort: Option<LongPort>)

  const START := Scan([], [], [], [], [], [], None)

  /** A Set in insertion order. */
  function Add(s: seq<string>, x: string): seq<string> {
    if x in s then s else s + [x]
  }

  function Fixed(service: Option<string>, containerPort: int, range: Range, proto: Protocol): FixedPort {
    FixedPort(service, containerPort, range.start, range.end, Published, proto, None, false, Compose)
  }

  /** `[IP:][HOST:]CONTAINER[/proto]`; a container port alone is published nowhere in particular. */
  function AddShortPort(r: Reader, st: Scan, item: string, service: Option<string>): Scan {
    AddSegments(r, st, PortSegments(item), service, ProtoOf(item))
  }

  /** The container port of the last segment, or failing that of the host segment. */
  function PortOfSegments(r: Reader, segs: seq<string>): Option<int>
    requires |segs| >= 2
  {
    var own := ContainerPortOf(r, segs[|segs| - 1]);
    if own.Some? then own else ContainerPortOf(r, segs[|segs| - 2])
  }

  /** Tokens in a bind address are free-text configuration. */
  function WithBindAddress(vars: seq<Variable>, segs: seq<string>, service: Option<string>): seq<Variable> {
    if |segs| >= 3 then AddVars(vars, TokensIn(segs[0]), HostIp, service, None) else vars
  }

  function AddSegments(r: Reader, st: Scan, segs: seq<string>, service: Option<string>, proto: Protocol): Scan {
    if |segs| < 2 then st
    else
      PublishPort(st.(vars := WithBindAddress(st.vars, segs, service)), segs[|segs| - 2], service,
        PortOfSegments(r, segs), proto)
  }

  /** A host port with tokens is adjustable through them, a literal one is fixed. */
  function PublishPort(
    st: Scan, host: string, service: Option<string>, containerPort: Option<int>, proto: Protocol): Scan
  {
    var toks := TokensIn(host);
    if toks != [] then st.(vars := AddVars(st.vars, toks, HostPort, service, containerPort))
    else
      match LiteralRange(host)
      case None => st
      case Some(range) =>
        if containerPort.None? then st
        else st.(fixedPorts := st.fixedPorts + [Fixed(service, containerPort.value, range, proto)])
  }

  function AddLongPort(r: Reader, st: Scan, item: LongPort): Scan {
    var containerPort := if item.target.Some? then ContainerPortOf(r, item.target.value) else None;
    var published := if item.published.Some? then StripQuotes(Trim(item.published.value)) else "";
    var udp := item.protocol.Some? && |Trim(item.protocol.value)| == 3
      && EndsWithLower(Trim(item.protocol.value), "udp");
    if published == "" then st
    else PublishPort(st, published, item.service, containerPort, if udp then Udp else Tcp)
  }

  function Flushed(r: Reader, st: Scan): Scan {
    match st.longPort
    case None => st
    case Some(item) => AddLongPort(r, st, item).(longPort := None)
  }

  function WithField(item: LongPort, f: Field): LongPort {
    var v := Trim(f.value);
    if f.key == "target" then item.(target := Some(v))
    else if f.key == "published" then item.(published := Some(v))
    else if f.key == "protocol" then item.(protocol := Some(v))
    else item
  }

  function Popped(stack: seq<Open>, indent: nat): seq<Open> {
    if stack != [] && stack[|stack| - 1].indent >= indent then Popped(stack[..|stack| - 1], indent) else stack
  }

  function ParentOf(stack: seq<Open>): Option<string> {
    if stack == [] then None else Some(stack[|stack| - 1].key)
  }

  function ServiceOf(stack: seq<Open>): Option<string> {
    if |stack| > 1 && stack[0].key == "services" then Some(stack[1].key) else None
  }

  /** `\bhost\b` */
  predicate SaysHost(s: string) {
    exists i :: 0 <= i <= |s| - 4 && HostAt(s, i)
  }

  predicate HostAt(s: string, i: nat)
    requires i + 4 <= |s|
  {
    && s[i..i + 4] == "host"
    && (i > 0 ==> !IsNameChar(s[i - 1]))
    && (i + 4 < |s| ==> !IsNameChar(s[i + 4]))
  }

  predicate Mentions(s: string, two: string)
    requires |two| == 2
  {
    exists i :: 0 <= i < |s| - 1 && s[i] == two[0] && s[i + 1] == two[1]
  }

  /** The path of an `env_file:` entry; empty ones and those with a token are skipped. */
  function AddEnvFile(files: seq<string>, raw: string): seq<string> {
    var p := Trim(StripQuotes(D.StripComment(Trim(raw))));
    if p == "" || Mentions(p, "${") then files
    else Add(files, if StartsWith(p, "./") then p[2..] else p)
  }

  function AfterPath(item: string): string {
    if StartsWith(item, "path:") then TrimStart(item[5..]) else item
  }

  function WithEnvFiles(st: Scan, line: Line, parent: Option<string>): Scan {
    if line.key.Some? && line.key.value.key == "env_file" && Trim(line.key.value.value) != ""
    then st.(envFiles := AddEnvFile(st.envFiles, line.key.value.value))
    else if parent == Some("env_file") && line.item.Some?
    then st.(envFiles := AddEnvFile(st.envFiles, AfterPath(line.item.value)))
    else st
  }

  /** A line inside a `ports:` block. */
  function PortLine(r: Reader, st: Scan, line: Line, service: Option<string>): Scan {
    if line.item.Some? then
      var content := Trim(line.item.value);
      match LongFieldOf(content)
      case Some(f) => Flushed(r, st).(longPort := Some(WithField(LongPort(service, None, None, None), f)))
      case None => AddShortPort(r, st, content, service)
    else if line.key.Some? && st.longPort.Some? then
      st.(longPort := Some(WithField(st.longPort.value, line.key.value)))
    else st
  }

  function RoleOf(key: Option<Field>): Role {
    if key.Some? && key.value.key == "image" then ImageTag
    else if key.Some? && key.value.key == "container_name" then ContainerName
    else Plain
  }

  /** A line closes the blocks it is not indented below, and with its `ports:` block a long port. */
  function Entered(r: Reader, before: Scan, line: Line): Scan {
    var st := before.(stack := Popped(before.stack, line.indent));
    if ParentOf(st.stack) != Some("ports") then Flushed(r, st) else st
  }

  /** A line's part in the services, the host networking and the env files. */
  function Booked(st: Scan, line: Line): Scan {
    var parent, service := ParentOf(st.stack), ServiceOf(st.stack);
    var s1 := if line.key.Some? && parent == Some("services")
              then st.(services := Add(st.services, line.key.value.key)) else st;
    var s2 := if line.key.Some? && line.key.value.key == "network_mode" && SaysHost(line.key.value.value)
                 && service.Some?
              then s1.(hostServices := Add(s1.hostServices, service.value)) else s1;
    WithEnvFiles(s2, line, parent)
  }

  /** A line's ports or tokens. */
  function Collected(r: Reader, st: Scan, line: Line): Scan {
    var service := ServiceOf(st.stack);
    if ParentOf(st.stack) == Some("ports") then PortLine(r, st, line, service)
    else st.(vars := AddVars(st.vars, line.tokens, RoleOf(line.key), service, None))
  }

  function Step(r: Reader, before: Scan, line: Line): Scan {
    var after := Collected(r, Booked(Entered(r, before, line), line), line);
    if line.key.Some? && Trim(line.key.value.value) == ""
    then after.(stack := after.stack + [Open(line.indent, line.key.value.key)]) else after
  }

  /** Blank lines and comments leave everything as it is. */
  function Scanned(step: (Scan, Line) -> Scan, read: string -> Option<Line>, lines: seq<string>): Scan {
    if lines == [] then START
    else
      var before := Scanned(step, read, lines[..|lines| - 1]);
      match read(lines[|lines| - 1])
      case None => before
      case Some(line) => step(before, line)
  }

  function Stepper(r: Reader): (Scan, Line) -> Scan {
    (st, line) => Step(r, st, line)
  }

  // ---------------------------------------------------------------- the result

  function WithSecrecy(r: Reader, v: Variable): Variable {
    if v.role.Plain? && r.looksSecret(v.name) then v.(role := Secret, secret := true) else v.(secret := v.role.Secret?)
  }

  function Finalized(r: Reader, vars: seq<Variable>): (out: seq<Variable>)
    ensures |out| == |vars|
    ensures forall i :: 0 <= i < |vars| ==> out[i] == WithSecrecy(r, vars[i])
  {
    if vars == [] then [] else [WithSecrecy(r, vars[0])] + Finalized(r, vars[1..])
  }

  predicate MayBePort(v: Variable, service: string) {
    && v.role.Plain? && (v.service.None? || v.service.value == service)
    && v.default.Some? && Digits(v.default.value) && DecimalValue(v.default.value) > 0
  }

  function PortCandidates(vars: seq<Variable>, service: string): (out: seq<Variable>)
    ensures forall v :: v in out ==> v in vars && MayBePort(v, service)
  {
    if vars == [] then []
    else (if MayBePort(vars[0], service) then [vars[0]] else []) + PortCandidates(vars[1..], service)
  }

  function PortNamed(vars: seq<Variable>): (out: seq<Variable>)
    ensures forall v :: v in out ==> v in vars
  {
    if vars == [] then []
    else (if EndsWithLower(vars[0].name, "port") then [vars[0]] else []) + PortNamed(vars[1..])
  }

  /** PORT itself, or the only candidate whose name ends in port. */
  function PickPortVar(vars: seq<Variable>, service: string): (v: Option<Variable>)
    ensures v.Some? ==> v.value in vars && MayBePort(v.value, service)
  {
    var candidates := PortCandidates(vars, service);
    var exact := IndexOf(candidates, "PORT");
    if exact < |candidates| then Some(candidates[exact])
    else
      var named := PortNamed(candidates);
      if |named| == 1 then assert named[0] in named; Some(named[0]) else None
  }

  function HostNetworkPort(service: string, v: Variable): FixedPort
    requires MayBePort(v, service)
  {
    var port := DecimalValue(v.default.value);
    FixedPort(Some(service), port, port, None, HostNetwork, Tcp, Some(v.name), true, Compose)
  }

  function HostNetworkPorts(services: seq<string>, vars: seq<Variable>): seq<FixedPort> {
    if services == [] then []
    else
      (match PickPortVar(vars, services[0]) case Some(v) => [HostNetworkPort(services[0], v)] case None => [])
      + HostNetworkPorts(services[1..], vars)
  }

  function HostNetworkWarnings(services: seq<string>, vars: seq<Variable>): seq<Warning> {
    if services == [] then []
    else
      (if PickPortVar(vars, services[0]).Some? then [] else [HostNetworking(services[0])])
      + HostNetworkWarnings(services[1..], vars)
  }

  /** What two fixed ports must share to count as one. */
  predicate SamePort(p: FixedPort, q: FixedPort) {
    p.hostPort == q.hostPort && p.hostPortEnd == q.hostPortEnd && p.protocol == q.protocol && p.mode == q.mode
  }

  predicate Covers(kept: seq<FixedPort>, p: FixedPort) {
    exists i :: 0 <= i < |kept| && SamePort(kept[i], p)
  }

  /** Only the first of ports that count as one. */
  function Deduped(ports: seq<FixedPort>): seq<FixedPort> {
    if ports == [] then []
    else
      var kept, p := Deduped(ports[..|ports| - 1]), ports[|ports| - 1];
      if Covers(kept, p) then kept else kept + [p]
  }

  function PortWarnings(vars: seq<Variable>, fixedPorts: seq<FixedPort>): seq<Warning> {
    (if exists v :: v in vars && v.role.HostPort? && v.containerPort.None? then [NoContainerPort] else [])
    + (if (forall v :: v in vars ==> !v.role.HostPort?) && fixedPorts == [] then [NoReachablePort] else [])
  }

  function FormRank(role: Role): nat {
    match role
    case HostIp => 0
    case HostPort => 0
    case Secret => 1
    case Plain => 2
    case _ => 3
  }

  /** Negative, zero or positive as `a` has the lower, the same or the higher rank, names deciding within one. */
  function FormOrder(r: Reader): (Variable, Variable) -> int {
    (a: Variable, b: Variable) =>
      if FormRank(a.role) != FormRank(b.role) then FormRank(a.role) - FormRank(b.role) else r.locale(a.name, b.name)
  }

  function Result(r: Reader, scan: Scan): Parsed {
    var vars := Finalized(r, scan.vars);
    var fixedPorts := scan.fixedPorts + HostNetworkPorts(scan.hostServices, vars);
    Parsed(Sorted(FormOrder(r), vars), Deduped(fixedPorts), scan.services, scan.envFiles,
           HostNetworkWarnings(scan.hostServices, vars) + PortWarnings(vars, fixedPorts))
  }

  function ScanOf(r: Reader, lines: seq<string>): Scan {
    Scanned(Stepper(r), ReadLine, lines)
  }

  function Introspected(r: Reader, text: string): Parsed {
    Result(r, Flushed(r, ScanOf(r, Split(D.NormalNewlines(text), '\n'))))
  }

  method IntrospectCompose(r: Reader, text: string) returns (parsed: Parsed)
    ensures parsed == Introspected(r, text)
  {
    var lines := Split(D.NormalNewlines(text), '\n');
    var scan := START;
    for i := 0 to |lines|
      invariant scan == ScanOf(r, lines[..i])
    {
      assert lines[..i + 1][..i] == lines[..i];
      var line := ReadLine(lines[i]);
      if line.None? {
        continue;
      }
      scan := Step(r, scan, line.value);
    }
    assert lines[..|lines|] == lines;
    parsed := Result(r, Flushed(r, scan));
  }
}
