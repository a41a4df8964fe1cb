/**
 * Which tokens of a compose text become variables (compose-introspect.ts): an outline of the text's
 * blocks and of its long port items, without any variables, decides it.
 */
module TokenLedger {
  import opened Wrappers
  import opened JsText
  import opened Replicator
  import opened StableSort
  import opened ComposeIntrospect
  import opened ComposeLaws
  import D = Dotenv

  // ---------------------------------------------------------------- the outline

  /** The mapping keys a line stands under, and the long port item that is still open. */
  datatype Outline = Outline(stack: seq<Open>, item: Option<LongPort>)

  predicate InPorts(o: Outline, line: Line) {
    ParentOf(Popped(o.stack, line.indent)) == Some("ports")
  }

  /** `- field: value`, which opens a long port item. */
  predicate StartsLong(line: Line) {
    line.item.Some? && LongFieldOf(Trim(line.item.value)).Some?
  }

  function ItemAfter(o: Outline, line: Line): Option<LongPort> {
    var service := ServiceOf(Popped(o.stack, line.indent));
    if !InPorts(o, line) then None
    else if StartsLong(line) then
      Some(WithField(LongPort(service, None, None, None), LongFieldOf(Trim(line.item.value)).value))
    else if line.item.None? && line.key.Some? && o.item.Some? then Some(WithField(o.item.value, line.key.value))
    else o.item
  }

  function OutlineStep(o: Outline, line: Line): Outline {
    var stack := Popped(o.stack, line.indent);
    Outline(if line.key.Some? && Trim(line.key.value.value) == "" then stack + [Open(line.indent, line.key.value.key)]
            else stack,
            ItemAfter(o, line))
  }

  function OutlineOf(lines: seq<string>): Outline {
    if lines == [] then Outline([], None)
    else
      var before := OutlineOf(lines[..|lines| - 1]);
      match ReadLine(lines[|lines| - 1])
      case None => before
      case Some(line) => OutlineStep(before, line)
  }

  // ---------------------------------------------------------------- the tokens that count

  /** Those in the bind address of a short port, if it has one. */
  function BindTokens(segs: seq<string>): seq<RawToken> {
    if |segs| >= 3 then TokensIn(segs[0]) else []
  }

  /** Those in the bind address and in the host segment of a short port; a single segment has neither. */
  function ShortTokens(segs: seq<string>): seq<RawToken> {
    if |segs| < 2 then [] else BindTokens(segs) + TokensIn(segs[|segs| - 2])
  }

  /** Those in the published port of a long item. */
  function PublishedTokens(item: Option<LongPort>): seq<RawToken> {
    if item.Some? && item.value.published.Some?
    then TokensIn(StripQuotes(Trim(item.value.published.value))) else []
  }

  /** The published tokens of the long item that the line ends, by leaving `ports:` or opening the next. */
  function EndedTokens(o: Outline, line: Line): seq<RawToken> {
    if !InPorts(o, line) || StartsLong(line) then PublishedTokens(o.item) else []
  }

  /** A line's own tokens: all of them outside `ports:`, those of a short port inside. */
  function OwnTokens(o: Outline, line: Line): seq<RawToken> {
    if !InPorts(o, line) then line.tokens
    else if line.item.Some? && !StartsLong(line) then ShortTokens(PortSegments(Trim(line.item.value)))
    else []
  }

  /** The tokens that count, line by line; blank lines and comments have none. */
  function Counted(lines: seq<string>): seq<RawToken> {
    if lines == [] then []
    else
      var n := |lines| - 1;
      var o := OutlineOf(lines[..n]);
      match ReadLine(lines[n])
      case None => Counted(lines[..n])
      case Some(line) => Counted(lines[..n]) + (EndedTokens(o, line) + OwnTokens(o, line))
  }

  /** Those and the ones of a long item that the text ends in. */
  function Ledger(lines: seq<string>): seq<RawToken> {
    Counted(lines) + PublishedTokens(OutlineOf(lines).item)
  }

  // ---------------------------------------------------------------- variables and a ledger

  predicate Named(vars: seq<Variable>, name: string) {
    exists i :: 0 <= i < |vars| && vars[i].name == name
  }

  /** Under the name, the variables have what the ledger tells: a variable or none, and its first default. */
  ghost predicate Tells(ledger: seq<RawToken>, vars: seq<Variable>, name: string) {
    && (Named(vars, name) <==> NamesToken(ledger, name))
    && DefaultOf(vars, name) == FirstDefault(ledger, name)
  }

  lemma {:induction false} AddVarNames(
    vars: seq<Variable>, tok: RawToken, role: Role, service: Option<string>, containerPort: Option<int>, name: string)
    ensures Named(AddVar(vars, tok, role, service, containerPort), name) <==> Named(vars, name) || tok.name == name
  {
    var i, after := IndexOf(vars, tok.name), AddVar(vars, tok, role, service, containerPort);
    assert after[i].name == tok.name;
    assert forall k :: 0 <= k < |vars| ==> after[k].name == vars[k].name;
  }

  lemma {:induction false} NamesTokenConcat(a: seq<RawToken>, b: seq<RawToken>, name: string)
    ensures NamesToken(a + b, name) <==> NamesToken(a, name) || NamesToken(b, name)
  {
    if NamesToken(a, name) {
      var i :| 0 <= i < |a| && a[i].name == name;
      assert (a + b)[i].name == name;
    }
    if NamesToken(b, name) {
      var i :| 0 <= i < |b| && b[i].name == name;
      assert (a + b)[|a| + i].name == name;
    }
  }

  lemma {:induction false} FirstDefaultConcat(a: seq<RawToken>, b: seq<RawToken>, name: string)
    ensures FirstDefault(a + b, name)
            == if FirstDefault(a, name).Some? then FirstDefault(a, name) else FirstDefault(b, name)
  {
    if b == [] {
      assert a + b == a;
    } else {
      var n := |b| - 1;
      assert (a + b)[..|a + b| - 1] == a + b[..n];
      FirstDefaultConcat(a, b[..n], name);
    }
  }

  lemma {:induction false} AddVarsNames(
    vars: seq<Variable>, toks: seq<RawToken>, role: Role, service: Option<string>, containerPort: Option<int>,
    name: string)
    ensures Named(AddVars(vars, toks, role, service, containerPort), name)
            <==> Named(vars, name) || NamesToken(toks, name)
  {
    if toks != [] {
      var n := |toks| - 1;
      AddVarsNames(vars, toks[..n], role, service, containerPort, name);
      AddVarNames(AddVars(vars, toks[..n], role, service, containerPort), toks[n], role, service, containerPort, name);
      NamesTokenConcat(toks[..n], [toks[n]], name);
      assert toks == toks[..n] + [toks[n]];
      assert NamesToken([toks[n]], name) <==> [toks[n]][0].name == name;
    }
  }

  lemma {:induction false} AddVarsTells(
    ledger: seq<RawToken>, vars: seq<Variable>, toks: seq<RawToken>, role: Role, service: Option<string>,
    containerPort: Option<int>, name: string)
    requires Tells(ledger, vars, name)
    ensures Tells(ledger + toks, AddVars(vars, toks, role, service, containerPort), name)
  {
    AddVarsNames(vars, toks, role, service, containerPort, name);
    AddVarsDefault(vars, toks, role, service, containerPort, name);
    NamesTokenConcat(ledger, toks, name);
    FirstDefaultConcat(ledger, toks, name);
  }

  // ---------------------------------------------------------------- ports

  lemma {:induction false} PublishPortTells(
    ledger: seq<RawToken>, st: Scan, host: string, service: Option<string>, containerPort: Option<int>,
    proto: Protocol, name: string)
    requires Tells(ledger, st.vars, name)
    ensures Tells(ledger + TokensIn(host), PublishPort(st, host, service, containerPort, proto).vars, name)
  {
    AddVarsTells(ledger, st.vars, TokensIn(host), HostPort, service, containerPort, name);
    assert AddVars(st.vars, [], HostPort, service, containerPort) == st.vars;
  }

  lemma {:induction false} BindTells(
    ledger: seq<RawToken>, vars: seq<Variable>, segs: seq<string>, service: Option<string>, name: string)
    requires Tells(ledger, vars, name)
    ensures Tells(ledger + BindTokens(segs), WithBindAddress(vars, segs, service), name)
  {
    AddVarsTells(ledger, vars, BindTokens(segs), HostIp, service, None, name);
    assert AddVars(vars, [], HostIp, service, None) == vars;
  }

  lemma {:induction false} SegmentsTell(
    r: Reader, ledger: seq<RawToken>, st: Scan, segs: seq<string>, service: Option<string>, proto: Protocol,
    name: string)
    requires Tells(ledger, st.vars, name)
    ensures Tells(ledger + ShortTokens(segs), AddSegments(r, st, segs, service, proto).vars, name)
  {
    if |segs| < 2 {
      assert ledger + [] == ledger;
    } else {
      var bound := st.(vars := WithBindAddress(st.vars, segs, service));
      var host := segs[|segs| - 2];
      BindTells(ledger, st.vars, segs, service, name);
      PublishPortTells(ledger + BindTokens(segs), bound, host, service, PortOfSegments(r, segs), proto, name);
      Associates(ledger, BindTokens(segs), TokensIn(host));
    }
  }

  lemma {:induction false} LongTells(r: Reader, ledger: seq<RawToken>, st: Scan, item: LongPort, name: string)
    requires Tells(ledger, st.vars, name)
    ensures Tells(ledger + PublishedTokens(Some(item)), AddLongPort(r, st, item).vars, name)
  {
    var containerPort := if item.target.Some? then ContainerPortOf(r, item.target.value) else None;
    var published := if item.published.Some? then StripQuotes(Trim(item.published.value)) else "";
    PublishPortTells(ledger, st, published, item.service, containerPort, Udp, name);
    PublishPortTells(ledger, st, published, item.service, containerPort, Tcp, name);
    assert TokensIn("") == [];
    assert ledger + [] == ledger;
  }

  lemma {:induction false} FlushedTells(r: Reader, ledger: seq<RawToken>, st: Scan, name: string)
    requires Tells(ledger, st.vars, name)
    ensures Tells(ledger + PublishedTokens(st.longPort), Flushed(r, st).vars, name)
    ensures Flushed(r, st).stack == st.stack && Flushed(r, st).longPort.None?
  {
    if st.longPort.Some? {
      LongTells(r, ledger, st, st.longPort.value, name);
    } else {
      assert ledger + [] == ledger;
    }
  }

  // ---------------------------------------------------------------- one line

  function Sketch(st: Scan): Outline {
    Outline(st.stack, st.longPort)
  }

  lemma {:induction false} EnteredTells(r: Reader, ledger: seq<RawToken>, st: Scan, line: Line, name: string)
    requires Tells(ledger, st.vars, name)
    ensures var after := Entered(r, st, line);
            && after.stack == Popped(st.stack, line.indent)
            && (InPorts(Sketch(st), line) ==> after.longPort == st.longPort && after.vars == st.vars)
            && (!InPorts(Sketch(st), line) ==> after.longPort.None?)
            && (!InPorts(Sketch(st), line) ==> Tells(ledger + EndedTokens(Sketch(st), line), after.vars, name))
  {
    FlushedTells(r, ledger, st.(stack := Popped(st.stack, line.indent)), name);
  }

  lemma {:induction false} BookedSketch(st: Scan, line: Line)
    ensures Booked(st, line).vars == st.vars && Sketch(Booked(st, line)) == Sketch(st)
  {
  }

  lemma {:induction false} ShortKeeps(r: Reader, st: Scan, item: string, service: Option<string>)
    ensures Sketch(AddShortPort(r, st, item, service)) == Sketch(st)
  {
  }

  /** A line inside `ports:`. */
  lemma {:induction false} PortLineTells(
    r: Reader, ledger: seq<RawToken>, st: Scan, line: Line, before: Outline, name: string)
    requires st.stack == Popped(before.stack, line.indent) && st.longPort == before.item && InPorts(before, line)
    requires Tells(ledger, st.vars, name)
    ensures var after := PortLine(r, st, line, ServiceOf(st.stack));
            && after.stack == st.stack && after.longPort == ItemAfter(before, line)
            && Tells(ledger + (EndedTokens(before, line) + OwnTokens(before, line)), after.vars, name)
  {
    if StartsLong(line) {
      FlushedTells(r, ledger, st, name);
      AppendNone(PublishedTokens(st.longPort));
    } else if line.item.Some? {
      var content := Trim(line.item.value);
      SegmentsTell(r, ledger, st, PortSegments(content), ServiceOf(st.stack), ProtoOf(content), name);
      ShortKeeps(r, st, content, ServiceOf(st.stack));
      AppendNone(ShortTokens(PortSegments(content)));
    } else {
      AppendNone(ledger);
      AppendNone<RawToken>([]);
    }
  }

  lemma {:induction false} AppendNone<T>(s: seq<T>)
    ensures s + [] == s && [] + s == s
  {
  }

  /** A line outside `ports:`. */
  lemma {:induction false} OtherLineTells(
    r: Reader, ledger: seq<RawToken>, st: Scan, line: Line, before: Outline, name: string)
    requires st.stack == Popped(before.stack, line.indent) && st.longPort.None? && !InPorts(before, line)
    requires Tells(ledger, st.vars, name)
    ensures var after := Collected(r, st, line);
            && after.stack == st.stack && after.longPort == ItemAfter(before, line)
            && Tells(ledger + OwnTokens(before, line), after.vars, name)
  {
    AddVarsTells(ledger, st.vars, line.tokens, RoleOf(line.key), ServiceOf(st.stack), None, name);
  }

  lemma {:induction false} CollectedTells(r: Reader, ledger: seq<RawToken>, st: Scan, line: Line, name: string)
    requires Tells(ledger, st.vars, name)
    ensures var o, booked := Sketch(st), Booked(Entered(r, st, line), line);
            var after := Collected(r, booked, line);
            && after.stack == Popped(st.stack, line.indent) && after.longPort == ItemAfter(o, line)
            && Tells(ledger + (EndedTokens(o, line) + OwnTokens(o, line)), after.vars, name)
  {
    var entered, o := Entered(r, st, line), Sketch(st);
    var booked := Booked(entered, line);
    EnteredTells(r, ledger, st, line, name);
    BookedSketch(entered, line);
    if InPorts(o, line) {
      PortLineTells(r, ledger, booked, line, o, name);
    } else {
      OtherLineTells(r, ledger + EndedTokens(o, line), booked, line, o, name);
      Associates(ledger, EndedTokens(o, line), OwnTokens(o, line));
    }
  }

  lemma {:induction false} Associates<T>(a: seq<T>, b: seq<T>, c: seq<T>)
    ensures a + b + c == a + (b + c)
  {
  }

  /** A line moves the outline on, and records exactly the tokens that count. */
  lemma {:induction false} StepTells(r: Reader, ledger: seq<RawToken>, st: Scan, line: Line, name: string)
    requires Tells(ledger, st.vars, name)
    ensures var o, after := Sketch(st), Step(r, st, line);
            && Sketch(after) == OutlineStep(o, line)
            && Tells(ledger + (EndedTokens(o, line) + OwnTokens(o, line)), after.vars, name)
  {
    CollectedTells(r, ledger, st, line, name);
  }

  // ---------------------------------------------------------------- the whole text

  lemma {:induction false} ScanTells(r: Reader, lines: seq<string>, name: string)
    ensures Sketch(ScanOf(r, lines)) == OutlineOf(lines)
    ensures Tells(Counted(lines), ScanOf(r, lines).vars, name)
  {
    if lines != [] {
      var n := |lines| - 1;
      ScanTells(r, lines[..n], name);
      if ReadLine(lines[n]).Some? {
        StepTells(r, Counted(lines[..n]), ScanOf(r, lines[..n]), ReadLine(lines[n]).value, name);
      }
    }
  }

  lemma {:induction false} LookupTells(vars: seq<Variable>, name: string)
    ensures Named(vars, name) <==> Lookup(vars, name).Some?
  {
    if Named(vars, name) {
      var i :| 0 <= i < |vars| && vars[i].name == name;
    }
  }

  /** Finishing the schema changes no name and no default. */
  lemma {:induction false} ResultTells(r: Reader, ledger: seq<RawToken>, scan: Scan, name: string)
    requires ScanOk(scan) && Tells(ledger, scan.vars, name)
    ensures Tells(ledger, Result(r, scan).variables, name)
  {
    var vars := Finalized(r, scan.vars);
    FinalizedOk(r, scan.vars);
    FinalizedLookup(r, scan.vars, name);
    SortedLookup(FormOrder(r), vars, name);
    LookupTells(scan.vars, name);
    LookupTells(Sorted(FormOrder(r), vars), name);
  }

  /**
   * For every compose text the variables are exactly the names in its ledger, each with the first
   * default the ledger gives it: the tokens anywhere outside `ports:`, in the bind address or host
   * segment of a short port of at least two segments, or in the published port of a long item.
   */
  lemma {:induction false} TokensRecordedExactly(r: Reader, text: string, name: string)
    ensures var ledger := Ledger(Split(D.NormalNewlines(text), '\n'));
            && (Named(Introspected(r, text).variables, name) <==> NamesToken(ledger, name))
            && DefaultOf(Introspected(r, text).variables, name) == FirstDefault(ledger, name)
  {
    var lines := Split(D.NormalNewlines(text), '\n');
    ScanTells(r, lines, name);
    FlushedTells(r, Counted(lines), ScanOf(r, lines), name);
    FinalScanOk(r, text);
    ResultTells(r, Ledger(lines), Flushed(r, ScanOf(r, lines)), name);
  }

  lemma {:induction false} CountedSnoc(lines: seq<string>, name: string)
    requires lines != [] && NamesToken(Counted(lines[..|lines| - 1]), name)
    ensures NamesToken(Counted(lines), name)
  {
    var before := lines[..|lines| - 1];
    if ReadLine(lines[|lines| - 1]).Some? {
      var o, line := OutlineOf(before), ReadLine(lines[|lines| - 1]).value;
      NamesTokenConcat(Counted(before), EndedTokens(o, line) + OwnTokens(o, line), name);
    }
  }

  lemma {:induction false} CountedNext(lines: seq<string>, n: nat, name: string)
    requires n < |lines| && NamesToken(Counted(lines[..n]), name)
    ensures NamesToken(Counted(lines[..n + 1]), name)
  {
    assert lines[..n + 1][..n] == lines[..n];
    CountedSnoc(lines[..n + 1], name);
  }

  /** A token once counted stays so. */
  lemma {:induction false} CountedGrows(lines: seq<string>, n: nat, name: string)
    requires n <= |lines| && NamesToken(Counted(lines[..n]), name)
    ensures NamesToken(Counted(lines), name)
    decreases |lines| - n
  {
    if n == |lines| {
      assert lines[..n] == lines;
    } else {
      CountedNext(lines, n, name);
      CountedGrows(lines, n + 1, name);
    }
  }

  lemma {:induction false} LineCounts(lines: seq<string>, i: nat, name: string)
    requires i < |lines| && ReadLine(lines[i]).Some?
    requires NamesToken(OwnTokens(OutlineOf(lines[..i]), ReadLine(lines[i]).value), name)
    ensures NamesToken(Counted(lines[..i + 1]), name)
  {
    var o, line := OutlineOf(lines[..i]), ReadLine(lines[i]).value;
    assert lines[..i + 1][..i] == lines[..i];
    NamesTokenConcat(EndedTokens(o, line), OwnTokens(o, line), name);
    NamesTokenConcat(Counted(lines[..i]), EndedTokens(o, line) + OwnTokens(o, line), name);
  }

  /** Each token on a line outside `ports:` that is no comment becomes a variable. */
  lemma {:induction false} NoTokenOverlooked(r: Reader, text: string, i: nat, k: nat)
    requires var lines := Split(D.NormalNewlines(text), '\n');
             && i < |lines| && ReadLine(lines[i]).Some? && !InPorts(OutlineOf(lines[..i]), ReadLine(lines[i]).value)
             && k < |ReadLine(lines[i]).value.tokens|
    ensures var line := ReadLine(Split(D.NormalNewlines(text), '\n')[i]).value;
            Named(Introspected(r, text).variables, line.tokens[k].name)
  {
    var lines := Split(D.NormalNewlines(text), '\n');
    var name := ReadLine(lines[i]).value.tokens[k].name;
    LineCounts(lines, i, name);
    CountedGrows(lines, i + 1, name);
    NamesTokenConcat(Counted(lines), PublishedTokens(OutlineOf(lines).item), name);
    TokensRecordedExactly(r, text, name);
  }
}
