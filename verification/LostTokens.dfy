/**
 * The tokens that introspection passes over although the header of compose-introspect.ts promises a
 * variable for each: those of the container segment of a published port.
 */
module LostTokens {
  import opened Wrappers
  import opened JsText
  import opened Replicator
  import opened Dollars
  import opened ComposeIntrospect
  import opened ComposeLaws
  import opened PortForms
  import opened TokenLedger
  import D = Dotenv
  import W = ComposeWrapper

  /** A service that publishes one port. */
  function PortFile(item: string): seq<string> {
    [W.Entry(0, "services", ""), W.Entry(2, "app", ""), W.Entry(4, "ports", ""), W.Blanks(6) + ("- " + item)]
  }

  function Quoted(host: string, target: string): string {
    "\"" + (host + ":" + target) + "\""
  }

  // ---------------------------------------------------------------- the outline, line by line

  lemma {:induction false} LedgerSnoc(lines: seq<string>, line: Line)
    requires lines != [] && ReadLine(lines[|lines| - 1]) == Some(line)
    ensures var before := lines[..|lines| - 1];
            var o := OutlineOf(before);
            && OutlineOf(lines) == OutlineStep(o, line)
            && Counted(lines) == Counted(before) + (EndedTokens(o, line) + OwnTokens(o, line))
  {
  }

  const TOP: seq<Open> := [Open(0, "services")]
  const PORTS: seq<Open> := W.BASE + [Open(4, "ports")]

  lemma {:induction false} OpeningStep(o: Outline, indent: nat, key: string, stack: seq<Open>)
    requires o.item.None? && Popped(o.stack, indent) == stack && ParentOf(stack) != Some("ports")
    ensures OutlineStep(o, W.Opening(indent, key)) == Outline(stack + [Open(indent, key)], None)
    ensures EndedTokens(o, W.Opening(indent, key)) == [] && OwnTokens(o, W.Opening(indent, key)) == []
  {
    assert Trim("") == "";
  }

  lemma {:induction false} OpeningIsRead(indent: nat, key: string)
    requires key == "services" || key == "app" || key == "ports"
    ensures ReadLine(W.Entry(indent, key, "")) == Some(W.Opening(indent, key))
  {
    W.NamesAreKeys();
    W.EntryIsRead(indent, key, "");
    W.EmptyValue(key);
  }

  lemma {:induction false} OpeningLine(
    before: seq<string>, indent: nat, key: string, o: Outline, stack: seq<Open>)
    requires key == "services" || key == "app" || key == "ports"
    requires OutlineOf(before) == o && Counted(before) == []
    requires o.item.None? && Popped(o.stack, indent) == stack && ParentOf(stack) != Some("ports")
    ensures var lines := before + [W.Entry(indent, key, "")];
            OutlineOf(lines) == Outline(stack + [Open(indent, key)], None) && Counted(lines) == []
  {
    var lines := before + [W.Entry(indent, key, "")];
    OpeningIsRead(indent, key);
    OpeningStep(o, indent, key, stack);
    assert lines[..|lines| - 1] == before;
    LedgerSnoc(lines, W.Opening(indent, key));
  }

  const SERVICES := [W.Entry(0, "services", "")]
  const APP_LINES := SERVICES + [W.Entry(2, "app", "")]
  const FRONT := APP_LINES + [W.Entry(4, "ports", "")]

  lemma {:induction false} ServicesOpened()
    ensures OutlineOf(SERVICES) == Outline(TOP, None) && Counted(SERVICES) == []
  {
    OpeningLine([], 0, "services", Outline([], None), []);
    AppendNone(SERVICES);
    AppendNone(TOP);
  }

  lemma {:induction false} AppOpened()
    ensures OutlineOf(APP_LINES) == Outline(W.BASE, None) && Counted(APP_LINES) == []
  {
    ServicesOpened();
    OpeningLine(SERVICES, 2, "app", Outline(TOP, None), TOP);
    assert TOP + [Open(2, "app")] == W.BASE;
  }

  /** Up to and with `ports:` nothing counts. */
  lemma {:induction false} PortsOpened()
    ensures OutlineOf(FRONT) == Outline(PORTS, None) && Counted(FRONT) == []
  {
    AppOpened();
    W.PoppedBase("ports");
    OpeningLine(APP_LINES, 4, "ports", Outline(W.BASE, None), W.BASE);
  }

  /** A quoted item inside `ports:` is a short port. */
  lemma {:induction false} ItemStep(item: string, toks: seq<RawToken>)
    requires item != "" && item[0] == '"' && Trim(item) == item
    ensures var o, line := Outline(PORTS, None), Line(6, None, Some(item), toks);
            && OutlineStep(o, line).item.None? && EndedTokens(o, line) == []
            && OwnTokens(o, line) == ShortTokens(PortSegments(item))
  {
    W.PoppedBase("ports");
  }

  lemma {:induction false} LastLine(before: seq<string>, raw: string, line: Line, o: Outline)
    requires OutlineOf(before) == o && Counted(before) == [] && ReadLine(raw) == Some(line)
    requires OutlineStep(o, line).item.None?
    ensures Ledger(before + [raw]) == EndedTokens(o, line) + OwnTokens(o, line)
  {
    var lines := before + [raw];
    assert lines[..|lines| - 1] == before;
    LedgerSnoc(lines, line);
    AppendNone(EndedTokens(o, line) + OwnTokens(o, line));
  }

  lemma {:induction false} LedgerOfPortFile(item: string)
    requires item != "" && item[0] == '"' && Trim(item) == item && D.OneLine(item)
    ensures Ledger(PortFile(item)) == ShortTokens(PortSegments(item))
  {
    var line := Line(6, None, Some(item), TokensIn(item));
    PortsOpened();
    W.ItemIsRead(6, item);
    ItemStep(item, TokensIn(item));
    LastLine(FRONT, W.Blanks(6) + ("- " + item), line, Outline(PORTS, None));
    AppendNone(ShortTokens(PortSegments(item)));
    FrontAndItem(item);
  }

  lemma {:induction false} FrontAndItem(item: string)
    ensures PortFile(item) == FRONT + [W.Blanks(6) + ("- " + item)]
  {
  }

  lemma {:induction false} PortFileIsSplit(item: string)
    requires D.NoBreaks(item)
    ensures Split(D.NormalNewlines(Join(PortFile(item), '\n')), '\n') == PortFile(item)
  {
    var lines := PortFile(item);
    W.OpeningNoBreaks(0, "services");
    W.OpeningNoBreaks(2, "app");
    W.OpeningNoBreaks(4, "ports");
    W.BlanksNoBreaks(6);
    assert D.NoBreaks("- " + item);
    assert D.NoBreaks(W.Blanks(6) + ("- " + item));
    D.NoBreaksInJoin(lines);
    D.NormalIsSame(Join(lines, '\n'));
    SplitOfJoin(lines, '\n');
  }

  // ---------------------------------------------------------------- the container segment

  lemma {:induction false} QuotedSegments(host: string, target: string)
    requires PortText(host) && PortText(target)
    ensures PortSegments(Quoted(host, target)) == [host, target]
  {
    var both := host + ":" + target;
    W.QuotesOff(both);
    BothSegments(host, target);
    assert '/' !in both;
    UpToSlash(both, "");
  }

  /** A file that publishes `host:target` has the variables of the host's tokens and no other. */
  lemma {:induction false} ContainerTokensAreLost(r: Reader, host: string, target: string, name: string)
    requires PortText(host) && PortText(target) && D.OneLine(host) && D.OneLine(target)
    ensures Named(Introspected(r, Join(PortFile(Quoted(host, target)), '\n')).variables, name)
            <==> NamesToken(TokensIn(host), name)
  {
    var item := Quoted(host, target);
    W.QuotesOff(host + ":" + target);
    assert D.OneLine(item) && D.NoBreaks(item) by {
      assert forall i :: 0 <= i < |host| ==> !IsLineTerminator(host[i]);
      assert forall i :: 0 <= i < |target| ==> !IsLineTerminator(target[i]);
    }
    PortFileIsSplit(item);
    LedgerOfPortFile(item);
    QuotedSegments(host, target);
    AppendNone(TokensIn(host));
    TokensRecordedExactly(r, Join(PortFile(item), '\n'), name);
  }

  // ---------------------------------------------------------------- the input

  const TARGET := "${PORT}"

  /** A token without an operator, at the end of a text. */
  lemma {:induction false} BareToken(name: string)
    requires IsIdentifier(name)
    ensures TokensIn("${" + name + "}") == [RawToken(name, None)]
  {
    var s := "${" + name + "}";
    BareNameEnds(name);
    assert TokenAt(s) == Some(Token(name, "", "", |s|));
    assert s[|s|..] == "" && TokensIn("") == [];
    AppendNone([RawToken(name, None)]);
  }

  lemma {:induction false} BareNameEnds(name: string)
    requires IsIdentifier(name)
    ensures var s := "${" + name + "}";
            && |s| > 3 && s[0] == '$' && s[1] == '{' && IsNameStart(s[2])
            && D.IdentEnd(s, 3) == 2 + |name| && s[2..2 + |name|] == name && s[2 + |name|] == '}'
  {
    var s := "${" + name + "}";
    assert s[2] == name[0];
    assert forall i :: 0 <= i < |name| ==> s[2 + i] == name[i] && IsNameChar(name[i]);
    assert s[2 + |name|] == '}';
  }

  lemma {:induction false} BareTokenIsTarget(name: string)
    requires IsIdentifier(name)
    ensures PortText("${" + name + "}") && D.OneLine("${" + name + "}")
  {
    var s := "${" + name + "}";
    assert forall i :: 0 <= i < |name| ==> s[2 + i] == name[i] && IsNameChar(name[i]);
    assert s[|s| - 1] == '}' && s[0] == '$';
    BracedIsOneSegment(name);
  }

  lemma {:induction false} TargetIsToken()
    ensures TokensIn(TARGET) == [RawToken("PORT", None)] && PortText(TARGET) && D.OneLine(TARGET)
  {
    BareToken("PORT");
    BareTokenIsTarget("PORT");
    TargetText();
  }

  lemma {:induction false} TargetText()
    ensures TARGET == "${" + "PORT" + "}"
  {
  }

  lemma {:induction false} BracedIsOneSegment(name: string)
    requires W.NoBraces(name)
    ensures OneSegment("${" + name + "}", 0)
  {
    var z, y := "}", name + "}";
    W.SegmentsRun(name, z, 1);
    assert z[1..] == "" && Segments("", 0) == [""] && ['}'] + "" == "}";
    assert Segments(z, 1) == ["}"];
    assert Segments(y, 1) == [y];
    assert ("{" + y)[1..] == y && ("$" + ("{" + y))[1..] == "{" + y;
    assert Segments("{" + y, 0) == ["{" + y];
    assert "${" + name + "}" == "$" + ("{" + y);
    DepthRun(name, z, 1);
    assert DepthOf(z, 1) == DepthOf("", 0);
  }

  lemma {:induction false} DepthRun(a: string, b: string, depth: nat)
    requires W.NoBraces(a)
    ensures DepthOf(a + b, depth) == DepthOf(b, depth)
  {
    if a == "" {
      assert a + b == b;
    } else {
      assert (a + b)[1..] == a[1..] + b;
      DepthRun(a[1..], b, depth);
    }
  }

  lemma {:induction false} HostIsPlain()
    ensures PortText("8080") && TokensIn("8080") == [] && D.OneLine("8080")
  {
    W.PlainSegment("8080");
    W.NoTokens("8080");
    DepthRun("8080", "", 0);
    assert "8080" + "" == "8080";
  }

  /** The port `"8080:${PORT}"` has the token, and the file that publishes it no variable. */
  lemma {:induction false} ContainerPortIsLost(r: Reader)
    ensures TokensIn(TARGET) == [RawToken("PORT", None)]
    ensures Introspected(r, Join(PortFile(Quoted("8080", TARGET)), '\n')).variables == []
  {
    var vars := Introspected(r, Join(PortFile(Quoted("8080", TARGET)), '\n')).variables;
    TargetIsToken();
    HostIsPlain();
    if vars != [] {
      ContainerTokensAreLost(r, "8080", TARGET, vars[0].name);
    }
  }
}
