/**
 * The compose file written for a repository that has only a Dockerfile (compose-introspect.ts), read
 * back by the introspection of compose files.
 */
module ComposeWrapper {
  import opened Wrappers
  import opened JsText
  import opened Replicator
  import opened Dollars
  import opened ComposeIntrospect
  import opened ComposeLaws
  import opened StableSort
  import D = Dotenv

  function Blanks(n: nat): string {
    if n == 0 then "" else " " + Blanks(n - 1)
  }

  /** `${NAME:-default}` */
  function WithDefault(name: string, default: string): string {
    "${" + name + ":-" + default + "}"
  }

  function TokenText(tok: RawToken): string
    requires tok.default.Some?
  {
    WithDefault(tok.name, tok.default.value)
  }

  const IMAGE := RawToken("APP_IMAGE", Some("app:local"))
  const CONTAINER_NAME := RawToken("APP_CONTAINER_NAME", Some("app"))

  function HostPortToken(port: nat): RawToken {
    RawToken("APP_HOST_PORT", Some(Decimal(port)))
  }

  function Entry(indent: nat, key: string, value: string): string {
    Blanks(indent) + (key + ":" + value)
  }

  function PortsItem(port: nat): string {
    TokenText(HostPortToken(port)) + ":" + Decimal(port)
  }

  const RESTART := "unless-stopped"

  function WrapperLines(port: nat, context: string): seq<string> {
    [Entry(0, "services", ""),
     Entry(2, "app", ""),
     Entry(4, "build", " " + context),
     Entry(4, "image", " " + TokenText(IMAGE)),
     Entry(4, "container_name", " " + TokenText(CONTAINER_NAME)),
     Entry(4, "ports", ""),
     Blanks(6) + ("- " + QuotedItem(port)),
     Entry(4, "restart", " " + RESTART),
     ""]
  }

  /** The container port is 8080 when the Dockerfile exposes none. */
  function WrappedPort(exposed: int): nat {
    if exposed > 0 then exposed else 8080
  }

  function GenerateComposeWrapper(exposed: int, context: string): string {
    Join(WrapperLines(WrappedPort(exposed), context), '\n')
  }

  // ---------------------------------------------------------------- reading tokens

  lemma {:induction false} TokensSkip(front: string, rest: string)
    requires '$' !in front
    ensures TokensIn(front + rest) == TokensIn(rest)
  {
    if front == "" {
      assert front + rest == rest;
    } else {
      assert (front + rest)[1..] == front[1..] + rest;
      TokensSkip(front[1..], rest);
    }
  }

  lemma {:induction false} NoTokens(s: string)
    requires '$' !in s
    ensures TokensIn(s) == []
  {
    TokensSkip(s, "");
    assert s + "" == s;
  }

  lemma {:induction false} PlainHasNoTokens(s: string)
    ensures TokensIn(s) == [] <==> !HasToken(s)
    decreases |s|
  {
    if s != "" { PlainHasNoTokens(s[1..]); }
  }

  /** A token with a default, taken apart as the reader does. */
  lemma {:induction false} DefaultTokenAt(name: string, default: string, rest: string)
    requires IsIdentifier(name) && '}' !in default
    ensures TokenAt(WithDefault(name, default) + rest)
            == Some(Token(name, ":-", default, |WithDefault(name, default)|))
  {
    var s := WithDefault(name, default) + rest;
    NameEnds(name, ":-" + default + "}" + rest);
    assert s == "${" + name + (":-" + default + "}" + rest);
    ArgumentEnds("${" + name + ":-", default, rest);
    assert s == "${" + name + ":-" + default + "}" + rest;
    TokenFrom(s, name, ":-", default);
  }

  lemma {:induction false} TokenFrom(s: string, name: string, op: string, arg: string)
    requires |s| > 3 && s[0] == '$' && s[1] == '{' && IsNameStart(s[2]) && D.IdentEnd(s, 3) == 2 + |name|
    requires 2 + |name| < |s| && s[2..2 + |name|] == name && s[2 + |name|] != '}' && OpOf(s[2 + |name|..]) == Some(op)
    requires var from := 2 + |name| + |op|;
             from + |arg| < |s| && IndexFrom(s, '}', from) == from + |arg| && s[from..from + |arg|] == arg
    ensures TokenAt(s) == Some(Token(name, op, arg, 3 + |name| + |op| + |arg|))
  {
  }

  lemma {:induction false} NameEnds(name: string, tail: string)
    requires IsIdentifier(name) && |tail| > 1 && tail[0] == ':' && tail[1] == '-'
    ensures var s := "${" + name + tail;
            && |s| > 3 && IsNameStart(s[2]) && D.IdentEnd(s, 3) == 2 + |name| && s[2..2 + |name|] == name
            && s[2 + |name|] == ':' && OpOf(s[2 + |name|..]) == Some(":-")
  {
    var s := "${" + name + tail;
    assert s[2] == name[0];
    assert forall i :: 0 <= i < |name| ==> s[2 + i] == name[i] && IsNameChar(name[i]);
    assert s[2 + |name|] == ':' && s[2 + |name|..] == tail;
    assert tail[..2] == ":-";
  }

  lemma {:induction false} ArgumentEnds(front: string, default: string, rest: string)
    requires '}' !in default
    ensures var s := front + default + "}" + rest;
            IndexFrom(s, '}', |front|) == |front| + |default| && s[|front|..|front| + |default|] == default
  {
    var s := front + default + "}" + rest;
    assert forall i :: 0 <= i < |default| ==> s[|front| + i] == default[i];
    assert s[|front| + |default|] == '}';
  }

  lemma {:induction false} DefaultToken(name: string, default: string, rest: string)
    requires IsIdentifier(name) && '}' !in default
    ensures TokensIn(WithDefault(name, default) + rest) == [RawToken(name, Some(default))] + TokensIn(rest)
  {
    var s := WithDefault(name, default) + rest;
    DefaultTokenAt(name, default, rest);
    assert s[|WithDefault(name, default)|..] == rest;
  }

  // ---------------------------------------------------------------- reading lines

  lemma {:induction false} BlanksAreSkipped(n: nat, s: string)
    requires s != "" && !IsSpace(s[0])
    ensures TrimStart(Blanks(n) + s) == s && Indent(Blanks(n) + s) == n && '$' !in Blanks(n)
  {
    if n == 0 {
      assert Blanks(n) + s == s;
    } else {
      assert (Blanks(n) + s)[1..] == Blanks(n - 1) + s;
      BlanksAreSkipped(n - 1, s);
    }
  }

  predicate IsKey(key: string) {
    key != "" && key[0] != '-' && forall i :: 0 <= i < |key| ==> IsKeyChar(key[i])
  }

  function FieldOf(key: string, value: string): Option<Field> {
    if D.OneLine(TrimStart(value)) then Some(Field(key, TrimStart(value))) else None
  }

  lemma {:induction false} KeyFound(key: string, value: string)
    requires IsKey(key)
    ensures FieldAt(key + ":" + value, 0, IsKeyChar) == FieldOf(key, value)
  {
    var s := key + ":" + value;
    assert forall i :: 0 <= i < |key| ==> s[i] == key[i];
    assert s[|key|] == ':' && RunEnd(s, 0, IsKeyChar) == |key|;
    assert s[|key| + 1..] == value && s[0..|key|] == key;
  }

  /** The parts of a line, put together. */
  lemma {:induction false} ReadLineIs(
    raw: string, s: string, indent: nat, key: Option<Field>, item: Option<string>, toks: seq<RawToken>)
    requires s != "" && s[0] != '#' && !IsSpace(s[0]) && raw == Blanks(indent) + s
    requires FieldAt(s, 0, IsKeyChar) == key && ItemAt(s) == item && TokensIn(s) == toks
    ensures ReadLine(raw) == Some(Line(indent, key, item, toks))
  {
    BlanksAreSkipped(indent, s);
    TokensSkip(Blanks(indent), s);
    TrimEndKeepsFirst(s);
  }

  lemma {:induction false} TrimEndKeepsFirst(s: string)
    requires s != "" && !IsSpace(s[0])
    ensures TrimEnd(s) != ""
  {
    D.TrimEndOfConcat(s[..1], s[1..]);
    assert s == s[..1] + s[1..];
  }

  lemma {:induction false} KeyFirst(key: string, value: string)
    requires IsKey(key)
    ensures var s := key + ":" + value; s != "" && s[0] != '#' && !IsSpace(s[0]) && ItemAt(s).None?
    ensures '$' !in key + ":"
  {
    assert (key + ":" + value)[0] == key[0] && IsKeyChar(key[0]);
  }

  /** A `key: value` line is read as such; it is no list item. */
  lemma {:induction false} EntryIsRead(indent: nat, key: string, value: string)
    requires IsKey(key)
    ensures ReadLine(Entry(indent, key, value)) == Some(Line(indent, FieldOf(key, value), None, TokensIn(value)))
  {
    var s := key + ":" + value;
    KeyFound(key, value);
    KeyFirst(key, value);
    TokensSkip(key + ":", value);
    ReadLineIs(Entry(indent, key, value), s, indent, FieldOf(key, value), None, TokensIn(value));
  }

  /** A list item is read as such; it is no `key: value` line. */
  lemma {:induction false} ItemIsRead(indent: nat, item: string)
    requires D.OneLine(item) && item != "" && !IsSpace(item[0])
    ensures ReadLine(Blanks(indent) + ("- " + item)) == Some(Line(indent, None, Some(item), TokensIn(item)))
  {
    var s := "- " + item;
    DashItem(item);
    assert RunEnd(s, 0, IsKeyChar) == 1;
    TokensSkip("- ", item);
    ReadLineIs(Blanks(indent) + s, s, indent, None, Some(item), TokensIn(item));
  }

  lemma {:induction false} DashItem(item: string)
    requires D.OneLine(item) && item != "" && !IsSpace(item[0])
    ensures ItemAt("- " + item) == Some(item)
  {
    assert ("- " + item)[1..] == " " + item;
    assert (" " + item)[1..] == item;
  }

  // ---------------------------------------------------------------- reading the ports item

  predicate NoBraces(s: string) {
    '{' !in s && '}' !in s
  }

  lemma {:induction false} SegmentsRun(a: string, b: string, depth: nat)
    requires NoBraces(a) && (depth > 0 || ':' !in a)
    ensures Segments(a + b, depth) == Attached(a, Segments(b, depth))
  {
    if a == "" {
      assert a + b == b;
      AttachedSteps([], "", ':', Segments(b, depth));
    } else {
      assert (a + b)[1..] == a[1..] + b;
      SegmentsRun(a[1..], b, depth);
      assert [a[0]] + (a[1..] + Segments(b, depth)[0]) == a + Segments(b, depth)[0];
    }
  }

  lemma {:induction false} BracedSegments(inner: string, rest: string)
    requires NoBraces(inner)
    ensures Segments("${" + inner + "}:" + rest, 0) == ["${" + inner + "}"] + Segments(rest, 0)
  {
    var z := "}:" + rest;
    var y := inner + z;
    var x := "{" + y;
    assert "${" + inner + "}:" + rest == "$" + x;
    assert ("$" + x)[1..] == x && x[1..] == y && z[1..] == ":" + rest && (":" + rest)[1..] == rest;
    SegmentsRun(inner, z, 1);
    assert Segments(":" + rest, 0) == [""] + Segments(rest, 0);
    assert (":" + rest)[0] == ':' && z[0] == '}';
    AttachedSteps([], "", '}', Segments(":" + rest, 0));
    assert ['}'] + "" == "}";
    assert ([""] + Segments(rest, 0))[1..] == Segments(rest, 0);
    assert Segments(z, 1) == ["}"] + Segments(rest, 0);
    assert Segments(y, 1) == [inner + "}"] + Segments(rest, 0);
    assert Segments(x, 0) == [x[..1] + (inner + "}")] + Segments(rest, 0);
    assert "$" + (x[..1] + (inner + "}")) == "${" + inner + "}";
  }

  lemma {:induction false} PlainSegment(s: string)
    requires NoBraces(s) && ':' !in s
    ensures Segments(s, 0) == [s]
  {
    SegmentsRun(s, "", 0);
    assert s + "" == s;
  }

  lemma {:induction false} QuotesOff(inner: string)
    ensures Trim("\"" + inner + "\"") == "\"" + inner + "\""
    ensures StripQuotes("\"" + inner + "\"") == inner
  {
    var s := "\"" + inner + "\"";
    TrimIsIdentity(s);
    assert s[0] == '"' && s[|s| - 1] == '"';
    assert s[1..] == inner + "\"" && (inner + "\"")[..|inner|] == inner;
  }

  lemma {:induction false} DigitsArePlain(d: string)
    requires Digits(d)
    ensures NoBraces(d) && ':' !in d && '$' !in d && '/' !in d && D.OneLine(d) && Trim(d) == d
    ensures !IsSpace(d[0]) && d[|d| - 1] != 'p' && LowerAscii(d[|d| - 1]) != 'p'
  {
    TrimIsIdentity(d);
  }

  lemma {:induction false} DecimalIsDigits(n: nat)
    ensures Digits(Decimal(n))
  {
  }

  lemma {:induction false} PortsItemSegments(d: string)
    requires Digits(d)
    ensures Segments(WithDefault("APP_HOST_PORT", d) + ":" + d, 0) == [WithDefault("APP_HOST_PORT", d), d]
  {
    var inner := "APP_HOST_PORT" + ":-" + d;
    DigitsArePlain(d);
    BracedSegments(inner, d);
    PlainSegment(d);
    assert WithDefault("APP_HOST_PORT", d) == "${" + inner + "}";
    assert WithDefault("APP_HOST_PORT", d) + ":" + d == "${" + inner + "}:" + d;
  }

  lemma {:induction false} NothingAfterSlash(s: string)
    requires '/' !in s
    ensures BeforeSlash(s) == s
  {
  }

  /** The ports item has the token and the container port as its two segments, and the default protocol. */
  lemma {:induction false} PortsItemParts(port: nat)
    ensures var item := "\"" + PortsItem(port) + "\"";
            && Trim(item) == item
            && PortSegments(item) == [TokenText(HostPortToken(port)), Decimal(port)]
            && ProtoOf(item) == Tcp
  {
    var d, inner := Decimal(port), PortsItem(port);
    DecimalIsDigits(port);
    DigitsArePlain(d);
    QuotesOff(inner);
    NothingAfterSlash(inner);
    PortsItemSegments(d);
    assert inner[|inner| - |d|..] == d;
    NoUdp(inner, d);
  }

  lemma {:induction false} NoUdp(inner: string, d: string)
    requires |inner| >= |d| && Digits(d) && inner[|inner| - |d|..] == d
    ensures !EndsWithLower(TrimEnd(inner), "/udp")
  {
    DigitsArePlain(d);
    assert inner[|inner| - 1] == d[|d| - 1];
    assert TrimEnd(inner) == inner;
    assert "/udp"[3] == 'p';
  }

  // ---------------------------------------------------------------- the scan, line by line

  /** Number() reads back the one port that the file names. */
  predicate ReadsPort(r: Reader, port: nat) {
    r.toNumber(Decimal(port)) == Some(port)
  }

  const BASE: seq<Open> := [Open(0, "services"), Open(2, "app")]

  /** An ordinary `key: value` line, outside `ports:` and `env_file:`. */
  lemma {:induction false} EntryStep(r: Reader, st: Scan, line: Line, stack: seq<Open>)
    requires st.longPort.None? && line.item.None? && stack == Popped(st.stack, line.indent)
    requires ParentOf(stack) != Some("ports") && ParentOf(stack) != Some("env_file")
    requires line.key.Some? ==> line.key.value.key != "env_file" && line.key.value.key != "network_mode"
    ensures Step(r, st, line) == st.(
              stack := if line.key.Some? && Trim(line.key.value.value) == ""
                       then stack + [Open(line.indent, line.key.value.key)] else stack,
              services := if line.key.Some? && ParentOf(stack) == Some("services")
                          then Add(st.services, line.key.value.key) else st.services,
              vars := AddVars(st.vars, line.tokens, RoleOf(line.key), ServiceOf(stack), None))
  {
  }

  lemma {:induction false} PoppedBase(key: string)
    ensures Popped(BASE, 4) == BASE && Popped(BASE + [Open(4, key)], 4) == BASE
    ensures Popped(BASE + [Open(4, key)], 6) == BASE + [Open(4, key)]
    ensures ParentOf(BASE) == Some("app") && ServiceOf(BASE) == Some("app")
    ensures ParentOf(BASE + [Open(4, key)]) == Some(key) && ServiceOf(BASE + [Open(4, key)]) == Some("app")
  {
    assert (BASE + [Open(4, key)])[..2] == BASE;
  }

  // ---------------------------------------------------------------- the three variables

  const APP: Option<string> := Some("app")

  /** The schema the wrapper is meant to have. */
  function Standard(port: nat): seq<Variable> {
    [NewVar(IMAGE, ImageTag, APP, None), NewVar(CONTAINER_NAME, ContainerName, APP, None),
     NewVar(HostPortToken(port), HostPort, APP, Some(port))]
  }

  /** The three added to what the build context has brought in. */
  function WithStandard(vars: seq<Variable>, port: nat): seq<Variable> {
    AddVar(AddVar(AddVar(vars, IMAGE, ImageTag, APP, None), CONTAINER_NAME, ContainerName, APP, None),
           HostPortToken(port), HostPort, APP, Some(port))
  }

  function FromContext(context: string): seq<Variable> {
    AddVars([], TokensIn(context), Plain, APP, None)
  }

  function At(vars: seq<Variable>, stack: seq<Open>): Scan {
    Scan(["app"], vars, [], [], [], stack, None)
  }

  lemma {:induction false} NamesAreKeys()
    ensures IsKey("services") && IsKey("app") && IsKey("build") && IsKey("image") && IsKey("container_name")
    ensures IsKey("ports") && IsKey("restart")
  {
  }

  lemma {:induction false} EmptyValue(key: string)
    ensures FieldOf(key, "") == Some(Field(key, "")) && Trim("") == "" && TokensIn("") == []
  {
  }

  lemma {:induction false} AddOne(vars: seq<Variable>, tok: RawToken, role: Role, containerPort: Option<int>)
    ensures AddVars(vars, [tok], role, APP, containerPort) == AddVar(vars, tok, role, APP, containerPort)
  {
    assert [tok][..0] == [];
    assert AddVars(vars, [], role, APP, containerPort) == vars;
  }

  // ---------------------------------------------------------------- what each line is read as

  predicate TokenSound(tok: RawToken) {
    && IsIdentifier(tok.name) && tok.default.Some? && '}' !in tok.default.value
    && D.OneLine(tok.name) && D.OneLine(tok.default.value)
  }

  lemma {:induction false} ImageIsSound()
    ensures TokenSound(IMAGE)
  {
  }

  lemma {:induction false} ContainerNameIsSound()
    ensures TokenSound(CONTAINER_NAME)
  {
  }

  /** A sound token is written without line breaks. */
  lemma {:induction false} TextNoBreaks(tok: RawToken)
    requires TokenSound(tok)
    ensures D.NoBreaks(TokenText(tok))
  {
    assert D.OneLine(tok.name) && D.OneLine(tok.default.value);
  }

  lemma {:induction false} RestartIsPlain()
    ensures RESTART != "" && Trimmed(RESTART) && D.OneLine(RESTART) && '$' !in RESTART
  {
  }

  /** The three variables before the ports block, and what the build context may open. */
  function Managed(context: string): seq<Variable> {
    AddVar(AddVar(FromContext(context), IMAGE, ImageTag, APP, None), CONTAINER_NAME, ContainerName, APP, None)
  }

  function BuildField(context: string): Option<Field> {
    FieldOf("build", " " + context)
  }

  function BuildStack(context: string): seq<Open> {
    var field := BuildField(context);
    if field.Some? && Trim(field.value.value) == "" then BASE + [Open(4, "build")] else BASE
  }

  function QuotedItem(port: nat): string {
    "\"" + PortsItem(port) + "\""
  }

  function ItemLine(port: nat): Line {
    Line(6, None, Some(QuotedItem(port)), TokensIn(QuotedItem(port)))
  }

  function Opening(indent: nat, key: string): Line {
    Line(indent, Some(Field(key, "")), None, [])
  }

  function Valued(key: string, value: string, toks: seq<RawToken>): Line {
    Line(4, Some(Field(key, value)), None, toks)
  }

  /** `read` and `step` are the two halves of the scan; these triggers keep them folded until named. */
  predicate Seen(text: string) {
    true
  }

  ghost predicate Reads(read: string -> Option<Line>) {
    forall text {:trigger Seen(text)} :: Seen(text) ==> read(text) == ReadLine(text)
  }

  predicate Taken(st: Scan, line: Line) {
    true
  }

  ghost predicate Steps(step: (Scan, Line) -> Scan, r: Reader) {
    forall st, line {:trigger Taken(st, line)} :: Taken(st, line) ==> step(st, line) == Step(r, st, line)
  }

  lemma {:induction false} OpeningIsRead(read: string -> Option<Line>, indent: nat, key: string)
    requires Reads(read) && (key == "services" || key == "app" || key == "ports")
    ensures read(Entry(indent, key, "")) == Some(Line(indent, Some(Field(key, "")), None, []))
  {
    assert Seen(Entry(indent, key, ""));
    NamesAreKeys();
    EntryIsRead(indent, key, "");
    EmptyValue(key);
  }

  lemma {:induction false} ValueIsRead(read: string -> Option<Line>, key: string, value: string)
    requires Reads(read) && IsKey(key) && value != "" && Trimmed(value) && D.OneLine(value)
    ensures read(Entry(4, key, " " + value)) == Some(Valued(key, value, TokensIn(value)))
  {
    assert Seen(Entry(4, key, " " + value));
    EntryIsRead(4, key, " " + value);
    assert (" " + value)[1..] == value && TrimStart(" " + value) == value;
    TokensSkip(" ", value);
  }

  lemma {:induction false} TokenIsRead(read: string -> Option<Line>, key: string, tok: RawToken)
    requires Reads(read) && (key == "image" || key == "container_name") && TokenSound(tok)
    ensures read(Entry(4, key, " " + TokenText(tok))) == Some(Valued(key, TokenText(tok), [tok]))
  {
    NamesAreKeys();
    TextTokens(tok);
    TextIsTrimmed(tok);
    ValueIsRead(read, key, TokenText(tok));
  }

  lemma {:induction false} TextTokens(tok: RawToken)
    requires TokenSound(tok)
    ensures TokensIn(TokenText(tok)) == [tok]
  {
    DefaultToken(tok.name, tok.default.value, "");
    assert TokenText(tok) + "" == TokenText(tok);
  }

  lemma {:induction false} TextIsTrimmed(tok: RawToken)
    requires TokenSound(tok)
    ensures TokenText(tok) != "" && Trimmed(TokenText(tok)) && D.OneLine(TokenText(tok))
  {
  }

  lemma {:induction false} BuildIsRead(read: string -> Option<Line>, context: string)
    requires Reads(read)
    ensures read(Entry(4, "build", " " + context)) == Some(Line(4, BuildField(context), None, TokensIn(context)))
  {
    assert Seen(Entry(4, "build", " " + context));
    NamesAreKeys();
    EntryIsRead(4, "build", " " + context);
    TokensSkip(" ", context);
  }

  lemma {:induction false} PortsItemIsRead(read: string -> Option<Line>, port: nat)
    requires Reads(read)
    ensures read(Blanks(6) + ("- " + QuotedItem(port))) == Some(ItemLine(port))
  {
    assert Seen(Blanks(6) + ("- " + QuotedItem(port)));
    ItemIsOneLine(port);
    ItemIsRead(6, QuotedItem(port));
  }

  lemma {:induction false} RestartIsRead(read: string -> Option<Line>)
    requires Reads(read)
    ensures read(Entry(4, "restart", " " + RESTART)) == Some(Valued("restart", RESTART, []))
  {
    NamesAreKeys();
    RestartIsPlain();
    NoTokens(RESTART);
    ValueIsRead(read, "restart", RESTART);
  }

  lemma {:induction false} BlankIsRead(read: string -> Option<Line>)
    requires Reads(read)
    ensures read("") == None
  {
    assert Seen("") && Trim("") == "";
  }

  // ---------------------------------------------------------------- what each line does to the scan

  lemma {:induction false} ServicesStep(step: (Scan, Line) -> Scan, r: Reader)
    requires Steps(step, r)
    ensures step(START, Line(0, Some(Field("services", "")), None, [])) == START.(stack := [Open(0, "services")])
  {
    assert Taken(START, Line(0, Some(Field("services", "")), None, []));
    EmptyValue("services");
    EntryStep(r, START, Line(0, Some(Field("services", "")), None, []), []);
  }

  lemma {:induction false} AppStep(step: (Scan, Line) -> Scan, r: Reader)
    requires Steps(step, r)
    ensures step(START.(stack := [Open(0, "services")]), Line(2, Some(Field("app", "")), None, [])) == At([], BASE)
  {
    assert Taken(START.(stack := [Open(0, "services")]), Line(2, Some(Field("app", "")), None, []));
    EmptyValue("app");
    EntryStep(r, START.(stack := [Open(0, "services")]), Line(2, Some(Field("app", "")), None, []),
      [Open(0, "services")]);
    assert [Open(0, "services")] + [Open(2, "app")] == BASE;
    assert [] + ["app"] == ["app"];
  }

  lemma {:induction false} BuildStep(step: (Scan, Line) -> Scan, r: Reader, context: string)
    requires Steps(step, r)
    ensures step(At([], BASE), Line(4, BuildField(context), None, TokensIn(context)))
            == At(FromContext(context), BuildStack(context))
  {
    assert Taken(At([], BASE), Line(4, BuildField(context), None, TokensIn(context)));
    PoppedBase("build");
    EntryStep(r, At([], BASE), Line(4, BuildField(context), None, TokensIn(context)), BASE);
  }

  /** A line with a value, four blanks in, whatever block it closes. */
  lemma {:induction false} ValueStep(
    r: Reader, vars: seq<Variable>, stack: seq<Open>, key: string, value: string, toks: seq<RawToken>)
    requires Popped(stack, 4) == BASE && key != "env_file" && key != "network_mode"
    requires value != "" && Trimmed(value)
    ensures Step(r, At(vars, stack), Valued(key, value, toks))
            == At(AddVars(vars, toks, RoleOf(Some(Field(key, value))), APP, None), BASE)
  {
    PoppedBase(key);
    TrimIsIdentity(value);
    EntryStep(r, At(vars, stack), Valued(key, value, toks), BASE);
  }

  lemma {:induction false} ImageStep(step: (Scan, Line) -> Scan, r: Reader, context: string)
    requires Steps(step, r)
    ensures step(At(FromContext(context), BuildStack(context)), Valued("image", TokenText(IMAGE), [IMAGE]))
            == At(AddVar(FromContext(context), IMAGE, ImageTag, APP, None), BASE)
  {
    assert Taken(At(FromContext(context), BuildStack(context)), Valued("image", TokenText(IMAGE), [IMAGE]));
    BuildStackPops(context);
    ImageIsSound();
    TextIsTrimmed(IMAGE);
    ValueStep(r, FromContext(context), BuildStack(context), "image", TokenText(IMAGE), [IMAGE]);
    AddOne(FromContext(context), IMAGE, ImageTag, None);
  }

  lemma {:induction false} ContainerNameStep(step: (Scan, Line) -> Scan, r: Reader, vars: seq<Variable>)
    requires Steps(step, r)
    ensures step(At(vars, BASE), Valued("container_name", TokenText(CONTAINER_NAME), [CONTAINER_NAME]))
            == At(AddVar(vars, CONTAINER_NAME, ContainerName, APP, None), BASE)
  {
    assert Taken(At(vars, BASE), Valued("container_name", TokenText(CONTAINER_NAME), [CONTAINER_NAME]));
    PoppedBase("build");
    ContainerNameIsSound();
    TextIsTrimmed(CONTAINER_NAME);
    ValueStep(r, vars, BASE, "container_name", TokenText(CONTAINER_NAME), [CONTAINER_NAME]);
    AddOne(vars, CONTAINER_NAME, ContainerName, None);
  }

  lemma {:induction false} PortsStep(step: (Scan, Line) -> Scan, r: Reader, vars: seq<Variable>)
    requires Steps(step, r)
    ensures step(At(vars, BASE), Line(4, Some(Field("ports", "")), None, [])) == At(vars, BASE + [Open(4, "ports")])
  {
    assert Taken(At(vars, BASE), Line(4, Some(Field("ports", "")), None, []));
    EmptyValue("ports");
    PoppedBase("ports");
    EntryStep(r, At(vars, BASE), Line(4, Some(Field("ports", "")), None, []), BASE);
  }

  lemma {:induction false} RestartStep(step: (Scan, Line) -> Scan, r: Reader, vars: seq<Variable>)
    requires Steps(step, r)
    ensures step(At(vars, BASE + [Open(4, "ports")]), Valued("restart", RESTART, [])) == At(vars, BASE)
  {
    assert Taken(At(vars, BASE + [Open(4, "ports")]), Valued("restart", RESTART, []));
    RestartIsPlain();
    PoppedBase("ports");
    ValueStep(r, vars, BASE + [Open(4, "ports")], "restart", RESTART, []);
  }

  lemma {:induction false} BuildStackPops(context: string)
    ensures Popped(BuildStack(context), 4) == BASE
  {
    PoppedBase("build");
  }

  lemma {:induction false} ItemIsOneLine(port: nat)
    ensures D.OneLine("\"" + PortsItem(port) + "\"")
  {
    DecimalIsDigits(port);
    DigitsArePlain(Decimal(port));
  }

  lemma {:induction false} ItemStep(r: Reader, st: Scan, item: string, toks: seq<RawToken>)
    requires st.stack == BASE + [Open(4, "ports")] && st.longPort.None? && item != "" && item[0] == '"'
             && Trim(item) == item
    ensures Step(r, st, Line(6, None, Some(item), toks)) == AddSegments(r, st, PortSegments(item), APP, ProtoOf(item))
  {
    PoppedBase("ports");
  }

  lemma {:induction false} SegmentsAdded(r: Reader, st: Scan, port: nat)
    requires ReadsPort(r, port) && port > 0
    ensures AddSegments(r, st, [TokenText(HostPortToken(port)), Decimal(port)], APP, Tcp)
            == st.(vars := AddVar(st.vars, HostPortToken(port), HostPort, APP, Some(port)))
  {
    var d := Decimal(port);
    var host := WithDefault("APP_HOST_PORT", d);
    DecimalIsDigits(port);
    DigitsArePlain(d);
    NoTokens(d);
    TextTokens(HostPortToken(port));
    AddOne(st.vars, HostPortToken(port), HostPort, Some(port));
    assert ContainerPortOf(r, d) == Some(port);
  }

  lemma {:induction false} PortsItemStep(step: (Scan, Line) -> Scan, r: Reader, vars: seq<Variable>, port: nat)
    requires Steps(step, r) && ReadsPort(r, port) && port > 0
    ensures step(At(vars, BASE + [Open(4, "ports")]), ItemLine(port))
            == At(AddVar(vars, HostPortToken(port), HostPort, APP, Some(port)), BASE + [Open(4, "ports")])
  {
    var st := At(vars, BASE + [Open(4, "ports")]);
    assert Taken(st, ItemLine(port));
    PortsItemParts(port);
    ItemStep(r, st, QuotedItem(port), TokensIn(QuotedItem(port)));
    SegmentsAdded(r, st, port);
  }

  // ---------------------------------------------------------------- the whole file

  /** One more line. */
  lemma {:induction false} Next(
    step: (Scan, Line) -> Scan, read: string -> Option<Line>, lines: seq<string>, k: nat, line: Line)
    requires k < |lines| && read(lines[k]) == Some(line)
    ensures Scanned(step, read, lines[..k + 1]) == step(Scanned(step, read, lines[..k]), line)
  {
    assert lines[..k + 1][..k] == lines[..k];
  }

  lemma {:induction false} ScannedApp(
    step: (Scan, Line) -> Scan, read: string -> Option<Line>, r: Reader, port: nat, context: string)
    requires Steps(step, r) && Reads(read)
    ensures Scanned(step, read, WrapperLines(port, context)[..2]) == At([], BASE)
  {
    var lines := WrapperLines(port, context);
    OpeningIsRead(read, 0, "services");
    OpeningIsRead(read, 2, "app");
    Next(step, read, lines, 0, Line(0, Some(Field("services", "")), None, []));
    Next(step, read, lines, 1, Line(2, Some(Field("app", "")), None, []));
    ServicesStep(step, r);
    AppStep(step, r);
  }

  lemma {:induction false} ScannedBuild(
    step: (Scan, Line) -> Scan, read: string -> Option<Line>, r: Reader, port: nat, context: string)
    requires Steps(step, r) && Reads(read)
    ensures Scanned(step, read, WrapperLines(port, context)[..3]) == At(FromContext(context), BuildStack(context))
  {
    var lines := WrapperLines(port, context);
    ScannedApp(step, read, r, port, context);
    BuildIsRead(read, context);
    Next(step, read, lines, 2, Line(4, BuildField(context), None, TokensIn(context)));
    BuildStep(step, r, context);
  }

  lemma {:induction false} ScannedImage(
    step: (Scan, Line) -> Scan, read: string -> Option<Line>, r: Reader, port: nat, context: string)
    requires Steps(step, r) && Reads(read)
    ensures Scanned(step, read, WrapperLines(port, context)[..4])
            == At(AddVar(FromContext(context), IMAGE, ImageTag, APP, None), BASE)
  {
    ScannedBuild(step, read, r, port, context);
    ImageIsSound();
    TokenIsRead(read, "image", IMAGE);
    Next(step, read, WrapperLines(port, context), 3, Valued("image", TokenText(IMAGE), [IMAGE]));
    ImageStep(step, r, context);
  }

  lemma {:induction false} ScannedManaged(
    step: (Scan, Line) -> Scan, read: string -> Option<Line>, r: Reader, port: nat, context: string)
    requires Steps(step, r) && Reads(read)
    ensures Scanned(step, read, WrapperLines(port, context)[..5]) == At(Managed(context), BASE)
  {
    ScannedImage(step, read, r, port, context);
    ContainerNameIsSound();
    TokenIsRead(read, "container_name", CONTAINER_NAME);
    Next(step, read, WrapperLines(port, context), 4,
      Valued("container_name", TokenText(CONTAINER_NAME), [CONTAINER_NAME]));
    ContainerNameStep(step, r, AddVar(FromContext(context), IMAGE, ImageTag, APP, None));
  }

  lemma {:induction false} ScannedPorts(
    step: (Scan, Line) -> Scan, read: string -> Option<Line>, r: Reader, port: nat, context: string)
    requires Steps(step, r) && Reads(read) && ReadsPort(r, port) && port > 0
    ensures Scanned(step, read, WrapperLines(port, context)[..7]) == step(step(At(Managed(context), BASE),
              Line(4, Some(Field("ports", "")), None, [])), ItemLine(port))
  {
    var lines := WrapperLines(port, context);
    ScannedManaged(step, read, r, port, context);
    OpeningIsRead(read, 4, "ports");
    PortsItemIsRead(read, port);
    Next(step, read, lines, 5, Line(4, Some(Field("ports", "")), None, []));
    Next(step, read, lines, 6, ItemLine(port));
  }

  lemma {:induction false} ScannedAll(
    step: (Scan, Line) -> Scan, read: string -> Option<Line>, r: Reader, port: nat, context: string)
    requires Steps(step, r) && Reads(read) && ReadsPort(r, port) && port > 0
    ensures Scanned(step, read, WrapperLines(port, context)) == At(WithStandard(FromContext(context), port), BASE)
  {
    var lines := WrapperLines(port, context);
    ScannedPorts(step, read, r, port, context);
    PortsStep(step, r, Managed(context));
    PortsItemStep(step, r, Managed(context), port);
    RestartIsRead(read);
    BlankIsRead(read);
    Next(step, read, lines, 7, Valued("restart", RESTART, []));
    RestartStep(step, r, WithStandard(FromContext(context), port));
    assert lines[..8] == lines[..|lines| - 1];
  }

  lemma {:induction false} WrapperScanned(r: Reader, port: nat, context: string)
    requires ReadsPort(r, port) && port > 0
    ensures ScanOf(r, WrapperLines(port, context)) == At(WithStandard(FromContext(context), port), BASE)
  {
    ScannedAll(Stepper(r), ReadLine, r, port, context);
  }

  lemma {:induction false} BlanksNoBreaks(n: nat)
    ensures D.NoBreaks(Blanks(n))
  {
    if n > 0 { BlanksNoBreaks(n - 1); }
  }

  lemma {:induction false} EntryNoBreaks(indent: nat, key: string, value: string)
    requires IsKey(key) && D.NoBreaks(value)
    ensures D.NoBreaks(Entry(indent, key, value))
  {
    BlanksNoBreaks(indent);
  }

  lemma {:induction false} OpeningNoBreaks(indent: nat, key: string)
    requires key == "services" || key == "app" || key == "ports"
    ensures D.NoBreaks(Entry(indent, key, ""))
  {
    NamesAreKeys();
    EntryNoBreaks(indent, key, "");
  }

  lemma {:induction false} ValueNoBreaks(key: string, value: string)
    requires (key == "build" || key == "image" || key == "container_name" || key == "restart") && D.NoBreaks(value)
    ensures D.NoBreaks(Entry(4, key, " " + value))
  {
    NamesAreKeys();
    EntryNoBreaks(4, key, " " + value);
  }

  lemma {:induction false} ItemNoBreaks(port: nat)
    ensures D.NoBreaks(Blanks(6) + ("- " + QuotedItem(port)))
  {
    DecimalIsDigits(port);
    BlanksNoBreaks(6);
  }

  lemma {:induction false} LinesNoBreaks(breakFree: string -> bool, port: nat, context: string)
    requires D.NoBreaks(context)
    requires forall s {:trigger Seen(s)} :: Seen(s) && D.NoBreaks(s) ==> breakFree(s)
    ensures forall k :: 0 <= k < |WrapperLines(port, context)| ==> breakFree(WrapperLines(port, context)[k])
  {
    FrontNoBreaks(breakFree, context);
    ImageIsSound();
    TextNoBreaks(IMAGE);
    ContainerNameIsSound();
    TextNoBreaks(CONTAINER_NAME);
    RestartNoBreaks();
    NamedNoBreaks(breakFree, "image", TokenText(IMAGE));
    NamedNoBreaks(breakFree, "container_name", TokenText(CONTAINER_NAME));
    NamedNoBreaks(breakFree, "restart", RESTART);
    BackNoBreaks(breakFree, port);
  }

  lemma {:induction false} RestartNoBreaks()
    ensures D.NoBreaks(RESTART)
  {
  }

  lemma {:induction false} NamedNoBreaks(breakFree: string -> bool, key: string, value: string)
    requires (key == "build" || key == "image" || key == "container_name" || key == "restart") && D.NoBreaks(value)
    requires forall s {:trigger Seen(s)} :: Seen(s) && D.NoBreaks(s) ==> breakFree(s)
    ensures breakFree(Entry(4, key, " " + value))
  {
    ValueNoBreaks(key, value);
    assert Seen(Entry(4, key, " " + value));
  }

  lemma {:induction false} FrontNoBreaks(breakFree: string -> bool, context: string)
    requires D.NoBreaks(context)
    requires forall s {:trigger Seen(s)} :: Seen(s) && D.NoBreaks(s) ==> breakFree(s)
    ensures breakFree(Entry(0, "services", "")) && breakFree(Entry(2, "app", ""))
            && breakFree(Entry(4, "build", " " + context))
  {
    OpeningNoBreaks(0, "services");
    OpeningNoBreaks(2, "app");
    assert Seen(Entry(0, "services", "")) && Seen(Entry(2, "app", ""));
    NamedNoBreaks(breakFree, "build", context);
  }

  lemma {:induction false} BackNoBreaks(breakFree: string -> bool, port: nat)
    requires forall s {:trigger Seen(s)} :: Seen(s) && D.NoBreaks(s) ==> breakFree(s)
    ensures breakFree(Entry(4, "ports", "")) && breakFree(Blanks(6) + ("- " + QuotedItem(port))) && breakFree("")
  {
    OpeningNoBreaks(4, "ports");
    ItemNoBreaks(port);
    assert Seen(Entry(4, "ports", "")) && Seen(Blanks(6) + ("- " + QuotedItem(port))) && Seen("");
  }

  lemma {:induction false} WrapperIsSplit(exposed: int, context: string)
    requires D.NoBreaks(context)
    ensures Split(D.NormalNewlines(GenerateComposeWrapper(exposed, context)), '\n')
            == WrapperLines(WrappedPort(exposed), context)
  {
    var lines := WrapperLines(WrappedPort(exposed), context);
    LinesNoBreaks(D.NoBreaks, WrappedPort(exposed), context);
    D.NoBreaksInJoin(lines);
    D.NormalIsSame(Join(lines, '\n'));
    SplitOfJoin(lines, '\n');
  }

  // ---------------------------------------------------------------- what the build context brings in

  /** The same variable, or none, under every name. */
  ghost predicate SameVariables(a: seq<Variable>, b: seq<Variable>) {
    forall name :: Lookup(a, name) == Lookup(b, name)
  }

  function StandardToken(name: string, port: nat): Option<RawToken> {
    if name == IMAGE.name then Some(IMAGE)
    else if name == CONTAINER_NAME.name then Some(CONTAINER_NAME)
    else if name == HostPortToken(port).name then Some(HostPortToken(port))
    else None
  }

  /** Every token names one of the three variables, and gives it no default of its own. */
  predicate Harmless(toks: seq<RawToken>, port: nat) {
    forall i :: 0 <= i < |toks| ==>
      var std := StandardToken(toks[i].name, port);
      std.Some? && (FirstDefault(toks, toks[i].name).None? || FirstDefault(toks, toks[i].name) == std.value.default)
  }

  function PlainVar(name: string, default: Option<string>): Variable {
    Variable(name, default, Plain, APP, None, default.None?, false, Some(Compose), None, None)
  }

  lemma {:induction false} ContextLookup(toks: seq<RawToken>, name: string)
    ensures Lookup(AddVars([], toks, Plain, APP, None), name)
            == if NamesToken(toks, name) then Some(PlainVar(name, FirstDefault(toks, name))) else None
    ensures !NamesToken(toks, name) ==> FirstDefault(toks, name).None?
  {
    if toks != [] {
      var n := |toks| - 1;
      var before := AddVars([], toks[..n], Plain, APP, None);
      ContextLookup(toks[..n], name);
      AddVarLookup(before, toks[n], Plain, APP, None, name);
      if NamesToken(toks[..n], name) {
        var i :| 0 <= i < n && toks[..n][i].name == name;
        assert toks[i].name == name;
      }
      if toks[n].name != name && NamesToken(toks, name) {
        var i :| 0 <= i < |toks| && toks[i].name == name;
        assert toks[..n][i].name == name;
      }
    }
  }

  /** What a standard variable has become, given what the context had for its name. */
  function Settled(had: Option<Variable>, tok: RawToken, role: Role, containerPort: Option<int>): Variable {
    if had.Some? then Folded(had.value, tok, role, APP, containerPort) else NewVar(tok, role, APP, containerPort)
  }

  lemma {:induction false} StandardNames(port: nat)
    ensures IMAGE.name != CONTAINER_NAME.name && IMAGE.name != HostPortToken(port).name
    ensures CONTAINER_NAME.name != HostPortToken(port).name
  {
    assert |IMAGE.name| == 9 && |CONTAINER_NAME.name| == 18 && |HostPortToken(port).name| == 13;
  }

  lemma {:induction false} WithStandardLookup(vars: seq<Variable>, port: nat, name: string)
    ensures var had, got := Lookup(vars, name), Lookup(WithStandard(vars, port), name);
            && (name == IMAGE.name ==> got == Some(Settled(had, IMAGE, ImageTag, None)))
            && (name == CONTAINER_NAME.name ==> got == Some(Settled(had, CONTAINER_NAME, ContainerName, None)))
            && (name == HostPortToken(port).name ==>
               got == Some(Settled(had, HostPortToken(port), HostPort, Some(port))))
            && (StandardToken(name, port).None? ==> got == had)
  {
    var v1 := AddVar(vars, IMAGE, ImageTag, APP, None);
    var v2 := AddVar(v1, CONTAINER_NAME, ContainerName, APP, None);
    StandardNames(port);
    AddVarLookup(vars, IMAGE, ImageTag, APP, None, name);
    AddVarLookup(v1, CONTAINER_NAME, ContainerName, APP, None, name);
    AddVarLookup(v2, HostPortToken(port), HostPort, APP, Some(port), name);
  }

  lemma {:induction false} StandardLookup(port: nat, name: string)
    ensures var got := Lookup(Standard(port), name);
            && (name == IMAGE.name ==> got == Some(NewVar(IMAGE, ImageTag, APP, None)))
            && (name == CONTAINER_NAME.name ==> got == Some(NewVar(CONTAINER_NAME, ContainerName, APP, None)))
            && (name == HostPortToken(port).name ==>
               got == Some(NewVar(HostPortToken(port), HostPort, APP, Some(port))))
            && (StandardToken(name, port).None? ==> got == None)
  {
    StandardNames(port);
    var std := Standard(port);
    assert std[0].name == IMAGE.name && std[1].name == CONTAINER_NAME.name && std[2].name == HostPortToken(port).name;
  }

  /** A standard variable comes out as it should exactly when the context gave it no other default. */
  lemma {:induction false} SettledExactly(
    r: Reader, had: Option<Variable>, tok: RawToken, role: Role, containerPort: Option<int>, default: Option<string>)
    requires tok.default.Some? && Rank(role) == 2
    requires had == None || had == Some(PlainVar(tok.name, default))
    ensures WithSecrecy(r, Settled(had, tok, role, containerPort)) == NewVar(tok, role, APP, containerPort)
            <==> had.None? || default.None? || default == tok.default
  {
  }

  /** One name of the schema, compared with the standard one. */
  lemma {:induction false} NameIsStandard(r: Reader, toks: seq<RawToken>, port: nat, name: string)
    ensures Lookup(Finalized(r, WithStandard(AddVars([], toks, Plain, APP, None), port)), name)
            == Lookup(Standard(port), name)
            <==> (NamesToken(toks, name) ==>
                    var std := StandardToken(name, port);
                    std.Some? && (FirstDefault(toks, name).None? || FirstDefault(toks, name) == std.value.default))
  {
    var vars := AddVars([], toks, Plain, APP, None);
    var had, default := Lookup(vars, name), FirstDefault(toks, name);
    ContextLookup(toks, name);
    WithStandardLookup(vars, port, name);
    FinalizedLookup(r, WithStandard(vars, port), name);
    StandardLookup(port, name);
    StandardNames(port);
    if name == IMAGE.name { SettledExactly(r, had, IMAGE, ImageTag, None, default); }
    else if name == CONTAINER_NAME.name { SettledExactly(r, had, CONTAINER_NAME, ContainerName, None, default); }
    else if name == HostPortToken(port).name {
      SettledExactly(r, had, HostPortToken(port), HostPort, Some(port), default);
    }
  }

  lemma {:induction false} StandardExactly(r: Reader, toks: seq<RawToken>, port: nat)
    ensures SameVariables(Finalized(r, WithStandard(AddVars([], toks, Plain, APP, None), port)), Standard(port))
            <==> Harmless(toks, port)
  {
    var vars := Finalized(r, WithStandard(AddVars([], toks, Plain, APP, None), port));
    if Harmless(toks, port) {
      forall name ensures Lookup(vars, name) == Lookup(Standard(port), name) {
        NameIsStandard(r, toks, port, name);
      }
    }
    if SameVariables(vars, Standard(port)) {
      forall i | 0 <= i < |toks|
        ensures var std := StandardToken(toks[i].name, port);
                std.Some? && (FirstDefault(toks, toks[i].name).None?
                              || FirstDefault(toks, toks[i].name) == std.value.default)
      {
        assert NamesToken(toks, toks[i].name);
        assert Lookup(vars, toks[i].name) == Lookup(Standard(port), toks[i].name);
        NameIsStandard(r, toks, port, toks[i].name);
      }
    }
  }

  // ---------------------------------------------------------------- nothing else

  /** A host port has its container port, and there is one. */
  predicate PortsKnown(vars: seq<Variable>) {
    forall i :: 0 <= i < |vars| ==> vars[i].role.HostPort? ==> vars[i].containerPort.Some?
  }

  lemma {:induction false} NoHostPorts(toks: seq<RawToken>)
    ensures forall i :: 0 <= i < |AddVars([], toks, Plain, APP, None)| ==>
            AddVars([], toks, Plain, APP, None)[i].role.Plain?
  {
    if toks != [] { NoHostPorts(toks[..|toks| - 1]); }
  }

  lemma {:induction false} StandardPortsKnown(vars: seq<Variable>, port: nat)
    requires forall i :: 0 <= i < |vars| ==> vars[i].role.Plain?
    ensures PortsKnown(WithStandard(vars, port))
    ensures exists i :: 0 <= i < |WithStandard(vars, port)| && WithStandard(vars, port)[i].role.HostPort?
  {
    var v1 := AddVar(vars, IMAGE, ImageTag, APP, None);
    var v2 := AddVar(v1, CONTAINER_NAME, ContainerName, APP, None);
    assert forall i :: 0 <= i < |v1| ==> !v1[i].role.HostPort? && (v1[i].name == IMAGE.name || v1[i].role.Plain?);
    assert forall i :: 0 <= i < |v2| ==>
      !v2[i].role.HostPort? && (v2[i].name == IMAGE.name || v2[i].name == CONTAINER_NAME.name || v2[i].role.Plain?);
    StandardNames(port);
    var i := IndexOf(v2, HostPortToken(port).name);
    assert WithStandard(vars, port)[i].role.HostPort?;
  }

  lemma {:induction false} ResultOfBase(r: Reader, vars: seq<Variable>, stack: seq<Open>)
    requires PortsKnown(vars) && exists i :: 0 <= i < |vars| && vars[i].role.HostPort?
    ensures Result(r, Flushed(r, At(vars, stack)))
            == Parsed(Sorted(FormOrder(r), Finalized(r, vars)), [], ["app"], [], [])
  {
    var out := Finalized(r, vars);
    var i :| 0 <= i < |vars| && vars[i].role.HostPort?;
    assert out[i] in out && out[i].role.HostPort?;
    assert PortWarnings(out, []) == [];
    assert Deduped([]) == [];
  }

  lemma {:induction false} AddVarDistinct(vars: seq<Variable>, tok: RawToken, role: Role, containerPort: Option<int>)
    requires DistinctNames(vars)
    ensures DistinctNames(AddVar(vars, tok, role, APP, containerPort))
  {
  }

  lemma {:induction false} AddVarsDistinct(toks: seq<RawToken>)
    ensures DistinctNames(AddVars([], toks, Plain, APP, None))
  {
    if toks != [] {
      AddVarsDistinct(toks[..|toks| - 1]);
      AddVarDistinct(AddVars([], toks[..|toks| - 1], Plain, APP, None), toks[|toks| - 1], Plain, None);
    }
  }

  lemma {:induction false} SchemaDistinct(r: Reader, toks: seq<RawToken>, port: nat)
    ensures DistinctNames(Finalized(r, WithStandard(AddVars([], toks, Plain, APP, None), port)))
  {
    var vars := AddVars([], toks, Plain, APP, None);
    var v1 := AddVar(vars, IMAGE, ImageTag, APP, None);
    AddVarsDistinct(toks);
    AddVarDistinct(vars, IMAGE, ImageTag, None);
    AddVarDistinct(v1, CONTAINER_NAME, ContainerName, None);
    AddVarDistinct(AddVar(v1, CONTAINER_NAME, ContainerName, APP, None), HostPortToken(port), HostPort, Some(port));
  }

  lemma {:induction false} SortedStandardExactly(r: Reader, toks: seq<RawToken>, port: nat)
    ensures var vars := Finalized(r, WithStandard(AddVars([], toks, Plain, APP, None), port));
            SameVariables(Sorted(FormOrder(r), vars), Standard(port)) <==> Harmless(toks, port)
  {
    var vars := Finalized(r, WithStandard(AddVars([], toks, Plain, APP, None), port));
    SchemaDistinct(r, toks, port);
    StandardExactly(r, toks, port);
    forall name ensures Lookup(Sorted(FormOrder(r), vars), name) == Lookup(vars, name) {
      SortedLookup(FormOrder(r), vars, name);
    }
    if SameVariables(Sorted(FormOrder(r), vars), Standard(port)) {
      assert forall name :: Lookup(vars, name) == Lookup(Sorted(FormOrder(r), vars), name);
    }
  }

  /** The three intended variables as the form shows them. */
  function StandardForm(r: Reader, port: nat): seq<Variable> {
    Sorted(FormOrder(r), Standard(port))
  }

  /**
   * The generated compose file, read back: for every exposed port and every one-line build context it
   * has the one service, no fixed ports, no env files and no warnings, and its variables are exactly
   * the three intended ones if and only if the tokens of the context, if any, do not interfere.
   */
  lemma {:induction false} WrapperReadsBack(r: Reader, exposed: int, context: string)
    requires ReadsPort(r, WrappedPort(exposed)) && D.NoBreaks(context)
    ensures var p, port := Introspected(r, GenerateComposeWrapper(exposed, context)), WrappedPort(exposed);
            && p.services == ["app"] && p.fixedPorts == [] && p.envFiles == [] && p.warnings == []
            && (SameVariables(p.variables, Standard(port)) <==> Harmless(TokensIn(context), port))
            && (!HasToken(context) ==> p.variables == StandardForm(r, port))
  {
    var port := WrappedPort(exposed);
    var vars := FromContext(context);
    WrapperIsSplit(exposed, context);
    WrapperScanned(r, port, context);
    NoHostPorts(TokensIn(context));
    StandardPortsKnown(vars, port);
    ResultOfBase(r, WithStandard(vars, port), BASE);
    SortedStandardExactly(r, TokensIn(context), port);
    if !HasToken(context) {
      PlainHasNoTokens(context);
      StandardAlone(r, port);
    }
  }

  lemma {:induction false} StandardAlone(r: Reader, port: nat)
    ensures Finalized(r, WithStandard([], port)) == Standard(port)
  {
    StandardNames(port);
    var v1 := [NewVar(IMAGE, ImageTag, APP, None)];
    var v2 := v1 + [NewVar(CONTAINER_NAME, ContainerName, APP, None)];
    assert AddVar([], IMAGE, ImageTag, APP, None) == v1;
    assert AddVar(v1, CONTAINER_NAME, ContainerName, APP, None) == v2;
    assert WithStandard([], port) == v2 + [NewVar(HostPortToken(port), HostPort, APP, Some(port))];
  }
}
