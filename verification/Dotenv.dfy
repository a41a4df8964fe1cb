/**
 * The `.env` text of a deployment: written by toDotenv (deploy-target.ts), read back by parseDotenv
 * (compose-introspect.ts), and compared by envDrift (deployment.service.ts).
 */
module Dotenv {
  import opened Wrappers
  import opened JsText
  import opened Replicator

  /** One variable of an env map; a map is the list of its bindings in insertion order. */
  datatype Binding = Binding(name: string, value: string)

  datatype Entry = Entry(name: string, value: string, comment: Option<string>)

  // ---------------------------------------------------------------- writing

  predicate IsBreak(c: char) {
    c == '\r' || c == '\n'
  }

  function SkipBreaks(s: string): (r: string)
    ensures |r| <= |s|
    ensures r != "" ==> !IsBreak(r[0])
  {
    if s != "" && IsBreak(s[0]) then SkipBreaks(s[1..]) else s
  }

  /** Every run of line breaks becomes one space. */
  function Flattened(v: string): string
    decreases |v|
  {
    if v == "" then ""
    else if IsBreak(v[0]) then " " + Flattened(SkipBreaks(v[1..]))
    else [v[0]] + Flattened(v[1..])
  }

  function Doubled(v: string): string {
    ReplaceAll(v, '$', "$$")
  }

  function EscapeEnvValue(v: string): string {
    Doubled(Flattened(v))
  }

  function Line(b: Binding): string {
    b.name + "=" + EscapeEnvValue(b.value)
  }

  function Lines(env: seq<Binding>): seq<string> {
    seq(|env|, i requires 0 <= i < |env| => Line(env[i]))
  }

  function ToDotenv(env: seq<Binding>): string {
    Join(Lines(env), '\n') + "\n"
  }

  // ---------------------------------------------------------------- reading one line

  function IdentEnd(s: string, from: nat): (i: nat)
    requires from <= |s|
    ensures from <= i <= |s|
    ensures i < |s| ==> !IsNameChar(s[i])
    ensures forall k :: from <= k < i ==> IsNameChar(s[k])
    decreases |s| - from
  {
    if from < |s| && IsNameChar(s[from]) then IdentEnd(s, from + 1) else from
  }

  function SpaceEnd(s: string, from: nat): (i: nat)
    requires from <= |s|
    ensures from <= i <= |s|
    ensures i < |s| ==> !IsSpace(s[i])
    ensures forall k :: from <= k < i ==> IsSpace(s[k])
    decreases |s| - from
  {
    if from < |s| && IsSpace(s[from]) then SpaceEnd(s, from + 1) else from
  }

  predicate OneLine(s: string) {
    forall i :: 0 <= i < |s| ==> !IsLineTerminator(s[i])
  }

  /** `[A-Za-z_][A-Za-z0-9_]*\s*=` from `at` on: the name's end and the position after the equals sign. */
  function NameAt(line: string, at: nat): (r: Option<(nat, nat)>)
    requires at <= |line|
    ensures r.Some? ==> at < r.value.0 < r.value.1 <= |line|
  {
    if at < |line| && IsNameStart(line[at]) then
      var end := IdentEnd(line, at);
      var eq := SpaceEnd(line, end);
      if eq < |line| && line[eq] == '=' then Some((end, eq + 1)) else None
    else None
  }

  /** Past `export\s+`, if the line starts with that. */
  function AfterExport(line: string): (at: nat)
    ensures at <= |line|
  {
    if StartsWith(line, "export") && |line| > 6 && IsSpace(line[6]) then SpaceEnd(line, 6) else 0
  }

  function AssignmentAt(line: string, at: nat): Option<(string, string)>
    requires at <= |line|
  {
    match NameAt(line, at)
    case None => None
    case Some((end, eq)) =>
      var value := line[SpaceEnd(line, eq)..];
      if OneLine(value) then Some((line[at..end], value)) else None
  }

  /** The name and raw value of `[export ]NAME = value`. */
  function Assignment(line: string): Option<(string, string)> {
    var exported := AssignmentAt(line, AfterExport(line));
    if exported.Some? then exported else AssignmentAt(line, 0)
  }

  /** A commented-out assignment is a disabled key, not prose. */
  predicate IsDisabledKey(body: string) {
    NameAt(body, AfterExport(body)).Some? || NameAt(body, 0).Some?
  }

  function HashEnd(s: string, from: nat): (i: nat)
    requires from <= |s|
    ensures from <= i <= |s|
    decreases |s| - from
  {
    if from < |s| && s[from] == '#' then HashEnd(s, from + 1) else from
  }

  function CommentBody(line: string): string {
    var i := HashEnd(line, 0);
    Trim(line[if i < |line| && IsSpace(line[i]) then i + 1 else i..])
  }

  /** `\s+#.*$` matches from the start of `s`. */
  predicate CommentAt(s: string) {
    |s| > 1 && IsSpace(s[0]) && ((s[1] == '#' && OneLine(s[2..])) || CommentAt(s[1..]))
  }

  function StripComment(s: string): (r: string)
    ensures r == s || |r| < |s|
  {
    if s == "" || CommentAt(s) then "" else [s[0]] + StripComment(s[1..])
  }

  predicate Quoted(s: string) {
    |s| > 1 && s[0] == s[|s| - 1] && (s[0] == '"' || s[0] == '\'')
  }

  function Unquote(v: string): string {
    var t := Trim(v);
    if Quoted(t) then t[1..|t| - 1] else Trim(StripComment(t))
  }

  // ---------------------------------------------------------------- reading a file

  datatype Reading = Reading(out: seq<Entry>, seen: set<string>, comment: seq<string>)

  function CommentOf(comment: seq<string>): Option<string> {
    var joined := Join(comment, ' ');
    if joined == "" then None else Some(joined)
  }

  datatype LineKind = Blank | Prose(body: string) | Ignored | Assigns(name: string, value: string) | Junk

  function Classify(raw: string): LineKind {
    var line := Trim(raw);
    if line == "" then Blank
    else if line[0] == '#' then
      var body := CommentBody(line);
      if body != "" && !IsDisabledKey(body) then Prose(body) else Ignored
    else
      match Assignment(line)
      case None => Junk
      case Some((name, value)) => Assigns(name, Unquote(value))
  }

  /** A run of prose comments is kept for the assignment right below it; the first of a name counts. */
  function Step(r: Reading, kind: LineKind): Reading {
    match kind
    case Blank => r.(comment := [])
    case Prose(body) => r.(comment := r.comment + [body])
    case Ignored => r
    case Junk => r.(comment := [])
    case Assigns(name, value) =>
      if name in r.seen then r.(comment := [])
      else Reading(r.out + [Entry(name, value, CommentOf(r.comment))], r.seen + {name}, [])
  }

  function ReadLines(classify: string -> LineKind, lines: seq<string>): Reading {
    if lines == [] then Reading([], {}, [])
    else Step(ReadLines(classify, lines[..|lines| - 1]), classify(lines[|lines| - 1]))
  }

  function NormalNewlines(text: string): string
    decreases |text|
  {
    if text == "" then ""
    else if |text| > 1 && text[0] == '\r' && text[1] == '\n' then "\n" + NormalNewlines(text[2..])
    else [text[0]] + NormalNewlines(text[1..])
  }

  function Parsed(text: string): seq<Entry> {
    ReadLines(Classify, Split(NormalNewlines(text), '\n')).out
  }

  method ParseDotenv(text: string) returns (out: seq<Entry>)
    ensures out == Parsed(text)
  {
    out := ReadEntries(Classify, Split(NormalNewlines(text), '\n'));
  }

  method ReadEntries(classify: string -> LineKind, lines: seq<string>) returns (out: seq<Entry>)
    ensures out == ReadLines(classify, lines).out
  {
    out := [];
    var seen: set<string>, comment: seq<string> := {}, [];
    for i := 0 to |lines|
      invariant Reading(out, seen, comment) == ReadLines(classify, lines[..i])
    {
      assert lines[..i + 1][..i] == lines[..i];
      match classify(lines[i])
      case Blank => comment := [];
      case Prose(body) => comment := comment + [body];
      case Ignored =>
      case Junk => comment := [];
      case Assigns(name, value) =>
        if name !in seen {
          seen := seen + {name};
          out := out + [Entry(name, value, CommentOf(comment))];
        }
        comment := [];
    }
    assert lines[..|lines|] == lines;
  }

  // ---------------------------------------------------------------- the comparison

  predicate Distinct(env: seq<Binding>) {
    forall i, j :: 0 <= i < j < |env| ==> env[i].name != env[j].name
  }

  function BoundNames(env: seq<Binding>): set<string> {
    set b | b in env :: b.name
  }

  function EntryNames(entries: seq<Entry>): set<string> {
    set e | e in entries :: e.name
  }

  /** A later entry of the same name would win, as in a Map built from the list. */
  function ValueOnHost(entries: seq<Entry>, name: string): Option<string> {
    if entries == [] then None
    else
      var last := entries[|entries| - 1];
      if last.name == name then Some(last.value) else ValueOnHost(entries[..|entries| - 1], name)
  }

  /** A host value matches raw, as older writers left it, or escaped. */
  predicate Differs(b: Binding, entries: seq<Entry>) {
    var found := ValueOnHost(entries, b.name);
    found.Some? && found.value != b.value && found.value != EscapeEnvValue(b.value)
  }

  datatype Drift = Drift(onlyOnHost: set<string>, missingOnHost: set<string>, differing: set<string>)

  function EnvDrift(expected: seq<Binding>, onHost: seq<Entry>): Drift {
    Drift(EntryNames(onHost) - BoundNames(expected), BoundNames(expected) - EntryNames(onHost),
          set b | b in expected && Differs(b, onHost) :: b.name)
  }

  function Count(d: Drift): nat {
    |d.onlyOnHost| + |d.missingOnHost| + |d.differing|
  }

  /** What the operator is told: a blank file counts as none, so it is not compared. */
  datatype DriftAnswer = NotAvailable | Compared(drift: Drift) {
    predicate Matches() {
      Compared? && Count(drift) == 0
    }
  }

  function CheckDrift(expected: seq<Binding>, text: string): DriftAnswer {
    if Trim(text) == "" then NotAvailable else Compared(EnvDrift(expected, Parsed(text)))
  }

  // ---------------------------------------------------------------- what a written value reads back as

  /** What a line's text after the equals sign is read as, or None if the line is no assignment. */
  function ReadValue(e: string): Option<string> {
    var t := TrimStart(TrimEnd(e));
    if OneLine(t) then Some(Unquote(t)) else None
  }

  function ReadBack(v: string): Option<string> {
    ReadValue(EscapeEnvValue(v))
  }

  /** White space directly before a hash sign, somewhere. */
  predicate SpaceThenHash(s: string) {
    |s| > 1 && ((IsSpace(s[0]) && s[1] == '#') || SpaceThenHash(s[1..]))
  }

  /** No line or paragraph separator; carriage returns and line feeds are flattened anyway. */
  predicate NoSeparator(v: string) {
    forall i :: 0 <= i < |v| ==> v[i] != '\U{2028}' && v[i] != '\U{2029}'
  }

  /** The values the `.env` form can carry. */
  predicate Portable(v: string) {
    Trimmed(v) && NoSeparator(v) && !Quoted(v) && !SpaceThenHash(v)
  }

  // ---------------------------------------------------------------- how escaping changes a value

  /** How many characters are not dollar signs. */
  function Solid(s: string): nat {
    if s == "" then 0 else (if s[0] == '$' then 0 else 1) + Solid(s[1..])
  }

  predicate NoBreaks(s: string) {
    forall i :: 0 <= i < |s| ==> !IsBreak(s[i])
  }

  /** Two strings that agree in what decides whether the `.env` form can carry them. */
  ghost predicate SameShape(v: string, e: string) {
    && (v == "" <==> e == "")
    && (v != "" ==> SameChar(v[0], e[0]) && SameChar(v[|v| - 1], e[|e| - 1]))
    && (Quoted(v) <==> Quoted(e))
    && (NoSeparator(v) <==> NoSeparator(e))
    && (SpaceThenHash(v) <==> SpaceThenHash(e))
  }

  predicate SameChar(c: char, d: char) {
    c == d || (IsBreak(c) && d == ' ')
  }

  lemma {:induction false} NoSeparatorCons(s: string)
    requires s != ""
    ensures NoSeparator(s) <==> s[0] != '\U{2028}' && s[0] != '\U{2029}' && NoSeparator(s[1..])
  {
    assert forall i :: 1 <= i < |s| ==> s[i] == s[1..][i - 1];
  }

  lemma {:induction false} SkippedBreaks(s: string, before: char)
    requires IsSpace(before)
    ensures var r := SkipBreaks(s);
            && (NoSeparator(s) <==> NoSeparator(r)) && Solid(r) <= Solid(s)
            && (SpaceThenHash([before] + s) <==> (r != "" && r[0] == '#') || SpaceThenHash(r))
            && (r == "" ==> s == "" || IsBreak(s[|s| - 1])) && (r != "" ==> s != "" && r[|r| - 1] == s[|s| - 1])
  {
    assert ([before] + s)[1..] == s;
    if s != "" && IsBreak(s[0]) {
      SkippedBreaks(s[1..], s[0]);
      NoSeparatorCons(s);
      assert [s[0]] + s[1..] == s;
    }
  }

  /** The same character in front, or a space for a line break, keeps the shape. */
  lemma {:induction false} SameShapeCons(c: char, d: char, v: string, e: string)
    requires SameShape(v, e) && SameChar(c, d)
    ensures SameShape([c] + v, [d] + e)
  {
    assert ([c] + v)[1..] == v && ([d] + e)[1..] == e;
    NoSeparatorCons([c] + v);
    NoSeparatorCons([d] + e);
  }

  lemma {:induction false} SolidCons(c: char, v: string)
    ensures Solid([c] + v) == (if c == '$' then 0 else 1) + Solid(v)
  {
    assert ([c] + v)[1..] == v;
  }

  lemma {:induction false} FlattenedShape(v: string)
    ensures SameShape(v, Flattened(v)) && Solid(Flattened(v)) <= Solid(v)
    decreases |v|
  {
    if v != "" {
      assert [v[0]] + v[1..] == v;
      if IsBreak(v[0]) {
        var rest := SkipBreaks(v[1..]);
        FlattenedShape(rest);
        BreaksShape(v[0], v[1..], Flattened(rest));
      } else {
        FlattenedShape(v[1..]);
        SameShapeCons(v[0], v[0], v[1..], Flattened(v[1..]));
        SolidCons(v[0], v[1..]);
        SolidCons(v[0], Flattened(v[1..]));
      }
    }
  }

  lemma {:induction false} BreaksShape(b: char, v: string, e: string)
    requires IsBreak(b) && SameShape(SkipBreaks(v), e) && Solid(e) <= Solid(SkipBreaks(v))
    ensures SameShape([b] + v, " " + e) && Solid(" " + e) <= Solid([b] + v)
  {
    SkippedBreaks(v, b);
    NoSeparatorCons([b] + v);
    NoSeparatorCons(" " + e);
    SolidCons(b, v);
    SolidCons(' ', e);
    assert ([b] + v)[1..] == v && (" " + e)[1..] == e;
  }

  lemma {:induction false} FlattenedNoBreaks(v: string)
    ensures NoBreaks(Flattened(v))
    decreases |v|
  {
    if v != "" { FlattenedNoBreaks(if IsBreak(v[0]) then SkipBreaks(v[1..]) else v[1..]); }
  }

  lemma {:induction false} DoubledShape(v: string)
    ensures SameShape(v, Doubled(v)) && Solid(Doubled(v)) == Solid(v)
  {
    if v != "" {
      var rest := Doubled(v[1..]);
      DoubledShape(v[1..]);
      assert [v[0]] + v[1..] == v;
      SameShapeCons(v[0], v[0], v[1..], rest);
      SolidCons(v[0], v[1..]);
      SolidCons(v[0], rest);
      if v[0] == '$' {
        DollarShape(v, "$" + rest);
        assert Doubled(v) == "$" + ("$" + rest);
      }
    }
  }

  lemma {:induction false} DollarShape(v: string, e: string)
    requires v != "" && v[0] == '$' && SameShape(v, e)
    ensures SameShape(v, "$" + e) && Solid("$" + e) == Solid(e)
  {
    NoSeparatorCons("$" + e);
    SolidCons('$', e);
    assert ("$" + e)[1..] == e;
  }

  lemma {:induction false} DoubledNoBreaks(v: string)
    requires NoBreaks(v)
    ensures NoBreaks(Doubled(v))
  {
    if v != "" { DoubledNoBreaks(v[1..]); }
  }

  lemma {:induction false} EscapedShape(v: string)
    ensures var e := EscapeEnvValue(v);
            && (Portable(v) <==> Portable(e)) && NoBreaks(e) && Solid(e) <= Solid(v)
  {
    FlattenedShape(v);
    FlattenedNoBreaks(v);
    DoubledShape(Flattened(v));
    DoubledNoBreaks(Flattened(v));
  }

  // ---------------------------------------------------------------- what reading takes away

  lemma {:induction false} SolidConcat(a: string, b: string)
    ensures Solid(a + b) == Solid(a) + Solid(b)
  {
    if a == "" {
      assert a + b == b;
    } else {
      assert (a + b)[1..] == a[1..] + b;
      SolidConcat(a[1..], b);
    }
  }

  lemma {:induction false} TrimEndTakesSolid(s: string)
    ensures TrimEnd(s) == s || Solid(TrimEnd(s)) < Solid(s)
  {
    if s != "" && IsSpace(s[|s| - 1]) {
      TrimEndTakesSolid(s[..|s| - 1]);
      assert s == s[..|s| - 1] + [s[|s| - 1]];
      SolidConcat(s[..|s| - 1], [s[|s| - 1]]);
    }
  }

  lemma {:induction false} TrimStartTakesSolid(s: string)
    ensures TrimStart(s) == s || Solid(TrimStart(s)) < Solid(s)
  {
    if s != "" && IsSpace(s[0]) { TrimStartTakesSolid(s[1..]); }
  }

  lemma {:induction false} StripTakesSolid(s: string)
    ensures StripComment(s) == s || Solid(StripComment(s)) < Solid(s)
  {
    if s != "" && !CommentAt(s) {
      StripTakesSolid(s[1..]);
      assert ([s[0]] + StripComment(s[1..]))[1..] == StripComment(s[1..]);
      assert s == [s[0]] + s[1..];
    }
  }

  lemma {:induction false} TrimTakesSolid(s: string)
    ensures Trim(s) == s || Solid(Trim(s)) < Solid(s)
  {
    TrimStartTakesSolid(s);
    TrimEndTakesSolid(TrimStart(s));
  }

  lemma {:induction false} UnquoteTakesSolid(s: string)
    ensures Unquote(s) == s || Solid(Unquote(s)) < Solid(s)
  {
    var t := Trim(s);
    TrimTakesSolid(s);
    if Quoted(t) {
      assert t == [t[0]] + t[1..|t| - 1] + [t[|t| - 1]];
      SolidConcat([t[0]] + t[1..|t| - 1], [t[|t| - 1]]);
      SolidConcat([t[0]], t[1..|t| - 1]);
    } else {
      StripTakesSolid(t);
      TrimTakesSolid(StripComment(t));
    }
  }

  lemma {:induction false} CommentNeedsHash(s: string)
    requires CommentAt(s)
    ensures SpaceThenHash(s)
  {
    if s[1] != '#' || !OneLine(s[2..]) { CommentNeedsHash(s[1..]); }
  }

  /** On one line, a comment is stripped exactly when white space stands before a hash sign. */
  lemma {:induction false} StripsExactly(s: string)
    requires OneLine(s)
    ensures StripComment(s) == s <==> !SpaceThenHash(s)
  {
    if s != "" {
      StripsExactly(s[1..]);
      assert ([s[0]] + StripComment(s[1..]))[1..] == StripComment(s[1..]);
      assert s == [s[0]] + s[1..];
      if CommentAt(s) { CommentNeedsHash(s); }
    }
  }

  /** A value read back unchanged is one that no rule of the reader touches. */
  lemma {:induction false} UnquoteKeepsExactly(e: string)
    requires OneLine(e)
    ensures Unquote(e) == e <==> Trimmed(e) && !Quoted(e) && !SpaceThenHash(e)
  {
    TrimIsIdentity(e);
    StripsExactly(e);
    if Unquote(e) == e {
      assert |Trim(e)| == |e|;
    }
  }

  lemma {:induction false} OneLineExactly(s: string)
    requires NoBreaks(s)
    ensures OneLine(s) <==> NoSeparator(s)
  {
  }

  /** Text is read as itself, or something solid is lost. */
  lemma {:induction false} ReadValueTakesSolid(e: string)
    requires ReadValue(e).Some?
    ensures ReadValue(e).value == e || Solid(ReadValue(e).value) < Solid(e)
  {
    TrimEndTakesSolid(e);
    TrimStartTakesSolid(TrimEnd(e));
    UnquoteTakesSolid(TrimStart(TrimEnd(e)));
  }

  lemma {:induction false} PortableExactly(e: string)
    requires NoBreaks(e)
    ensures Portable(e) <==> OneLine(e) && Unquote(e) == e
  {
    OneLineExactly(e);
    if OneLine(e) { UnquoteKeepsExactly(e); }
  }

  lemma {:induction false} PortableIsRead(e: string)
    requires NoBreaks(e) && Portable(e)
    ensures ReadValue(e) == Some(e)
  {
    PortableExactly(e);
  }

  lemma {:induction false} ReadIsPortable(e: string)
    requires NoBreaks(e) && ReadValue(e) == Some(e)
    ensures Portable(e)
  {
    UnquoteNoLonger(TrimStart(TrimEnd(e)));
    NothingTrimmed(e);
    PortableExactly(e);
  }

  lemma {:induction false} NothingTrimmed(e: string)
    requires |TrimStart(TrimEnd(e))| >= |e|
    ensures TrimStart(TrimEnd(e)) == e
  {
  }

  lemma {:induction false} UnquoteNoLonger(s: string)
    ensures |Unquote(s)| <= |s|
  {
  }

  /** A written value comes back as it was, or as it was escaped, exactly when it is portable. */
  lemma {:induction false} SurvivesExactly(v: string)
    ensures (ReadBack(v) == Some(v) || ReadBack(v) == Some(EscapeEnvValue(v))) <==> Portable(v)
    ensures Portable(v) ==> ReadBack(v) == Some(EscapeEnvValue(v))
  {
    var e := EscapeEnvValue(v);
    EscapedShape(v);
    if ReadValue(e).Some? { ReadValueTakesSolid(e); }
    if Portable(e) { PortableIsRead(e); }
    if ReadValue(e) == Some(e) { ReadIsPortable(e); }
  }

  /** A line separator inside a value, which the writer leaves alone, loses the value. */
  lemma {:induction false} SeparatorIsLost(v: string)
    requires Trimmed(v) && NoBreaks(v) && !NoSeparator(v)
    ensures ReadBack(v) == None
  {
    var e := EscapeEnvValue(v);
    FlattenedShape(v);
    FlattenedNoBreaks(v);
    DoubledShape(Flattened(v));
    NothingTrimmedOff(e);
    SeparatorEndsLine(e);
  }

  lemma {:induction false} NothingTrimmedOff(e: string)
    requires Trimmed(e)
    ensures TrimStart(TrimEnd(e)) == e
  {
  }

  lemma {:induction false} SeparatorEndsLine(e: string)
    requires !NoSeparator(e)
    ensures !OneLine(e)
  {
    var i :| 0 <= i < |e| && (e[i] == '\U{2028}' || e[i] == '\U{2029}');
    assert IsLineTerminator(e[i]);
  }

  // ---------------------------------------------------------------- a whole file

  lemma {:induction false} TrimEndOfConcat(a: string, b: string)
    requires a != "" && !IsSpace(a[|a| - 1])
    ensures TrimEnd(a + b) == a + TrimEnd(b)
  {
    if b == "" {
      assert a + b == a;
      assert a + TrimEnd(b) == a;
    } else if IsSpace(b[|b| - 1]) {
      assert (a + b)[..|a + b| - 1] == a + b[..|b| - 1];
      TrimEndOfConcat(a, b[..|b| - 1]);
    }
  }

  lemma {:induction false} SpaceEndTrims(s: string, from: nat)
    requires from <= |s|
    ensures s[SpaceEnd(s, from)..] == TrimStart(s[from..])
    decreases |s| - from
  {
    if from < |s| && IsSpace(s[from]) {
      SpaceEndTrims(s, from + 1);
      assert s[from..][1..] == s[from + 1..];
    }
  }

  lemma {:induction false} IdentifierIsNoSpace(name: string)
    requires IsIdentifier(name)
    ensures forall i :: 0 <= i < |name| ==> !IsSpace(name[i]) && name[i] != '#' && name[i] != '='
  {
  }

  /** In `name=rest` the name ends at the equals sign, also when it is called export. */
  lemma {:induction false} NameFound(name: string, rest: string)
    requires IsIdentifier(name)
    ensures var line := name + "=" + rest;
            AfterExport(line) == 0 && NameAt(line, 0) == Some((|name|, |name| + 1))
  {
    var line := name + "=" + rest;
    assert forall i :: 0 <= i < |name| ==> line[i] == name[i];
    assert line[|name|] == '=';
    IdentifierIsNoSpace(name);
    assert IdentEnd(line, 0) == |name|;
    assert SpaceEnd(line, |name|) == |name|;
    if |name| < 6 <= |line| {
      assert line[..6][|name|] == '=';
      assert "export"[|name|] != '=';
    }
  }

  /** A written line is read as an assignment of what its value reads back as. */
  lemma {:induction false} LineClassified(b: Binding)
    requires IsIdentifier(b.name)
    ensures Classify(Line(b)) == KindOf(ReadBack, b)
  {
    var e := EscapeEnvValue(b.value);
    IdentifierIsNoSpace(b.name);
    assert Line(b)[0] == b.name[0];
    TrimEndOfConcat(b.name + "=", e);
    AssignmentFound(b.name, TrimEnd(e));
    assert (b.name + "=" + TrimEnd(e))[0] == b.name[0];
  }

  lemma {:induction false} AssignmentFound(name: string, rest: string)
    requires IsIdentifier(name)
    ensures Assignment(name + "=" + rest) == if OneLine(TrimStart(rest)) then Some((name, TrimStart(rest))) else None
  {
    var line := name + "=" + rest;
    NameFound(name, rest);
    SpaceEndTrims(line, |name| + 1);
    assert line[|name| + 1..] == rest;
    assert line[..|name|] == name;
  }

  function KindOf(read: string -> Option<string>, b: Binding): LineKind {
    if read(b.value).Some? then Assigns(b.name, read(b.value).value) else Junk
  }

  /** The entries that come back, in order; values that are not read are missing. */
  function Kept(read: string -> Option<string>, env: seq<Binding>): seq<Entry> {
    if env == [] then []
    else
      var b := env[|env| - 1];
      Kept(read, env[..|env| - 1]) + if read(b.value).Some? then [Entry(b.name, read(b.value).value, None)] else []
  }

  predicate Writable(env: seq<Binding>) {
    Distinct(env) && forall i :: 0 <= i < |env| ==> IsIdentifier(env[i].name)
  }

  lemma {:induction false} KeptNames(read: string -> Option<string>, env: seq<Binding>, name: string)
    requires name in EntryNames(Kept(read, env))
    ensures name in BoundNames(env)
  {
    var n := |env| - 1;
    if env != [] {
      var e :| e in Kept(read, env) && e.name == name;
      if e in Kept(read, env[..n]) {
        KeptNames(read, env[..n], name);
        var b :| b in env[..n] && b.name == name;
        assert b in env;
      } else {
        assert env[n] in env;
      }
    }
  }

  lemma {:induction false} ReadLinesKeep(classify: string -> LineKind, read: string -> Option<string>,
                                         lines: seq<string>, env: seq<Binding>)
    requires Distinct(env) && |lines| == |env|
    requires forall i :: 0 <= i < |env| ==> classify(lines[i]) == KindOf(read, env[i])
    ensures ReadLines(classify, lines) == Reading(Kept(read, env), EntryNames(Kept(read, env)), [])
  {
    if env == [] {
      assert EntryNames(Kept(read, env)) == {};
    } else {
      var n := |env| - 1;
      var before, b := Kept(read, env[..n]), env[n];
      ReadLinesKeep(classify, read, lines[..n], env[..n]);
      if b.name in EntryNames(before) {
        KeptNames(read, env[..n], b.name);
      }
      assert before + [] == before;
      assert read(b.value).Some? ==> EntryNames(Kept(read, env)) == EntryNames(before) + {b.name};
    }
  }

  lemma {:induction false} ReadLinesOfWritten(env: seq<Binding>)
    requires Writable(env)
    ensures ReadLines(Classify, Lines(env)) == Reading(Kept(ReadBack, env), EntryNames(Kept(ReadBack, env)), [])
  {
    forall i | 0 <= i < |env| ensures Classify(Lines(env)[i]) == KindOf(ReadBack, env[i]) {
      LineClassified(env[i]);
    }
    ReadLinesKeep(Classify, ReadBack, Lines(env), env);
  }

  lemma {:induction false} NormalIsSame(text: string)
    requires '\r' !in text
    ensures NormalNewlines(text) == text
  {
    if text != "" {
      NormalIsSame(text[1..]);
    }
  }

  lemma {:induction false} WrittenLine(b: Binding)
    requires IsIdentifier(b.name)
    ensures NoBreaks(Line(b))
  {
    EscapedShape(b.value);
  }

  lemma {:induction false} NoBreaksInJoin(pieces: seq<string>)
    requires forall i :: 0 <= i < |pieces| ==> NoBreaks(pieces[i])
    ensures '\r' !in Join(pieces, '\n')
  {
    if |pieces| > 1 { NoBreaksInJoin(pieces[1..]); }
  }

  lemma {:induction false} JoinWithEnd(pieces: seq<string>)
    requires pieces != []
    ensures Join(pieces, '\n') + "\n" == Join(pieces + [""], '\n')
  {
    var all := pieces + [""];
    assert all[1..] == pieces[1..] + [""];
    if |pieces| > 1 { JoinWithEnd(pieces[1..]); }
  }

  /** Every written file is read line by line as it was written. */
  lemma {:induction false} ParsedOfWritten(env: seq<Binding>)
    requires Writable(env)
    ensures Parsed(ToDotenv(env)) == Kept(ReadBack, env)
  {
    var lines := if env == [] then [""] else Lines(env);
    forall i | 0 <= i < |lines| ensures NoBreaks(lines[i]) {
      if env != [] { WrittenLine(env[i]); }
    }
    JoinWithEnd(lines);
    NoBreaksInJoin(lines + [""]);
    assert ToDotenv(env) == Join(lines + [""], '\n');
    NormalIsSame(ToDotenv(env));
    SplitOfJoin(lines + [""], '\n');
    ReadLinesOfWritten(env);
    BlankEnd(lines);
    if env == [] {
      BlankEnd([]);
      assert [""] == [] + [""];
    }
  }

  lemma {:induction false} BlankEnd(lines: seq<string>)
    ensures ReadLines(Classify, lines + [""]).out == ReadLines(Classify, lines).out
  {
    assert (lines + [""])[..|lines|] == lines;
    assert Classify("") == Blank;
  }

  /** A file of portable values reads back in order, with its names and its escaped values. */
  lemma {:induction false} EntriesKeepOrder(env: seq<Binding>)
    requires Writable(env) && forall i :: 0 <= i < |env| ==> Portable(env[i].value)
    ensures var out := Parsed(ToDotenv(env));
            && |out| == |env|
            && forall i :: 0 <= i < |env| ==> out[i] == Entry(env[i].name, EscapeEnvValue(env[i].value), None)
  {
    ParsedOfWritten(env);
    forall i | 0 <= i < |env| ensures ReadBack(env[i].value) == Some(EscapeEnvValue(env[i].value)) {
      SurvivesExactly(env[i].value);
    }
    AllKept(ReadBack, EscapeEnvValue, env);
  }

  lemma {:induction false} AllKept(read: string -> Option<string>, escape: string -> string, env: seq<Binding>)
    requires forall i :: 0 <= i < |env| ==> read(env[i].value) == Some(escape(env[i].value))
    ensures |Kept(read, env)| == |env|
    ensures forall i :: 0 <= i < |env| ==> Kept(read, env)[i] == Entry(env[i].name, escape(env[i].value), None)
  {
    if env != [] {
      AllKept(read, escape, env[..|env| - 1]);
    }
  }

  // ---------------------------------------------------------------- the comparison

  lemma {:induction false} NotKept(read: string -> Option<string>, env: seq<Binding>, name: string)
    requires name !in BoundNames(env)
    ensures ValueOnHost(Kept(read, env), name) == None
  {
    if env != [] {
      var n := |env| - 1;
      assert env[n] in env && forall b :: b in env[..n] ==> b in env;
      NotKept(read, env[..n], name);
      LastKept(read, env);
    }
  }

  lemma {:induction false} LastKept(read: string -> Option<string>, env: seq<Binding>)
    requires env != []
    ensures var n, k := |env| - 1, Kept(read, env);
            if read(env[n].value).Some? then k != [] && k[..|k| - 1] == Kept(read, env[..n])
              && k[|k| - 1].name == env[n].name
                                             && k[|k| - 1].value == read(env[n].value).value
            else k == Kept(read, env[..n])
  {
    assert Kept(read, env[..|env| - 1]) + [] == Kept(read, env[..|env| - 1]);
  }

  lemma {:induction false} KeptValue(read: string -> Option<string>, env: seq<Binding>, i: nat)
    requires Distinct(env) && i < |env|
    ensures ValueOnHost(Kept(read, env), env[i].name) == read(env[i].value)
  {
    var n := |env| - 1;
    LastKept(read, env);
    if i < n {
      KeptValue(read, env[..n], i);
    } else {
      assert env[n].name !in BoundNames(env[..n]);
      NotKept(read, env[..n], env[n].name);
    }
  }

  lemma {:induction false} OnHostExactly(entries: seq<Entry>, name: string)
    ensures name in EntryNames(entries) <==> ValueOnHost(entries, name).Some?
  {
    if entries != [] {
      var n := |entries| - 1;
      OnHostExactly(entries[..n], name);
      assert entries == entries[..n] + [entries[n]];
      assert EntryNames(entries) == EntryNames(entries[..n]) + {entries[n].name};
    }
  }

  lemma {:induction false} NothingOnlyOnHost(read: string -> Option<string>, env: seq<Binding>)
    ensures EntryNames(Kept(read, env)) <= BoundNames(env)
  {
    forall name | name in EntryNames(Kept(read, env)) ensures name in BoundNames(env) {
      KeptNames(read, env, name);
    }
  }

  lemma {:induction false} AgreesExactly(b: Binding, entries: seq<Entry>)
    ensures b.name in EntryNames(entries) && !Differs(b, entries)
            <==> ValueOnHost(entries, b.name) == Some(b.value)
                 || ValueOnHost(entries, b.name) == Some(EscapeEnvValue(b.value))
  {
    OnHostExactly(entries, b.name);
  }

  /** One variable agrees with the written file exactly when its value is portable. */
  lemma {:induction false} BindingAgrees(env: seq<Binding>, i: nat)
    requires Writable(env) && i < |env|
    ensures Portable(env[i].value)
            <==> env[i].name in EntryNames(Kept(ReadBack, env)) && !Differs(env[i], Kept(ReadBack, env))
  {
    KeptValue(ReadBack, env, i);
    AgreesExactly(env[i], Kept(ReadBack, env));
    SurvivesExactly(env[i].value);
  }

  lemma {:induction false} NoDriftMeans(env: seq<Binding>, host: seq<Entry>)
    requires EntryNames(host) <= BoundNames(env)
    ensures Count(EnvDrift(env, host)) == 0
            <==> forall i :: 0 <= i < |env| ==> env[i].name in EntryNames(host) && !Differs(env[i], host)
  {
    var drift := EnvDrift(env, host);
    if Count(drift) == 0 {
      assert drift.missingOnHost == {} && drift.differing == {};
      forall i | 0 <= i < |env| ensures env[i].name in EntryNames(host) && !Differs(env[i], host) {
        assert env[i] in env;
        assert env[i].name in BoundNames(env) && env[i].name !in drift.missingOnHost && env[i].name !in drift.differing;
      }
    }
    if forall i :: 0 <= i < |env| ==> env[i].name in EntryNames(host) && !Differs(env[i], host) {
      assert drift.onlyOnHost == {} && drift.missingOnHost == {} && drift.differing == {};
    }
  }

  /** Compared with the map it was written from, the file has no difference exactly when every value is portable. */
  lemma {:induction false} NoDifferenceExactly(env: seq<Binding>)
    requires Writable(env)
    ensures Count(EnvDrift(env, Parsed(ToDotenv(env)))) == 0 <==> forall i :: 0 <= i < |env| ==> Portable(env[i].value)
  {
    ParsedOfWritten(env);
    NothingOnlyOnHost(ReadBack, env);
    NoDriftMeans(env, Kept(ReadBack, env));
    forall i | 0 <= i < |env|
      ensures Portable(env[i].value)
              <==> env[i].name in EntryNames(Kept(ReadBack, env)) && !Differs(env[i], Kept(ReadBack, env))
    {
      BindingAgrees(env, i);
    }
  }

  lemma {:induction false} TrimEndKeepsStart(s: string)
    requires s != "" && !IsSpace(s[0])
    ensures TrimEnd(s) != ""
  {
    if IsSpace(s[|s| - 1]) { TrimEndKeepsStart(s[..|s| - 1]); }
  }

  /** The written file is blank exactly for the empty map, whose file is a bare line feed. */
  lemma {:induction false} BlankExactly(env: seq<Binding>)
    requires Writable(env)
    ensures Trim(ToDotenv(env)) == "" <==> env == []
  {
    var text := ToDotenv(env);
    if env == [] {
      assert text == "\n";
    } else {
      assert Lines(env)[0] == Line(env[0]) && text[0] == env[0].name[0];
      NameStartIsNoSpace(text[0]);
      TrimEndKeepsStart(text);
    }
  }

  lemma {:induction false} NameStartIsNoSpace(c: char)
    requires IsNameStart(c)
    ensures !IsSpace(c)
  {
  }

  /**
   * The written file, checked at once: for the empty map the answer is that there is no file; for any
   * other it is that the file matches exactly when every value is portable.
   */
  lemma {:induction false} NoDriftExactly(env: seq<Binding>)
    requires Writable(env)
    ensures CheckDrift(env, ToDotenv(env)).NotAvailable? <==> env == []
    ensures CheckDrift(env, ToDotenv(env)).Matches()
            <==> env != [] && forall i :: 0 <= i < |env| ==> Portable(env[i].value)
  {
    BlankExactly(env);
    NoDifferenceExactly(env);
  }
}
