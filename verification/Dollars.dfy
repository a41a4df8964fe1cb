/**
 * Dollar signs on their way through a deployment: doubled by the `.env` writer (deploy-target.ts) and
 * by the quoting of the generated override (compose-override.ts), and resolved again by Compose or,
 * for ECS, by interpolate (compose-to-taskdef.ts).
 */
module Dollars {
  import opened Wrappers
  import opened JsText
  import opened Replicator
  import opened Dotenv

  // ---------------------------------------------------------------- the Compose reader

  /** What Compose makes of a dollar sign that no second one follows: some text for some characters. */
  datatype Expansion = Expansion(text: string, length: nat)

  /** A left-to-right reader: a doubled dollar is a literal one, any other starts an expansion. */
  function ComposeRead(s: string, expand: string -> Expansion): string
    decreases |s|
  {
    if s == "" then ""
    else if s[0] != '$' then [s[0]] + ComposeRead(s[1..], expand)
    else if |s| > 1 && s[1] == '$' then "$" + ComposeRead(s[2..], expand)
    else
      var e := expand(s);
      e.text + ComposeRead(s[if 1 <= e.length <= |s| then e.length else 1..], expand)
  }

  lemma {:induction false} DoubledReadsBack(v: string, expand: string -> Expansion)
    ensures ComposeRead(Doubled(v), expand) == v
  {
    if v != "" {
      var rest := Doubled(v[1..]);
      DoubledReadsBack(v[1..], expand);
      assert v == [v[0]] + v[1..];
      if v[0] == '$' {
        assert Doubled(v)[2..] == rest;
      } else {
        assert Doubled(v)[1..] == rest;
      }
    }
  }

  lemma {:induction false} FlattenedExactly(v: string)
    ensures Flattened(v) == v <==> NoBreaks(v)
  {
    FlattenedNoBreaks(v);
    if NoBreaks(v) { NothingToFlatten(v); }
  }

  lemma {:induction false} NothingToFlatten(v: string)
    requires NoBreaks(v)
    ensures Flattened(v) == v
  {
    if v != "" {
      NothingToFlatten(v[1..]);
      assert v == [v[0]] + v[1..];
    }
  }

  /** Under every environment Compose reads an escaped value as the value itself, line breaks flattened. */
  lemma {:induction false} EnvValueReadsBack(v: string, expand: string -> Expansion)
    ensures ComposeRead(EscapeEnvValue(v), expand) == Flattened(v)
    ensures ComposeRead(EscapeEnvValue(v), expand) == v <==> NoBreaks(v)
  {
    DoubledReadsBack(Flattened(v), expand);
    FlattenedExactly(v);
  }

  // ---------------------------------------------------------------- the YAML scalar

  function Passes(s: string): string {
    ReplaceAll(ReplaceAll(ReplaceAll(s, '\\', "\\\\"), '"', "\\\""), '$', "$$")
  }

  function Yq(s: string): string {
    "\"" + Passes(s) + "\""
  }

  /** The one-character escapes of YAML 1.2.2, section 5.7; the numeric ones are not needed. */
  function Escape(c: char): Option<char> {
    match c
    case '0' => Some('\U{0}')
    case 'a' => Some('\U{7}')
    case 'b' => Some('\U{8}')
    case 't' => Some('\t')
    case '\t' => Some('\t')
    case 'n' => Some('\n')
    case 'v' => Some('\U{B}')
    case 'f' => Some('\U{C}')
    case 'r' => Some('\r')
    case 'e' => Some('\U{1B}')
    case ' ' => Some(' ')
    case '"' => Some('"')
    case '/' => Some('/')
    case '\\' => Some('\\')
    case 'N' => Some('\U{85}')
    case '_' => Some('\U{A0}')
    case 'L' => Some('\U{2028}')
    case 'P' => Some('\U{2029}')
    case _ => None
  }

  datatype Scalar = Scalar(value: string, rest: string)

  /** The rest of a one-line double-quoted scalar (section 7.3.1), up to its closing quote. */
  function ScalarTail(s: string): Option<Scalar>
    decreases |s|
  {
    if s == "" then None
    else if s[0] == '"' then Some(Scalar("", s[1..]))
    else if s[0] == '\\' then
      if |s| > 1 && Escape(s[1]).Some? then Prefixed(Escape(s[1]).value, ScalarTail(s[2..])) else None
    else Prefixed(s[0], ScalarTail(s[1..]))
  }

  function Prefixed(c: char, tail: Option<Scalar>): Option<Scalar> {
    match tail
    case None => None
    case Some(t) => Some(Scalar([c] + t.value, t.rest))
  }

  function DoubleQuoted(s: string): Option<Scalar> {
    if s != "" && s[0] == '"' then ScalarTail(s[1..]) else None
  }

  /** One character after the three replacements. */
  function Quoting(c: char): string {
    if c == '\\' then "\\\\" else if c == '"' then "\\\"" else if c == '$' then "$$" else [c]
  }

  function QuotedBody(s: string): string {
    if s == "" then "" else Quoting(s[0]) + QuotedBody(s[1..])
  }

  lemma {:induction false} ReplaceAllConcat(a: string, b: string, c: char, text: string)
    ensures ReplaceAll(a + b, c, text) == ReplaceAll(a, c, text) + ReplaceAll(b, c, text)
  {
    if a == "" {
      assert a + b == b;
    } else {
      assert (a + b)[1..] == a[1..] + b;
      ReplaceAllConcat(a[1..], b, c, text);
    }
  }

  lemma {:induction false} ReplaceInOne(c: char, d: char, text: string)
    ensures ReplaceAll([c], d, text) == if c == d then text else [c]
  {
    assert [c][1..] == "";
    assert text + "" == text;
  }

  lemma {:induction false} NothingToReplace(s: string, c: char, text: string)
    requires c !in s
    ensures ReplaceAll(s, c, text) == s
  {
    if s != "" {
      NothingToReplace(s[1..], c, text);
      assert s == [s[0]] + s[1..];
    }
  }

  lemma {:induction false} PassesConcat(a: string, b: string)
    ensures Passes(a + b) == Passes(a) + Passes(b)
  {
    ReplaceAllConcat(a, b, '\\', "\\\\");
    var a', b' := ReplaceAll(a, '\\', "\\\\"), ReplaceAll(b, '\\', "\\\\");
    ReplaceAllConcat(a', b', '"', "\\\"");
    ReplaceAllConcat(ReplaceAll(a', '"', "\\\""), ReplaceAll(b', '"', "\\\""), '$', "$$");
  }

  lemma {:induction false} PassesOfOne(c: char)
    ensures Passes([c]) == Quoting(c)
  {
    ReplaceInOne(c, '\\', "\\\\");
    if c == '\\' {
      NothingToReplace("\\\\", '"', "\\\"");
      NothingToReplace("\\\\", '$', "$$");
    } else {
      ReplaceInOne(c, '"', "\\\"");
      if c == '"' { NothingToReplace("\\\"", '$', "$$"); } else { ReplaceInOne(c, '$', "$$"); }
    }
  }

  /** The three passes together treat each character on its own: none sees another's escapes. */
  lemma {:induction false} PassesAreOne(s: string)
    ensures Passes(s) == QuotedBody(s)
  {
    if s != "" {
      PassesAreOne(s[1..]);
      PassesOfOne(s[0]);
      PassesConcat([s[0]], s[1..]);
      assert s == [s[0]] + s[1..];
    }
  }

  lemma {:induction false} QuotedBodyReadsBack(s: string, rest: string)
    ensures ScalarTail(QuotedBody(s) + "\"" + rest) == Some(Scalar(Doubled(s), rest))
  {
    if s == "" {
      assert ("" + "\"" + rest)[1..] == rest;
    } else {
      var tail := QuotedBody(s[1..]) + "\"" + rest;
      QuotedBodyReadsBack(s[1..], rest);
      assert QuotedBody(s) + "\"" + rest == Quoting(s[0]) + tail;
      QuotingReadsBack(s[0], tail);
    }
  }

  lemma {:induction false} QuotingReadsBack(c: char, tail: string)
    requires ScalarTail(tail).Some?
    ensures var t := ScalarTail(tail).value;
            ScalarTail(Quoting(c) + tail) == Some(Scalar((if c == '$' then "$$" else [c]) + t.value, t.rest))
  {
    var s := Quoting(c) + tail;
    if c == '\\' || c == '"' {
      assert s[2..] == tail;
    } else if c == '$' {
      assert s[1..] == "$" + tail;
      assert s[1..][1..] == tail;
      assert "$" + ("$" + ScalarTail(tail).value.value) == "$$" + ScalarTail(tail).value.value;
    } else {
      assert s[1..] == tail;
    }
  }

  /**
   * A quoted value ends where its quotes end, whatever follows, and under every environment Compose
   * reads it as the value itself.
   */
  lemma {:induction false} ScalarReadsBack(v: string, rest: string, expand: string -> Expansion)
    requires NoBreaks(v)
    ensures DoubleQuoted(Yq(v) + rest).Some?
    ensures DoubleQuoted(Yq(v) + rest).value.rest == rest
    ensures ComposeRead(DoubleQuoted(Yq(v) + rest).value.value, expand) == v
  {
    PassesAreOne(v);
    QuotedBodyReadsBack(v, rest);
    assert (Yq(v) + rest)[1..] == QuotedBody(v) + "\"" + rest;
    DoubledReadsBack(v, expand);
  }

  // ---------------------------------------------------------------- the ECS reader

  datatype Token = Token(name: string, op: string, arg: string, length: nat)

  /** The operator at the start of `s`, if there is one. */
  function OpOf(s: string): (op: Option<string>)
    ensures op.Some? ==> 1 <= |op.value| <= |s|
  {
    if StartsWith(s, ":-") then Some(":-")
    else if StartsWith(s, "-") then Some("-")
    else if StartsWith(s, ":?") then Some(":?")
    else if StartsWith(s, "?") then Some("?")
    else if StartsWith(s, ":+") then Some(":+")
    else if StartsWith(s, "+") then Some("+")
    else None
  }

  /** `${NAME}`, or `${NAME` with an operator and an argument up to the next brace, at the start of `s`. */
  function TokenAt(s: string): (t: Option<Token>)
    ensures t.Some? ==> 4 <= t.value.length <= |s| && s[0] == '$' && |t.value.arg| + 4 <= t.value.length
  {
    if |s| > 2 && s[0] == '$' && s[1] == '{' && IsNameStart(s[2]) then
      var end := IdentEnd(s, 3);
      var op := OpOf(s[end..]);
      if end < |s| && s[end] == '}' then Some(Token(s[2..end], "", "", end + 1))
      else if op.None? then None
      else
        var from := end + |op.value|;
        var close := IndexFrom(s, '}', from);
        if close < |s| then Some(Token(s[2..end], op.value, s[from..close], close + 1)) else None
    else None
  }

  /** What a token is replaced by. */
  function Resolved(t: Token, env: map<string, string>): string {
    var has := t.name in env;
    var val := if has then env[t.name] else "";
    var isSet := has && val != "";
    if t.op == ":-" then (if isSet then val else t.arg)
    else if t.op == "-" then (if has then val else t.arg)
    else if t.op == ":+" then (if isSet then t.arg else "")
    else if t.op == "+" then (if has then t.arg else "")
    else val
  }

  function ResolveTokens(s: string, env: map<string, string>): string
    decreases |s|
  {
    if s == "" then ""
    else
      match TokenAt(s)
      case Some(t) => Resolved(t, env) + ResolveTokens(s[t.length..], env)
      case None => [s[0]] + ResolveTokens(s[1..], env)
  }

  function Undoubled(s: string): string
    decreases |s|
  {
    if s == "" then ""
    else if |s| > 1 && s[0] == '$' && s[1] == '$' then "$" + Undoubled(s[2..])
    else [s[0]] + Undoubled(s[1..])
  }

  function Interpolate(text: string, env: map<string, string>): string {
    Undoubled(ResolveTokens(text, env))
  }

  /** A token somewhere in `s`. */
  predicate HasToken(s: string) {
    s != "" && (TokenAt(s).Some? || HasToken(s[1..]))
  }

  // ---------------------------------------------------------------- without tokens nothing happens

  lemma {:induction false} NothingToResolve(s: string, env: map<string, string>)
    requires !HasToken(s)
    ensures ResolveTokens(s, env) == s
  {
    if s != "" {
      NothingToResolve(s[1..], env);
      assert s == [s[0]] + s[1..];
    }
  }

  lemma {:induction false} UndoubledOfDoubled(v: string)
    ensures Undoubled(Doubled(v)) == v
  {
    if v != "" {
      var rest := Doubled(v[1..]);
      UndoubledOfDoubled(v[1..]);
      assert v == [v[0]] + v[1..];
      if v[0] == '$' {
        assert Doubled(v)[2..] == rest;
      } else {
        assert Doubled(v)[1..] == rest;
      }
    }
  }

  // ---------------------------------------------------------------- doubling keeps every token

  /** What must follow a token's name: a brace, or an operator and a brace later on. */
  predicate Closes(u: string) {
    u != "" && (u[0] == '}' || (OpOf(u).Some? && '}' in u))
  }

  lemma {:induction false} TokenShape(s: string)
    ensures TokenAt(s).Some?
            <==> |s| > 2 && s[0] == '$' && s[1] == '{' && IsNameStart(s[2]) && Closes(s[IdentEnd(s, 3)..])
  {
    if |s| > 2 && s[0] == '$' && s[1] == '{' && IsNameStart(s[2]) {
      var end := IdentEnd(s, 3);
      var u := s[end..];
      if OpOf(u).Some? && u[0] != '}' {
        var op := OpOf(u).value;
        var from := end + |op|;
        assert forall i :: 0 <= i < |op| ==> u[i] != '}';
        if '}' in u {
          var i :| 0 <= i < |u| && u[i] == '}';
          assert s[end + i] == '}';
        }
        if IndexFrom(s, '}', from) < |s| {
          assert u[IndexFrom(s, '}', from) - end] == '}';
        }
      }
    }
  }

  lemma {:induction false} DoubledKeeps(u: string, c: char)
    requires c != '$'
    ensures c in Doubled(u) <==> c in u
  {
    if u != "" { DoubledKeeps(u[1..], c); }
  }

  lemma {:induction false} DoubledStart(u: string)
    ensures u == "" <==> Doubled(u) == ""
    ensures u != "" ==> Doubled(u)[0] == u[0]
    ensures |u| > 1 && u[0] != '$' ==> |Doubled(u)| > 1 && Doubled(u)[1] == u[1]
    ensures |u| == 1 && u[0] != '$' ==> |Doubled(u)| == 1
  {
    if |u| == 1 {
      ReplaceInOne(u[0], '$', "$$");
      assert u == [u[0]];
    } else if |u| > 1 && u[0] != '$' {
      var rest := Doubled(u[1..]);
      assert rest != "" && rest[0] == u[1..][0];
      assert Doubled(u) == [u[0]] + rest;
    }
  }

  lemma {:induction false} OpByChars(u: string)
    ensures OpOf(u).Some? <==>
              u != "" && (u[0] == '-' || u[0] == '?' || u[0] == '+'
                          || (|u| > 1 && u[0] == ':' && (u[1] == '-' || u[1] == '?' || u[1] == '+')))
  {
    if |u| > 1 { assert u[..2] == [u[0], u[1]]; }
    if u != "" { assert u[..1] == [u[0]]; }
  }

  lemma {:induction false} DoubledCloses(u: string)
    ensures Closes(Doubled(u)) <==> Closes(u)
  {
    DoubledStart(u);
    DoubledKeeps(u, '}');
    OpByChars(u);
    OpByChars(Doubled(u));
  }

  lemma {:induction false} DoubledAfter(name: string, u: string)
    requires '$' !in name
    ensures Doubled(name + u) == name + Doubled(u)
  {
    ReplaceAllConcat(name, u, '$', "$$");
    NothingToReplace(name, '$', "$$");
  }

  /** After `${NAME` the rest decides. */
  lemma {:induction false} TokenWith(front: string, u: string)
    requires |front| > 2 && front[0] == '$' && front[1] == '{' && IsNameStart(front[2])
    requires forall i :: 3 <= i < |front| ==> IsNameChar(front[i])
    requires u != "" ==> !IsNameChar(u[0])
    ensures TokenAt(front + u).Some? <==> Closes(u)
  {
    var s := front + u;
    TokenShape(s);
    assert forall i :: 3 <= i < |front| ==> IsNameChar(s[i]);
    assert |front| < |s| ==> s[|front|] == u[0];
    assert IdentEnd(s, 3) == |front|;
    assert s[|front|..] == u;
  }

  lemma {:induction false} DoubledToken(rest: string)
    ensures TokenAt("$" + Doubled(rest)).Some? <==> TokenAt("$" + rest).Some?
  {
    DoubledStart(rest);
    if |rest| > 1 && rest[0] == '{' && IsNameStart(rest[1]) {
      DoubledNamedToken(rest);
    } else {
      TokenShape("$" + rest);
      TokenShape("$" + Doubled(rest));
    }
  }

  lemma {:induction false} DoubledNamedToken(rest: string)
    requires |rest| > 1 && rest[0] == '{' && IsNameStart(rest[1])
    ensures TokenAt("$" + Doubled(rest)).Some? <==> TokenAt("$" + rest).Some?
  {
    var s := "$" + rest;
    var k := IdentEnd(s, 3);
    var name, u := s[1..k], s[k..];
    assert s == "$" + name + u && rest == name + u;
    DoubledAfter(name, u);
    DoubledStart(u);
    assert "$" + Doubled(rest) == "$" + name + Doubled(u);
    TokenWith("$" + name, u);
    TokenWith("$" + name, Doubled(u));
    DoubledCloses(u);
  }

  lemma {:induction false} DoubledTokens(v: string)
    ensures HasToken(Doubled(v)) <==> HasToken(v)
  {
    if v != "" {
      var rest := Doubled(v[1..]);
      DoubledTokens(v[1..]);
      assert v == [v[0]] + v[1..];
      if v[0] == '$' {
        DoubledToken(v[1..]);
        assert Doubled(v)[1..] == "$" + rest;
        assert ("$" + rest)[1..] == rest;
      } else {
        assert Doubled(v)[1..] == rest;
      }
    }
  }

  // ---------------------------------------------------------------- with a token something is lost

  lemma {:induction false} TokenHoldsMore(s: string)
    requires TokenAt(s).Some?
    ensures var t := TokenAt(s).value; Solid(t.arg) < Solid(s[..t.length])
    ensures NoBreaks(s) ==> NoBreaks(TokenAt(s).value.arg)
  {
    var t := TokenAt(s).value;
    var from := t.length - 1 - |t.arg|;
    assert s[..t.length] == s[..from] + t.arg + "}";
    SolidConcat(s[..from] + t.arg, "}");
    SolidConcat(s[..from], t.arg);
    assert NoBreaks(s) ==> forall i :: 0 <= i < |t.arg| ==> t.arg[i] == s[from + i] && !IsBreak(s[from + i]);
  }

  /** With nothing set, resolving tokens takes away something solid. */
  lemma {:induction false} ResolvingLoses(s: string)
    ensures Solid(ResolveTokens(s, map[])) <= Solid(s)
    ensures HasToken(s) ==> Solid(ResolveTokens(s, map[])) < Solid(s)
    decreases |s|
  {
    if s != "" {
      match TokenAt(s)
      case Some(t) =>
        ResolvingLoses(s[t.length..]);
        TokenLoses(s, ResolveTokens(s[t.length..], map[]));
      case None =>
        ResolvingLoses(s[1..]);
        SolidCons(s[0], ResolveTokens(s[1..], map[]));
    }
  }

  lemma {:induction false} TokenLoses(s: string, rest: string)
    requires TokenAt(s).Some?
    ensures Solid(Resolved(TokenAt(s).value, map[]) + rest) + Solid(s[TokenAt(s).value.length..])
            < Solid(s) + Solid(rest)
  {
    var t := TokenAt(s).value;
    TokenHoldsMore(s);
    UnsetIsArgument(t);
    assert s == s[..t.length] + s[t.length..];
    SolidConcat(s[..t.length], s[t.length..]);
    SolidConcat(Resolved(t, map[]), rest);
  }

  lemma {:induction false} UnsetIsArgument(t: Token)
    ensures Resolved(t, map[]) == t.arg || Resolved(t, map[]) == ""
  {
  }

  lemma {:induction false} ResolvingAddsNoBreaks(s: string)
    requires NoBreaks(s)
    ensures NoBreaks(ResolveTokens(s, map[]))
    decreases |s|
  {
    if s != "" {
      match TokenAt(s)
      case Some(t) =>
        ResolvingAddsNoBreaks(s[t.length..]);
        TokenHoldsMore(s);
        UnsetIsArgument(t);
      case None => ResolvingAddsNoBreaks(s[1..]);
    }
  }

  lemma {:induction false} UndoublingKeeps(s: string)
    ensures Solid(Undoubled(s)) == Solid(s)
    ensures NoBreaks(s) ==> NoBreaks(Undoubled(s))
    decreases |s|
  {
    if |s| > 1 && s[0] == '$' && s[1] == '$' {
      UndoublingKeeps(s[2..]);
      SolidConcat("$", Undoubled(s[2..]));
      assert s == "$" + ("$" + s[2..]);
      SolidConcat("$", "$" + s[2..]);
      SolidConcat("$", s[2..]);
    } else if s != "" {
      UndoublingKeeps(s[1..]);
      SolidConcat([s[0]], Undoubled(s[1..]));
      assert s == [s[0]] + s[1..];
      SolidConcat([s[0]], s[1..]);
    }
  }

  /**
   * ECS interpolation reads an escaped value back as the value under every environment exactly when
   * the value has no line break and no `${NAME}` token: a doubled dollar does not protect a token.
   */
  lemma {:induction false} EcsReadsBackExactly(v: string)
    ensures (forall env :: Interpolate(EscapeEnvValue(v), env) == v) <==> NoBreaks(v) && !HasToken(v)
  {
    if NoBreaks(v) && !HasToken(v) {
      forall env ensures Interpolate(EscapeEnvValue(v), env) == v {
        EcsReadsBack(v, env);
      }
    }
    if forall env :: Interpolate(EscapeEnvValue(v), env) == v {
      assert Interpolate(EscapeEnvValue(v), map[]) == v;
      EcsLoses(v);
    }
  }

  /** The value ${NAME} arrives as a dollar and what NAME is set to. */
  lemma {:induction false} DoubledTokenIsResolved(name: string, env: map<string, string>)
    requires IsIdentifier(name) && name in env && '$' !in env[name]
    ensures Interpolate(EscapeEnvValue("${" + name + "}"), env) == "$" + env[name]
  {
    var token := "${" + name + "}";
    TokenIsDoubled(name);
    BareToken(name);
    assert ("$" + token)[1..] == token && token[|token|..] == "";
    assert env[name] + "" == env[name];
    assert ResolveTokens(token, env) == env[name];
    assert TokenAt("$" + token).None?;
    UndoubledDollar(env[name]);
  }

  lemma {:induction false} TokenIsDoubled(name: string)
    requires IsIdentifier(name)
    ensures EscapeEnvValue("${" + name + "}") == "$" + ("${" + name + "}")
  {
    var rest := "{" + name + "}";
    assert "${" + name + "}" == "$" + rest;
    NothingToFlatten("$" + rest);
    FirstDollarDoubled(rest);
  }

  lemma {:induction false} FirstDollarDoubled(rest: string)
    requires '$' !in rest
    ensures Doubled("$" + rest) == "$" + ("$" + rest)
  {
    NothingToReplace(rest, '$', "$$");
    assert ("$" + rest)[1..] == rest;
    assert "$$" + rest == "$" + ("$" + rest);
  }

  lemma {:induction false} BareToken(name: string)
    requires IsIdentifier(name)
    ensures TokenAt("${" + name + "}") == Some(Token(name, "", "", |name| + 3))
  {
    var token := "${" + name + "}";
    assert token[2] == name[0];
    assert forall i :: 0 <= i < |name| ==> token[2 + i] == name[i] && IsNameChar(name[i]);
    assert token[2 + |name|] == '}' && IdentEnd(token, 3) == 2 + |name|;
    assert token[2..2 + |name|] == name;
  }

  lemma {:induction false} UndoubledDollar(s: string)
    requires '$' !in s
    ensures Undoubled("$" + s) == "$" + s
  {
    assert ("$" + s)[1..] == s;
    NoDollarsKept(s);
  }

  lemma {:induction false} NoDollarsKept(s: string)
    requires '$' !in s
    ensures Undoubled(s) == s
  {
    if s != "" {
      NoDollarsKept(s[1..]);
      assert s == [s[0]] + s[1..];
    }
  }

  lemma {:induction false} EcsReadsBack(v: string, env: map<string, string>)
    requires NoBreaks(v) && !HasToken(v)
    ensures Interpolate(EscapeEnvValue(v), env) == v
  {
    FlattenedExactly(v);
    DoubledTokens(v);
    NothingToResolve(Doubled(v), env);
    UndoubledOfDoubled(v);
  }

  lemma {:induction false} EcsLoses(v: string)
    requires Interpolate(EscapeEnvValue(v), map[]) == v
    ensures NoBreaks(v) && !HasToken(v)
  {
    var e := EscapeEnvValue(v);
    EscapedShape(v);
    ResolvingLoses(e);
    ResolvingAddsNoBreaks(e);
    UndoublingKeeps(ResolveTokens(e, map[]));
    FlattenedExactly(v);
    DoubledTokens(v);
  }
}
