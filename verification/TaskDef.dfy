/**
 * Container ports of a compose `ports:` block once its variables are resolved
 * (compose-to-taskdef.ts), and what the generated wrapper publishes. `toNumber` as in the
 * introspection of compose files; items are what the YAML reader makes of the block.
 */
module TaskDef {
  import opened Wrappers
  import opened JsText
  import opened Replicator
  import opened Dollars
  import opened EnvMaps
  import D = Dotenv
  import I = ComposeIntrospect
  import L = ComposeLaws
  import W = ComposeWrapper

  /** A port item: the short form, or the target of the long form if it is a number. */
  datatype Item = Short(text: string) | Long(target: Option<int>)

  function ToMap(env: seq<D.Binding>): map<string, string> {
    if env == [] then map[] else ToMap(env[1..])[env[0].name := env[0].value]
  }

  /** The last colon segment of the resolved text, without the protocol. */
  function LastSegment(text: string): string {
    var segs := Split(I.BeforeSlash(text), ':');
    segs[|segs| - 1]
  }

  function PortOf(toNumber: string -> Option<int>, item: Item, env: map<string, string>): Option<int> {
    match item
    case Long(target) => I.Positive(target)
    case Short(text) => I.Positive(toNumber(Trim(LastSegment(Interpolate(text, env)))))
  }

  function PortsOf(toNumber: string -> Option<int>, items: seq<Item>, env: map<string, string>): seq<int> {
    if items == [] then []
    else
      var port := PortOf(toNumber, items[|items| - 1], env);
      PortsOf(toNumber, items[..|items| - 1], env) + if port.Some? then [port.value] else []
  }

  method ContainerPorts(
    toNumber: string -> Option<int>, items: seq<Item>, env: map<string, string>) returns (out: seq<int>)
    ensures out == PortsOf(toNumber, items, env)
    ensures forall i :: 0 <= i < |out| ==> out[i] > 0
  {
    out := [];
    for i := 0 to |items|
      invariant out == PortsOf(toNumber, items[..i], env)
      invariant forall j :: 0 <= j < |out| ==> out[j] > 0
    {
      assert items[..i + 1][..i] == items[..i];
      var port := PortOf(toNumber, items[i], env);
      if port.Some? {
        out := out + [port.value];
      }
    }
    assert items[..|items|] == items;
  }

  // ---------------------------------------------------------------- the wrapper's ports line

  lemma {:induction false} ToMapHolds(env: seq<D.Binding>, name: string)
    ensures ValueIn(env, name) == if name in ToMap(env) then Some(ToMap(env)[name]) else None
  {
    if env != [] { ToMapHolds(env[1..], name); }
  }

  lemma {:induction false} NoDollarsNoTokens(s: string)
    requires '$' !in s
    ensures !HasToken(s) && Undoubled(s) == s
  {
    NoDollarsKept(s);
    if s != "" { NoDollarsNoTokens(s[1..]); }
  }

  /** A token with a default, followed by text without dollars. */
  lemma {:induction false} DefaultResolves(name: string, default: string, rest: string, env: map<string, string>)
    requires IsIdentifier(name) && '}' !in default && '$' !in default && '$' !in rest
    requires name in env ==> '$' !in env[name]
    ensures Interpolate(W.WithDefault(name, default) + rest, env)
            == (if name in env && env[name] != "" then env[name] else default) + rest
  {
    var s := W.WithDefault(name, default) + rest;
    var value := if name in env && env[name] != "" then env[name] else default;
    W.DefaultTokenAt(name, default, rest);
    assert s[|W.WithDefault(name, default)|..] == rest;
    NoDollarsNoTokens(rest);
    NothingToResolve(rest, env);
    assert ResolveTokens(s, env) == value + rest;
    NoDollarsNoTokens(value + rest);
  }

  const HOST_PORT := "APP_HOST_PORT"

  lemma {:induction false} DecimalHasNoTokens(n: nat)
    ensures var d := Decimal(n); '$' !in d && '}' !in d && d != "" && '$' !in ":" + d
  {
    W.DecimalIsDigits(n);
    W.DigitsArePlain(Decimal(n));
  }

  lemma {:induction false} HostPortIsNamed()
    ensures IsIdentifier(HOST_PORT)
  {
  }

  lemma {:induction false} PortsItemText(port: nat)
    ensures W.PortsItem(port) == W.WithDefault(HOST_PORT, Decimal(port)) + (":" + Decimal(port))
  {
    var token, d := W.WithDefault(HOST_PORT, Decimal(port)), Decimal(port);
    assert W.PortsItem(port) == token + ":" + d;
    assert token + ":" + d == token + (":" + d);
  }

  /** The ports line with the host port resolved: the chosen one, or the default when none is. */
  lemma {:induction false} PortsLineResolves(port: nat, env: map<string, string>, chosen: Option<nat>)
    requires if chosen.Some? then HOST_PORT in env && env[HOST_PORT] == Decimal(chosen.value) else HOST_PORT !in env
    ensures Interpolate(W.PortsItem(port), env)
            == Decimal(if chosen.Some? then chosen.value else port) + ":" + Decimal(port)
  {
    var d, value := Decimal(port), Decimal(if chosen.Some? then chosen.value else port);
    HostPortIsNamed();
    DecimalHasNoTokens(port);
    if chosen.Some? { DecimalHasNoTokens(chosen.value); }
    DefaultResolves(HOST_PORT, d, ":" + d, env);
    PortsItemText(port);
    assert value + ":" + d == value + (":" + d);
  }

  lemma {:induction false} ResolvedHasPort(toNumber: string -> Option<int>, host: nat, port: nat)
    requires toNumber(Decimal(port)) == Some(port) && port > 0
    ensures I.Positive(toNumber(Trim(LastSegment(Decimal(host) + ":" + Decimal(port))))) == Some(port)
  {
    var h, d := Decimal(host), Decimal(port);
    W.DecimalIsDigits(host);
    W.DecimalIsDigits(port);
    W.DigitsArePlain(h);
    W.DigitsArePlain(d);
    W.NothingAfterSlash(h + ":" + d);
    assert h + ":" + d == h + ([':'] + d);
    SplitFirst(h, ':', d);
    SplitWhole(d, ':');
  }

  /**
   * From Dockerfile to published port: for every exposed port and harmless build context, the schema read
   * from the generated compose file, deployed with host port `host` (or none), resolves the ports line
   * to that host port (or the default) and the exposed port, and this is its one container port.
   */
  lemma {:induction false} WrapperPublishes(
    r: I.Reader, exposed: int, context: string, x: Inputs, extras: seq<D.Binding>, host: Option<nat>)
    requires W.ReadsPort(r, W.WrappedPort(exposed)) && D.NoBreaks(context)
    requires W.Harmless(I.TokensIn(context), W.WrappedPort(exposed))
    requires PortFor(x.ports, HOST_PORT) == host
    requires forall j :: 0 <= j < |extras| ==> extras[j].name != HOST_PORT
    ensures var port := W.WrappedPort(exposed);
            var schema := I.Introspected(r, W.GenerateComposeWrapper(exposed, context)).variables;
            var env := ToMap(EnvMap(x, schema, extras));
            && Interpolate(W.PortsItem(port), env)
               == Decimal(if host.Some? then host.value else port) + ":" + Decimal(port)
            && PortsOf(r.toNumber, [Short(W.PortsItem(port))], env) == [port]
  {
    var port := W.WrappedPort(exposed);
    var schema := I.Introspected(r, W.GenerateComposeWrapper(exposed, context)).variables;
    W.WrapperReadsBack(r, exposed, context);
    L.IntrospectionIsWellFormed(r, W.GenerateComposeWrapper(exposed, context));
    HostPortWritten(x, schema, port, extras, host);
    var env := EnvMap(x, schema, extras);
    ToMapHolds(env, HOST_PORT);
    PortsLineResolves(port, ToMap(env), host);
    ResolvedHasPort(r.toNumber, if host.Some? then host.value else port, port);
    OneItem(r.toNumber, Short(W.PortsItem(port)), ToMap(env));
  }

  lemma {:induction false} OneItem(toNumber: string -> Option<int>, item: Item, env: map<string, string>)
    ensures PortsOf(toNumber, [item], env) == if PortOf(toNumber, item, env).Some?
            then [PortOf(toNumber, item, env).value] else []
  {
    assert [item][..0] == [];
    assert PortsOf(toNumber, [], env) == [];
  }

  lemma {:induction false} HostPortWritten(
    x: Inputs, schema: seq<Variable>, port: nat, extras: seq<D.Binding>, host: Option<nat>)
    requires DistinctNames(schema) && W.SameVariables(schema, W.Standard(port))
    requires PortFor(x.ports, HOST_PORT) == host
    requires forall j :: 0 <= j < |extras| ==> extras[j].name != HOST_PORT
    ensures ValueIn(EnvMap(x, schema, extras), HOST_PORT)
            == if host.Some? then Some(Decimal(host.value)) else None
  {
    W.StandardLookup(port, HOST_PORT);
    assert L.Lookup(schema, HOST_PORT) == L.Lookup(W.Standard(port), HOST_PORT);
    EnvMapHolds(x, schema, extras, I.IndexOf(schema, HOST_PORT));
  }
}
