/**
 * The env map of a deployment (buildEnvMap in deploy-target.ts): the effective value of every variable
 * of the schema. Records keyed by name are maps, or lists of bindings where their order matters.
 */
module EnvMaps {
  import opened Wrappers
  import opened JsText
  import opened Replicator
  import opened Dotenv

  // ---------------------------------------------------------------- names for docker

  predicate IsSlugChar(c: char) {
    'a' <= c <= 'z' || IsDigit(c) || c == '_' || c == '.' || c == '-'
  }

  function SkipForeign(s: string): (r: string)
    ensures |r| <= |s| && (r != "" ==> IsSlugChar(r[0]))
  {
    if s != "" && !IsSlugChar(s[0]) then SkipForeign(s[1..]) else s
  }

  /** Every run of foreign characters becomes one dash. */
  function Dashed(s: string): string
    decreases |s|
  {
    if s == "" then ""
    else if IsSlugChar(s[0]) then [s[0]] + Dashed(s[1..])
    else "-" + Dashed(SkipForeign(s[1..]))
  }

  function SkipLeading(s: string): (r: string)
    ensures |r| <= |s|
    ensures r != "" ==> r[0] != '-' && r[0] != '.'
    ensures s != "" && s[0] != '-' && s[0] != '.' ==> r == s
  {
    if s != "" && (s[0] == '-' || s[0] == '.') then SkipLeading(s[1..]) else s
  }

  function OrApp(s: string): string {
    if s == "" then "app" else s
  }

  /** `lower` stands for toLowerCase. */
  function Slug(lower: string -> string, s: string): string {
    var t := SkipLeading(Dashed(lower(OrApp(s))));
    OrApp(if |t| > 40 then t[..40] else t)
  }

  predicate IsSlug(s: string) {
    s != "" && |s| <= 40 && s[0] != '-' && s[0] != '.' && forall i :: 0 <= i < |s| ==> IsSlugChar(s[i])
  }

  predicate SlugChars(s: string) {
    forall i :: 0 <= i < |s| ==> IsSlugChar(s[i])
  }

  lemma {:induction false} DashedIsClean(s: string)
    ensures SlugChars(Dashed(s)) && SlugChars(SkipLeading(Dashed(s)))
    ensures SlugChars(s) ==> Dashed(s) == s
    decreases |s|
  {
    if s != "" {
      DashedIsClean(if IsSlugChar(s[0]) then s[1..] else SkipForeign(s[1..]));
      if SlugChars(s) { assert s == [s[0]] + s[1..]; }
    }
    SkipLeadingIsClean(Dashed(s));
  }

  lemma {:induction false} SkipLeadingIsClean(s: string)
    requires SlugChars(s)
    ensures SlugChars(SkipLeading(s))
  {
    if s != "" && (s[0] == '-' || s[0] == '.') { SkipLeadingIsClean(s[1..]); }
  }

  /** A slug is a name docker accepts, and slugging it again changes nothing. */
  lemma {:induction false} SlugIsAccepted(lower: string -> string, s: string)
    requires forall t :: SlugChars(t) ==> lower(t) == t
    ensures IsSlug(Slug(lower, s)) && Slug(lower, Slug(lower, s)) == Slug(lower, s)
  {
    var slug := Slug(lower, s);
    DashedIsClean(lower(OrApp(s)));
    assert IsSlug(slug);
    DashedIsClean(slug);
    assert SlugChars(slug) && lower(slug) == slug;
  }

  // ---------------------------------------------------------------- the map

  /** Map.set: an existing key keeps its place. */
  function SetIn(env: seq<Binding>, name: string, value: string): seq<Binding> {
    if env == [] then [Binding(name, value)]
    else if env[0].name == name then [Binding(name, value)] + env[1..]
    else [env[0]] + SetIn(env[1..], name, value)
  }

  function ValueIn(env: seq<Binding>, name: string): Option<string> {
    if env == [] then None
    else if env[0].name == name then Some(env[0].value)
    else ValueIn(env[1..], name)
  }

  function SetIfAny(env: seq<Binding>, name: string, value: Option<string>): seq<Binding> {
    match value
    case None => env
    case Some(text) => SetIn(env, name, text)
  }

  /** The last port listed for a variable. */
  function PortFor(ports: seq<Port>, name: string): Option<int> {
    if ports == [] then None
    else if ports[|ports| - 1].variable == Some(name) then Some(ports[|ports| - 1].hostPort)
    else PortFor(ports[..|ports| - 1], name)
  }

  function Given(record: map<string, string>, name: string): Option<string> {
    if name in record && record[name] != "" then Some(record[name]) else None
  }

  /** What the operator and Cerebro have to go by. */
  datatype Inputs = Inputs(
    lower: string -> string, project: string, ports: seq<Port>,
    values: map<string, string>, secrets: map<string, string>)

  /** What is written in place of a missing value: nothing for a compose variable, whose file has the default. */
  function Fallback(v: Variable): Option<string> {
    if v.source.None? || v.source.value.Compose? then None else v.default
  }

  /** The value written for a variable, or None to leave it out. */
  function Effective(x: Inputs, v: Variable): Option<string> {
    var svc := Slug(x.lower, if v.service.Some? then v.service.value else "app");
    match v.role
    case ImageTag => Some(x.project + "-" + svc + ":latest")
    case ContainerName => Some(x.project + "-" + svc)
    case HostPort =>
      var port := PortFor(x.ports, v.name);
      if port.Some? then Some(IntText(port.value)) else None
    case Secret => Given(x.secrets, v.name)
    case _ =>
      var given := Given(x.values, v.name);
      if given.Some? then given else Fallback(v)
  }

  function SchemaEnv(x: Inputs, variables: seq<Variable>): seq<Binding> {
    if variables == [] then []
    else
      var v := variables[|variables| - 1];
      SetIfAny(SchemaEnv(x, variables[..|variables| - 1]), v.name, Effective(x, v))
  }

  function WithExtras(env: seq<Binding>, extras: seq<Binding>): seq<Binding> {
    if extras == [] then env
    else
      var e := extras[|extras| - 1];
      SetIfAny(WithExtras(env, extras[..|extras| - 1]), e.name, if e.value != "" then Some(e.value) else None)
  }

  function EnvMap(x: Inputs, variables: seq<Variable>, extras: seq<Binding>): seq<Binding> {
    WithExtras(SchemaEnv(x, variables), extras)
  }

  method BuildEnvMap(x: Inputs, variables: seq<Variable>, extras: seq<Binding>) returns (env: seq<Binding>)
    ensures env == EnvMap(x, variables, extras)
  {
    env := [];
    for i := 0 to |variables|
      invariant env == SchemaEnv(x, variables[..i])
    {
      assert variables[..i + 1][..i] == variables[..i];
      var v := variables[i];
      var svc := Slug(x.lower, if v.service.Some? then v.service.value else "app");
      match v.role {
        case ImageTag => env := SetIn(env, v.name, x.project + "-" + svc + ":latest");
        case ContainerName => env := SetIn(env, v.name, x.project + "-" + svc);
        case HostPort =>
          var port := PortFor(x.ports, v.name);
          if port.Some? { env := SetIn(env, v.name, IntText(port.value)); }
        case Secret =>
          if v.name in x.secrets && x.secrets[v.name] != "" { env := SetIn(env, v.name, x.secrets[v.name]); }
        case _ =>
          if v.name in x.values && x.values[v.name] != "" {
            env := SetIn(env, v.name, x.values[v.name]);
          } else if Fallback(v).Some? {
            env := SetIn(env, v.name, Fallback(v).value);
          }
      }
    }
    assert variables[..|variables|] == variables;
    ghost var schema := env;
    for i := 0 to |extras|
      invariant env == WithExtras(schema, extras[..i])
    {
      assert extras[..i + 1][..i] == extras[..i];
      if extras[i].value != "" {
        env := SetIn(env, extras[i].name, extras[i].value);
      }
    }
    assert extras[..|extras|] == extras;
  }

  // ---------------------------------------------------------------- what it holds

  lemma {:induction false} SetInHolds(env: seq<Binding>, name: string, value: string, other: string)
    ensures ValueIn(SetIn(env, name, value), other) == if other == name then Some(value) else ValueIn(env, other)
  {
    if env != [] && env[0].name != name {
      SetInHolds(env[1..], name, value, other);
      assert SetIn(env, name, value)[1..] == SetIn(env[1..], name, value);
    }
  }

  lemma {:induction false} SetInNames(env: seq<Binding>, name: string, value: string)
    ensures BoundNames(SetIn(env, name, value)) == BoundNames(env) + {name}
  {
    if env == [] {
    } else {
      assert env == [env[0]] + env[1..];
      NamesCons(env[0], env[1..]);
      if env[0].name == name {
        NamesCons(Binding(name, value), env[1..]);
      } else {
        SetInNames(env[1..], name, value);
        NamesCons(env[0], SetIn(env[1..], name, value));
      }
    }
  }

  lemma {:induction false} NamesCons(b: Binding, env: seq<Binding>)
    ensures BoundNames([b] + env) == {b.name} + BoundNames(env)
  {
    assert forall c :: c in [b] + env <==> c == b || c in env;
  }

  lemma {:induction false} SetInDistinct(env: seq<Binding>, name: string, value: string)
    requires Distinct(env)
    ensures Distinct(SetIn(env, name, value))
  {
    if env != [] {
      assert env[0].name !in BoundNames(env[1..]);
      if env[0].name != name {
        SetInDistinct(env[1..], name, value);
        SetInNames(env[1..], name, value);
        DistinctCons(env[0], SetIn(env[1..], name, value));
      } else {
        DistinctCons(Binding(name, value), env[1..]);
      }
    }
  }

  lemma {:induction false} DistinctCons(b: Binding, env: seq<Binding>)
    requires Distinct(env) && b.name !in BoundNames(env)
    ensures Distinct([b] + env)
  {
    forall i, j | 0 <= i < j < |[b] + env| ensures ([b] + env)[i].name != ([b] + env)[j].name {
      assert ([b] + env)[j] == env[j - 1] && env[j - 1] in env;
      assert env[j - 1].name in BoundNames(env);
    }
  }

  predicate AllIdentifiers(names: set<string>) {
    forall name :: name in names ==> IsIdentifier(name)
  }

  lemma {:induction false} WritableNames(env: seq<Binding>)
    requires Distinct(env) && AllIdentifiers(BoundNames(env))
    ensures Writable(env)
  {
    forall i | 0 <= i < |env| ensures IsIdentifier(env[i].name) {
      assert env[i] in env && env[i].name in BoundNames(env);
    }
  }

  lemma {:induction false} SchemaEnvSound(x: Inputs, variables: seq<Variable>)
    requires forall i :: 0 <= i < |variables| ==> IsIdentifier(variables[i].name)
    ensures Distinct(SchemaEnv(x, variables)) && AllIdentifiers(BoundNames(SchemaEnv(x, variables)))
  {
    if variables != [] {
      var before, v := SchemaEnv(x, variables[..|variables| - 1]), variables[|variables| - 1];
      SchemaEnvSound(x, variables[..|variables| - 1]);
      SetIfAnySound(before, v.name, Effective(x, v));
    }
  }

  lemma {:induction false} SetIfAnySound(env: seq<Binding>, name: string, value: Option<string>)
    requires Distinct(env) && AllIdentifiers(BoundNames(env)) && IsIdentifier(name)
    ensures Distinct(SetIfAny(env, name, value)) && AllIdentifiers(BoundNames(SetIfAny(env, name, value)))
  {
    if value.Some? {
      SetInDistinct(env, name, value.value);
      SetInNames(env, name, value.value);
    }
  }

  lemma {:induction false} WithExtrasSound(env: seq<Binding>, extras: seq<Binding>)
    requires Distinct(env) && AllIdentifiers(BoundNames(env))
    requires forall i :: 0 <= i < |extras| ==> IsIdentifier(extras[i].name)
    ensures Distinct(WithExtras(env, extras)) && AllIdentifiers(BoundNames(WithExtras(env, extras)))
  {
    if extras != [] {
      var e := extras[|extras| - 1];
      WithExtrasSound(env, extras[..|extras| - 1]);
      SetIfAnySound(WithExtras(env, extras[..|extras| - 1]), e.name, if e.value != "" then Some(e.value) else None);
    }
  }

  /**
   * Right after a deploy the `.env` on the host is reported to match exactly when something was written
   * and every effective value is portable; when nothing was, the file is reported to be missing.
   */
  lemma {:induction false} DeployShowsNoDriftExactly(x: Inputs, variables: seq<Variable>, extras: seq<Binding>)
    requires forall i :: 0 <= i < |variables| ==> IsIdentifier(variables[i].name)
    requires forall i :: 0 <= i < |extras| ==> IsIdentifier(extras[i].name)
    ensures var env := EnvMap(x, variables, extras);
            && (CheckDrift(env, ToDotenv(env)).NotAvailable? <==> env == [])
            && (CheckDrift(env, ToDotenv(env)).Matches()
                <==> env != [] && forall i :: 0 <= i < |env| ==> Portable(env[i].value))
  {
    SchemaEnvSound(x, variables);
    WithExtrasSound(SchemaEnv(x, variables), extras);
    WritableNames(EnvMap(x, variables, extras));
    NoDriftExactly(EnvMap(x, variables, extras));
  }

  lemma {:induction false} SchemaEnvHolds(x: Inputs, variables: seq<Variable>, i: nat)
    requires DistinctNames(variables) && i < |variables|
    ensures ValueIn(SchemaEnv(x, variables), variables[i].name) == Effective(x, variables[i])
  {
    var n := |variables| - 1;
    var before, v := SchemaEnv(x, variables[..n]), variables[n];
    if Effective(x, v).Some? { SetInHolds(before, v.name, Effective(x, v).value, variables[i].name); }
    if i < n {
      SchemaEnvHolds(x, variables[..n], i);
    } else {
      SchemaEnvOnly(x, variables[..n], v.name);
    }
  }

  lemma {:induction false} SchemaEnvOnly(x: Inputs, variables: seq<Variable>, name: string)
    requires forall i :: 0 <= i < |variables| ==> variables[i].name != name
    ensures ValueIn(SchemaEnv(x, variables), name) == None
  {
    if variables != [] {
      var n := |variables| - 1;
      SchemaEnvOnly(x, variables[..n], name);
      var v := variables[n];
      if Effective(x, v).Some? { SetInHolds(SchemaEnv(x, variables[..n]), v.name, Effective(x, v).value, name); }
    }
  }

  lemma {:induction false} ExtrasOnlyAdd(env: seq<Binding>, extras: seq<Binding>, name: string)
    requires forall i :: 0 <= i < |extras| ==> extras[i].name != name
    ensures ValueIn(WithExtras(env, extras), name) == ValueIn(env, name)
  {
    if extras != [] {
      var n := |extras| - 1;
      ExtrasOnlyAdd(env, extras[..n], name);
      if extras[n].value != "" { SetInHolds(WithExtras(env, extras[..n]), extras[n].name, extras[n].value, name); }
    }
  }

  /** Each variable of the schema is written with its effective value or left out. */
  lemma {:induction false} EnvMapHolds(x: Inputs, variables: seq<Variable>, extras: seq<Binding>, i: nat)
    requires DistinctNames(variables) && i < |variables|
    requires forall j :: 0 <= j < |extras| ==> extras[j].name != variables[i].name
    ensures ValueIn(EnvMap(x, variables, extras), variables[i].name) == Effective(x, variables[i])
  {
    SchemaEnvHolds(x, variables, i);
    ExtrasOnlyAdd(SchemaEnv(x, variables), extras, variables[i].name);
  }

  /** A secret's default, and a compose variable's, never reaches the map: changing it changes nothing. */
  lemma {:induction false} DefaultIsNeverWritten(
    x: Inputs, variables: seq<Variable>, extras: seq<Binding>, i: nat, default: Option<string>)
    requires i < |variables|
    requires variables[i].role.Secret? || variables[i].source.None? || variables[i].source.value.Compose?
    ensures EnvMap(x, variables[i := variables[i].(default := default)], extras) == EnvMap(x, variables, extras)
  {
    SchemaEnvIgnores(x, variables, i, default);
  }

  lemma {:induction false} SchemaEnvIgnores(x: Inputs, variables: seq<Variable>, i: nat, default: Option<string>)
    requires i < |variables|
    requires variables[i].role.Secret? || variables[i].source.None? || variables[i].source.value.Compose?
    ensures SchemaEnv(x, variables[i := variables[i].(default := default)]) == SchemaEnv(x, variables)
  {
    var n, changed := |variables| - 1, variables[i := variables[i].(default := default)];
    if i < n {
      SchemaEnvIgnores(x, variables[..n], i, default);
      assert changed[..n] == variables[..n][i := variables[i].(default := default)];
    } else {
      assert changed[..n] == variables[..n];
    }
  }
}
