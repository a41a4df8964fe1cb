/** The App Replicator's schema entities (packages/shared/src/replicator.ts). */
module Replicator {
  import opened Wrappers

  datatype Role = HostPort | HostIp | ImageTag | ContainerName | Secret | Plain {
    /** Plain and secret variables may be turned into each other by hand. */
    predicate Togglable() {
      Plain? || Secret?
    }
  }

  datatype Source = Compose | EnvFile | Manual

  datatype Variable = Variable(
    name: string,
    default: Option<string>,
    role: Role,
    service: Option<string>,
    containerPort: Option<int>,
    required: bool,
    secret: bool,
    source: Option<Source>,
    envFile: Option<string>,
    comment: Option<string>)

  datatype Mode = Published | HostNetwork

  datatype Protocol = Tcp | Udp

  /** A reachable port that no adjustable host-port variable backs. */
  datatype FixedPort = FixedPort(
    service: Option<string>,
    containerPort: int,
    hostPort: int,
    hostPortEnd: Option<int>,
    mode: Mode,
    protocol: Protocol,
    variable: Option<string>,
    adjustable: bool,
    source: Source)

  /** A reachable port of one deployment; a container port that is not a number is None. */
  datatype Port = Port(
    service: string,
    variable: Option<string>,
    hostPort: int,
    containerPort: Option<int>,
    mode: Mode,
    adjustable: bool,
    hostPortEnd: Option<int>,
    protocol: Option<Protocol>)

  predicate IsLetter(c: char) {
    'A' <= c <= 'Z' || 'a' <= c <= 'z'
  }

  predicate IsDigit(c: char) {
    '0' <= c <= '9'
  }

  predicate IsNameStart(c: char) {
    IsLetter(c) || c == '_'
  }

  predicate IsNameChar(c: char) {
    IsNameStart(c) || IsDigit(c)
  }

  /** An environment variable name: a letter or underscore, then letters, digits, underscores. */
  predicate IsIdentifier(s: string) {
    s != "" && IsNameStart(s[0]) && forall i :: 0 < i < |s| ==> IsNameChar(s[i])
  }

  /** The names of a list of variables, in order. */
  function Names(vars: seq<Variable>): (names: seq<string>)
    ensures |names| == |vars|
    ensures forall i :: 0 <= i < |vars| ==> names[i] == vars[i].name
  {
    if vars == [] then [] else [vars[0].name] + Names(vars[1..])
  }

  predicate DistinctNames(vars: seq<Variable>) {
    forall i, j :: 0 <= i < j < |vars| ==> vars[i].name != vars[j].name
  }
}
