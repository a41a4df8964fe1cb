/**
 * Host ports of a deployment: the suggestions the wizard makes (port-allocator.service.ts,
 * targetInfo), the ports a deploy resolves, and the preflight that must accept them
 * (resolvePorts and preflightPorts in deployment.service.ts). `toNumber` stands for JavaScript's
 * Number() on a string: the integer it denotes, or None for anything that is not an integer.
 */
module HostPorts {
  import opened Wrappers
  import opened Replicator

  const FLOOR: int := 8000
  const MAX_PORT: int := 65535

  // ---------------------------------------------------------------- suggesting

  function FloorFor(containerPort: Option<int>): int {
    if containerPort.Some? && containerPort.value >= 1024 then containerPort.value else FLOOR
  }

  /** The busy ports at or above `p`: what a search from `p` may still run into. */
  function Ahead(p: int, busy: set<int>): set<int> {
    set b | b in busy && b >= p
  }

  /** The first port at or above `p` that is not busy. */
  function LeastFree(p: int, busy: set<int>): (q: int)
    ensures p <= q && q !in busy
    ensures forall r :: p <= r < q ==> r in busy
    decreases Ahead(p, busy)
  {
    if p !in busy then p
    else
      assert p in Ahead(p, busy) && p !in Ahead(p + 1, busy);
      LeastFree(p + 1, busy)
  }

  /** Suggest a free host port and add it to the ports taken within this deploy. */
  method Suggest(containerPort: Option<int>, used: set<int>, taken: set<int>) returns (p: int, taken': set<int>)
    ensures p == LeastFree(FloorFor(containerPort), used + taken)
    ensures taken' == taken + {p}
  {
    var floor := if containerPort.Some? && containerPort.value >= 1024 then containerPort.value else FLOOR;
    p := floor;
    while p in used || p in taken
      invariant floor <= p
      invariant LeastFree(p, used + taken) == LeastFree(floor, used + taken)
      decreases Ahead(p, used + taken)
    {
      assert p in Ahead(p, used + taken) && p !in Ahead(p + 1, used + taken);
      p := p + 1;
    }
    taken' := taken + {p};
  }

  /** The container port a variable's default stands in for; a missing default counts as zero. */
  function ContainerPortOf(v: Variable, toNumber: string -> Option<int>): Option<int> {
    if v.containerPort.Some? then v.containerPort
    else if v.default.None? then Some(0)
    else toNumber(v.default.value)
  }

  function HostPortVars(vars: seq<Variable>): seq<Variable> {
    if vars == [] then []
    else (if vars[0].role.HostPort? then [vars[0]] else []) + HostPortVars(vars[1..])
  }

  /** One suggestion per host-port variable, in order, each avoiding the earlier ones. */
  function Suggestions(
    vars: seq<Variable>, used: set<int>, taken: set<int>, toNumber: string -> Option<int>): (ports: seq<int>)
    ensures |ports| == |vars|
  {
    if vars == [] then []
    else
      var p := LeastFree(FloorFor(ContainerPortOf(vars[0], toNumber)), used + taken);
      [p] + Suggestions(vars[1..], used, taken + {p}, toNumber)
  }

  lemma {:induction false} Regroup(front: seq<int>, p: int, rest: seq<int>)
    ensures front + ([p] + rest) == front + [p] + rest
  {
  }

  method TargetInfo(
    variables: seq<Variable>, used: set<int>, toNumber: string -> Option<int>) returns (suggested: seq<int>)
    ensures suggested == Suggestions(HostPortVars(variables), used, {}, toNumber)
  {
    var vars := HostPortVars(variables);
    var taken: set<int> := {};
    suggested := [];
    for i := 0 to |vars|
      invariant |suggested| == i
      invariant suggested + Suggestions(vars[i..], used, taken, toNumber) == Suggestions(vars, used, {}, toNumber)
    {
      var p;
      assert vars[i..][1..] == vars[i + 1..] && vars[i..][0] == vars[i];
      p, taken := Suggest(ContainerPortOf(vars[i], toNumber), used, taken);
      Regroup(suggested, p, Suggestions(vars[i + 1..], used, taken, toNumber));
      suggested := suggested + [p];
    }
  }

  /** A batch of suggestions is free, distinct, and each the least its predecessors leave open. */
  lemma {:induction false} SuggestionsAreFree(
    vars: seq<Variable>, used: set<int>, taken: set<int>, toNumber: string -> Option<int>)
    ensures var ports := Suggestions(vars, used, taken, toNumber);
            && (forall i :: 0 <= i < |ports| ==> ports[i] !in used && ports[i] !in taken && ports[i] >= 1024)
            && (forall i, j :: 0 <= i < j < |ports| ==> ports[i] != ports[j])
            && (forall i :: 0 <= i < |ports| ==>
                  LeastOpen(FloorFor(ContainerPortOf(vars[i], toNumber)), ports[i], used + taken, ports[..i]))
  {
    if vars != [] {
      var p := LeastFree(FloorFor(ContainerPortOf(vars[0], toNumber)), used + taken);
      var rest := Suggestions(vars[1..], used, taken + {p}, toNumber);
      var ports := Suggestions(vars, used, taken, toNumber);
      SuggestionsAreFree(vars[1..], used, taken + {p}, toNumber);
      forall i | 0 <= i < |ports|
        ensures LeastOpen(FloorFor(ContainerPortOf(vars[i], toNumber)), ports[i], used + taken, ports[..i])
      {
        if i > 0 {
          assert ports[i] == rest[i - 1] && vars[i] == vars[1..][i - 1];
          assert LeastOpen(FloorFor(ContainerPortOf(vars[i], toNumber)), ports[i], used + (taken + {p}), rest[..i - 1]);
          assert ports[..i] == [p] + rest[..i - 1];
        }
      }
    }
  }

  /** `p` is the least number from `floor` up that is neither busy nor given out earlier. */
  ghost predicate LeastOpen(floor: int, p: int, busy: set<int>, earlier: seq<int>) {
    && floor <= p && p !in busy && p !in earlier
    && forall q :: floor <= q < p ==> q in busy || q in earlier
  }

  // ---------------------------------------------------------------- resolving

  datatype Resolved = Ports(ports: seq<Port>) | InvalidHostPort(variable: string)

  predicate ValidPort(p: Option<int>) {
    p.Some? && 1 <= p.value <= MAX_PORT
  }

  /** The operator's choice, else the default, else the container port. */
  function HostPortOf(v: Variable, chosen: map<string, int>, toNumber: string -> Option<int>): Option<int> {
    if v.name in chosen then Some(chosen[v.name])
    else if v.default.Some? then toNumber(v.default.value)
    else ContainerPortOf(v, toNumber)
  }

  function PublishedPort(v: Variable, hostPort: int, toNumber: string -> Option<int>): Port {
    Port(if v.service.Some? then v.service.value else "app", Some(v.name), hostPort,
         ContainerPortOf(v, toNumber), Published, true, None, None)
  }

  /** A host-network port that follows an env var takes that var's value when it is a valid port. */
  function FixedHostPort(p: FixedPort, values: map<string, string>, toNumber: string -> Option<int>): int {
    if p.mode.HostNetwork? && p.variable.Some? && p.variable.value != "" && p.variable.value in values
       && ValidPort(toNumber(values[p.variable.value]))
    then toNumber(values[p.variable.value]).value
    else p.hostPort
  }

  function FixedAsPort(p: FixedPort, values: map<string, string>, toNumber: string -> Option<int>): Port {
    Port(if p.service.Some? then p.service.value else "app", p.variable, FixedHostPort(p, values, toNumber),
         Some(p.containerPort), p.mode, p.adjustable, p.hostPortEnd, Some(p.protocol))
  }

  function ResolveVars(vars: seq<Variable>, chosen: map<string, int>, toNumber: string -> Option<int>): Resolved {
    if vars == [] then Ports([])
    else
      var n := |vars| - 1;
      match ResolveVars(vars[..n], chosen, toNumber)
      case InvalidHostPort(name) => InvalidHostPort(name)
      case Ports(ports) =>
        var hostPort := HostPortOf(vars[n], chosen, toNumber);
        if !ValidPort(hostPort) then InvalidHostPort(vars[n].name)
        else Ports(ports + [PublishedPort(vars[n], hostPort.value, toNumber)])
  }

  function ResolveFixed(
    fixed: seq<FixedPort>, values: map<string, string>, toNumber: string -> Option<int>): seq<Port>
  {
    if fixed == [] then []
    else
      var n := |fixed| - 1;
      ResolveFixed(fixed[..n], values, toNumber) + [FixedAsPort(fixed[n], values, toNumber)]
  }

  function Resolve(variables: seq<Variable>, fixed: seq<FixedPort>, chosen: map<string, int>,
                   values: map<string, string>, toNumber: string -> Option<int>): Resolved {
    match ResolveVars(HostPortVars(variables), chosen, toNumber)
    case InvalidHostPort(name) => InvalidHostPort(name)
    case Ports(ports) => Ports(ports + ResolveFixed(fixed, values, toNumber))
  }

  method ResolvePorts(variables: seq<Variable>, fixed: seq<FixedPort>, chosen: map<string, int>,
                      values: map<string, string>, toNumber: string -> Option<int>) returns (r: Resolved)
    ensures r == Resolve(variables, fixed, chosen, values, toNumber)
  {
    r := ResolveVariables(HostPortVars(variables), chosen, toNumber);
    if r.Ports? {
      var rest := ResolveFixedPorts(fixed, values, toNumber);
      r := Ports(r.ports + rest);
    }
  }

  method ResolveVariables(
    vars: seq<Variable>, chosen: map<string, int>, toNumber: string -> Option<int>) returns (r: Resolved)
    ensures r == ResolveVars(vars, chosen, toNumber)
  {
    var out: seq<Port> := [];
    for i := 0 to |vars|
      invariant ResolveVars(vars[..i], chosen, toNumber) == Ports(out)
    {
      assert vars[..i + 1][..i] == vars[..i];
      var hostPort := HostPortOf(vars[i], chosen, toNumber);
      if !ValidPort(hostPort) {
        InvalidStays(vars, i + 1, chosen, toNumber);
        return InvalidHostPort(vars[i].name);
      }
      out := out + [PublishedPort(vars[i], hostPort.value, toNumber)];
    }
    assert vars[..|vars|] == vars;
    return Ports(out);
  }

  method ResolveFixedPorts(
    fixed: seq<FixedPort>, values: map<string, string>, toNumber: string -> Option<int>) returns (out: seq<Port>)
    ensures out == ResolveFixed(fixed, values, toNumber)
  {
    out := [];
    for i := 0 to |fixed|
      invariant out == ResolveFixed(fixed[..i], values, toNumber)
    {
      assert fixed[..i + 1][..i] == fixed[..i];
      var p := fixed[i];
      var hostPort := p.hostPort;
      if p.mode.HostNetwork? && p.variable.Some? && p.variable.value != "" {
        var chosenVal := if p.variable.value in values then toNumber(values[p.variable.value]) else Some(p.hostPort);
        if ValidPort(chosenVal) {
          hostPort := chosenVal.value;
        }
      }
      out := out + [Port(if p.service.Some? then p.service.value else "app", p.variable, hostPort,
                         Some(p.containerPort), p.mode, p.adjustable, p.hostPortEnd, Some(p.protocol))];
    }
    assert fixed[..|fixed|] == fixed;
  }

  /** Once one variable's port is refused, the whole list is, with that variable named. */
  lemma {:induction false} InvalidStays(
    vars: seq<Variable>, i: nat, chosen: map<string, int>, toNumber: string -> Option<int>)
    requires i <= |vars| && ResolveVars(vars[..i], chosen, toNumber).InvalidHostPort?
    ensures ResolveVars(vars, chosen, toNumber) == ResolveVars(vars[..i], chosen, toNumber)
    decreases |vars|
  {
    if i == |vars| {
      assert vars[..i] == vars;
    } else {
      var n := |vars| - 1;
      assert vars[..n][..i] == vars[..i];
      InvalidStays(vars[..n], i, chosen, toNumber);
    }
  }

  // ---------------------------------------------------------------- preflight

  datatype Reason = AssignedTwice | HostNetworkBusy(follows: Option<string>) | HardcodedBusy | Busy

  datatype Conflict = Conflict(hostPort: int, reason: Reason)

  function ReasonFor(p: Port): Reason {
    if p.mode.HostNetwork? then HostNetworkBusy(p.variable)
    else if !p.adjustable then HardcodedBusy
    else Busy
  }

  /** The conflicts found in order; `seen` are the host ports of the list so far. */
  function Conflicts(ports: seq<Port>, used: set<int>): seq<Conflict> {
    if ports == [] then []
    else
      var n := |ports| - 1;
      var p := ports[n];
      Conflicts(ports[..n], used)
        + if p.hostPort in HostPortSet(ports[..n]) then [Conflict(p.hostPort, AssignedTwice)]
          else if p.hostPort in used then [Conflict(p.hostPort, ReasonFor(p))]
          else []
  }

  function HostPortSet(ports: seq<Port>): set<int> {
    set p | p in ports :: p.hostPort
  }

  /** The port preflight of a deploy: an empty list means it may go ahead. */
  method PreflightPorts(portList: seq<Port>, usedOnHost: set<int>, exclude: set<int>) returns (conflicts: seq<Conflict>)
    ensures conflicts == Conflicts(portList, usedOnHost - exclude)
  {
    var used := usedOnHost - exclude;
    var seen: set<int> := {};
    conflicts := [];
    for i := 0 to |portList|
      invariant seen == HostPortSet(portList[..i])
      invariant conflicts == Conflicts(portList[..i], used)
    {
      var p := portList[i];
      assert portList[..i + 1][..i] == portList[..i];
      assert portList[..i + 1] == portList[..i] + [p];
      if p.hostPort in seen {
        conflicts := conflicts + [Conflict(p.hostPort, AssignedTwice)];
      } else {
        seen := seen + {p.hostPort};
        if p.hostPort in used {
          conflicts := conflicts + [Conflict(p.hostPort, ReasonFor(p))];
        }
      }
    }
    assert portList[..|portList|] == portList;
  }

  ghost predicate DistinctAndFree(ports: seq<Port>, used: set<int>) {
    && (forall i, j :: 0 <= i < j < |ports| ==> ports[i].hostPort != ports[j].hostPort)
    && (forall i :: 0 <= i < |ports| ==> ports[i].hostPort !in used)
  }

  /** The preflight passes exactly when the host ports are pairwise distinct and none is in use. */
  lemma {:induction false} PreflightExactly(ports: seq<Port>, used: set<int>)
    ensures Conflicts(ports, used) == [] <==> DistinctAndFree(ports, used)
  {
    if ports != [] {
      PreflightExactly(ports[..|ports| - 1], used);
      DistinctAndFreeSnoc(ports, used);
    }
  }

  lemma {:induction false} DistinctAndFreeSnoc(ports: seq<Port>, used: set<int>)
    requires ports != []
    ensures var n := |ports| - 1;
            DistinctAndFree(ports, used)
            <==> DistinctAndFree(ports[..n], used) && ports[n].hostPort !in HostPortSet(ports[..n])
                 && ports[n].hostPort !in used
  {
  }

  // ---------------------------------------------------------------- suggestions pass the preflight

  /** The operator accepts every suggestion. */
  function Accepted(vars: seq<Variable>, suggested: seq<int>): map<string, int>
    requires |vars| == |suggested|
  {
    if vars == [] then map[]
    else
      var n := |vars| - 1;
      Accepted(vars[..n], suggested[..n])[vars[n].name := suggested[n]]
  }

  lemma {:induction false} AcceptedAt(vars: seq<Variable>, suggested: seq<int>)
    requires |vars| == |suggested| && DistinctNames(vars)
    ensures forall i :: 0 <= i < |vars| ==>
              vars[i].name in Accepted(vars, suggested) && Accepted(vars, suggested)[vars[i].name] == suggested[i]
  {
    if vars != [] {
      var n := |vars| - 1;
      AcceptedAt(vars[..n], suggested[..n]);
      forall i | 0 <= i < n
        ensures vars[i].name in Accepted(vars, suggested) && Accepted(vars, suggested)[vars[i].name] == suggested[i]
      {
        assert vars[..n][i] == vars[i] && suggested[..n][i] == suggested[i];
      }
    }
  }

  ghost predicate AllPortNumbers(ports: seq<int>) {
    forall i :: 0 <= i < |ports| ==> 1 <= ports[i] <= MAX_PORT
  }

  lemma {:induction false} ResolveAccepted(
    vars: seq<Variable>, suggested: seq<int>, chosen: map<string, int>, toNumber: string -> Option<int>)
    requires |vars| == |suggested|
    requires forall i :: 0 <= i < |vars| ==> vars[i].name in chosen && chosen[vars[i].name] == suggested[i]
    ensures var r := ResolveVars(vars, chosen, toNumber);
            && (r.Ports? <==> AllPortNumbers(suggested))
            && (r.Ports? ==> |r.ports| == |vars|)
            && (r.Ports? ==> forall i :: 0 <= i < |vars| ==>
                  r.ports[i].hostPort == suggested[i] && r.ports[i].variable == Some(vars[i].name))
  {
    if vars != [] {
      var n := |vars| - 1;
      ResolveAccepted(vars[..n], suggested[..n], chosen, toNumber);
      assert suggested == suggested[..n] + [suggested[n]];
    }
  }

  /**
   * Deploying with the whole batch of suggestions, no fixed ports and an unchanged host, resolves
   * exactly when every suggestion is a port number, and then the preflight finds no conflict.
   */
  lemma {:induction false} SuggestionsPassPreflight(
    variables: seq<Variable>, used: set<int>, values: map<string, string>,
    toNumber: string -> Option<int>)
    requires DistinctNames(HostPortVars(variables))
    ensures var vars := HostPortVars(variables);
            var suggested := Suggestions(vars, used, {}, toNumber);
            var r := Resolve(variables, [], Accepted(vars, suggested), values, toNumber);
            && (r.Ports? <==> forall i :: 0 <= i < |suggested| ==> suggested[i] <= MAX_PORT)
            && (r.Ports? ==> |r.ports| == |vars| && Conflicts(r.ports, used) == [])
  {
    var vars := HostPortVars(variables);
    var suggested := Suggestions(vars, used, {}, toNumber);
    SuggestionsAreFree(vars, used, {}, toNumber);
    BatchPasses(vars, suggested, used, toNumber);
    var r := ResolveVars(vars, Accepted(vars, suggested), toNumber);
    if r.Ports? {
      assert r.ports + ResolveFixed([], values, toNumber) == r.ports;
    }
  }

  lemma {:induction false} BatchPasses(
    vars: seq<Variable>, chosen: seq<int>, used: set<int>, toNumber: string -> Option<int>)
    requires |vars| == |chosen| && DistinctNames(vars)
    requires forall i :: 0 <= i < |chosen| ==> chosen[i] !in used && chosen[i] >= 1
    requires forall i, j :: 0 <= i < j < |chosen| ==> chosen[i] != chosen[j]
    ensures var r := ResolveVars(vars, Accepted(vars, chosen), toNumber);
            && (r.Ports? <==> forall i :: 0 <= i < |chosen| ==> chosen[i] <= MAX_PORT)
            && (r.Ports? ==> |r.ports| == |vars| && Conflicts(r.ports, used) == [])
  {
    AcceptedAt(vars, chosen);
    ResolveAccepted(vars, chosen, Accepted(vars, chosen), toNumber);
    var r := ResolveVars(vars, Accepted(vars, chosen), toNumber);
    if r.Ports? {
      PreflightExactly(r.ports, used);
    }
  }
}
