/**
 * Refreshing a registered app (replicator.service.ts): variables and fixed ports as read from its
 * source are merged onto the stored ones, and the proposal is stored again by an update.
 */
module RefreshSchema {
  import opened Wrappers
  import opened Replicator
  import opened ComposeIntrospect
  import opened ComposeLaws
  import opened EnvFileVars
  import D = Dotenv
  import M = SchemaMerge

  // ---------------------------------------------------------------- fixed ports

  predicate ValidPort(n: int) {
    1 <= n <= 65535
  }

  predicate Usable(p: FixedPort) {
    ValidPort(p.containerPort) && ValidPort(p.hostPort)
  }

  /** A range must not end before it starts; only a port that follows a variable is adjustable. */
  function SanitizePort(p: FixedPort): FixedPort {
    var end := if p.hostPortEnd.Some? && ValidPort(p.hostPortEnd.value) && p.hostPortEnd.value >= p.hostPort
               then p.hostPortEnd else None;
    var variable := if p.variable.Some? && IsIdentifier(p.variable.value) then p.variable else None;
    p.(hostPortEnd := end, variable := variable,
       adjustable := if p.mode.HostNetwork? then variable.Some? else p.adjustable && variable.Some?,
       source := if p.source.Manual? then Manual else Compose)
  }

  function SanitizeHead(p: FixedPort): seq<FixedPort> {
    if Usable(p) then [SanitizePort(p)] else []
  }

  function SanitizePorts(ports: seq<FixedPort>): seq<FixedPort> {
    if ports == [] then [] else SanitizePorts(ports[..|ports| - 1]) + SanitizeHead(ports[|ports| - 1])
  }

  /** Hand-added ports that no fresh port counts as one with. */
  function ManualPorts(existing: seq<FixedPort>, incoming: seq<FixedPort>): seq<FixedPort> {
    if existing == [] then []
    else
      var p := existing[|existing| - 1];
      ManualPorts(existing[..|existing| - 1], incoming) + if p.source.Manual? && !Covers(incoming, p) then [p] else []
  }

  function MergePorts(existing: seq<FixedPort>, incoming: seq<FixedPort>): seq<FixedPort> {
    SanitizePorts(incoming + ManualPorts(existing, incoming))
  }

  method SanitizeFixedPorts(ports: seq<FixedPort>) returns (out: seq<FixedPort>)
    ensures out == SanitizePorts(ports)
  {
    out := [];
    for i := 0 to |ports|
      invariant out == SanitizePorts(ports[..i])
    {
      assert ports[..i + 1][..i] == ports[..i];
      var p := ports[i];
      if !Usable(p) {
        continue;
      }
      var end := if p.hostPortEnd.Some? && ValidPort(p.hostPortEnd.value) && p.hostPortEnd.value >= p.hostPort
                 then p.hostPortEnd else None;
      var variable := if p.variable.Some? && IsIdentifier(p.variable.value) then p.variable else None;
      var adjustable := if p.mode.HostNetwork? then variable.Some? else p.adjustable && variable.Some?;
      out := out + [FixedPort(p.service, p.containerPort, p.hostPort, end, p.mode, p.protocol, variable, adjustable,
                              if p.source.Manual? then Manual else Compose)];
    }
    assert ports[..|ports|] == ports;
  }

  // ---------------------------------------------------------------- a refresh

  /** Where an app's compose file comes from: pasted in, or a repository with the env files found in it. */
  datatype Origin = Pasted(text: string) | Repo(text: string, files: seq<EnvFile>)

  datatype Stored = Stored(variables: seq<Variable>, fixedPorts: seq<FixedPort>)

  datatype Proposal = Proposal(variables: seq<Variable>, fixedPorts: seq<FixedPort>, diff: M.Diff)

  function ReadVars(r: Reader, origin: Origin): seq<Variable> {
    match origin
    case Pasted(text) => Introspected(r, D.NormalNewlines(text)).variables
    case Repo(text, files) => RepoVars(r, text, files)
  }

  function ReadPorts(r: Reader, origin: Origin): seq<FixedPort> {
    match origin
    case Pasted(text) => Introspected(r, D.NormalNewlines(text)).fixedPorts
    case Repo(text, _) => Introspected(r, text).fixedPorts
  }

  function Refreshed(r: Reader, origin: Origin, stored: Stored): Proposal {
    var (variables, diff) := M.Merge(stored.variables, ReadVars(r, origin));
    Proposal(variables, MergePorts(stored.fixedPorts, ReadPorts(r, origin)), diff)
  }

  /** What an update with a proposal stores. */
  function Updated(p: Proposal): Stored {
    Stored(M.Sanitize(p.variables), SanitizePorts(p.fixedPorts))
  }

  // ---------------------------------------------------------------- ports settle

  lemma {:induction false} SanitizePortsConcat(a: seq<FixedPort>, b: seq<FixedPort>)
    ensures SanitizePorts(a + b) == SanitizePorts(a) + SanitizePorts(b)
  {
    if b == [] {
      assert a + b == a;
    } else {
      var n := |b| - 1;
      assert (a + b)[..|a + b| - 1] == a + b[..n];
      SanitizePortsConcat(a, b[..n]);
    }
  }

  lemma {:induction false} SanitizedHead(p: FixedPort)
    ensures SanitizePorts(SanitizeHead(p)) == SanitizeHead(p)
  {
    if Usable(p) {
      assert [SanitizePort(p)][..0] == [];
      assert SanitizePorts([SanitizePort(p)]) == SanitizePorts([]) + SanitizeHead(SanitizePort(p));
    }
  }

  lemma {:induction false} SanitizePortsIdempotent(ports: seq<FixedPort>)
    ensures SanitizePorts(SanitizePorts(ports)) == SanitizePorts(ports)
  {
    if ports != [] {
      var n := |ports| - 1;
      SanitizePortsIdempotent(ports[..n]);
      SanitizePortsConcat(SanitizePorts(ports[..n]), SanitizeHead(ports[n]));
      SanitizedHead(ports[n]);
    }
  }

  /** A stored list: every port is usable and sanitized already. */
  predicate PortsClean(ports: seq<FixedPort>) {
    forall i :: 0 <= i < |ports| ==> Usable(ports[i]) && SanitizePort(ports[i]) == ports[i]
  }

  lemma {:induction false} SanitizedIsClean(ports: seq<FixedPort>)
    ensures PortsClean(SanitizePorts(ports))
  {
    if ports != [] { SanitizedIsClean(ports[..|ports| - 1]); }
  }

  lemma {:induction false} CleanIsSanitized(ports: seq<FixedPort>)
    requires PortsClean(ports)
    ensures SanitizePorts(ports) == ports
  {
    if ports != [] { CleanIsSanitized(ports[..|ports| - 1]); }
  }

  /** The hand-added ports of a stored list are of that list, and none counts as one with a fresh one. */
  lemma {:induction false} ManualPortsMembers(existing: seq<FixedPort>, incoming: seq<FixedPort>, p: FixedPort)
    ensures p in ManualPorts(existing, incoming) <==> p in existing && p.source.Manual? && !Covers(incoming, p)
  {
    if existing != [] {
      ManualPortsMembers(existing[..|existing| - 1], incoming, p);
      assert existing == existing[..|existing| - 1] + [existing[|existing| - 1]];
    }
  }

  lemma {:induction false} ManualPortsConcat(a: seq<FixedPort>, b: seq<FixedPort>, incoming: seq<FixedPort>)
    ensures ManualPorts(a + b, incoming) == ManualPorts(a, incoming) + ManualPorts(b, incoming)
  {
    if b == [] {
      assert a + b == a;
    } else {
      var n := |b| - 1;
      assert (a + b)[..|a + b| - 1] == a + b[..n];
      ManualPortsConcat(a, b[..n], incoming);
    }
  }

  lemma {:induction false} NoManualPorts(ports: seq<FixedPort>, incoming: seq<FixedPort>)
    requires forall i :: 0 <= i < |ports| ==> ports[i].source.Compose?
    ensures ManualPorts(SanitizePorts(ports), incoming) == []
  {
    if ports != [] {
      var n := |ports| - 1;
      NoManualPorts(ports[..n], incoming);
      ManualPortsConcat(SanitizePorts(ports[..n]), SanitizeHead(ports[n]), incoming);
      NoManualHead(ports[n], incoming);
    }
  }

  lemma {:induction false} NoManualHead(p: FixedPort, incoming: seq<FixedPort>)
    requires p.source.Compose?
    ensures ManualPorts(SanitizeHead(p), incoming) == []
  {
    if Usable(p) {
      assert [SanitizePort(p)][..0] == [];
      assert ManualPorts([], incoming) == [];
    }
  }

  lemma {:induction false} AllManualPorts(ports: seq<FixedPort>, incoming: seq<FixedPort>)
    requires forall i :: 0 <= i < |ports| ==> ports[i].source.Manual? && !Covers(incoming, ports[i])
    ensures ManualPorts(ports, incoming) == ports
  {
    if ports != [] { AllManualPorts(ports[..|ports| - 1], incoming); }
  }

  lemma {:induction false} KeptManualPorts(existing: seq<FixedPort>, incoming: seq<FixedPort>)
    requires PortsClean(existing)
    ensures var manual := ManualPorts(existing, incoming);
            SanitizePorts(manual) == manual && ManualPorts(manual, incoming) == manual
  {
    var manual := ManualPorts(existing, incoming);
    forall i | 0 <= i < |manual|
      ensures manual[i].source.Manual? && !Covers(incoming, manual[i])
      ensures Usable(manual[i]) && SanitizePort(manual[i]) == manual[i]
    {
      ManualPortsMembers(existing, incoming, manual[i]);
      assert manual[i] in manual;
    }
    CleanIsSanitized(manual);
    AllManualPorts(manual, incoming);
  }

  /** Merging the same fresh ports onto the merged list changes nothing. */
  lemma {:induction false} PortsSettle(existing: seq<FixedPort>, incoming: seq<FixedPort>)
    requires PortsClean(existing) && forall i :: 0 <= i < |incoming| ==> incoming[i].source.Compose?
    ensures MergePorts(MergePorts(existing, incoming), incoming) == MergePorts(existing, incoming)
  {
    var manual := ManualPorts(existing, incoming);
    KeptManualPorts(existing, incoming);
    SanitizePortsConcat(incoming, manual);
    assert MergePorts(existing, incoming) == SanitizePorts(incoming) + manual;
    ManualPortsConcat(SanitizePorts(incoming), manual, incoming);
    NoManualPorts(incoming, incoming);
    assert ManualPorts(MergePorts(existing, incoming), incoming) == [] + manual == manual;
  }

  lemma {:induction false} SanitizePortsMembers(ports: seq<FixedPort>, q: FixedPort)
    ensures q in SanitizePorts(ports) <==> exists p :: p in ports && Usable(p) && q == SanitizePort(p)
  {
    if ports != [] {
      SanitizePortsMembers(ports[..|ports| - 1], q);
      assert ports == ports[..|ports| - 1] + [ports[|ports| - 1]];
    }
  }

  /** A port of a merged list is a usable fresh one or a hand-added one that no fresh port stands for. */
  lemma {:induction false} MergedPortsExactly(existing: seq<FixedPort>, incoming: seq<FixedPort>, q: FixedPort)
    requires PortsClean(existing)
    ensures q in MergePorts(existing, incoming) <==>
              || (exists p :: p in incoming && Usable(p) && q == SanitizePort(p))
              || (q in existing && q.source.Manual? && !Covers(incoming, q))
  {
    var manual := ManualPorts(existing, incoming);
    KeptManualPorts(existing, incoming);
    SanitizePortsConcat(incoming, manual);
    SanitizePortsMembers(incoming, q);
    ManualPortsMembers(existing, incoming, q);
  }

  // ---------------------------------------------------------------- a refresh settles

  lemma {:induction false} ReadIsWellFormed(r: Reader, origin: Origin)
    ensures DistinctNames(ReadVars(r, origin)) && M.Refreshable(ReadVars(r, origin))
    ensures forall i :: 0 <= i < |ReadPorts(r, origin)| ==> ReadPorts(r, origin)[i].source.Compose?
  {
    match origin
    case Pasted(text) => IntrospectionIsWellFormed(r, D.NormalNewlines(text));
    case Repo(text, files) =>
      IntrospectionIsWellFormed(r, text);
      RepoSchemaIsWellFormed(r, text, files);
  }

  lemma {:induction false} MergedIsSanitized(existing: seq<Variable>, incoming: seq<Variable>)
    ensures M.Sanitize(M.Merge(existing, incoming).0) == M.Merge(existing, incoming).0
  {
    M.SanitizeIdempotent(M.MergeFresh(existing, incoming) + M.ManualOf(existing, M.NameSet(incoming)));
  }

  /**
   * For every app, pasted or in a repository with any env files, whatever is stored: once a refresh's
   * proposal is stored, refreshing again proposes the same and reports nothing.
   */
  lemma {:induction false} RefreshSettles(r: Reader, origin: Origin, stored: Stored)
    requires PortsClean(stored.fixedPorts)
    ensures var proposal := Refreshed(r, origin, stored);
            && Refreshed(r, origin, Updated(proposal)) == proposal.(diff := M.EMPTY_DIFF)
            && Updated(proposal) == Stored(proposal.variables, proposal.fixedPorts)
            && PortsClean(Updated(proposal).fixedPorts)
  {
    var incoming, ports := ReadVars(r, origin), ReadPorts(r, origin);
    ReadIsWellFormed(r, origin);
    MergedIsSanitized(stored.variables, incoming);
    M.RefreshIsIdempotent(stored.variables, incoming);
    SanitizePortsIdempotent(ports + ManualPorts(stored.fixedPorts, ports));
    SanitizedIsClean(MergePorts(stored.fixedPorts, ports));
    PortsSettle(stored.fixedPorts, ports);
  }
}
