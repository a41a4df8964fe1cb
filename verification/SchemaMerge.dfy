/**
 * Refreshing an app's variable schema (apps/server/src/app-replicator/replicator.service.ts):
 * a freshly read schema is merged onto the stored one, keeping what the operator decided.
 */
module SchemaMerge {
  import opened Wrappers
  import opened Replicator

  const MAX_COMMENT: nat := 400

  datatype RoleChange = RoleChange(name: string, from: Role, to: Role)

  datatype Diff = Diff(added: seq<string>, removed: seq<string>, roleChanged: seq<RoleChange>)

  const EMPTY_DIFF := Diff([], [], [])

  // ---------------------------------------------------------------- sanitizing

  function SanitizeOne(v: Variable): Variable {
    var secret := v.role.Secret? || (v.role.Plain? && v.secret);
    v.(secret := secret,
       source := Some(if v.source.Some? then v.source.value else Compose),
       comment := if v.comment.Some? && |v.comment.value| > MAX_COMMENT
                  then Some(v.comment.value[..MAX_COMMENT]) else v.comment,
       role := if secret && v.role.Plain? then Secret else v.role)
  }

  function SanitizeHead(v: Variable): seq<Variable> {
    if IsIdentifier(v.name) then [SanitizeOne(v)] else []
  }

  /** The well-named variables, role and secret flag made to agree. */
  function Sanitize(vars: seq<Variable>): seq<Variable> {
    if vars == [] then [] else SanitizeHead(vars[0]) + Sanitize(vars[1..])
  }

  // ---------------------------------------------------------------- merging

  /** The stored variable of that name; of several, the last. */
  function PrevOf(existing: seq<Variable>, name: string): Option<Variable> {
    if existing == [] then None
    else if existing[|existing| - 1].name == name then Some(existing[|existing| - 1])
    else PrevOf(existing[..|existing| - 1], name)
  }

  /** The incoming variable, with the operator's secret toggle where both sides allow one. */
  function MergeOne(prev: Option<Variable>, f: Variable): Variable {
    if prev.Some? && f.role.Togglable() && prev.value.role.Togglable() && prev.value.secret != f.secret
    then f.(secret := prev.value.secret, role := if prev.value.secret then Secret else Plain)
    else f
  }

  function MergeFresh(existing: seq<Variable>, incoming: seq<Variable>): (r: seq<Variable>)
    ensures |r| == |incoming|
    ensures forall i :: 0 <= i < |incoming| ==> r[i] == MergeOne(PrevOf(existing, incoming[i].name), incoming[i])
  {
    if incoming == [] then []
    else
      var n := |incoming| - 1;
      MergeFresh(existing, incoming[..n]) + [MergeOne(PrevOf(existing, incoming[n].name), incoming[n])]
  }

  function Added(existing: seq<Variable>, incoming: seq<Variable>): seq<string> {
    if incoming == [] then []
    else
      var n := |incoming| - 1;
      Added(existing, incoming[..n]) + if PrevOf(existing, incoming[n].name).None? then [incoming[n].name] else []
  }

  function RoleChanges(existing: seq<Variable>, incoming: seq<Variable>): seq<RoleChange> {
    if incoming == [] then []
    else
      var n := |incoming| - 1;
      var prev := PrevOf(existing, incoming[n].name);
      var merged := MergeOne(prev, incoming[n]);
      RoleChanges(existing, incoming[..n])
        + if prev.Some? && merged.role != prev.value.role
          then [RoleChange(incoming[n].name, prev.value.role, merged.role)] else []
  }

  /** Hand-added variables the fresh schema does not name. */
  function ManualOf(existing: seq<Variable>, freshNames: set<string>): seq<Variable> {
    if existing == [] then []
    else (if existing[0].source == Some(Manual) && existing[0].name !in freshNames then [existing[0]] else [])
         + ManualOf(existing[1..], freshNames)
  }

  function Removed(existing: seq<Variable>, freshNames: set<string>, kept: set<string>): seq<string> {
    if existing == [] then []
    else (if existing[0].name !in freshNames && existing[0].name !in kept then [existing[0].name] else [])
         + Removed(existing[1..], freshNames, kept)
  }

  function NameSet(vars: seq<Variable>): set<string> {
    set v | v in vars :: v.name
  }

  function Merge(existing: seq<Variable>, incoming: seq<Variable>): (seq<Variable>, Diff) {
    var manual := ManualOf(existing, NameSet(incoming));
    (Sanitize(MergeFresh(existing, incoming) + manual),
     Diff(Added(existing, incoming), Removed(existing, NameSet(incoming), NameSet(manual)),
       RoleChanges(existing, incoming)))
  }

  /** The merge as the service runs it: one pass over the fresh list, collecting the differences. */
  method MergeSchema(existing: seq<Variable>, incoming: seq<Variable>) returns (variables: seq<Variable>, diff: Diff)
    ensures (variables, diff) == Merge(existing, incoming)
  {
    var added: seq<string> := [];
    var roleChanged: seq<RoleChange> := [];
    var merged: seq<Variable> := [];
    for i := 0 to |incoming|
      invariant merged == MergeFresh(existing, incoming[..i])
      invariant added == Added(existing, incoming[..i])
      invariant roleChanged == RoleChanges(existing, incoming[..i])
    {
      var f := incoming[i];
      assert incoming[..i + 1][..i] == incoming[..i];
      var prev := PrevOf(existing, f.name);
      if prev.None? {
        added := added + [f.name];
        merged := merged + [f];
      } else {
        var m := f;
        if f.role.Togglable() && prev.value.role.Togglable() && prev.value.secret != f.secret {
          m := f.(secret := prev.value.secret, role := if prev.value.secret then Secret else Plain);
        }
        if m.role != prev.value.role {
          roleChanged := roleChanged + [RoleChange(f.name, prev.value.role, m.role)];
        }
        merged := merged + [m];
      }
    }
    assert incoming[..|incoming|] == incoming;
    var manual := ManualOf(existing, NameSet(incoming));
    variables := Sanitize(merged + manual);
    diff := Diff(added, Removed(existing, NameSet(incoming), NameSet(manual)), roleChanged);
  }

  // ---------------------------------------------------------------- facts about the parts

  lemma {:induction false} SanitizeConcat(a: seq<Variable>, b: seq<Variable>)
    ensures Sanitize(a + b) == Sanitize(a) + Sanitize(b)
  {
    if a == [] {
      assert a + b == b;
    } else {
      var all := a + b;
      assert all[0] == a[0] && all[1..] == a[1..] + b;
      SanitizeConcat(a[1..], b);
      var head := SanitizeHead(a[0]);
      assert head + (Sanitize(a[1..]) + Sanitize(b)) == head + Sanitize(a[1..]) + Sanitize(b);
    }
  }

  /** When every name is well formed nothing is dropped. */
  lemma {:induction false} SanitizeKeepsAll(vars: seq<Variable>)
    requires forall i :: 0 <= i < |vars| ==> IsIdentifier(vars[i].name)
    ensures |Sanitize(vars)| == |vars|
    ensures forall i :: 0 <= i < |vars| ==> Sanitize(vars)[i] == SanitizeOne(vars[i])
  {
    if vars != [] { SanitizeKeepsAll(vars[1..]); }
  }

  lemma {:induction false} SanitizeIdempotent(vars: seq<Variable>)
    ensures Sanitize(Sanitize(vars)) == Sanitize(vars)
  {
    if vars != [] {
      SanitizeIdempotent(vars[1..]);
      var head := SanitizeHead(vars[0]);
      SanitizeConcat(head, Sanitize(vars[1..]));
      assert Sanitize(head) == head;
    }
  }

  /** Sanitizing keeps every well-named variable and adds none. */
  lemma {:induction false} SanitizeMembers(vars: seq<Variable>, w: Variable)
    ensures w in Sanitize(vars) <==> exists v :: v in vars && IsIdentifier(v.name) && w == SanitizeOne(v)
  {
    if vars != [] { SanitizeMembers(vars[1..], w); }
  }

  lemma {:induction false} PrevOfMembers(existing: seq<Variable>, name: string)
    ensures PrevOf(existing, name).None? <==> name !in NameSet(existing)
    ensures PrevOf(existing, name).Some? ==>
            PrevOf(existing, name).value in existing && PrevOf(existing, name).value.name == name
  {
    if existing != [] {
      var n := |existing| - 1;
      PrevOfMembers(existing[..n], name);
      assert existing == existing[..n] + [existing[n]];
    }
  }

  lemma {:induction false} ManualMembers(existing: seq<Variable>, freshNames: set<string>, v: Variable)
    ensures v in ManualOf(existing, freshNames) <==> v in existing && v.source == Some(Manual) && v.name !in freshNames
  {
    if existing != [] { ManualMembers(existing[1..], freshNames, v); }
  }

  lemma {:induction false} AddedMembers(existing: seq<Variable>, incoming: seq<Variable>, name: string)
    ensures name in Added(existing, incoming) <==> name in NameSet(incoming) && name !in NameSet(existing)
  {
    if incoming != [] {
      var n := |incoming| - 1;
      AddedMembers(existing, incoming[..n], name);
      PrevOfMembers(existing, incoming[n].name);
      assert incoming == incoming[..n] + [incoming[n]];
    }
  }

  lemma {:induction false} RemovedMembers(
    existing: seq<Variable>, freshNames: set<string>, kept: set<string>, name: string)
    ensures name in Removed(existing, freshNames, kept)
       <==> name in NameSet(existing) && name !in freshNames && name !in kept
  {
    if existing != [] {
      RemovedMembers(existing[1..], freshNames, kept, name);
      assert existing == [existing[0]] + existing[1..];
    }
  }

  // ---------------------------------------------------------------- what a merge reports and keeps

  /** The reported additions and removals are exactly the differences between the name sets. */
  lemma {:induction false} DiffIsNameDifference(existing: seq<Variable>, incoming: seq<Variable>, name: string)
    ensures var diff := Merge(existing, incoming).1;
            && (name in diff.added <==> name in NameSet(incoming) - NameSet(existing))
            && (name in diff.removed <==>
                  name in NameSet(existing) - NameSet(incoming)
                  && !exists v :: v in existing && v.name == name && v.source == Some(Manual))
  {
    AddedMembers(existing, incoming, name);
    var manual := ManualOf(existing, NameSet(incoming));
    RemovedMembers(existing, NameSet(incoming), NameSet(manual), name);
    if name !in NameSet(incoming) {
      if v :| v in existing && v.name == name && v.source == Some(Manual) {
        ManualMembers(existing, NameSet(incoming), v);
      }
      if name in NameSet(manual) {
        var v :| v in manual && v.name == name;
        ManualMembers(existing, NameSet(incoming), v);
      }
    }
  }

  /** A well-named variable the operator added by hand, and the repo does not declare, survives. */
  lemma {:induction false} ManualSurvives(existing: seq<Variable>, incoming: seq<Variable>, v: Variable)
    requires v in existing && v.source == Some(Manual) && IsIdentifier(v.name) && v.name !in NameSet(incoming)
    ensures SanitizeOne(v) in Merge(existing, incoming).0
  {
    ManualMembers(existing, NameSet(incoming), v);
    var all := MergeFresh(existing, incoming) + ManualOf(existing, NameSet(incoming));
    assert v in all;
    SanitizeMembers(all, SanitizeOne(v));
  }

  /** The operator's secret decision on a variable that stays togglable survives the merge. */
  lemma {:induction false} ToggleSurvives(existing: seq<Variable>, incoming: seq<Variable>, i: nat)
    requires FreshOk(incoming) && i < |incoming|
    requires var prev := PrevOf(existing, incoming[i].name);
             prev.Some? && prev.value.role.Togglable() && incoming[i].role.Togglable()
             && (prev.value.role.Secret? <==> prev.value.secret)
    ensures var merged := Merge(existing, incoming).0;
            && i < |merged| && merged[i].name == incoming[i].name
            && merged[i].secret == PrevOf(existing, incoming[i].name).value.secret
            && merged[i].role == (if merged[i].secret then Secret else Plain)
            && merged[i].default == incoming[i].default && merged[i].required == incoming[i].required
  {
    MergeShape(existing, incoming);
  }

  // ---------------------------------------------------------------- the fixed point

  /** What a freshly introspected schema looks like. */
  ghost predicate FreshOk(incoming: seq<Variable>) {
    && DistinctNames(incoming)
    && (forall i :: 0 <= i < |incoming| ==> IsIdentifier(incoming[i].name))
    && (forall i :: 0 <= i < |incoming| ==>
       (incoming[i].role.Secret? ==> incoming[i].secret) && !(incoming[i].role.Plain? && incoming[i].secret))
  }

  /** The weaker condition the fixed point needs: names well formed, no plain variable marked secret. */
  ghost predicate Refreshable(incoming: seq<Variable>) {
    forall i :: 0 <= i < |incoming| ==>
      IsIdentifier(incoming[i].name) && !(incoming[i].role.Plain? && incoming[i].secret)
  }

  /** Merging the merged schema with the same incoming one changes nothing and reports nothing. */
  ghost predicate SecondMergeIsQuiet(existing: seq<Variable>, incoming: seq<Variable>) {
    var once := Merge(existing, incoming).0;
    Merge(once, incoming) == (once, EMPTY_DIFF)
  }

  /** The merged list: the fresh variables in order, each sanitized, then the manual ones. */
  lemma {:induction false} MergeShape(existing: seq<Variable>, incoming: seq<Variable>)
    requires forall i :: 0 <= i < |incoming| ==> IsIdentifier(incoming[i].name)
    ensures var merged := Merge(existing, incoming).0;
            var manual := Sanitize(ManualOf(existing, NameSet(incoming)));
            && |merged| == |incoming| + |manual|
            && (forall i :: 0 <= i < |incoming| ==>
                  merged[i] == SanitizeOne(MergeOne(PrevOf(existing, incoming[i].name), incoming[i])))
            && merged[|incoming|..] == manual
  {
    SanitizeConcat(MergeFresh(existing, incoming), ManualOf(existing, NameSet(incoming)));
    SanitizeKeepsAll(MergeFresh(existing, incoming));
  }

  /** Merging a variable with its own merged form gives that form again, role unchanged. */
  lemma {:induction false} MergeOneTwice(prev: Option<Variable>, f: Variable)
    requires !(f.role.Plain? && f.secret)
    ensures var once := SanitizeOne(MergeOne(prev, f));
            && SanitizeOne(MergeOne(Some(once), f)) == once
            && MergeOne(Some(once), f).role == once.role
            && once.name == f.name
  {
  }

  /** Names after the fresh part of a merged list never clash with incoming names. */
  lemma {:induction false} ManualPartIsForeign(existing: seq<Variable>, freshNames: set<string>)
    ensures var manual := Sanitize(ManualOf(existing, freshNames));
            forall i :: 0 <= i < |manual| ==>
              manual[i].name !in freshNames && manual[i].source == Some(Manual) && IsIdentifier(manual[i].name)
  {
    var raw := ManualOf(existing, freshNames);
    var manual := Sanitize(raw);
    forall i | 0 <= i < |manual|
      ensures manual[i].name !in freshNames && manual[i].source == Some(Manual) && IsIdentifier(manual[i].name)
    {
      SanitizeMembers(raw, manual[i]);
      var v :| v in raw && IsIdentifier(v.name) && manual[i] == SanitizeOne(v);
      ManualMembers(existing, freshNames, v);
    }
  }

  /** In a list of distinct incoming variables followed by foreign ones, a fresh name finds its own entry. */
  lemma {:induction false} PrevOfAt(vars: seq<Variable>, i: nat)
    requires i < |vars| && forall j :: i < j < |vars| ==> vars[j].name != vars[i].name
    ensures PrevOf(vars, vars[i].name) == Some(vars[i])
  {
    if i < |vars| - 1 {
      PrevOfAt(vars[..|vars| - 1], i);
    }
  }

  lemma {:induction false} ManualOfSplit(a: seq<Variable>, b: seq<Variable>, freshNames: set<string>)
    requires forall i :: 0 <= i < |a| ==> a[i].name in freshNames
    requires forall i :: 0 <= i < |b| ==> b[i].source == Some(Manual) && b[i].name !in freshNames
    ensures ManualOf(a + b, freshNames) == b
  {
    if a != [] {
      assert (a + b)[1..] == a[1..] + b;
      ManualOfSplit(a[1..], b, freshNames);
    } else if b != [] {
      assert a + b == b;
      assert b[1..] == [] + b[1..];
      ManualOfSplit([], b[1..], freshNames);
    }
  }

  lemma {:induction false} RemovedSplit(a: seq<Variable>, b: seq<Variable>, freshNames: set<string>, kept: set<string>)
    requires forall i :: 0 <= i < |a| ==> a[i].name in freshNames
    requires forall i :: 0 <= i < |b| ==> b[i].name in kept
    ensures Removed(a + b, freshNames, kept) == []
  {
    if a != [] {
      assert (a + b)[1..] == a[1..] + b;
      RemovedSplit(a[1..], b, freshNames, kept);
    } else if b != [] {
      assert a + b == b;
      assert b[1..] == [] + b[1..];
      RemovedSplit([], b[1..], freshNames, kept);
    }
  }

  lemma {:induction false} NothingAddedOrChanged(once: seq<Variable>, incoming: seq<Variable>)
    requires forall i :: 0 <= i < |incoming| ==>
               var prev := PrevOf(once, incoming[i].name);
               prev.Some? && MergeOne(prev, incoming[i]).role == prev.value.role
    ensures Added(once, incoming) == [] && RoleChanges(once, incoming) == []
  {
    if incoming != [] {
      NothingAddedOrChanged(once, incoming[..|incoming| - 1]);
    }
  }

  /** A merge is the fresh entries, each in its own place, and then manual ones with other names. */
  ghost predicate Parts(once: seq<Variable>, manual: seq<Variable>, incoming: seq<Variable>) {
    && |once| == |incoming| + |manual| && once[|incoming|..] == manual && Sanitize(manual) == manual
    && (forall i :: 0 <= i < |incoming| ==> OwnEntryAt(once, incoming, i))
    && (forall i :: 0 <= i < |manual| ==> manual[i].source == Some(Manual) && manual[i].name !in NameSet(incoming))
  }

  lemma {:induction false} MergedParts(existing: seq<Variable>, incoming: seq<Variable>)
    requires DistinctNames(incoming) && Refreshable(incoming)
    ensures Parts(Merge(existing, incoming).0, Sanitize(ManualOf(existing, NameSet(incoming))), incoming)
  {
    var once := Merge(existing, incoming).0;
    MergeShape(existing, incoming);
    ManualPartIsForeign(existing, NameSet(incoming));
    forall i | 0 <= i < |incoming| ensures OwnEntryAt(once, incoming, i) {
      OwnEntry(existing, incoming, i);
    }
    SanitizeIdempotent(ManualOf(existing, NameSet(incoming)));
  }

  lemma {:induction false} PartsAreQuiet(once: seq<Variable>, manual: seq<Variable>, incoming: seq<Variable>)
    requires Refreshable(incoming) && Parts(once, manual, incoming)
    ensures Merge(once, incoming) == (once, EMPTY_DIFF)
  {
    assert once == once[..|incoming|] + manual;
    QuietOn(once[..|incoming|], manual, once, incoming);
  }

  /** For a refreshable schema with distinct names, a second merge is quiet whatever was stored. */
  lemma {:induction false} RefreshIsIdempotent(existing: seq<Variable>, incoming: seq<Variable>)
    requires DistinctNames(incoming) && Refreshable(incoming)
    ensures SecondMergeIsQuiet(existing, incoming)
  {
    MergedParts(existing, incoming);
    PartsAreQuiet(Merge(existing, incoming).0, Sanitize(ManualOf(existing, NameSet(incoming))), incoming);
  }

  /** A list of the merged fresh entries followed by foreign manual ones merges to itself. */
  lemma {:induction false} QuietOn(
    head: seq<Variable>, manual: seq<Variable>, once: seq<Variable>, incoming: seq<Variable>)
    requires Refreshable(incoming) && once == head + manual && |head| == |incoming|
    requires forall i :: 0 <= i < |incoming| ==> OwnEntryAt(once, incoming, i)
    requires forall i :: 0 <= i < |manual| ==> manual[i].source == Some(Manual) && manual[i].name !in NameSet(incoming)
    requires Sanitize(manual) == manual
    ensures Merge(once, incoming) == (once, EMPTY_DIFF)
  {
    var names := NameSet(incoming);
    forall i | 0 <= i < |head| ensures head[i].name in names {
      assert OwnEntryAt(once, incoming, i);
    }
    ManualOfSplit(head, manual, names);
    forall i | 0 <= i < |manual| ensures manual[i].name in NameSet(manual) {
      assert manual[i] in manual;
    }
    RemovedSplit(head, manual, names, NameSet(manual));
    forall i | 0 <= i < |incoming|
      ensures var prev := PrevOf(once, incoming[i].name);
              prev.Some? && MergeOne(prev, incoming[i]).role == prev.value.role
    {
      assert OwnEntryAt(once, incoming, i);
    }
    NothingAddedOrChanged(once, incoming);
    MergeShape(once, incoming);
    SameList(Merge(once, incoming).0, once, incoming, manual);
  }

  lemma {:induction false} SameList(
    twice: seq<Variable>, once: seq<Variable>, incoming: seq<Variable>, manual: seq<Variable>)
    requires |twice| == |once| == |incoming| + |manual|
    requires twice[|incoming|..] == manual == once[|incoming|..]
    requires forall i :: 0 <= i < |incoming| ==> OwnEntryAt(once, incoming, i)
    requires forall i :: 0 <= i < |incoming| ==>
             twice[i] == SanitizeOne(MergeOne(PrevOf(once, incoming[i].name), incoming[i]))
    ensures twice == once
  {
    forall i | 0 <= i < |once| ensures twice[i] == once[i] {
      if i < |incoming| {
        assert OwnEntryAt(once, incoming, i);
      } else {
        assert twice[i] == twice[|incoming|..][i - |incoming|];
        assert once[i] == once[|incoming|..][i - |incoming|];
      }
    }
  }

  ghost predicate OwnEntryAt(once: seq<Variable>, incoming: seq<Variable>, i: nat)
    requires i < |incoming|
  {
    && i < |once| && once[i].name == incoming[i].name && incoming[i].name in NameSet(incoming)
    && PrevOf(once, incoming[i].name) == Some(once[i])
    && SanitizeOne(MergeOne(Some(once[i]), incoming[i])) == once[i]
    && MergeOne(Some(once[i]), incoming[i]).role == once[i].role
  }

  /** A fresh name finds its own merged entry, which merges to itself. */
  lemma {:induction false} OwnEntry(existing: seq<Variable>, incoming: seq<Variable>, i: nat)
    requires DistinctNames(incoming) && Refreshable(incoming) && i < |incoming|
    ensures OwnEntryAt(Merge(existing, incoming).0, incoming, i)
  {
    var once := Merge(existing, incoming).0;
    MergeShape(existing, incoming);
    ManualPartIsForeign(existing, NameSet(incoming));
    MergeOneTwice(PrevOf(existing, incoming[i].name), incoming[i]);
    assert incoming[i] in incoming;
    forall j | i < j < |once| ensures once[j].name != once[i].name {
      if j < |incoming| {
        assert once[j].name == incoming[j].name;
      } else {
        assert once[j] == once[|incoming|..][j - |incoming|];
      }
    }
    PrevOfAt(once, i);
  }

  /**
   * Refreshing reaches a fixed point from every stored schema exactly when the fresh one has well
   * formed names and marks no plain variable secret.
   */
  lemma {:induction false} FixedPointExactly(incoming: seq<Variable>)
    requires DistinctNames(incoming)
    ensures (forall existing :: SecondMergeIsQuiet(existing, incoming)) <==> Refreshable(incoming)
  {
    if Refreshable(incoming) {
      forall existing ensures SecondMergeIsQuiet(existing, incoming) {
        RefreshIsIdempotent(existing, incoming);
      }
    } else {
      var i :| 0 <= i < |incoming|
        && !(IsIdentifier(incoming[i].name) && !(incoming[i].role.Plain? && incoming[i].secret));
      NoisyRefresh(incoming, i);
      assert !SecondMergeIsQuiet([], incoming);
    }
  }

  lemma {:induction false} FirstMergeOfEmpty(incoming: seq<Variable>)
    ensures Merge([], incoming).0 == Sanitize(incoming)
  {
    assert MergeFresh([], incoming) == incoming;
    assert ManualOf([], NameSet(incoming)) == [];
    assert incoming + [] == incoming;
  }

  /** From an empty store, a malformed name is reported added again, a plain secret as a role change. */
  lemma {:induction false} NoisyRefresh(incoming: seq<Variable>, i: nat)
    requires DistinctNames(incoming) && i < |incoming|
    requires !IsIdentifier(incoming[i].name) || (incoming[i].role.Plain? && incoming[i].secret)
    ensures !SecondMergeIsQuiet([], incoming)
  {
    FirstMergeOfEmpty(incoming);
    if !IsIdentifier(incoming[i].name) {
      MalformedIsAddedAgain(incoming, i);
    } else {
      PlainSecretChangesRole(incoming, i);
    }
  }

  lemma {:induction false} MalformedIsAddedAgain(incoming: seq<Variable>, i: nat)
    requires i < |incoming| && !IsIdentifier(incoming[i].name)
    ensures Added(Sanitize(incoming), incoming) != []
  {
    var once, f := Sanitize(incoming), incoming[i];
    if w :| w in once && w.name == f.name {
      SanitizeMembers(incoming, w);
    }
    assert f in incoming;
    AddedMembers(once, incoming, f.name);
  }

  lemma {:induction false} PlainSecretChangesRole(incoming: seq<Variable>, i: nat)
    requires DistinctNames(incoming) && i < |incoming| && IsIdentifier(incoming[i].name)
    requires incoming[i].role.Plain? && incoming[i].secret
    ensures RoleChanges(Sanitize(incoming), incoming) != []
  {
    var once, f := Sanitize(incoming), incoming[i];
    SanitizeMembers(incoming, SanitizeOne(f));
    PrevOfMembers(once, f.name);
    var prev := PrevOf(once, f.name);
    SanitizeMembers(incoming, prev.value);
    var v :| v in incoming && IsIdentifier(v.name) && prev.value == SanitizeOne(v);
    assert v == f;
    RoleChangeReported(once, incoming, i);
  }

  lemma {:induction false} RoleChangeReported(existing: seq<Variable>, incoming: seq<Variable>, i: nat)
    requires i < |incoming|
    requires var prev := PrevOf(existing, incoming[i].name);
             prev.Some? && MergeOne(prev, incoming[i]).role != prev.value.role
    ensures RoleChanges(existing, incoming) != []
  {
    var n := |incoming| - 1;
    if i < n { RoleChangeReported(existing, incoming[..n], i); }
  }
}
