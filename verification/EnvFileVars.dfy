/**
 * Variables from the env files of a repository, folded into those of its compose file
 * (compose-introspect.ts, repo-introspect.service.ts).
 */
module EnvFileVars {
  import opened Wrappers
  import opened JsText
  import opened Replicator
  import opened StableSort
  import opened ComposeIntrospect
  import opened ComposeLaws
  import D = Dotenv
  import M = SchemaMerge

  const MAX_VARS: nat := 300

  /** An env file that was found: its path in the repository and its text. */
  datatype EnvFile = EnvFile(path: string, text: string)

  // ---------------------------------------------------------------- from entries to variables

  /** A name that looks like a credential keeps no sample value and must be supplied. */
  function EntryVar(r: Reader, e: D.Entry, path: string): Variable {
    var secret := r.looksSecret(e.name);
    Variable(e.name, if secret || e.value == "" then None else Some(e.value), if secret then Secret else Plain,
             None, None, secret, secret, Some(Source.EnvFile), Some(path), e.comment)
  }

  function EntryVars(r: Reader, entries: seq<D.Entry>, path: string): (vars: seq<Variable>)
    ensures |vars| == |entries|
    ensures forall i :: 0 <= i < |entries| ==> vars[i] == EntryVar(r, entries[i], path)
  {
    if entries == [] then [] else [EntryVar(r, entries[0], path)] + EntryVars(r, entries[1..], path)
  }

  // ---------------------------------------------------------------- folding into a schema

  /** A comment that says something. */
  predicate Says(comment: Option<string>) {
    comment.Some? && comment.value != ""
  }

  /** The env file's comment and sample value, where the variable has none of its own. */
  function Filled(v: Variable, e: Variable): Variable {
    var takes := v.role.Togglable() && v.default.None? && e.default.Some?;
    v.(comment := if !Says(v.comment) && Says(e.comment) then e.comment else v.comment,
       default := if takes then e.default else v.default,
       required := v.required && !takes)
  }

  /** A Map entry: in its old place if the name is there, else at the end. */
  function Put(vars: seq<Variable>, v: Variable): seq<Variable> {
    var i := IndexOf(vars, v.name);
    if i == |vars| then vars + [v] else vars[i := v]
  }

  function ByName(vars: seq<Variable>): seq<Variable> {
    if vars == [] then [] else Put(ByName(vars[..|vars| - 1]), vars[|vars| - 1])
  }

  function FoldedOne(vars: seq<Variable>, e: Variable): seq<Variable> {
    var i := IndexOf(vars, e.name);
    if i == |vars| then vars + [e] else vars[i := Filled(vars[i], e)]
  }

  function FoldedIn(vars: seq<Variable>, envVars: seq<Variable>): seq<Variable> {
    if envVars == [] then vars
    else FoldedOne(FoldedIn(vars, envVars[..|envVars| - 1]), envVars[|envVars| - 1])
  }

  function WithEnvVars(r: Reader, vars: seq<Variable>, envVars: seq<Variable>): seq<Variable> {
    Sorted(FormOrder(r), FoldedIn(ByName(vars), envVars))
  }

  /** The fold as the service runs it, over a table by name. */
  method MergeEnvFileVars(r: Reader, composeVars: seq<Variable>, envVars: seq<Variable>) returns (out: seq<Variable>)
    ensures out == WithEnvVars(r, composeVars, envVars)
  {
    var byName := ByName(composeVars);
    for i := 0 to |envVars|
      invariant byName == FoldedIn(ByName(composeVars), envVars[..i])
    {
      assert envVars[..i + 1][..i] == envVars[..i];
      var e := envVars[i];
      var at := IndexOf(byName, e.name);
      if at == |byName| {
        byName := byName + [e];
        continue;
      }
      var existing := byName[at];
      if !Says(existing.comment) && Says(e.comment) {
        existing := existing.(comment := e.comment);
      }
      if existing.role.Togglable() && existing.default.None? && e.default.Some? {
        existing := existing.(default := e.default, required := false);
      }
      byName := byName[at := existing];
    }
    assert envVars[..|envVars|] == envVars;
    out := Sorted(FormOrder(r), byName);
  }

  // ---------------------------------------------------------------- a repository's schema

  function Imported(text: string): seq<D.Entry> {
    var entries := D.Parsed(text);
    if |entries| > MAX_VARS then entries[..MAX_VARS] else entries
  }

  /** The files are folded in the order they were found; one without entries is passed over. */
  function FileVars(r: Reader, files: seq<EnvFile>): seq<Variable> {
    if files == [] then []
    else
      var before, f := FileVars(r, files[..|files| - 1]), files[|files| - 1];
      if Imported(f.text) == [] then before else WithEnvVars(r, before, EntryVars(r, Imported(f.text), f.path))
  }

  method ReadEnvFiles(r: Reader, files: seq<EnvFile>) returns (variables: seq<Variable>)
    ensures variables == FileVars(r, files)
  {
    variables := [];
    for i := 0 to |files|
      invariant variables == FileVars(r, files[..i])
    {
      assert files[..i + 1][..i] == files[..i];
      var entries := Imported(files[i].text);
      if entries == [] {
        continue;
      }
      variables := MergeEnvFileVars(r, variables, EntryVars(r, entries, files[i].path));
    }
    assert files[..|files|] == files;
  }

  function RepoVars(r: Reader, text: string, files: seq<EnvFile>): seq<Variable> {
    WithEnvVars(r, Introspected(r, text).variables, FileVars(r, files))
  }

  // ---------------------------------------------------------------- entries of an env file

  predicate EntriesNamed(entries: seq<D.Entry>) {
    && (forall i :: 0 <= i < |entries| ==> IsIdentifier(entries[i].name))
    && (forall i, j :: 0 <= i < j < |entries| ==> entries[i].name != entries[j].name)
  }

  lemma {:induction false} AssignedIsNamed(line: string, at: nat)
    requires at <= |line| && D.AssignmentAt(line, at).Some?
    ensures IsIdentifier(D.AssignmentAt(line, at).value.0)
  {
    var end := D.IdentEnd(line, at);
    assert D.AssignmentAt(line, at).value.0 == line[at..end];
    assert forall i :: 0 < i < end - at ==> line[at..end][i] == line[at + i] && IsNameChar(line[at + i]);
  }

  lemma {:induction false} ClassifiedIsNamed(raw: string)
    requires D.Classify(raw).Assigns?
    ensures IsIdentifier(D.Classify(raw).name)
  {
    var line := Trim(raw);
    if D.AssignmentAt(line, D.AfterExport(line)).Some? {
      AssignedIsNamed(line, D.AfterExport(line));
    } else {
      AssignedIsNamed(line, 0);
    }
  }

  lemma {:induction false} ReadIsNamed(classify: string -> D.LineKind, lines: seq<string>)
    requires forall i :: 0 <= i < |lines| ==> classify(lines[i]).Assigns? ==> IsIdentifier(classify(lines[i]).name)
    ensures EntriesNamed(D.ReadLines(classify, lines).out)
    ensures forall i :: 0 <= i < |D.ReadLines(classify, lines).out| ==>
              D.ReadLines(classify, lines).out[i].name in D.ReadLines(classify, lines).seen
  {
    if lines != [] { ReadIsNamed(classify, lines[..|lines| - 1]); }
  }

  /** The entries imported from any text have well-formed names, no two the same. */
  lemma {:induction false} ImportedAreNamed(text: string)
    ensures EntriesNamed(Imported(text))
  {
    var lines := Split(D.NormalNewlines(text), '\n');
    forall i | 0 <= i < |lines| && D.Classify(lines[i]).Assigns? ensures IsIdentifier(D.Classify(lines[i]).name) {
      ClassifiedIsNamed(lines[i]);
    }
    ReadIsNamed(D.Classify, lines);
  }

  // ---------------------------------------------------------------- one name through the fold

  lemma {:induction false} PutInEmptyPlace(vars: seq<Variable>, v: Variable)
    requires forall i :: 0 <= i < |vars| ==> vars[i].name != v.name
    ensures Put(vars, v) == vars + [v]
  {
  }

  lemma {:induction false} DistinctByName(vars: seq<Variable>)
    requires DistinctNames(vars)
    ensures ByName(vars) == vars
  {
    if vars != [] {
      var n := |vars| - 1;
      DistinctByName(vars[..n]);
      PutInEmptyPlace(vars[..n], vars[n]);
    }
  }

  lemma {:induction false} FoldedOneLookup(vars: seq<Variable>, e: Variable, name: string)
    requires DistinctNames(vars)
    ensures DistinctNames(FoldedOne(vars, e))
    ensures Lookup(FoldedOne(vars, e), name)
            == if name != e.name then Lookup(vars, name)
               else if Lookup(vars, name).Some? then Some(Filled(Lookup(vars, name).value, e)) else Some(e)
  {
    var after := FoldedOne(vars, e);
    var i := IndexOf(vars, name);
    assert forall k :: 0 <= k < |vars| ==> after[k].name == vars[k].name;
    if name == e.name {
      LookupIsMember(after, name, after[i]);
    } else if i < |vars| {
      LookupIsMember(after, name, vars[i]);
    } else {
      NoneIsAbsent(vars, name);
      NoneIsAbsent(after, name);
    }
  }

  /** What a name has after the fold: its own variable, the env file's, or the first filled from the second. */
  function Joined(had: Option<Variable>, found: Option<Variable>): Option<Variable> {
    if found.None? then had else if had.None? then found else Some(Filled(had.value, found.value))
  }

  lemma {:induction false} LookupSnoc(vars: seq<Variable>, name: string)
    requires DistinctNames(vars) && vars != []
    ensures var n := |vars| - 1;
            Lookup(vars, name) == if name == vars[n].name then Some(vars[n]) else Lookup(vars[..n], name)
    ensures Lookup(vars[..|vars| - 1], vars[|vars| - 1].name) == None
  {
    var n := |vars| - 1;
    var i := IndexOf(vars, name);
    if name == vars[n].name {
      LookupIsMember(vars, name, vars[n]);
    } else if i < |vars| {
      assert vars[..n][i] == vars[i];
      LookupIsMember(vars[..n], name, vars[i]);
    } else {
      NoneIsAbsent(vars, name);
      NoneIsAbsent(vars[..n], name);
    }
    NoneIsAbsent(vars[..n], vars[n].name);
  }

  lemma {:induction false} FoldedInLookup(vars: seq<Variable>, envVars: seq<Variable>, name: string)
    requires DistinctNames(vars) && DistinctNames(envVars)
    ensures DistinctNames(FoldedIn(vars, envVars))
    ensures Lookup(FoldedIn(vars, envVars), name) == Joined(Lookup(vars, name), Lookup(envVars, name))
  {
    if envVars != [] {
      var n := |envVars| - 1;
      FoldedInLookup(vars, envVars[..n], name);
      FoldedOneLookup(FoldedIn(vars, envVars[..n]), envVars[n], name);
      LookupSnoc(envVars, name);
    }
  }

  /** Folding env-file variables into a schema, name by name. */
  lemma {:induction false} MergedByName(r: Reader, vars: seq<Variable>, envVars: seq<Variable>, name: string)
    requires DistinctNames(vars) && DistinctNames(envVars)
    ensures DistinctNames(WithEnvVars(r, vars, envVars))
    ensures Lookup(WithEnvVars(r, vars, envVars), name) == Joined(Lookup(vars, name), Lookup(envVars, name))
  {
    DistinctByName(vars);
    FoldedInLookup(vars, envVars, name);
    SortedVars(FormOrder(r), FoldedIn(vars, envVars));
    SortedLookup(FormOrder(r), FoldedIn(vars, envVars), name);
  }

  // ---------------------------------------------------------------- what the fold guarantees

  /** A variable that an env file alone declares. */
  predicate SampleOk(r: Reader, v: Variable) {
    && IsIdentifier(v.name) && v.source == Some(Source.EnvFile) && v.service.None? && v.containerPort.None?
    && v.secret == v.required == r.looksSecret(v.name) && v.role == (if v.secret then Secret else Plain)
    && (v.secret ==> v.default.None?)
  }

  predicate SamplesOk(r: Reader, vars: seq<Variable>) {
    DistinctNames(vars) && forall i :: 0 <= i < |vars| ==> SampleOk(r, vars[i])
  }

  lemma {:induction false} EntryVarsOk(r: Reader, entries: seq<D.Entry>, path: string)
    requires EntriesNamed(entries)
    ensures SamplesOk(r, EntryVars(r, entries, path))
  {
  }

  lemma {:induction false} FilledStaysOk(r: Reader, v: Variable, e: Variable)
    requires SampleOk(r, v) && SampleOk(r, e) && v.name == e.name
    ensures SampleOk(r, Filled(v, e))
  {
  }

  /** A variable under its name in a schema is one of the schema. */
  lemma {:induction false} FoundIsMember(vars: seq<Variable>, name: string)
    ensures Lookup(vars, name).Some? ==> Lookup(vars, name).value in vars && Lookup(vars, name).value.name == name
  {
  }

  lemma {:induction false} MergedSampleOk(r: Reader, vars: seq<Variable>, envVars: seq<Variable>, i: nat)
    requires SamplesOk(r, vars) && SamplesOk(r, envVars) && i < |WithEnvVars(r, vars, envVars)|
    ensures SampleOk(r, WithEnvVars(r, vars, envVars)[i])
  {
    var v := WithEnvVars(r, vars, envVars)[i];
    MergedByName(r, vars, envVars, v.name);
    LookupIsMember(WithEnvVars(r, vars, envVars), v.name, v);
    FoundIsMember(vars, v.name);
    FoundIsMember(envVars, v.name);
    var had, found := Lookup(vars, v.name), Lookup(envVars, v.name);
    if had.Some? && found.Some? { FilledStaysOk(r, had.value, found.value); }
  }

  lemma {:induction false} FileVarsOk(r: Reader, files: seq<EnvFile>)
    ensures SamplesOk(r, FileVars(r, files))
  {
    if files != [] {
      var n := |files| - 1;
      var before, entries := FileVars(r, files[..n]), Imported(files[n].text);
      var envVars := EntryVars(r, entries, files[n].path);
      FileVarsOk(r, files[..n]);
      ImportedAreNamed(files[n].text);
      EntryVarsOk(r, entries, files[n].path);
      MergedByName(r, before, envVars, "");
      forall i | 0 <= i < |WithEnvVars(r, before, envVars)| ensures SampleOk(r, WithEnvVars(r, before, envVars)[i]) {
        MergedSampleOk(r, before, envVars, i);
      }
    }
  }

  /** Where both declare a name, the structure and the decided default are the compose file's. */
  predicate ComposeWins(c: Variable, e: Variable, v: Variable) {
    && v.name == c.name && v.role == c.role && v.service == c.service && v.containerPort == c.containerPort
    && v.secret == c.secret && v.source == c.source && v.envFile == c.envFile
    && (Says(c.comment) ==> v.comment == c.comment) && (!Says(c.comment) && Says(e.comment) ==> v.comment == e.comment)
    && (c.default.Some? || !c.role.Togglable() ==> v.default == c.default && v.required == c.required)
    && (c.default.None? && c.role.Togglable() ==> v.default == e.default)
  }

  /**
   * The schema of a repository, for every compose text and all env files: each name has its compose
   * variable with the gaps filled, or the env files' own; the names are those of either side.
   */
  lemma {:induction false} RepoSchemaByName(r: Reader, text: string, files: seq<EnvFile>, name: string)
    ensures var c, e := Lookup(Introspected(r, text).variables, name), Lookup(FileVars(r, files), name);
            var v := Lookup(RepoVars(r, text, files), name);
            && v == Joined(c, e)
            && (v.Some? <==> c.Some? || e.Some?)
            && (c.Some? && e.Some? ==> ComposeWins(c.value, e.value, v.value))
  {
    IntrospectionIsWellFormed(r, text);
    FileVarsOk(r, files);
    MergedByName(r, Introspected(r, text).variables, FileVars(r, files), name);
    FoundIsMember(Introspected(r, text).variables, name);
    FoundIsMember(FileVars(r, files), name);
  }

  lemma {:induction false} RepoVarOk(r: Reader, text: string, files: seq<EnvFile>, v: Variable)
    requires v in RepoVars(r, text, files)
    ensures IsIdentifier(v.name) && (v.secret <==> v.role.Secret?) && (v.required ==> v.default.None?)
    ensures v.secret ==> v.default == DefaultOf(Introspected(r, text).variables, v.name)
  {
    var compose, sample := Introspected(r, text).variables, FileVars(r, files);
    RepoVarsDistinct(r, text, files);
    LookupIsMember(RepoVars(r, text, files), v.name, v);
    RepoSchemaByName(r, text, files, v.name);
    IntrospectionIsWellFormed(r, text);
    FileVarsOk(r, files);
    FoundIsMember(compose, v.name);
    FoundIsMember(sample, v.name);
    var c, e := Lookup(compose, v.name), Lookup(sample, v.name);
    if c.Some? {
      assert SchemaVarOk(r, c.value);
    }
    if e.Some? {
      assert SampleOk(r, e.value);
    }
  }

  lemma {:induction false} RepoVarsDistinct(r: Reader, text: string, files: seq<EnvFile>)
    ensures DistinctNames(RepoVars(r, text, files))
  {
    IntrospectionIsWellFormed(r, text);
    FileVarsOk(r, files);
    MergedByName(r, Introspected(r, text).variables, FileVars(r, files), "");
  }

  /** The folded schema is as well formed as a compose one, so a refresh settles on it. */
  lemma {:induction false} RepoSchemaIsWellFormed(r: Reader, text: string, files: seq<EnvFile>)
    ensures M.FreshOk(RepoVars(r, text, files)) && M.Refreshable(RepoVars(r, text, files))
  {
    var vars := RepoVars(r, text, files);
    RepoVarsDistinct(r, text, files);
    forall i | 0 <= i < |vars| ensures IsIdentifier(vars[i].name) && (vars[i].secret <==> vars[i].role.Secret?) {
      RepoVarOk(r, text, files, vars[i]);
    }
  }

  /** No sample value of an env file becomes the default of a secret: only the compose file can give it one. */
  lemma {:induction false} NoSampleSecret(r: Reader, text: string, files: seq<EnvFile>, v: Variable)
    requires v in RepoVars(r, text, files) && v.secret
    ensures v.default == DefaultOf(Introspected(r, text).variables, v.name)
    ensures v.default.None? && v.source == Some(Source.EnvFile) ==> v.required
  {
    RepoVarOk(r, text, files, v);
    RepoVarsDistinct(r, text, files);
    LookupIsMember(RepoVars(r, text, files), v.name, v);
    RepoSchemaByName(r, text, files, v.name);
    IntrospectionIsWellFormed(r, text);
    FileVarsOk(r, files);
    FoundIsMember(Introspected(r, text).variables, v.name);
    FoundIsMember(FileVars(r, files), v.name);
  }
}
