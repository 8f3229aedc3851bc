/** One process's configuration loader: it builds one configuration from the files and
    then keeps it, and refuses to go on once the committed credentials changed. */
module RuntimeLoader {
  import opened Basics
  import opened Json
  import opened ConfigTree
  import opened Placeholders
  import opened TreePaths

  datatype Paths = Paths(base: string, operator: string, secrets: string)

  datatype Document = Absent | Unreadable | Parsed(value: Json)

  /** The secrets file: absent, malformed, or its values. */
  datatype SecretsFile = NoFile | Malformed | Values(values: map<string, string>)

  datatype Digests = Digests(base: string, operator: string, secrets: string)

  /** What the files at the requested paths hold, read under the shared lock. */
  datatype Disk = Disk(base: Document, operator: Document, secrets: SecretsFile, digests: Digests)

  /** The process environment, and what configurations the schema accepts. */
  datatype Setting = Setting(env: map<string, string>, isDemo: Option<string> -> bool, demo: Json -> Json,
      valid: Json -> bool)

  datatype Problem =
    | OtherPath | CredentialsChanged | ConfigurationChanged
    | MissingFile | BadDocument | BadSecrets | UnsetVariable | Invalid

  datatype Snapshot = Snapshot(config: Json, digests: Digests)

  /** The operator's profile; an empty document counts as an empty mapping. */
  function Profile(d: Document): Option<Json> {
    if !d.Parsed? then None
    else if d.value.Null? then Some(Obj(map[]))
    else if d.value.Obj? then Some(d.value)
    else None
  }

  function SourcesOf(d: Disk, w: Setting): Sources {
    Sources(if d.secrets.Values? then d.secrets.values else map[], !d.secrets.NoFile?, w.env, w.isDemo)
  }

  /** Base file, operator profile over it, placeholders filled in, demo policy, schema. */
  function Assemble(d: Disk, w: Setting): Result<Json, Problem> {
    if d.base.Absent? then Err(MissingFile)
    else if !d.base.Parsed? || !d.base.value.Obj? || (!d.operator.Absent? && Profile(d.operator).None?) then
      Err(BadDocument)
    else if d.secrets.Malformed? then Err(BadSecrets)
    else
      var merged := if d.operator.Absent? then d.base.value else Merge(d.base.value, Profile(d.operator).value);
      var filled := SubstituteTree(SourcesOf(d, w), merged);
      if filled.None? then Err(UnsetVariable)
      else if !w.valid(w.demo(filled.value)) then Err(Invalid)
      else Ok(w.demo(filled.value))
  }

  /** With a secrets file in place, what a process loads does not depend on the managed
      secrets in its environment. */
  lemma {:induction false} LoadIgnoresManagedEnvironment(d: Disk, v: Setting, w: Setting)
    requires d.secrets.Values? && v.isDemo == w.isDemo && v.demo == w.demo && v.valid == w.valid
    requires SameButManaged(SourcesOf(d, v), SourcesOf(d, w))
    ensures Assemble(d, v) == Assemble(d, w)
  {
    if d.base.Parsed? {
      ManagedSecretsDoNotLeak(SourcesOf(d, v), SourcesOf(d, w), d.base.value);
      if Profile(d.operator).Some? {
        ManagedSecretsDoNotLeak(SourcesOf(d, v), SourcesOf(d, w), Merge(d.base.value, Profile(d.operator).value));
      }
    }
  }

  // ---- what a load makes of the files ----

  /** The base's document is a mapping, and so is the operator's, if there is one and it is
      not empty. */
  ghost predicate Readable(d: Disk) {
    && d.base.Parsed? && d.base.value.Obj?
    && (d.operator.Absent? || (d.operator.Parsed? && (d.operator.value.Null? || d.operator.value.Obj?)))
  }

  /** What the operator's profile says; nothing if there is none or it is empty. */
  ghost function ProfileOf(d: Disk): Json
    requires Readable(d)
  {
    if d.operator.Parsed? && d.operator.value.Obj? then d.operator.value else Obj(map[])
  }

  /** Every setting of base and profile is filled in from the secrets file, which has the
      last word on managed secrets if it is there, and from the environment. */
  ghost predicate FilledIn(d: Disk, w: Setting, filled: Json)
    requires Readable(d) && !d.secrets.Malformed?
  {
    var src := Sources(if d.secrets.Values? then d.secrets.values else map[], d.secrets.Values?, w.env, w.isDemo);
    && (forall path, leaf :: IsSetting(d.base.value, ProfileOf(d), path, leaf) ==>
          Holds(filled, path).Some? && Becomes(src, leaf, Holds(filled, path).value))
    && (forall path :: Holds(filled, path).Some? && !Holds(filled, path).value.Obj? ==>
          exists leaf :: IsSetting(d.base.value, ProfileOf(d), path, leaf))
  }

  /** The configuration is valid, and it is what the demo policy makes of the settings. */
  ghost predicate MadeFrom(d: Disk, w: Setting, config: Json) {
    && Readable(d) && !d.secrets.Malformed? && w.valid(config)
    && exists filled :: FilledIn(d, w, filled) && config == w.demo(filled)
  }

  lemma {:induction false} OverlayOfNothing(base: Json)
    requires base.Obj?
    ensures Merge(base, Obj(map[])) == base
  {
    assert Merge(base, Obj(map[])).fields == base.fields;
  }

  lemma {:induction false} SettingsAreFilledIn(d: Disk, w: Setting, filled: Json)
    requires Readable(d) && !d.secrets.Malformed?
    requires SubstituteTree(SourcesOf(d, w), Merge(d.base.value, ProfileOf(d))) == Some(filled)
    ensures FilledIn(d, w, filled)
  {
    var src, merged := SourcesOf(d, w), Merge(d.base.value, ProfileOf(d));
    forall path, leaf | IsSetting(d.base.value, ProfileOf(d), path, leaf)
      ensures Holds(filled, path).Some? && Becomes(src, leaf, Holds(filled, path).value)
    {
      OverlayHoldsSettings(d.base.value, ProfileOf(d), path, leaf);
      SubstituteAt(src, merged, path);
      SubstituteBecomes(src, leaf);
    }
    forall path | Holds(filled, path).Some? && !Holds(filled, path).value.Obj?
      ensures exists leaf :: IsSetting(d.base.value, ProfileOf(d), path, leaf)
    {
      SubstituteAt(src, merged, path);
      var leaf := Holds(merged, path).value;
      SubstituteBecomes(src, leaf);
      OverlayHoldsSettings(d.base.value, ProfileOf(d), path, leaf);
    }
  }

  lemma {:induction false} AssembledFromSettings(d: Disk, w: Setting)
    ensures Assemble(d, w).Ok? ==> MadeFrom(d, w, Assemble(d, w).value)
    ensures Assemble(d, w) == Err(MissingFile) <==> d.base.Absent?
    ensures Assemble(d, w) == Err(BadDocument) <==> !d.base.Absent? && !Readable(d)
    ensures Assemble(d, w) == Err(BadSecrets) <==> Readable(d) && d.secrets.Malformed?
    ensures Assemble(d, w) == Err(Invalid) ==>
      Readable(d) && !d.secrets.Malformed? && exists filled :: FilledIn(d, w, filled) && !w.valid(w.demo(filled))
  {
    if Readable(d) && !d.secrets.Malformed? {
      OverlayOfNothing(d.base.value);
      var filled := SubstituteTree(SourcesOf(d, w), Merge(d.base.value, ProfileOf(d)));
      if filled.Some? {
        SettingsAreFilledIn(d, w, filled.value);
      }
    }
  }

  /** Without placeholders nothing but the schema can refuse readable files. */
  lemma {:induction false} PlainFilesLoad(d: Disk, w: Setting)
    requires Readable(d) && !d.secrets.Malformed? && NoPlaceholders(d.base.value) && NoPlaceholders(ProfileOf(d))
    ensures Assemble(d, w) == Err(Invalid) || Assemble(d, w).Ok?
  {
    MergeStaysPlain(d.base.value, ProfileOf(d));
    PlainTreeStays(SourcesOf(d, w), Merge(d.base.value, ProfileOf(d)));
    OverlayOfNothing(d.base.value);
  }

  lemma {:induction false} MergeStaysPlain(b: Json, u: Json)
    requires NoPlaceholders(b) && NoPlaceholders(u)
    ensures NoPlaceholders(Merge(b, u))
    decreases u
  {
    if b.Obj? && u.Obj? {
      forall k | k in Merge(b, u).fields ensures NoPlaceholders(Merge(b, u).fields[k]) {
        MergeAt(b, u, k);
        if k in b.fields && k in u.fields {
          MergeStaysPlain(b.fields[k], u.fields[k]);
        }
      }
    }
  }

  class Loader {
    var snapshot: Option<Snapshot>
    var paths: Option<Paths>

    ghost predicate Valid()
      reads this
    {
      snapshot.Some? <==> paths.Some?
    }

    constructor ()
      ensures Valid() && snapshot.None?
    {
      snapshot, paths := None, None;
    }

    /** The first success fixes the configuration for good: later loads return it or fail,
        and they fail exactly if asked for other paths or if the credentials changed. */
    method Load(requested: Paths, d: Disk, w: Setting) returns (r: Result<Json, Problem>)
      requires Valid()
      modifies this
      ensures Valid()
      ensures old(snapshot).Some? ==> snapshot == old(snapshot) && paths == old(paths)
      ensures old(snapshot).Some? && r.Ok? ==> r.value == old(snapshot.value.config)
      ensures old(snapshot).Some? ==>
        (r.Ok? <==> old(paths) == Some(requested) && d.digests.secrets == old(snapshot.value.digests.secrets))
      ensures old(snapshot).None? ==> r == Assemble(d, w)
      ensures old(snapshot).None? && r.Ok? ==> MadeFrom(d, w, r.value)
      ensures old(snapshot).None? ==> (r == Err(MissingFile) <==> d.base.Absent?)
      ensures old(snapshot).None? ==> (r == Err(BadDocument) <==> !d.base.Absent? && !Readable(d))
      ensures old(snapshot).None? ==> (r == Err(BadSecrets) <==> Readable(d) && d.secrets.Malformed?)
      ensures old(snapshot).None? && r == Err(Invalid) ==>
        Readable(d) && !d.secrets.Malformed? && exists filled :: FilledIn(d, w, filled) && !w.valid(w.demo(filled))
      ensures old(snapshot).Some? && r.Err? ==>
        r.error == if old(paths) != Some(requested) then OtherPath else CredentialsChanged
      ensures old(snapshot).None? && r.Ok? ==>
        snapshot == Some(Snapshot(r.value, d.digests)) && paths == Some(requested)
      ensures old(snapshot).None? && r.Err? ==> snapshot.None?
    {
      if paths.Some? && paths.value != requested {
        return Err(OtherPath);
      }
      if snapshot.Some? {
        if d.digests != snapshot.value.digests && d.digests.secrets != snapshot.value.digests.secrets {
          return Err(CredentialsChanged);
        }
        return Ok(snapshot.value.config);
      }
      r := Assemble(d, w);
      AssembledFromSettings(d, w);
      if r.Ok? {
        snapshot, paths := Some(Snapshot(r.value, d.digests)), Some(requested);
      }
    }

    /** Work goes on exactly while all files still are what was loaded. */
    method EnsureCurrent(d: Disk) returns (problem: Option<Problem>)
      requires Valid()
      ensures problem.None? <==> snapshot.None? || d.digests == snapshot.value.digests
      ensures problem == Some(CredentialsChanged) <==>
        snapshot.Some? && d.digests.secrets != snapshot.value.digests.secrets
    {
      if snapshot.None? || d.digests == snapshot.value.digests {
        return None;
      }
      problem := Some(
        if d.digests.secrets != snapshot.value.digests.secrets then CredentialsChanged else ConfigurationChanged);
    }
  }
}
