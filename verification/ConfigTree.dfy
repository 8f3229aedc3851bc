/** Configuration trees: laying one over another, and filling in ${NAME:-default}
    placeholders from the secrets file and the environment. */
module ConfigTree {
  import opened Basics
  import opened Json

  // ---- overlays ----

  /** The loader's merge: mappings are merged key by key, anything else is replaced. */
  function Merge(base: Json, over: Json): Json
    decreases over
  {
    if base.Obj? && over.Obj? then
      Obj(map k | k in base.fields.Keys + over.fields.Keys ::
        if k !in over.fields then base.fields[k]
        else if k in base.fields then Merge(base.fields[k], over.fields[k])
        else Merge(Null, over.fields[k]))
    else over
  }

  /** The setup service's merge of a profile update. */
  function MergeProfile(base: map<string, Json>, update: map<string, Json>): map<string, Json>
    decreases Obj(update)
  {
    map k | k in base.Keys + update.Keys ::
      if k !in update then base[k]
      else if update[k].Obj? && k in base && base[k].Obj? then Obj(MergeProfile(base[k].fields, update[k].fields))
      else update[k]
  }

  lemma {:induction false} MergeAt(b: Json, u: Json, k: string)
    requires b.Obj? && u.Obj?
    ensures Merge(b, u).Obj? && (k in Merge(b, u).fields <==> k in b.fields || k in u.fields)
    ensures k in b.fields && k !in u.fields ==> Merge(b, u).fields[k] == b.fields[k]
    ensures k in b.fields && k in u.fields ==> Merge(b, u).fields[k] == Merge(b.fields[k], u.fields[k])
    ensures k !in b.fields && k in u.fields ==> Merge(b, u).fields[k] == u.fields[k]
  {
  }

  /** Both merges are the same function. */
  lemma {:induction false} MergesAgree(base: map<string, Json>, update: map<string, Json>)
    ensures Merge(Obj(base), Obj(update)) == Obj(MergeProfile(base, update))
    decreases Obj(update)
  {
    var m, p := Merge(Obj(base), Obj(update)).fields, MergeProfile(base, update);
    forall k | k in m ensures k in p && m[k] == p[k] {
      MergeAt(Obj(base), Obj(update), k);
      if k in update && update[k].Obj? && k in base && base[k].Obj? {
        MergesAgree(base[k].fields, update[k].fields);
      }
    }
    assert m == p;
  }

  lemma {:induction false} MergeSelf(u: Json)
    ensures Merge(u, u) == u
  {
    if u.Obj? {
      forall k | k in u.fields ensures Merge(u.fields[k], u.fields[k]) == u.fields[k] {
        MergeSelf(u.fields[k]);
      }
    }
  }

  /** Laying the same update over twice changes nothing more. */
  lemma {:induction false} MergeTwice(b: Json, u: Json)
    ensures Merge(Merge(b, u), u) == Merge(b, u)
    decreases u
  {
    if b.Obj? && u.Obj? {
      var m := Merge(b, u);
      forall k | k in m.fields ensures k in Merge(m, u).fields && Merge(m, u).fields[k] == m.fields[k] {
        MergeAt(b, u, k);
        MergeAt(m, u, k);
        if k !in u.fields {
        } else if k in b.fields {
          MergeTwice(b.fields[k], u.fields[k]);
        } else {
          MergeSelf(u.fields[k]);
        }
      }
      assert Merge(m, u).fields.Keys == m.fields.Keys;
      assert Merge(m, u).fields == m.fields;
    } else {
      MergeSelf(u);
    }
  }

  /** The update says something about everything in the base: every key, at every path
      where both have mappings. */
  predicate Covers(u: Json, b: Json)
    decreases u
  {
    u.Obj? && b.Obj? ==> forall k :: k in b.fields ==> k in u.fields && Covers(u.fields[k], b.fields[k])
  }

  lemma {:induction false} CoversIff(u: Json, b: Json)
    ensures Merge(b, u) == u <==> Covers(u, b)
    decreases u
  {
    if u.Obj? && b.Obj? {
      var m := Merge(b, u);
      forall k | k in u.fields && k in b.fields
        ensures k in m.fields && (m.fields[k] == u.fields[k] <==> Covers(u.fields[k], b.fields[k]))
      {
        MergeAt(b, u, k);
        CoversIff(u.fields[k], b.fields[k]);
      }
      if Covers(u, b) {
        forall k | k in m.fields ensures k in u.fields && m.fields[k] == u.fields[k] {
          MergeAt(b, u, k);
          assert k in b.fields ==> Covers(u.fields[k], b.fields[k]);
        }
        assert m.fields == u.fields;
      }
      if m == u {
        forall k | k in b.fields ensures k in u.fields && Covers(u.fields[k], b.fields[k]) {
          MergeAt(b, u, k);
          assert k in m.fields;
        }
      }
    }
  }

  /** Wherever the profile has something other than a mapping, the base and the update do
      not both have mappings, unless the update covers the base there. */
  predicate NoClash(b: Json, p: Json, u: Json)
    decreases u
  {
    u.Obj? && b.Obj? ==>
      if p.Obj? then
        forall k :: k in b.fields && k in p.fields && k in u.fields ==> NoClash(b.fields[k], p.fields[k], u.fields[k])
      else Covers(u, b)
  }

  lemma {:induction false} OverlayAt(b: Json, p: Json, u: Json, k: string)
    requires b.Obj? && p.Obj? && u.Obj?
    ensures Merge(b, Merge(p, u)).Obj? && Merge(Merge(b, p), u).Obj?
    ensures
      var l, r := Merge(b, Merge(p, u)).fields, Merge(Merge(b, p), u).fields;
      if k in b.fields && k in p.fields && k in u.fields then
        && k in l && l[k] == Merge(b.fields[k], Merge(p.fields[k], u.fields[k]))
        && k in r && r[k] == Merge(Merge(b.fields[k], p.fields[k]), u.fields[k])
      else if k in b.fields || k in p.fields || k in u.fields then k in l && k in r && l[k] == r[k]
      else k !in l && k !in r
  {
    MergeAt(p, u, k);
    MergeAt(b, p, k);
    MergeAt(b, Merge(p, u), k);
    MergeAt(Merge(b, p), u, k);
  }

  /** Updating the stored profile and laying the result over the base gives the same
      configuration as laying profile and update over the base in turn, exactly if the
      profile does not cut off a mapping that base and update both have. */
  lemma {:induction false} OverlayLaw(b: Json, p: Json, u: Json)
    ensures Merge(b, Merge(p, u)) == Merge(Merge(b, p), u) <==> NoClash(b, p, u)
    decreases u
  {
    if b.Obj? && p.Obj? && u.Obj? {
      var l, r := Merge(b, Merge(p, u)).fields, Merge(Merge(b, p), u).fields;
      forall k | k in b.fields && k in p.fields && k in u.fields
        ensures k in l && k in r && (l[k] == r[k] <==> NoClash(b.fields[k], p.fields[k], u.fields[k]))
      {
        OverlayAt(b, p, u, k);
        OverlayLaw(b.fields[k], p.fields[k], u.fields[k]);
      }
      forall k | k in b.fields.Keys + p.fields.Keys + u.fields.Keys
        ensures k in l && k in r
        ensures !(k in b.fields && k in p.fields && k in u.fields) ==> l[k] == r[k]
      {
        OverlayAt(b, p, u, k);
      }
      assert l.Keys == r.Keys == b.fields.Keys + p.fields.Keys + u.fields.Keys;
      if NoClash(b, p, u) {
        assert l == r;
      }
    } else if b.Obj? && u.Obj? {
      CoversIff(u, b);
    }
  }

  // ---- placeholders ----

  datatype Piece = Text(c: char) | Placeholder(name: string, default: Option<string>)

  predicate IsNameStart(c: char) { 'a' <= c <= 'z' || 'A' <= c <= 'Z' || c == '_' }

  predicate IsNameChar(c: char) { IsNameStart(c) || '0' <= c <= '9' }

  /** How many characters from the start make a name's tail. */
  function NameLength(s: string): (n: nat)
    ensures n <= |s|
  {
    if s != "" && IsNameChar(s[0]) then 1 + NameLength(s[1..]) else 0
  }

  /** How many characters lie before the first closing brace. */
  function ToBrace(s: string): (n: nat)
    ensures n <= |s|
  {
    if s == "" || s[0] == '}' then 0 else 1 + ToBrace(s[1..])
  }

  function Spelled(p: Piece): string {
    match p
    case Text(c) => [c]
    case Placeholder(name, default) => "${" + name + (if default.Some? then ":-" + default.value else "") + "}"
  }

  /** The placeholder at the very start of the text and its length, if there is one. */
  function PlaceholderAt(s: string): (p: Option<(Piece, nat)>)
    ensures p.Some? ==> p.value.0.Placeholder? && 0 < p.value.1 <= |s|
  {
    if !(|s| > 2 && s[0] == '$' && s[1] == '{' && IsNameStart(s[2])) then None else
      var n := 2 + NameLength(s[2..]);
      var name := s[2..n];
      if n < |s| && s[n] == '}' then Some((Placeholder(name, None), n + 1))
      else if n + 1 < |s| && s[n] == ':' && s[n + 1] == '-' then
        var d := n + 2 + ToBrace(s[n + 2..]);
        if d < |s| then Some((Placeholder(name, Some(s[n + 2..d])), d + 1)) else None
      else None
  }

  /** The text as characters and placeholders, the leftmost placeholder first. */
  function Scan(s: string): seq<Piece>
    decreases |s|
  {
    if s == "" then [] else
      var p := PlaceholderAt(s);
      if p.Some? then [p.value.0] + Scan(s[p.value.1..]) else [Text(s[0])] + Scan(s[1..])
  }

  function Render(ps: seq<Piece>): string {
    if ps == [] then "" else Spelled(ps[0]) + Render(ps[1..])
  }

  lemma {:induction false} BraceIsThere(s: string)
    ensures ToBrace(s) < |s| ==> s[ToBrace(s)] == '}'
  {
    if s != "" && s[0] != '}' {
      BraceIsThere(s[1..]);
    }
  }

  lemma {:induction false} PlaceholderSpells(s: string)
    requires PlaceholderAt(s).Some?
    ensures s[..PlaceholderAt(s).value.1] == Spelled(PlaceholderAt(s).value.0)
  {
    var n := 2 + NameLength(s[2..]);
    assert s[..n] == "${" + s[2..n];
    if s[n] == '}' {
      assert s[..n + 1] == s[..n] + "}";
    } else {
      BraceIsThere(s[n + 2..]);
      var d := n + 2 + ToBrace(s[n + 2..]);
      assert s[..d + 1] == s[..n] + ":-" + s[n + 2..d] + "}";
    }
  }

  /** Scanning loses nothing: the pieces spell the text. */
  lemma {:induction false} ScanSpells(s: string)
    ensures Render(Scan(s)) == s
    decreases |s|
  {
    if s != "" {
      var p := PlaceholderAt(s);
      var n := if p.Some? then p.value.1 else 1;
      if p.Some? {
        PlaceholderSpells(s);
      }
      ScanSpells(s[n..]);
      assert s == s[..n] + s[n..];
    }
  }

  // ---- substitution ----

  const MANAGED: set<string> := {"OPENROUTER_API_KEY", "FRED_API_KEY", "OANDA_API_KEY", "EIA_API_KEY", "TWITTERAPI_KEY"}

  const DEMO_FLAG: string := "DEMO_MODE"

  /** Where values come from: the secrets file, whether it exists, the process
      environment, and how the demo flag is read from it. */
  datatype Sources = Sources(secrets: map<string, string>, authoritative: bool, env: map<string, string>,
      isDemo: Option<string> -> bool)
  {
    function Env(name: string): Option<string> { if name in env then Some(env[name]) else None }

    predicate Demo() { isDemo(Env(DEMO_FLAG)) }
  }

  /** A value that was found, unless it is empty and no default makes that acceptable. */
  function Found(value: string, default: Option<string>): Option<string> {
    if value != "" || default.Some? then Some(value) else None
  }

  function Lookup(src: Sources, name: string, default: Option<string>): Option<string> {
    if name in src.secrets then Found(src.secrets[name], default)
    else if src.authoritative && name in MANAGED then default
    else if name in src.env then Found(src.env[name], default)
    else if default.Some? then default
    else if src.Demo() then Some("demo-disabled")
    else None
  }

  function Fill(src: Sources, ps: seq<Piece>): Option<string> {
    if ps == [] then Some("") else
      var first := if ps[0].Text? then Some([ps[0].c]) else Lookup(src, ps[0].name, ps[0].default);
      var rest := Fill(src, ps[1..]);
      if first.Some? && rest.Some? then Some(first.value + rest.value) else None
  }

  /** The text with all placeholders filled in, or none if one of them cannot be. */
  function Substitute(src: Sources, s: string): Option<string> { Fill(src, Scan(s)) }

  function SubstituteTree(src: Sources, j: Json): Option<Json>
    decreases j
  {
    match j
    case Str(s) =>
      var v := Substitute(src, s);
      if v.Some? then Some(Str(v.value)) else None
    case Arr(items) =>
      if forall i :: 0 <= i < |items| ==> SubstituteTree(src, items[i]).Some?
      then Some(Arr(seq(|items|, i requires 0 <= i < |items| => SubstituteTree(src, items[i]).value)))
      else None
    case Obj(fields) =>
      if forall k :: k in fields ==> SubstituteTree(src, fields[k]).Some?
      then Some(Obj(map k | k in fields :: SubstituteTree(src, fields[k]).value))
      else None
    case _ => Some(j)
  }

  /** Two environments that may differ in the managed secrets only. */
  ghost predicate SameButManaged(a: Sources, b: Sources) {
    && a.secrets == b.secrets && a.authoritative == b.authoritative && a.isDemo == b.isDemo
    && forall name :: name !in MANAGED ==> a.Env(name) == b.Env(name)
  }

  lemma {:induction false} FillIgnoresManaged(a: Sources, b: Sources, ps: seq<Piece>)
    requires SameButManaged(a, b) && a.authoritative
    ensures Fill(a, ps) == Fill(b, ps)
  {
    if ps != [] {
      FillIgnoresManaged(a, b, ps[1..]);
      if ps[0].Placeholder? {
        assert a.Env(DEMO_FLAG) == b.Env(DEMO_FLAG);
        assert ps[0].name !in MANAGED ==> a.Env(ps[0].name) == b.Env(ps[0].name);
      }
    }
  }

  /** Once the secrets file exists, the process environment's managed secrets cannot
      reach the configuration: the result, and whether there is one, do not depend on them. */
  lemma {:induction false} ManagedSecretsDoNotLeak(a: Sources, b: Sources, j: Json)
    requires SameButManaged(a, b) && a.authoritative
    ensures SubstituteTree(a, j) == SubstituteTree(b, j)
    decreases j
  {
    match j
    case Str(s) => FillIgnoresManaged(a, b, Scan(s));
    case Arr(items) =>
      forall i | 0 <= i < |items| ensures SubstituteTree(a, items[i]) == SubstituteTree(b, items[i]) {
        ManagedSecretsDoNotLeak(a, b, items[i]);
      }
      assert SubstituteTree(a, j).Some? <==> SubstituteTree(b, j).Some?;
      if SubstituteTree(a, j).Some? {
        assert SubstituteTree(a, j).value.items == SubstituteTree(b, j).value.items;
      }
    case Obj(fields) =>
      forall k | k in fields ensures SubstituteTree(a, fields[k]) == SubstituteTree(b, fields[k]) {
        ManagedSecretsDoNotLeak(a, b, fields[k]);
      }
      if SubstituteTree(a, j).Some? {
        assert SubstituteTree(a, j).value.fields == SubstituteTree(b, j).value.fields;
      }
    case _ =>
  }

  /** Without the file they can: the same placeholder then follows the environment. */
  lemma {:induction false} ManagedSecretsLeakWithoutFile(isDemo: Option<string> -> bool, name: string)
    requires name in MANAGED
    ensures
      var a := Sources(map[], false, map[name := "old"], isDemo);
      var b := a.(env := map[name := "new"]);
      SameButManaged(a, b) && Fill(a, [Placeholder(name, None)]) != Fill(b, [Placeholder(name, None)])
  {
    var a := Sources(map[], false, map[name := "old"], isDemo);
    var b := a.(env := map[name := "new"]);
    var ps := [Placeholder(name, None)];
    assert ps[1..] == [] && Lookup(a, name, None) == Some("old") && Lookup(b, name, None) == Some("new");
    assert Fill(a, ps[1..]) == Some("") && Fill(b, ps[1..]) == Some("");
    assert Fill(a, ps) == Some("old" + "") && Fill(b, ps) == Some("new" + "");
    assert ("old" + "")[0] == 'o' && ("new" + "")[0] == 'n';
  }

  /** What the secrets file says wins: a text all of whose placeholders it covers does not
      depend on the environment at all. */
  lemma {:induction false} SecretsFileWins(a: Sources, b: Sources, ps: seq<Piece>)
    requires a.secrets == b.secrets
    requires forall i :: 0 <= i < |ps| && ps[i].Placeholder? ==> ps[i].name in a.secrets
    ensures Fill(a, ps) == Fill(b, ps)
  {
    if ps != [] {
      SecretsFileWins(a, b, ps[1..]);
    }
  }

  /** A deleted credential is gone: a text that needs it cannot be filled in, whatever
      the environment still holds. */
  lemma {:induction false} DeletedSecretIsGone(src: Sources, ps: seq<Piece>, i: nat)
    requires src.authoritative && i < |ps| && ps[i].Placeholder? && ps[i].default.None?
    requires ps[i].name in MANAGED && ps[i].name !in src.secrets
    ensures Fill(src, ps).None?
  {
    if i > 0 {
      DeletedSecretIsGone(src, ps[1..], i - 1);
    }
  }

  /** Substitution changes strings only: keys, list lengths and other values stay. */
  ghost predicate SameShape(a: Json, b: Json)
    decreases a
  {
    match a
    case Str(_) => b.Str?
    case Arr(items) =>
      b.Arr? && |b.items| == |items| && forall i :: 0 <= i < |items| ==> SameShape(items[i], b.items[i])
    case Obj(fields) =>
      b.Obj? && b.fields.Keys == fields.Keys && forall k :: k in fields ==> SameShape(fields[k], b.fields[k])
    case _ => a == b
  }

  lemma {:induction false} SubstitutionKeepsShape(src: Sources, j: Json)
    requires SubstituteTree(src, j).Some?
    ensures SameShape(j, SubstituteTree(src, j).value)
    decreases j
  {
    match j
    case Arr(items) =>
      forall i | 0 <= i < |items| ensures SameShape(items[i], SubstituteTree(src, items[i]).value) {
        SubstitutionKeepsShape(src, items[i]);
      }
    case Obj(fields) =>
      forall k | k in fields ensures SameShape(fields[k], SubstituteTree(src, fields[k]).value) {
        SubstitutionKeepsShape(src, fields[k]);
      }
    case _ =>
  }
}
