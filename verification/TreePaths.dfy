/** What configuration trees hold at a path, after an overlay and after filling in. */
module TreePaths {
  import opened Basics
  import opened Json
  import opened ConfigTree
  import opened Placeholders

  /** What a tree holds at the end of a path of mapping keys. */
  function Holds(j: Json, path: seq<string>): Option<Json>
    decreases |path|
  {
    if path == [] then Some(j)
    else if j.Obj? && path[0] in j.fields then Holds(j.fields[path[0]], path[1..])
    else None
  }

  ghost predicate HoldsLeaf(j: Json, path: seq<string>, leaf: Json) {
    Holds(j, path) == Some(leaf) && !leaf.Obj?
  }

  /** A mapping that ends before the path does: it says nothing about what is there. */
  predicate SaysNothing(p: Json, path: seq<string>)
    decreases |path|
  {
    p.Obj? && path != [] && (path[0] in p.fields ==> SaysNothing(p.fields[path[0]], path[1..]))
  }

  /** The setting at a path: the profile's if it has one, and the base's if the profile says
      nothing about it. */
  ghost predicate IsSetting(base: Json, profile: Json, path: seq<string>, leaf: Json) {
    HoldsLeaf(profile, path, leaf) || (HoldsLeaf(base, path, leaf) && SaysNothing(profile, path))
  }

  /** The overlay holds exactly the settings. */
  lemma {:induction false} OverlayHoldsSettings(base: Json, profile: Json, path: seq<string>, leaf: Json)
    ensures HoldsLeaf(Merge(base, profile), path, leaf) <==> IsSetting(base, profile, path, leaf)
    decreases |path|
  {
    if path != [] && base.Obj? && profile.Obj? {
      var k := path[0];
      MergeAt(base, profile, k);
      if k in base.fields && k in profile.fields {
        OverlayHoldsSettings(base.fields[k], profile.fields[k], path[1..], leaf);
      }
    }
  }

  /** Filling in goes through mappings key by key. */
  lemma {:induction false} SubstituteAt(src: Sources, j: Json, path: seq<string>)
    requires SubstituteTree(src, j).Some?
    ensures
      var t := SubstituteTree(src, j).value;
      if Holds(j, path).Some?
      then Holds(t, path).Some? && SubstituteTree(src, Holds(j, path).value) == Holds(t, path)
      else Holds(t, path).None?
    decreases |path|
  {
    if path != [] && j.Obj? && path[0] in j.fields {
      SubstituteAt(src, j.fields[path[0]], path[1..]);
    }
  }

  /** What filling in makes of a leaf: a text is replaced piece by piece, a list item by
      item, and everything else stays. */
  ghost predicate Becomes(src: Sources, leaf: Json, v: Json)
    decreases leaf
  {
    match leaf
    case Str(s) =>
      && v.Str?
      && forall ps :: AllPlain(ps) && Render(ps) == s ==> exists vs :: Gives(src, ps, vs) && v.s == Joined(vs)
    case Arr(items) =>
      v.Arr? && |v.items| == |items| && forall i :: 0 <= i < |items| ==> Becomes(src, items[i], v.items[i])
    case Obj(fields) =>
      v.Obj? && v.fields.Keys == fields.Keys && forall k :: k in fields ==> Becomes(src, fields[k], v.fields[k])
    case _ => v == leaf
  }

  lemma {:induction false} SubstituteBecomes(src: Sources, j: Json)
    requires SubstituteTree(src, j).Some?
    ensures Becomes(src, j, SubstituteTree(src, j).value)
    decreases j
  {
    match j
    case Str(s) =>
      var v := SubstituteTree(src, j).value;
      forall ps | AllPlain(ps) && Render(ps) == s ensures exists vs :: Gives(src, ps, vs) && v.s == Joined(vs) {
        TextBecomes(src, ps, v.s);
      }
    case Arr(items) =>
      forall i | 0 <= i < |items| ensures Becomes(src, items[i], SubstituteTree(src, items[i]).value) {
        SubstituteBecomes(src, items[i]);
      }
    case Obj(fields) =>
      forall k | k in fields ensures Becomes(src, fields[k], SubstituteTree(src, fields[k]).value) {
        SubstituteBecomes(src, fields[k]);
      }
    case _ =>
  }

  /** No placeholder begins in any text of the tree. */
  ghost predicate NoPlaceholders(j: Json)
    decreases j
  {
    match j
    case Str(s) => OpensNothing(s)
    case Arr(items) => forall i :: 0 <= i < |items| ==> NoPlaceholders(items[i])
    case Obj(fields) => forall k :: k in fields ==> NoPlaceholders(fields[k])
    case _ => true
  }

  /** A tree without placeholders stays as it is. */
  lemma {:induction false} PlainTreeStays(src: Sources, j: Json)
    requires NoPlaceholders(j)
    ensures SubstituteTree(src, j) == Some(j)
    decreases j
  {
    match j
    case Str(s) => PlainTextStays(src, s);
    case Arr(items) =>
      forall i | 0 <= i < |items| ensures SubstituteTree(src, items[i]) == Some(items[i]) {
        PlainTreeStays(src, items[i]);
      }
      assert SubstituteTree(src, j).value.items == items;
    case Obj(fields) =>
      forall k | k in fields ensures SubstituteTree(src, fields[k]) == Some(fields[k]) {
        PlainTreeStays(src, fields[k]);
      }
      assert SubstituteTree(src, j).value.fields == fields;
    case _ =>
  }
}
