/** Reading placeholders off a text and filling them in, said of the text itself: which
    pieces it consists of, and what each of them is replaced by. */
module Placeholders {
  import opened Basics
  import opened Json
  import opened ConfigTree

  // ---- reading ----

  ghost predicate Letter(c: char) { 'a' <= c <= 'z' || 'A' <= c <= 'Z' || c == '_' }

  ghost predicate IsName(s: string) {
    s != "" && Letter(s[0]) && forall i :: 0 < i < |s| ==> Letter(s[i]) || '0' <= s[i] <= '9'
  }

  /** A placeholder that is written as one, or a character; but not a dollar sign before an
      opening brace, which could be taken for the start of one. */
  ghost predicate PlainAt(ps: seq<Piece>, i: nat)
    requires i < |ps|
  {
    match ps[i]
    case Text(c) => c == '$' && i + 1 < |ps| ==> ps[i + 1] != Text('{')
    case Placeholder(name, default) => IsName(name) && (default.Some? ==> '}' !in default.value)
  }

  ghost predicate AllPlain(ps: seq<Piece>) {
    forall i :: 0 <= i < |ps| ==> PlainAt(ps, i)
  }

  lemma {:induction false} RestPlain(ps: seq<Piece>)
    requires ps != [] && AllPlain(ps)
    ensures AllPlain(ps[1..])
  {
    forall i | 0 <= i < |ps[1..]| ensures PlainAt(ps[1..], i) {
      assert PlainAt(ps, i + 1);
    }
  }

  lemma {:induction false} CharacterReads(ps: seq<Piece>)
    requires ps != [] && ps[0].Text? && AllPlain(ps)
    ensures PlaceholderAt([ps[0].c] + Render(ps[1..])).None?
  {
    var rest := ps[1..];
    assert PlainAt(ps, 0);
    if rest != [] {
      assert Spelled(rest[0])[0] == if rest[0].Text? then rest[0].c else '$';
      assert Render(rest)[0] == Spelled(rest[0])[0];
    }
  }

  lemma {:induction false} NameReads(name: string, rest: string)
    requires forall i :: 0 <= i < |name| ==> Letter(name[i]) || '0' <= name[i] <= '9'
    requires rest != "" && (rest[0] == '}' || rest[0] == ':')
    ensures NameLength(name + rest) == |name|
  {
    if name == "" {
      assert name + rest == rest;
    } else {
      NameReads(name[1..], rest);
      assert (name + rest)[1..] == name[1..] + rest;
    }
  }

  lemma {:induction false} DefaultReads(default: string, rest: string)
    requires '}' !in default && rest != "" && rest[0] == '}'
    ensures ToBrace(default + rest) == |default|
  {
    if default == "" {
      assert default + rest == rest;
    } else {
      DefaultReads(default[1..], rest);
      assert (default + rest)[1..] == default[1..] + rest;
    }
  }

  lemma {:induction false} BareReads(name: string, rest: string)
    requires IsName(name)
    ensures PlaceholderAt("${" + name + "}" + rest) == Some((Placeholder(name, None), |name| + 3))
  {
    var s := "${" + name + "}" + rest;
    assert s[0] == '$' && s[1] == '{' && s[2] == name[0] && s[2 + |name|] == '}';
    assert s[2..] == name + ("}" + rest);
    NameReads(name, "}" + rest);
    assert s[2..2 + |name|] == name;
  }

  lemma {:induction false} DefaultedReads(name: string, default: string, rest: string)
    requires IsName(name) && '}' !in default
    ensures
      PlaceholderAt("${" + name + ":-" + default + "}" + rest)
        == Some((Placeholder(name, Some(default)), |name| + |default| + 5))
  {
    var s := "${" + name + ":-" + default + "}" + rest;
    var n := 2 + |name|;
    assert s[0] == '$' && s[1] == '{' && s[2] == name[0] && s[n] == ':' && s[n + 1] == '-';
    assert s[2..] == name + (":-" + default + "}" + rest);
    NameReads(name, ":-" + default + "}" + rest);
    assert s[n + 2..] == default + ("}" + rest);
    DefaultReads(default, "}" + rest);
    assert s[2..n] == name && s[n + 2..n + 2 + |default|] == default;
  }

  lemma {:induction false} SpelledBare(name: string)
    ensures Spelled(Placeholder(name, None)) == "${" + name + "}"
    ensures |Spelled(Placeholder(name, None))| == |name| + 3
  {
    assert "${" + name + "" == "${" + name;
  }

  lemma {:induction false} SpelledDefaulted(name: string, default: string)
    ensures Spelled(Placeholder(name, Some(default))) == "${" + name + ":-" + default + "}"
    ensures |Spelled(Placeholder(name, Some(default)))| == |name| + |default| + 5
  {
    assert "${" + name + (":-" + default) == "${" + name + ":-" + default;
  }

  lemma {:induction false} PlaceholderReads(p: Piece, rest: string)
    requires p.Placeholder? && IsName(p.name) && (p.default.Some? ==> '}' !in p.default.value)
    ensures PlaceholderAt(Spelled(p) + rest) == Some((p, |Spelled(p)|))
  {
    if p.default.None? {
      SpelledBare(p.name);
      BareReads(p.name, rest);
    } else {
      SpelledDefaulted(p.name, p.default.value);
      DefaultedReads(p.name, p.default.value, rest);
    }
  }

  lemma {:induction false} SpelledFirst(p: Piece, ps: seq<Piece>)
    ensures Render([p] + ps) == Spelled(p) + Render(ps)
  {
    assert ([p] + ps)[1..] == ps;
  }

  /** Every placeholder that is written in a text is found there, with its name and its
      default, and nothing else is taken for one. */
  lemma {:induction false} ScanFindsWhatIsWritten(ps: seq<Piece>)
    requires AllPlain(ps)
    ensures Scan(Render(ps)) == ps
  {
    if ps != [] {
      var p, rest := ps[0], ps[1..];
      RestPlain(ps);
      ScanFindsWhatIsWritten(rest);
      assert ps == [p] + rest;
      SpelledFirst(p, rest);
      var s := Spelled(p) + Render(rest);
      assert PlainAt(ps, 0);
      if p.Placeholder? {
        PlaceholderReads(p, Render(rest));
      } else {
        CharacterReads(ps);
      }
      assert s[|Spelled(p)|..] == Render(rest);
    }
  }

  // ---- filling in ----

  /** What a placeholder is replaced by: the secrets file's value goes first, then, but for a
      managed secret beside an existing secrets file, the environment's, then the default,
      then in demo mode a stand-in. A value that was found must not be empty without a default. */
  ghost predicate ReplacedBy(src: Sources, name: string, default: Option<string>, v: string) {
    if name in src.secrets then v == src.secrets[name] && (v != "" || default.Some?)
    else if src.authoritative
         && name in {"OPENROUTER_API_KEY", "FRED_API_KEY", "OANDA_API_KEY", "EIA_API_KEY", "TWITTERAPI_KEY"} then
      default == Some(v)
    else if name in src.env then v == src.env[name] && (v != "" || default.Some?)
    else if default.Some? then v == default.value
    else v == "demo-disabled" && src.isDemo(if "DEMO_MODE" in src.env then Some(src.env["DEMO_MODE"]) else None)
  }

  ghost predicate PieceGives(src: Sources, p: Piece, v: string) {
    match p
    case Text(c) => v == [c]
    case Placeholder(name, default) => ReplacedBy(src, name, default, v)
  }

  function Joined(vs: seq<string>): string {
    if vs == [] then "" else vs[0] + Joined(vs[1..])
  }

  /** The pieces give these texts, in order. */
  ghost predicate Gives(src: Sources, ps: seq<Piece>, vs: seq<string>) {
    |vs| == |ps| && forall i :: 0 <= i < |ps| ==> PieceGives(src, ps[i], vs[i])
  }

  lemma {:induction false} LookupGives(src: Sources, name: string, default: Option<string>, v: string)
    ensures Lookup(src, name, default) == Some(v) <==> ReplacedBy(src, name, default, v)
  {
  }

  lemma {:induction false} FirstGives(src: Sources, ps: seq<Piece>, v: string, vs: seq<string>)
    requires ps != []
    ensures Gives(src, ps, [v] + vs) <==> PieceGives(src, ps[0], v) && Gives(src, ps[1..], vs)
  {
    var all := [v] + vs;
    assert all[1..] == vs;
    if PieceGives(src, ps[0], v) && Gives(src, ps[1..], vs) {
      forall i | 0 <= i < |ps| ensures PieceGives(src, ps[i], all[i]) {
        assert i > 0 ==> ps[1..][i - 1] == ps[i] && vs[i - 1] == all[i];
      }
    }
    if Gives(src, ps, all) {
      forall i | 0 <= i < |ps| - 1 ensures PieceGives(src, ps[1..][i], vs[i]) {
        assert PieceGives(src, ps[i + 1], all[i + 1]);
      }
    }
  }

  /** Filling in replaces every piece by what it gives. */
  lemma {:induction false} FillReplaces(src: Sources, ps: seq<Piece>) returns (vs: seq<string>)
    requires Fill(src, ps).Some?
    ensures Gives(src, ps, vs) && Fill(src, ps) == Some(Joined(vs))
  {
    if ps == [] {
      vs := [];
    } else {
      var rest := FillReplaces(src, ps[1..]);
      var first := if ps[0].Text? then [ps[0].c] else Lookup(src, ps[0].name, ps[0].default).value;
      if ps[0].Placeholder? {
        LookupGives(src, ps[0].name, ps[0].default, first);
      }
      vs := [first] + rest;
      FirstGives(src, ps, first, rest);
      assert vs[1..] == rest;
    }
  }

  /** And it fails only if some piece gives nothing. */
  lemma {:induction false} FillSucceeds(src: Sources, ps: seq<Piece>, vs: seq<string>)
    requires Gives(src, ps, vs)
    ensures Fill(src, ps) == Some(Joined(vs))
  {
    if ps != [] {
      assert vs == [vs[0]] + vs[1..];
      FirstGives(src, ps, vs[0], vs[1..]);
      FillSucceeds(src, ps[1..], vs[1..]);
      if ps[0].Placeholder? {
        LookupGives(src, ps[0].name, ps[0].default, vs[0]);
      }
    }
  }

  /** A text that is written with these pieces becomes the texts they give, and cannot be
      filled in exactly if one of them gives nothing. */
  lemma {:induction false} TextBecomes(src: Sources, ps: seq<Piece>, out: string)
    requires AllPlain(ps)
    ensures Substitute(src, Render(ps)) == Some(out) <==> exists vs :: Gives(src, ps, vs) && out == Joined(vs)
  {
    ScanFindsWhatIsWritten(ps);
    if Substitute(src, Render(ps)) == Some(out) {
      var vs := FillReplaces(src, ps);
    }
    if vs :| Gives(src, ps, vs) && out == Joined(vs) {
      FillSucceeds(src, ps, vs);
    }
  }

  /** A text that is nothing but one placeholder becomes what that is replaced by. */
  lemma {:induction false} LonePlaceholderBecomes(src: Sources, name: string, default: Option<string>, out: string)
    requires IsName(name) && (default.Some? ==> '}' !in default.value)
    ensures Substitute(src, Spelled(Placeholder(name, default))) == Some(out) <==> ReplacedBy(src, name, default, out)
  {
    var ps := [Placeholder(name, default)];
    assert ps[1..] == [] && Render(ps) == Spelled(ps[0]) + "" == Spelled(ps[0]);
    TextBecomes(src, ps, out);
    if ReplacedBy(src, name, default, out) {
      OneText(out);
      assert Gives(src, ps, [out]);
    }
    if vs :| Gives(src, ps, vs) && out == Joined(vs) {
      assert vs == [vs[0]] && PieceGives(src, ps[0], vs[0]);
      OneText(vs[0]);
    }
  }

  lemma {:induction false} OneText(v: string)
    ensures Joined([v]) == v
  {
    assert [v][1..] == [] && v + "" == v;
  }

  function TextPieces(s: string): seq<Piece> { seq(|s|, i requires 0 <= i < |s| => Text(s[i])) }

  lemma {:induction false} TextsFill(src: Sources, s: string)
    ensures Render(TextPieces(s)) == s && Fill(src, TextPieces(s)) == Some(s)
  {
    if s != "" {
      TextsFill(src, s[1..]);
      assert TextPieces(s)[1..] == TextPieces(s[1..]);
      assert s == [s[0]] + s[1..];
    }
  }

  /** No dollar sign stands before an opening brace. */
  ghost predicate OpensNothing(s: string) {
    forall i :: 0 <= i < |s| - 1 ==> !(s[i] == '$' && s[i + 1] == '{')
  }

  /** A text in which no placeholder begins stays as it is. */
  lemma {:induction false} PlainTextStays(src: Sources, s: string)
    requires OpensNothing(s)
    ensures Substitute(src, s) == Some(s)
  {
    TextsFill(src, s);
    ScanFindsWhatIsWritten(TextPieces(s));
  }
}
