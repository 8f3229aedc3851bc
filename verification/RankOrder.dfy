/** The order in which a long document's candidates are served, told from the document: the
    tier first, then the number of keyword windows, then the place. */
module RankOrder {
  import opened Basics
  import opened Spans
  import opened Sections
  import opened Allocation
  import opened Excerpt

  /** A candidate's tier and how many keyword windows speak for it: those of its section, or
      none for the fixed beginning and end. */
  ghost predicate SpokenFor(c: Candidate, sections: seq<Section>, matches: seq<Span>, tier: int, keywords: nat) {
    if c.section.Some? then
      && c.section.value < |sections| && tier == sections[c.section.value].tier
      && keywords == |WindowsIn(sections[c.section.value], matches)|
    else
      && c.windows != [] && Weakest(sections, c.windows[0].start, c.windows[0].end, tier) && keywords == 0
  }

  lemma {:induction false} OneWeakest(sections: seq<Section>, start: int, end: int, t: int, u: int)
    requires Weakest(sections, start, end, t) && Weakest(sections, start, end, u)
    ensures t == u
  {
  }

  lemma {:induction false} FixedSpeaks(c: Candidate, sections: seq<Section>, start: int, end: int, matches: seq<Span>,
      tier: int, keywords: nat)
    requires IsFixed(c, sections, start, end) && SpokenFor(c, sections, matches, tier, keywords)
    ensures c.quality == Quality(tier, keywords)
  {
    var t :| FixedWindow(c, sections, start, end, t);
    OneWeakest(sections, start, end, t, tier);
  }

  lemma {:induction false} FoundSpeaks(found: seq<Candidate>, c: Candidate, sections: seq<Section>, matches: seq<Span>,
      tier: int, keywords: nat)
    requires Collected(found, sections, |sections|, matches) && c in found
    requires SpokenFor(c, sections, matches, tier, keywords)
    ensures c.quality == Quality(tier, keywords)
  {
    var r :| 0 <= r < |found| && found[r] == c;
    assert OfSection(found[r], sections, matches);
  }

  lemma {:induction false} OneOfTwo(fixed: seq<Candidate>, c: Candidate, sections: seq<Section>, n: int)
    requires FixedWindows(fixed, sections, n) && c in fixed
    ensures IsFixed(c, sections, 0, MinInt(24000, n)) || IsFixed(c, sections, MaxInt(n - 28000, 0), n)
  {
    assert c == fixed[0] || c == fixed[1];
  }

  lemma {:induction false} RankedAmongAll(ranked: seq<Candidate>, found: seq<Candidate>, fixed: seq<Candidate>,
      sections: seq<Section>, n: int, matches: seq<Span>, a: nat)
    requires Served(ranked, found, fixed, sections, n, matches) && a < |ranked|
    ensures ranked[a] in found || ranked[a] in fixed
    ensures Collected(found, sections, |sections|, matches) && FixedWindows(fixed, sections, n)
  {
    assert ranked[a] in found + fixed;
  }

  lemma {:induction false} SpeakersDecide(ranked: seq<Candidate>, found: seq<Candidate>, fixed: seq<Candidate>,
      sections: seq<Section>, n: int, matches: seq<Span>, a: nat, tier: int, keywords: nat)
    requires Served(ranked, found, fixed, sections, n, matches) && a < |ranked|
    requires SpokenFor(ranked[a], sections, matches, tier, keywords)
    ensures ranked[a].quality == Quality(tier, keywords)
  {
    var c := ranked[a];
    RankedAmongAll(ranked, found, fixed, sections, n, matches, a);
    if c in found {
      FoundSpeaks(found, c, sections, matches, tier, keywords);
    } else {
      OneOfTwo(fixed, c, sections, n);
      if IsFixed(c, sections, 0, MinInt(24000, n)) {
        FixedSpeaks(c, sections, 0, MinInt(24000, n), matches, tier, keywords);
      } else {
        FixedSpeaks(c, sections, MaxInt(n - 28000, 0), n, matches, tier, keywords);
      }
    }
  }

  /** Of two candidates, the one served first has the higher tier; or the same, and more
      keyword windows as far as the first hundred count; or the same of both, and it does
      not begin later in the document. */
  lemma {:induction false} ServedInOrder(ranked: seq<Candidate>, found: seq<Candidate>, fixed: seq<Candidate>,
      sections: seq<Section>, n: int, matches: seq<Span>, a: nat, b: nat,
      tier: int, keywords: nat, tier': int, keywords': nat)
    requires Served(ranked, found, fixed, sections, n, matches) && a < b < |ranked|
    requires SpokenFor(ranked[a], sections, matches, tier, keywords)
    requires SpokenFor(ranked[b], sections, matches, tier', keywords')
    ensures
      || tier > tier'
      || (tier == tier' && MinInt(keywords, 100) > MinInt(keywords', 100))
      || (tier == tier' && MinInt(keywords, 100) == MinInt(keywords', 100)
          && ranked[a].windows != [] && ranked[b].windows != []
          && ranked[a].windows[0].start <= ranked[b].windows[0].start)
  {
    SpeakersDecide(ranked, found, fixed, sections, n, matches, a, tier, keywords);
    SpeakersDecide(ranked, found, fixed, sections, n, matches, b, tier', keywords');
    RankedRanks(found + fixed);
    assert !Outranks(ranked[b], ranked[a]);
    TierDominates(tier', keywords', tier, keywords);
    TierDominates(tier, keywords, tier', keywords');
  }

  /** In every excerpt of a long document, a section with more keyword windows is served
      before one of its tier with fewer, and any section with a keyword before the fixed
      beginning or end of the same tier. */
  lemma {:induction false} DenserSectionsFirst(lines: seq<Line>, preamble: int, matches: seq<Span>, s: Selection,
      shown: seq<Span>, a: nat, b: nat, tier: int, keywords: nat, fewer: nat)
    requires Excerpted(lines, preamble, matches, s, shown) && a < |s.ranked| && b < |s.ranked|
    requires SpokenFor(s.ranked[a], s.sections, matches, tier, keywords)
    requires SpokenFor(s.ranked[b], s.sections, matches, tier, fewer)
    requires fewer < keywords <= 100 || (s.ranked[a].section.Some? && s.ranked[b].section.None?)
    ensures a < b
  {
    var n := Length(lines);
    assert a != b;
    if s.ranked[a].section.Some? {
      SectionHasKeyword(s, n, matches, s.ranked[a]);
    }
    if b < a {
      ServedInOrder(s.ranked, s.found, s.fixed, s.sections, n, matches, b, a, tier, fewer, tier, keywords);
    }
  }

  /** A section's candidate has at least one keyword window. */
  lemma {:induction false} SectionHasKeyword(s: Selection, n: int, matches: seq<Span>, c: Candidate)
    requires Served(s.ranked, s.found, s.fixed, s.sections, n, matches) && c in s.ranked && c.section.Some?
    ensures c.section.value < |s.sections| && |WindowsIn(s.sections[c.section.value], matches)| >= 1
  {
    var r :| 0 <= r < |s.ranked| && s.ranked[r] == c;
    assert CandidateOk(c, s.sections, n);
    RankedAmongAll(s.ranked, s.found, s.fixed, s.sections, n, matches, r);
    if c in s.fixed {
      OneOfTwo(s.fixed, c, s.sections, n);
    }
    var w := WindowsIn(s.sections[c.section.value], matches);
    var x := c.windows[0].start;
    assert c.windows[0].Has(x) && Covered(c.windows, x);
    assert Covered(w, x) || InSmallGap(w, x);
  }
}
