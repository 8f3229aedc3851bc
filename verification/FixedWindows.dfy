/** When the beginning and the end of a long document are selected. They are served as two
    candidates among the others, by rank, from what the section heads and the better ranked
    candidates leave of the budget. */
module FixedWindows {
  import opened Basics
  import opened Spans
  import opened Sections
  import opened Allocation
  import opened Excerpt

  // ---- exactly when one window is selected ----

  lemma {:induction false} BetterWithinChosen(chosen: seq<Span>, owners: seq<Owner>, q: int, n: int)
    requires |owners| == |chosen|
    ensures BetterChars(chosen, owners, q, n) <= Chars(chosen, n)
  {
    forall x | PickedBefore(chosen, owners, q, x) ensures Covered(chosen, x) {
      var k :| 0 <= k < |chosen| && owners[k].rank < q && chosen[k].Has(x);
    }
  }

  /** While a candidate without a section is not satisfied, nothing is picked after it. */
  lemma {:induction false} NothingAfter(chosen: seq<Span>, owners: seq<Owner>, ranked: seq<Candidate>, q: nat, k: nat)
    requires |owners| == |chosen| && Priority(chosen, owners, ranked) && PicksServe(chosen, owners, ranked)
    requires q < |ranked| && ranked[q].section.None? && !Covers(chosen, ranked[q].windows) && k < |chosen|
    ensures owners[k].rank < q || Inside(chosen[k], ranked[q].windows)
  {
    assert !Satisfied(chosen, owners, ranked[q]);
    assert owners[k].rank <= q;
  }

  lemma {:induction false} ChosenWithin(chosen: seq<Span>, owners: seq<Owner>, ranked: seq<Candidate>, q: nat, n: int)
    requires |owners| == |chosen| && Priority(chosen, owners, ranked) && PicksServe(chosen, owners, ranked)
    requires q < |ranked| && ranked[q].section.None? && !Covers(chosen, ranked[q].windows)
    ensures Chars(chosen, n) <= BetterChars(chosen, owners, q, n) + Chars(ranked[q].windows, n)
  {
    var windows := ranked[q].windows;
    forall x | x in Chars(chosen, n) ensures PickedBefore(chosen, owners, q, x) || Covered(windows, x) {
      var k :| 0 <= k < |chosen| && chosen[k].Has(x);
      NothingAfter(chosen, owners, ranked, q, k);
      if Inside(chosen[k], windows) {
        var l :| 0 <= l < |windows| && windows[l].start <= chosen[k].start && chosen[k].end <= windows[l].end;
        assert windows[l].Has(x);
      }
    }
  }

  /** A candidate without a section is selected whole if and only if its characters, the
      heads and what the better ranked candidates were given fit into the budget. */
  lemma {:induction false} SelectedIff(sections: seq<Section>, n: int, chosen: seq<Span>, owners: seq<Owner>,
      ranked: seq<Candidate>, budget: int, q: nat)
    requires Selected(sections, n, chosen, owners, ranked, budget)
    requires q < |ranked| && ranked[q].section.None? && Within(ranked[q].windows, 0, n)
    ensures Covers(chosen, ranked[q].windows) <==>
      |BetterChars(chosen, owners, q, n) + Chars(ranked[q].windows, n)| <= MAX_CHARS
  {
    var better, own, all := BetterChars(chosen, owners, q, n), Chars(ranked[q].windows, n), Chars(chosen, n);
    CharsCounted(chosen, n);
    if Covers(chosen, ranked[q].windows) {
      BetterWithinChosen(chosen, owners, q, n);
      Subset(better + own, all);
    } else {
      assert budget == 0 by { assert !Satisfied(chosen, owners, ranked[q]); }
      ChosenWithin(chosen, owners, ranked, q, n);
      Subset(all, better + own);
      var x :| Covered(ranked[q].windows, x) && !Covered(chosen, x);
      assert x in better + own && x !in all;
    }
  }

  // ---- a condition that can be checked before anything is picked ----

  /** Enough room for the heads and all that candidates up to this one can be given. */
  lemma {:induction false} SelectedIfNeedsFit(sections: seq<Section>, n: int, chosen: seq<Span>,
      owners: seq<Owner>, ranked: seq<Candidate>, budget: int, q: nat)
    requires Selected(sections, n, chosen, owners, ranked, budget) && Ordered(sections, n)
    requires q < |ranked| && ranked[q].section.None? && Within(ranked[q].windows, 0, n) && Proper(ranked[q].windows)
    requires HeadsBefore(sections, |sections|) + Needs(ranked[..q + 1], sections) <= MAX_CHARS
    ensures Covers(chosen, ranked[q].windows)
  {
    var better, own := BetterChars(chosen, owners, q, n), Chars(ranked[q].windows, n);
    assert NeedsBound(chosen, owners, ranked, q, sections, n);
    NeedsOneMore(ranked, q, sections);
    CharsCounted(ranked[q].windows, n);
    UnionSize(better, own);
    SelectedIff(sections, n, chosen, owners, ranked, budget, q);
  }

  lemma {:induction false} UnionSize(a: set<int>, b: set<int>)
    ensures |a + b| <= |a| + |b|
  {
    assert a + b == a + (b - a);
    Subset(b - a, b);
  }

  lemma {:induction false} NeedsPutIn(c: Candidate, cs: seq<Candidate>, sections: seq<Section>)
    requires c.windows != [] && Windowed(cs)
    ensures Needs(PutIn(c, cs), sections) == Need(c, sections) + Needs(cs, sections)
  {
    if cs == [] || Outranks(c, cs[0]) {
      assert ([c] + cs)[1..] == cs;
    } else {
      NeedsPutIn(c, cs[1..], sections);
      assert PutIn(c, cs) == [cs[0]] + PutIn(c, cs[1..]);
      assert ([cs[0]] + PutIn(c, cs[1..]))[1..] == PutIn(c, cs[1..]);
    }
  }

  /** Ranking does not change what the candidates can be given. */
  lemma {:induction false} NeedsRanked(cs: seq<Candidate>, sections: seq<Section>)
    requires Windowed(cs)
    ensures Needs(Ranked(cs), sections) == Needs(cs, sections)
  {
    if cs != [] {
      var k := |cs| - 1;
      NeedsRanked(cs[..k], sections);
      NeedsPutIn(cs[k], Ranked(cs[..k]), sections);
      NeedsAppend(cs[..k], [cs[k]], sections);
      assert cs == cs[..k] + [cs[k]];
    }
  }

  // ---- the two windows of a document ----

  /** The beginning (0) or the end (1) of a document of n characters. */
  function Window(i: nat, n: int): Span {
    if i == 0 then Span(0, 24000) else Span(n - 28000, n)
  }

  lemma {:induction false} WindowIsRanked(lines: seq<Line>, preamble: int, matches: seq<Span>, s: Selection,
      shown: seq<Span>, i: nat) returns (q: nat)
    requires Length(lines) > MAX_CHARS && Excerpted(lines, preamble, matches, s, shown) && i < 2
    ensures q < |s.ranked| && s.ranked[q] == s.fixed[i]
    ensures s.fixed[i].section.None? && s.fixed[i].windows == [Window(i, Length(lines))]
  {
    assert (s.found + s.fixed)[|s.found| + i] == s.fixed[i];
    assert s.fixed[i] in s.ranked;
    q :| q < |s.ranked| && s.ranked[q] == s.fixed[i];
  }

  lemma {:induction false} OneWindow(chosen: seq<Span>, w: Span, n: int)
    requires 0 <= w.start <= w.end <= n
    ensures Chars([w], n) == Range(w)
    ensures Covers(chosen, [w]) <==> forall x :: w.Has(x) ==> Covered(chosen, x)
  {
    assert [w][0] == w;
    assert forall x :: Covered([w], x) <==> w.Has(x);
  }

  /** The beginning or the end of a document is selected whole if and only if it fits into
      the budget together with the heads and what the candidates ranked before it were given. */
  lemma {:induction false} WindowSelectedIff(lines: seq<Line>, preamble: int, matches: seq<Span>, s: Selection,
      shown: seq<Span>, i: nat, q: nat)
    requires Length(lines) > MAX_CHARS && Excerpted(lines, preamble, matches, s, shown)
    requires i < 2 && q < |s.ranked| && s.ranked[q] == s.fixed[i]
    ensures
      var n := Length(lines);
      (forall x :: Window(i, n).Has(x) ==> Covered(s.chosen, x)) <==>
        |BetterChars(s.chosen, s.owners, q, n) + Range(Window(i, n))| <= 120000
  {
    var n := Length(lines);
    var q' := WindowIsRanked(lines, preamble, matches, s, shown, i);
    OneWindow(s.chosen, Window(i, n), n);
    SelectedIff(s.sections, n, s.chosen, s.owners, s.ranked, s.budget, q);
  }

  lemma {:induction false} NeedsUpTo(cs: seq<Candidate>, k: nat, sections: seq<Section>, n: int)
    requires k <= |cs| && Ordered(sections, n) && CandidatesOk(cs, sections, n)
    ensures Needs(cs[..k], sections) <= Needs(cs, sections)
  {
    NeedsGrow(cs, k, |cs|, sections, n);
    assert cs[..|cs|] == cs;
  }

  lemma {:induction false} FixedNeeds(s: Selection, n: int)
    requires |s.fixed| == 2 && s.fixed[0].section.None? && s.fixed[1].section.None?
    requires s.fixed[0].windows == [Window(0, n)] && s.fixed[1].windows == [Window(1, n)]
    ensures Needs(s.found + s.fixed, s.sections) == Needs(s.found, s.sections) + 24000 + 28000
  {
    NeedsAppend(s.found, s.fixed, s.sections);
    assert s.fixed == [s.fixed[0]] + [s.fixed[1]];
    NeedsAppend([s.fixed[0]], [s.fixed[1]], s.sections);
    NeedOfWindow(s.fixed[0], Window(0, n), s.sections);
    NeedOfWindow(s.fixed[1], Window(1, n), s.sections);
  }

  lemma {:induction false} NeedOfWindow(c: Candidate, w: Span, sections: seq<Section>)
    requires c.section.None? && c.windows == [w]
    ensures Needs([c], sections) == w.end - w.start
  {
    TotalAppend([], w);
    assert [] + [w] == [w] && [c][1..] == [];
  }

  lemma {:induction false} NeedsOfDocument(lines: seq<Line>, preamble: int, matches: seq<Span>, s: Selection,
      shown: seq<Span>, k: nat)
    requires Length(lines) > MAX_CHARS && Excerpted(lines, preamble, matches, s, shown) && k <= |s.ranked|
    ensures Needs(s.ranked[..k], s.sections) <= Needs(s.found, s.sections) + 24000 + 28000
  {
    var q0 := WindowIsRanked(lines, preamble, matches, s, shown, 0);
    var q1 := WindowIsRanked(lines, preamble, matches, s, shown, 1);
    FixedNeeds(s, Length(lines));
    NeedsRanked(s.found + s.fixed, s.sections);
    NeedsUpTo(s.ranked, k, s.sections, Length(lines));
  }

  /** Both are selected whole if they fit together with the bounded heads and, for each
      section with keywords, the smaller of its windows and what its head leaves of 14,000. */
  lemma {:induction false} BothEndsSelected(lines: seq<Line>, preamble: int, matches: seq<Span>, s: Selection,
      shown: seq<Span>, i: nat, x: int)
    requires Length(lines) > MAX_CHARS && Excerpted(lines, preamble, matches, s, shown)
    requires HeadsBefore(s.sections, |s.sections|) + Needs(s.found, s.sections)
      + 24000 + 28000 <= 120000
    requires i < 2 && Window(i, Length(lines)).Has(x)
    ensures Covered(s.chosen, x)
  {
    var n := Length(lines);
    var q := WindowIsRanked(lines, preamble, matches, s, shown, i);
    NeedsOfDocument(lines, preamble, matches, s, shown, q + 1);
    SelectedIfNeedsFit(s.sections, n, s.chosen, s.owners, s.ranked, s.budget, q);
    OneWindow(s.chosen, Window(i, n), n);
  }

  // ---- when the heads leave nothing ----

  lemma {:induction false} HeadLiesInSection(sections: seq<Section>, n: int, k: nat, i: nat, s: Span, x: int)
    requires Ordered(sections, n) && k < |sections| && i < |sections| && IsHead(sections, k, s)
    requires HeadSize(sections[i]) == 0 && sections[i].start <= x < sections[i].end
    ensures !s.Has(x)
  {
    if k < i {
      assert s.end <= sections[k].end <= sections[i].start;
    } else if i < k {
      assert sections[i].end <= sections[k].start;
    }
  }

  /** Once the bounded heads use up the budget, nothing of a section without a head is
      selected, wherever it lies. */
  lemma {:induction false} NothingButHeads(sections: seq<Section>, n: int, chosen: seq<Span>,
      owners: seq<Owner>, ranked: seq<Candidate>, budget: int, i: nat, x: int)
    requires Ordered(sections, n) && Selected(sections, n, chosen, owners, ranked, budget)
    requires HeadsBefore(sections, |sections|) >= MAX_CHARS
    requires i < |sections| && HeadSize(sections[i]) == 0 && sections[i].start <= x < sections[i].end
    ensures !Covered(chosen, x)
  {
    forall j | 0 <= j < |chosen| ensures !chosen[j].Has(x) {
      assert FromHead(sections, |sections|, chosen[j]);
      var k :| 0 <= k < |sections| && IsHead(sections, k, chosen[j]);
      HeadLiesInSection(sections, n, k, i, chosen[j], x);
    }
  }

  // ---- a document that loses its end ----

  /** Thirty business sections of a heading and 3,980 characters, then an exhibit of 28,000. */
  function FilingLine(i: nat): Line {
    if i % 2 == 0 then Line(20, Some(if i < 60 then SUBSTANTIVE else NOISE))
    else Line(if i < 60 then 3980 else 27980, None)
  }

  function FilingLines(): seq<Line> { seq(62, i requires 0 <= i < 62 => FilingLine(i)) }

  function HeadingMarks(k: nat): seq<Mark> { seq(k, i requires 0 <= i < k => Mark(4000 * i, SUBSTANTIVE)) }

  lemma {:induction false} TwoLines(k: nat)
    requires k < 31
    ensures Offset(FilingLines(), 2 * k + 1) == Offset(FilingLines(), 2 * k) + 20
    ensures Offset(FilingLines(), 2 * k + 2) == Offset(FilingLines(), 2 * k) + if k < 30 then 4000 else 28000
  {
    assert FilingLines()[2 * k] == FilingLine(2 * k) && FilingLines()[2 * k + 1] == FilingLine(2 * k + 1);
    assert Offset(FilingLines(), 2 * k + 2) == Offset(FilingLines(), 2 * k + 1) + FilingLines()[2 * k + 1].length;
  }

  lemma {:induction false} TwoMarks(k: nat)
    requires k < 31
    ensures Marks(FilingLines(), 2 * k + 2) == Marks(FilingLines(), 2 * k)
      + [Mark(Offset(FilingLines(), 2 * k), if k < 30 then SUBSTANTIVE else NOISE)]
  {
    assert FilingLines()[2 * k] == FilingLine(2 * k) && FilingLines()[2 * k + 1] == FilingLine(2 * k + 1);
    assert Marks(FilingLines(), 2 * k + 2) == Marks(FilingLines(), 2 * k + 1);
  }

  lemma {:induction false} FilingMarks(k: nat)
    requires k <= 30
    ensures Offset(FilingLines(), 2 * k) == 4000 * k && Marks(FilingLines(), 2 * k) == HeadingMarks(k)
  {
    if k > 0 {
      FilingMarks(k - 1);
      TwoLines(k - 1);
      TwoMarks(k - 1);
    }
  }

  lemma {:induction false} FilingLength()
    ensures Length(FilingLines()) == 148000
    ensures Marks(FilingLines(), 62) == HeadingMarks(30) + [Mark(120000, NOISE)]
  {
    FilingMarks(30);
    TwoLines(30);
    TwoMarks(30);
  }

  function FilingSections(): seq<Section> {
    seq(31, i requires 0 <= i < 31 =>
      if i < 30 then Section(4000 * i, 4000 * i + 4000, SUBSTANTIVE) else Section(120000, 148000, NOISE))
  }

  lemma {:induction false} SectionsOfFiling(sections: seq<Section>, preamble: int)
    requires FromMarks(sections, SectionMarks(FilingLines(), preamble), 148000)
    ensures sections == FilingSections()
  {
    FilingLength();
    var marks := HeadingMarks(30) + [Mark(120000, NOISE)];
    assert marks[0] == Mark(0, SUBSTANTIVE);
    forall i | 0 <= i < 31 ensures sections[i] == FilingSections()[i] {
      assert sections[i] == SectionAt(marks, i, 148000);
    }
  }

  lemma {:induction false} FilingHeads(k: nat)
    requires k <= 30
    ensures HeadsBefore(FilingSections(), k) == 4000 * k
  {
    if k > 0 {
      FilingHeads(k - 1);
      assert HeadSize(FilingSections()[k - 1]) == 4000;
    }
  }

  lemma {:induction false} FilingIsFull()
    ensures HeadsBefore(FilingSections(), 31) == MAX_CHARS && HeadSize(FilingSections()[30]) == 0
  {
    FilingHeads(30);
  }

  lemma {:induction false} ExhibitUnselected(preamble: int, matches: seq<Span>, s: Selection, shown: seq<Span>, y: int)
    requires Excerpted(FilingLines(), preamble, matches, s, shown) && 120000 <= y < 148000
    ensures !Covered(s.chosen, y)
  {
    FilingLength();
    FilingIsFull();
    SectionsOfFiling(s.sections, preamble);
    NothingButHeads(s.sections, 148000, s.chosen, s.owners, s.ranked, s.budget, 30, y);
  }

  /** Merging adds nothing behind the last selected character. */
  lemma {:induction false} NothingShownBehind(chosen: seq<Span>, shown: seq<Span>, lo: int, hi: int, x: int)
    requires Proper(chosen) && Within(chosen, 0, hi) && AddsSmallGaps(chosen, shown) && lo <= x < hi
    requires forall y :: lo <= y < hi ==> !Covered(chosen, y)
    ensures !Covered(shown, x)
  {
    forall j | 0 <= j < |chosen| ensures chosen[j].start < lo {
      var y := chosen[j].start;
      assert chosen[j].Has(y) && (y >= lo ==> !Covered(chosen, y));
    }
    assert !InSmallGap(chosen, x);
  }

  /** Whatever keywords match, nothing of the exhibit at the end is selected or shown. */
  lemma {:induction false} EndCanBeLost(preamble: int, matches: seq<Span>, s: Selection, shown: seq<Span>, x: int)
    requires Excerpted(FilingLines(), preamble, matches, s, shown) && Window(1, 148000).Has(x)
    ensures Length(FilingLines()) == 148000 && !Covered(s.chosen, x) && !Covered(shown, x)
  {
    FilingLength();
    forall y | 120000 <= y < 148000 ensures !Covered(s.chosen, y) {
      ExhibitUnselected(preamble, matches, s, shown, y);
    }
    NothingShownBehind(s.chosen, shown, 120000, 148000, x);
  }

  /** Running the excerpt on that document loses its last 28,000 characters. */
  method ExcerptOfFiling(preamble: int, matches: seq<Span>) returns (shown: seq<Span>)
    requires InDocument(matches, 148000)
    ensures Length(FilingLines()) == 148000
    ensures forall x :: Window(1, 148000).Has(x) ==> !Covered(shown, x)
  {
    FilingLength();
    ghost var s;
    shown, s := BuildExcerpt(FilingLines(), preamble, matches);
    forall x | Window(1, 148000).Has(x) ensures !Covered(shown, x) {
      EndCanBeLost(preamble, matches, s, shown, x);
    }
  }
}
