/** Splitting a document into ranked sections, finding the section of a character,
    and the keyword windows of each section. */
module Sections {
  import opened Basics
  import opened Spans

  const WINDOW_BEFORE: int := 1600
  const WINDOW_AFTER: int := 3400

  /** One line with its line ending, and the tier of the section it opens, if it is a
      heading or a file marker. */
  datatype Line = Line(length: nat, opens: Option<int>)

  datatype Section = Section(start: int, end: int, tier: int)
  {
    predicate Has(x: int) { start <= x < end }
  }

  datatype Mark = Mark(at: int, tier: int)

  /** Where line k starts. */
  function Offset(lines: seq<Line>, k: nat): nat
    requires k <= |lines|
  {
    if k == 0 then 0 else Offset(lines, k - 1) + lines[k - 1].length
  }

  /** The number of characters in the document. */
  function Length(lines: seq<Line>): nat { Offset(lines, |lines|) }

  ghost predicate NonEmpty(lines: seq<Line>) {
    forall k :: 0 <= k < |lines| ==> lines[k].length > 0
  }

  /** The sections opened by the first k lines. */
  function Marks(lines: seq<Line>, k: nat): seq<Mark>
    requires k <= |lines|
  {
    if k == 0 then [] else
      var before := Marks(lines, k - 1);
      if lines[k - 1].opens.Some? then before + [Mark(Offset(lines, k - 1), lines[k - 1].opens.value)] else before
  }

  /** The tier of line k: that of the last opening line up to and including it. */
  function TierAt(lines: seq<Line>, k: nat, preamble: int): int
    requires k < |lines|
  {
    if lines[k].opens.Some? then lines[k].opens.value
    else if k == 0 then preamble
    else TierAt(lines, k - 1, preamble)
  }

  /** Sections follow each other without gap or overlap and cover [0, n). */
  ghost predicate Partition(sections: seq<Section>, n: int) {
    && sections != []
    && sections[0].start == 0 && sections[|sections| - 1].end == n
    && (forall i :: 0 <= i < |sections| - 1 ==> sections[i].end == sections[i + 1].start)
    && (n > 0 ==> forall i :: 0 <= i < |sections| ==> sections[i].start < sections[i].end)
  }

  /** A partition lists its sections in order of their starts. */
  lemma {:induction false} PartitionOrder(sections: seq<Section>, n: int, i: nat, j: nat)
    requires Partition(sections, n) && n > 0 && i < j < |sections|
    ensures sections[i].end <= sections[j].start
  {
    if i + 1 < j {
      PartitionOrder(sections, n, i, j - 1);
    }
  }

  /** The marks of the first k lines come first and lie before line k; the others do not. */
  lemma {:induction false} MarksSplit(lines: seq<Line>, k: nat, n: nat)
    requires k <= n <= |lines| && NonEmpty(lines)
    ensures |Marks(lines, k)| <= |Marks(lines, n)|
    ensures Marks(lines, n)[..|Marks(lines, k)|] == Marks(lines, k)
    ensures forall i :: |Marks(lines, k)| <= i < |Marks(lines, n)| ==> Marks(lines, n)[i].at >= Offset(lines, k)
    ensures forall i :: 0 <= i < |Marks(lines, n)| ==> 0 <= Marks(lines, n)[i].at < Offset(lines, n)
    decreases n
  {
    if k < n {
      MarksSplit(lines, k, n - 1);
      OffsetGrows(lines, k, n - 1);
    } else if n > 0 {
      MarksSplit(lines, n - 1, n - 1);
    }
  }

  lemma {:induction false} OffsetGrows(lines: seq<Line>, k: nat, n: nat)
    requires k <= n <= |lines| && NonEmpty(lines)
    ensures Offset(lines, k) + (n - k) <= Offset(lines, n)
  {
    if k < n {
      OffsetGrows(lines, k, n - 1);
    }
  }

  lemma {:induction false} MarksAscend(lines: seq<Line>, n: nat)
    requires n <= |lines| && NonEmpty(lines)
    ensures forall i, j :: 0 <= i < j < |Marks(lines, n)| ==> Marks(lines, n)[i].at < Marks(lines, n)[j].at
  {
    if n > 0 {
      MarksAscend(lines, n - 1);
      MarksSplit(lines, n - 1, n - 1);
    }
  }

  lemma {:induction false} TierIsLastMark(lines: seq<Line>, k: nat, preamble: int)
    requires k < |lines|
    ensures
      var marks := Marks(lines, k + 1);
      TierAt(lines, k, preamble) == if marks == [] then preamble else marks[|marks| - 1].tier
  {
    if lines[k].opens.None? && k > 0 {
      TierIsLastMark(lines, k - 1, preamble);
    }
  }

  /** The marks, with one at 0 for an unheaded beginning. */
  function AllMarks(marks: seq<Mark>, preamble: int): seq<Mark> {
    if marks == [] || marks[0].at > 0 then [Mark(0, preamble)] + marks else marks
  }

  /** The marks that open the sections of the text. */
  function SectionMarks(lines: seq<Line>, preamble: int): seq<Mark> {
    AllMarks(Marks(lines, |lines|), preamble)
  }

  /** The section opened by mark i reaches to the next mark, or to the end. */
  function SectionAt(marks: seq<Mark>, i: nat, n: int): Section
    requires i < |marks|
  {
    Section(marks[i].at, if i + 1 < |marks| then marks[i + 1].at else n, marks[i].tier)
  }

  ghost predicate FromMarks(sections: seq<Section>, marks: seq<Mark>, n: int) {
    && |sections| == |marks|
    && (forall i :: 0 <= i < |sections| ==> sections[i] == SectionAt(marks, i, n))
  }

  /** Every opening line starts a section of its tier. */
  ghost predicate Opened(sections: seq<Section>, lines: seq<Line>) {
    forall k :: 0 <= k < |lines| && lines[k].opens.Some? ==> OpensAt(sections, Offset(lines, k), lines[k].opens.value)
  }

  ghost predicate OpensAt(sections: seq<Section>, at: int, tier: int) {
    exists i :: 0 <= i < |sections| && sections[i].start == at && sections[i].tier == tier
  }

  /** Every section but one at 0 starts at an opening line. */
  ghost predicate OpenedByLines(sections: seq<Section>, lines: seq<Line>) {
    forall i :: 0 <= i < |sections| ==> sections[i].start == 0 || OpenedBy(lines, |lines|, sections[i].start)
  }

  ghost predicate OpenedBy(lines: seq<Line>, n: nat, at: int)
    requires n <= |lines|
  {
    exists k :: 0 <= k < n && lines[k].opens.Some? && Offset(lines, k) == at
  }

  /** Every line lies in a section of the tier in force at that line. */
  ghost predicate Tiered(sections: seq<Section>, lines: seq<Line>, preamble: int) {
    forall k, i :: 0 <= k < |lines| && 0 <= i < |sections| && sections[i].Has(Offset(lines, k)) ==>
      sections[i].tier == TierAt(lines, k, preamble)
  }

  lemma {:induction false} AllMarksAscend(lines: seq<Line>, preamble: int)
    requires NonEmpty(lines)
    ensures
      var all := SectionMarks(lines, preamble);
      && all != [] && all[0].at == 0
      && (forall i, j :: 0 <= i < j < |all| ==> all[i].at < all[j].at)
      && (Offset(lines, |lines|) > 0 ==> forall i :: 0 <= i < |all| ==> all[i].at < Offset(lines, |lines|))
  {
    MarksAscend(lines, |lines|);
    MarksSplit(lines, |lines|, |lines|);
  }

  lemma {:induction false} MarksAreLines(lines: seq<Line>, n: nat, j: nat)
    requires n <= |lines| && j < |Marks(lines, n)|
    ensures OpenedBy(lines, n, Marks(lines, n)[j].at)
  {
    if j < |Marks(lines, n - 1)| {
      MarksAreLines(lines, n - 1, j);
    }
  }

  lemma {:induction false} LineOpens(sections: seq<Section>, lines: seq<Line>, n: int, preamble: int, k: nat)
    requires NonEmpty(lines) && FromMarks(sections, SectionMarks(lines, preamble), n)
    requires k < |lines| && lines[k].opens.Some?
    ensures OpensAt(sections, Offset(lines, k), lines[k].opens.value)
  {
    var marks := Marks(lines, |lines|);
    MarksSplit(lines, k + 1, |lines|);
    var j := |Marks(lines, k + 1)| - 1;
    assert marks[j] == marks[..j + 1][j];
    assert sections[j + |sections| - |marks|].start == Offset(lines, k);
  }

  lemma {:induction false} SectionOpened(sections: seq<Section>, lines: seq<Line>, n: int, preamble: int, i: nat)
    requires NonEmpty(lines) && FromMarks(sections, SectionMarks(lines, preamble), n)
    requires i < |sections| && sections[i].start != 0
    ensures OpenedBy(lines, |lines|, sections[i].start)
  {
    MarksAreLines(lines, |lines|, i - (|sections| - |Marks(lines, |lines|)|));
  }

  lemma {:induction false} OpenedFromMarks(sections: seq<Section>, lines: seq<Line>, n: int, preamble: int)
    requires NonEmpty(lines) && FromMarks(sections, SectionMarks(lines, preamble), n)
    ensures Opened(sections, lines) && OpenedByLines(sections, lines)
  {
    forall k | 0 <= k < |lines| && lines[k].opens.Some?
      ensures OpensAt(sections, Offset(lines, k), lines[k].opens.value)
    {
      LineOpens(sections, lines, n, preamble, k);
    }
    forall i | 0 <= i < |sections| && sections[i].start != 0 ensures OpenedBy(lines, |lines|, sections[i].start) {
      SectionOpened(sections, lines, n, preamble, i);
    }
  }

  /** The mark in force at line k: the last one that does not lie after it. */
  lemma {:induction false} MarkInForce(lines: seq<Line>, preamble: int, k: nat) returns (p: nat)
    requires NonEmpty(lines) && k < |lines|
    ensures
      var all := SectionMarks(lines, preamble);
      && p < |all| && all[p].tier == TierAt(lines, k, preamble)
      && all[p].at <= Offset(lines, k) && (p + 1 < |all| ==> all[p + 1].at > Offset(lines, k))
  {
    var marks := Marks(lines, |lines|);
    var all := AllMarks(marks, preamble);
    var here := Marks(lines, k + 1);
    var shift := |all| - |marks|;
    MarksSplit(lines, k + 1, |lines|);
    MarksSplit(lines, k, k);
    TierIsLastMark(lines, k, preamble);
    OffsetGrows(lines, k, k + 1);
    if here == [] {
      assert shift == 1;
      p := 0;
    } else {
      p := |here| - 1 + shift;
      assert all[p] == marks[..|here|][|here| - 1];
    }
  }

  lemma {:induction false} TieredFromMarks(sections: seq<Section>, lines: seq<Line>, n: int, preamble: int)
    requires NonEmpty(lines) && FromMarks(sections, SectionMarks(lines, preamble), n)
    ensures Tiered(sections, lines, preamble)
  {
    var all := SectionMarks(lines, preamble);
    AllMarksAscend(lines, preamble);
    forall k, i | 0 <= k < |lines| && 0 <= i < |sections| && sections[i].Has(Offset(lines, k))
      ensures sections[i].tier == TierAt(lines, k, preamble)
    {
      var p := MarkInForce(lines, preamble, k);
      assert forall a, b :: 0 <= a <= b < |all| ==> all[a].at <= all[b].at;
      assert i == p;
    }
  }

  lemma {:induction false} PartitionFromMarks(sections: seq<Section>, lines: seq<Line>, preamble: int)
    requires NonEmpty(lines)
    requires FromMarks(sections, SectionMarks(lines, preamble), Offset(lines, |lines|))
    ensures Partition(sections, Offset(lines, |lines|))
  {
    AllMarksAscend(lines, preamble);
  }

  /** The sections partition the text, start exactly at the opening lines and at 0,
      and give every line the tier of the last opening line. */
  method IterSections(lines: seq<Line>, preamble: int) returns (sections: seq<Section>)
    requires NonEmpty(lines)
    ensures Partition(sections, Length(lines))
    ensures Opened(sections, lines) && OpenedByLines(sections, lines)
    ensures Tiered(sections, lines, preamble)
    ensures FromMarks(sections, SectionMarks(lines, preamble), Length(lines))
  {
    var marks: seq<Mark> := [];
    var offset := 0;
    for i := 0 to |lines|
      invariant offset == Offset(lines, i) && marks == Marks(lines, i)
    {
      if lines[i].opens.Some? {
        marks := marks + [Mark(offset, lines[i].opens.value)];
      }
      offset := offset + lines[i].length;
    }
    assert offset == Length(lines);
    if marks == [] {
      sections := [Section(0, offset, preamble)];
    } else {
      sections := seq(|marks|, i requires 0 <= i < |marks| => SectionAt(marks, i, offset));
      if marks[0].at > 0 {
        sections := [Section(0, marks[0].at, preamble)] + sections;
      }
    }
    PartitionFromMarks(sections, lines, preamble);
    OpenedFromMarks(sections, lines, offset, preamble);
    TieredFromMarks(sections, lines, offset, preamble);
  }

  /** The section that holds the character. */
  method SectionIndex(sections: seq<Section>, n: int, offset: int) returns (index: nat)
    requires Partition(sections, n)
    ensures index < |sections|
    ensures 0 <= offset < n ==> sections[index].Has(offset)
    ensures 0 <= offset < n ==> forall i :: 0 <= i < |sections| && sections[i].Has(offset) ==> i == index
  {
    var low, high := 0, |sections|;
    while low < high
      invariant 0 <= low <= high <= |sections|
      invariant low > 0 ==> sections[low - 1].start <= offset
      invariant high < |sections| ==> sections[high].start > offset
    {
      var mid := (low + high) / 2;
      if sections[mid].start <= offset {
        low := mid + 1;
      } else {
        high := mid;
      }
    }
    index := if low >= 1 then low - 1 else 0;
    forall i | 0 <= offset < n && 0 <= i < |sections| && i != index ensures !sections[i].Has(offset) {
      if i < index {
        PartitionOrder(sections, n, i, index);
      } else {
        PartitionOrder(sections, n, index, i);
      }
    }
  }

  // ---- keyword windows ----

  /** The part of a section around one keyword match. */
  function Window(s: Section, m: Span): Span {
    Span(MaxInt(s.start, m.start - WINDOW_BEFORE), MinInt(s.end, m.end + WINDOW_AFTER))
  }

  /** The windows of the matches that start in a section, in order of the matches. */
  function WindowsIn(s: Section, matches: seq<Span>): seq<Span> {
    if matches == [] then [] else
      var before := WindowsIn(s, matches[..|matches| - 1]);
      var m := matches[|matches| - 1];
      if s.Has(m.start) then before + [Window(s, m)] else before
  }

  function Lookup<T>(table: map<nat, seq<T>>, i: nat): seq<T> {
    if i in table then table[i] else []
  }

  ghost predicate InDocument(matches: seq<Span>, n: int) {
    forall k :: 0 <= k < |matches| ==> 0 <= matches[k].start <= matches[k].end && matches[k].start < n
  }

  /** Each window stays inside its section; a match's own start is always in its window. */
  lemma {:induction false} WindowsStayInSection(s: Section, matches: seq<Span>, n: int)
    requires InDocument(matches, n)
    ensures Proper(WindowsIn(s, matches)) && Within(WindowsIn(s, matches), s.start, s.end)
    ensures forall k :: 0 <= k < |matches| && s.Has(matches[k].start) ==>
      Covered(WindowsIn(s, matches), matches[k].start)
  {
    if matches != [] {
      var j := |matches| - 1;
      WindowsStayInSection(s, matches[..j], n);
      var before := WindowsIn(s, matches[..j]);
      var all := WindowsIn(s, matches);
      forall k | 0 <= k < |matches| && s.Has(matches[k].start) ensures Covered(all, matches[k].start) {
        if k < j {
          assert matches[..j][k] == matches[k];
          var i :| 0 <= i < |before| && before[i].Has(matches[k].start);
          assert all[i].Has(matches[k].start);
        } else {
          assert all[|before|].Has(matches[k].start);
        }
      }
    }
  }

  /** The match reaches the character: 1,600 before its start, and 3,400 beyond its end. */
  predicate Reaches(m: Span, x: int) { m.start - 1600 <= x < m.end + 3400 }

  ghost predicate Reached(s: Section, matches: seq<Span>, x: int) {
    exists k :: 0 <= k < |matches| && s.Has(matches[k].start) && Reaches(matches[k], x)
  }

  /** The windows cover exactly the characters of the section that a match starting in it
      reaches. */
  lemma {:induction false} WindowsCoverWhatIsReached(s: Section, matches: seq<Span>, x: int)
    ensures Covered(WindowsIn(s, matches), x) <==> s.Has(x) && Reached(s, matches, x)
  {
    if matches != [] {
      var j := |matches| - 1;
      var m, before, all := matches[j], WindowsIn(s, matches[..j]), WindowsIn(s, matches);
      WindowsCoverWhatIsReached(s, matches[..j], x);
      OneMoreMatch(s, matches, x);
      if s.Has(m.start) {
        assert all == before + [Window(s, m)] && all[|before|] == Window(s, m);
        assert Covered(before, x) || Window(s, m).Has(x) ==> Covered(all, x) by {
          if Covered(before, x) {
            var i :| 0 <= i < |before| && before[i].Has(x);
            assert all[i].Has(x);
          }
        }
      }
    }
  }

  lemma {:induction false} OneMoreMatch(s: Section, matches: seq<Span>, x: int)
    requires matches != []
    ensures
      var j := |matches| - 1;
      Reached(s, matches, x) <==> Reached(s, matches[..j], x) || (s.Has(matches[j].start) && Reaches(matches[j], x))
  {
    var j := |matches| - 1;
    if Reached(s, matches[..j], x) {
      var k :| 0 <= k < j && s.Has(matches[..j][k].start) && Reaches(matches[..j][k], x);
      assert matches[k] == matches[..j][k];
    }
    if Reached(s, matches, x) && !(s.Has(matches[j].start) && Reaches(matches[j], x)) {
      var k :| 0 <= k < |matches| && s.Has(matches[k].start) && Reaches(matches[k], x);
      assert matches[..j][k] == matches[k];
    }
  }

  /** Each section gets exactly the windows of the matches that start in it. */
  method KeywordWindows(sections: seq<Section>, n: int, matches: seq<Span>)
    returns (windows: map<nat, seq<Span>>, counts: map<nat, nat>)
    requires Partition(sections, n) && InDocument(matches, n)
    ensures forall i :: 0 <= i < |sections| ==> Lookup(windows, i) == WindowsIn(sections[i], matches)
    ensures counts.Keys == windows.Keys
    ensures forall i :: i in windows ==> i < |sections| && counts[i] == |windows[i]|
  {
    windows, counts := map[], map[];
    for k := 0 to |matches|
      invariant forall i :: 0 <= i < |sections| ==> Lookup(windows, i) == WindowsIn(sections[i], matches[..k])
      invariant counts.Keys == windows.Keys
      invariant forall i :: i in windows ==> i < |sections| && counts[i] == |windows[i]|
    {
      var m := matches[k];
      assert matches[..k + 1][..k] == matches[..k] && matches[..k + 1][k] == m;
      var index := SectionIndex(sections, n, m.start);
      counts := counts[index := (if index in counts then counts[index] else 0) + 1];
      var start := MaxInt(sections[index].start, m.start - WINDOW_BEFORE);
      var end := MinInt(sections[index].end, m.end + WINDOW_AFTER);
      if end > start {
        windows := windows[index := Lookup(windows, index) + [Span(start, end)]];
      }
    }
    assert matches[..|matches|] == matches;
  }
}
