/** Character ranges of one document, and the three interval algorithms the excerpt is
    built from: sorting, merging close ranges, and the ranges still free. */
module Spans {

  /** The characters start, ..., end - 1. */
  datatype Span = Span(start: int, end: int)
  {
    predicate Has(x: int) { start <= x < end }
  }

  /** Ranges further apart than this stay apart when merged. */
  const GAP: int := 300

  function MaxInt(a: int, b: int): int { if a >= b then a else b }

  function MinInt(a: int, b: int): int { if a <= b then a else b }

  predicate Covered(spans: seq<Span>, x: int) {
    exists i :: 0 <= i < |spans| && spans[i].Has(x)
  }

  ghost predicate Within(spans: seq<Span>, lo: int, hi: int) {
    forall i :: 0 <= i < |spans| ==> lo <= spans[i].start && spans[i].end <= hi
  }

  ghost predicate Proper(spans: seq<Span>) {
    forall i :: 0 <= i < |spans| ==> spans[i].start < spans[i].end
  }

  ghost predicate Apart(a: Span, b: Span) { a.end <= b.start || b.end <= a.start }

  ghost predicate Disjoint(spans: seq<Span>) {
    forall i, j :: 0 <= i < j < |spans| ==> Apart(spans[i], spans[j])
  }

  /** How many characters the ranges hold, added up. */
  function Total(spans: seq<Span>): int {
    if spans == [] then 0 else
      Total(spans[..|spans| - 1]) + spans[|spans| - 1].end - spans[|spans| - 1].start
  }

  lemma {:induction false} TotalAppend(spans: seq<Span>, s: Span)
    ensures Total(spans + [s]) == Total(spans) + s.end - s.start
  {
    assert (spans + [s])[..|spans|] == spans;
  }

  // ---- counting characters ----

  /** The characters of a document of length n that the ranges hold. */
  function Chars(spans: seq<Span>, n: int): set<int> {
    set x | 0 <= x < n && Covered(spans, x)
  }

  function Range(s: Span): set<int> {
    set x | s.start <= x < s.end && s.Has(x)
  }

  lemma {:induction false} RangeSize(s: Span)
    requires s.start <= s.end
    ensures |Range(s)| == s.end - s.start
    decreases s.end - s.start
  {
    if s.start < s.end {
      var shorter := Span(s.start, s.end - 1);
      RangeSize(shorter);
      assert Range(s) == Range(shorter) + {s.end - 1};
    } else {
      assert Range(s) == {};
    }
  }

  /** Disjoint ranges have as many characters as their lengths add up to, others at most. */
  lemma {:induction false} CharsCounted(spans: seq<Span>, n: int)
    requires Proper(spans) && Within(spans, 0, n)
    ensures |Chars(spans, n)| <= Total(spans)
    ensures Disjoint(spans) ==> |Chars(spans, n)| == Total(spans)
  {
    if spans == [] {
      assert Chars(spans, n) == {};
    } else {
      var k := |spans| - 1;
      var before, s := spans[..k], spans[k];
      CharsCounted(before, n);
      RangeSize(s);
      CharsSplit(spans, n);
      if Disjoint(spans) {
        forall x | x in Chars(before, n) ensures x !in Range(s) {
          var i :| 0 <= i < |before| && before[i].Has(x);
          assert Apart(spans[i], s);
        }
        assert Chars(before, n) * Range(s) == {};
      }
    }
  }

  lemma {:induction false} CharsSplit(spans: seq<Span>, n: int)
    requires spans != [] && Within(spans, 0, n)
    ensures Chars(spans, n) == Chars(spans[..|spans| - 1], n) + Range(spans[|spans| - 1])
  {
    var k := |spans| - 1;
    var before, s := spans[..k], spans[k];
    forall x | x in Chars(before, n) ensures x in Chars(spans, n) {
      var i :| 0 <= i < |before| && before[i].Has(x);
      assert spans[i].Has(x);
    }
    forall x | x in Range(s) ensures x in Chars(spans, n) {
      assert spans[k].Has(x);
    }
    forall x | x in Chars(spans, n) ensures x in Chars(before, n) + Range(s) {
      var i :| 0 <= i < |spans| && spans[i].Has(x);
      assert i < k ==> before[i].Has(x);
    }
  }

  // ---- sorted(), by start and then by end ----

  predicate Before(a: Span, b: Span) {
    a.start < b.start || (a.start == b.start && a.end <= b.end)
  }

  /** A total order, so that there is one way to sort. */
  lemma {:induction false} TotalOrder(a: Span, b: Span)
    ensures Before(a, b) || Before(b, a)
    ensures Before(a, b) && Before(b, a) ==> a == b
    ensures Before(a, b) ==> a.start <= b.start
  {
  }

  ghost predicate Ascending(spans: seq<Span>) {
    forall i, j :: 0 <= i < j < |spans| ==> Before(spans[i], spans[j])
  }

  function Insert(s: Span, sorted: seq<Span>): seq<Span> {
    if sorted == [] || Before(s, sorted[0]) then [s] + sorted else [sorted[0]] + Insert(s, sorted[1..])
  }

  function Sorted(spans: seq<Span>): seq<Span> {
    if spans == [] then [] else Insert(spans[|spans| - 1], Sorted(spans[..|spans| - 1]))
  }

  lemma {:induction false} InsertPermutes(s: Span, sorted: seq<Span>)
    ensures multiset(Insert(s, sorted)) == multiset(sorted) + multiset{s}
  {
    if sorted != [] {
      InsertPermutes(s, sorted[1..]);
      assert sorted == [sorted[0]] + sorted[1..];
    }
  }

  lemma {:induction false} InsertAscends(s: Span, sorted: seq<Span>)
    requires Ascending(sorted)
    ensures Ascending(Insert(s, sorted))
  {
    if sorted != [] && !Before(s, sorted[0]) {
      var rest := Insert(s, sorted[1..]);
      InsertAscends(s, sorted[1..]);
      InsertPermutes(s, sorted[1..]);
      forall t | t in rest ensures Before(sorted[0], t) {
        assert t in multiset(rest);
        assert t == s || t in sorted[1..];
      }
    }
  }

  lemma {:induction false} SortedSorts(spans: seq<Span>)
    ensures Ascending(Sorted(spans))
    ensures multiset(Sorted(spans)) == multiset(spans)
  {
    if spans != [] {
      var n := |spans| - 1;
      SortedSorts(spans[..n]);
      InsertAscends(spans[n], Sorted(spans[..n]));
      InsertPermutes(spans[n], Sorted(spans[..n]));
      assert spans == spans[..n] + [spans[n]];
    }
  }

  /** Sorting moves ranges around; it neither adds nor loses one. */
  lemma {:induction false} SortedSame(spans: seq<Span>)
    ensures Ascending(Sorted(spans)) && |Sorted(spans)| == |spans|
    ensures forall i :: 0 <= i < |spans| ==> spans[i] in Sorted(spans)
    ensures forall i :: 0 <= i < |spans| ==> Sorted(spans)[i] in spans
    ensures forall x :: Covered(Sorted(spans), x) <==> Covered(spans, x)
  {
    var out := Sorted(spans);
    SortedSorts(spans);
    assert |multiset(out)| == |out| && |multiset(spans)| == |spans|;
    forall s ensures s in spans <==> s in out {
      assert s in spans <==> s in multiset(spans);
      assert s in out <==> s in multiset(out);
    }
    forall x ensures Covered(out, x) <==> Covered(spans, x) {
      if Covered(out, x) {
        var i :| 0 <= i < |out| && out[i].Has(x);
        assert out[i] in spans;
      }
      if Covered(spans, x) {
        var i :| 0 <= i < |spans| && spans[i].Has(x);
        assert spans[i] in out;
      }
    }
  }

  lemma {:induction false} SortedCovers(spans: seq<Span>)
    requires Proper(spans)
    ensures Ascending(Sorted(spans)) && Proper(Sorted(spans))
    ensures forall x :: Covered(Sorted(spans), x) <==> Covered(spans, x)
  {
    SortedSame(spans);
  }

  // ---- merging ----

  /** A character the merge adds lies between two given ranges at most 300 apart. */
  ghost predicate InSmallGap(spans: seq<Span>, x: int) {
    exists i, j :: 0 <= i < |spans| && 0 <= j < |spans|
      && spans[i].end <= x < spans[j].start <= spans[i].end + 300
  }

  /** Both ends of a merged range are ends of given ones. */
  ghost predicate EndsFrom(spans: seq<Span>, m: Span) {
    && (exists i :: 0 <= i < |spans| && spans[i].start == m.start)
    && (exists j :: 0 <= j < |spans| && spans[j].end == m.end)
  }

  ghost predicate Inside(s: Span, spans: seq<Span>) {
    exists k :: 0 <= k < |spans| && spans[k].start <= s.start && s.end <= spans[k].end
  }

  ghost predicate FarApart(merged: seq<Span>) {
    forall k, l :: 0 <= k < l < |merged| ==> merged[k].end + 300 < merged[l].start
  }

  ghost predicate AddsSmallGaps(spans: seq<Span>, merged: seq<Span>) {
    forall x :: Covered(merged, x) ==> Covered(spans, x) || InSmallGap(spans, x)
  }

  /** The first i sorted ranges are merged. */
  ghost predicate Merging(spans: seq<Span>, sorted: seq<Span>, i: nat, merged: seq<Span>) {
    && i <= |sorted|
    && Proper(merged) && FarApart(merged) && AddsSmallGaps(spans, merged)
    && (i > 0 ==> merged != [])
    && (forall k :: 0 <= k < |merged| ==> EndsFrom(spans, merged[k]))
    && (forall j :: i <= j < |sorted| && merged != [] ==> merged[|merged| - 1].start <= sorted[j].start)
    && (forall j :: 0 <= j < i ==> Inside(sorted[j], merged))
  }

  lemma {:induction false} MergeAppends(spans: seq<Span>, sorted: seq<Span>, i: nat, merged: seq<Span>)
    requires Merging(spans, sorted, i, merged) && i < |sorted| && Ascending(sorted)
    requires sorted[i] in spans && sorted[i].start < sorted[i].end
    requires merged != [] ==> sorted[i].start > merged[|merged| - 1].end + GAP
    ensures Merging(spans, sorted, i + 1, merged + [sorted[i]])
  {
    var s := sorted[i];
    var at :| 0 <= at < |spans| && spans[at] == s;
    assert EndsFrom(spans, s);
    var merged' := merged + [s];
    forall x | Covered(merged', x) ensures Covered(spans, x) || InSmallGap(spans, x) {
      var k :| 0 <= k < |merged'| && merged'[k].Has(x);
      if k < |merged| { assert merged[k].Has(x); } else { assert spans[at].Has(x); }
    }
    forall j | 0 <= j < i + 1 ensures Inside(sorted[j], merged') {
      if j < i {
        assert Inside(sorted[j], merged);
        var k :| 0 <= k < |merged| && merged[k].start <= sorted[j].start && sorted[j].end <= merged[k].end;
        assert merged'[k] == merged[k];
      } else {
        assert merged'[|merged|] == s;
      }
    }
  }

  /** Widening the last merged range adds the new range and at most a small gap. */
  lemma {:induction false} WideningAddsSmallGap(spans: seq<Span>, merged: seq<Span>, s: Span, wide: Span)
    requires merged != [] && s in spans && AddsSmallGaps(spans, merged)
    requires EndsFrom(spans, merged[|merged| - 1])
    requires merged[|merged| - 1].start <= s.start <= merged[|merged| - 1].end + GAP
    requires wide == Span(merged[|merged| - 1].start, MaxInt(merged[|merged| - 1].end, s.end))
    ensures EndsFrom(spans, wide)
    ensures AddsSmallGaps(spans, merged[|merged| - 1 := wide])
  {
    var n := |merged| - 1;
    var last := merged[n];
    var merged' := merged[n := wide];
    var at :| 0 <= at < |spans| && spans[at] == s;
    forall x | Covered(merged', x) ensures Covered(spans, x) || InSmallGap(spans, x) {
      var k :| 0 <= k < |merged'| && merged'[k].Has(x);
      if k < n || last.Has(x) {
        assert merged[k].Has(x);
      } else if s.Has(x) {
        assert spans[at].Has(x);
      } else {
        var i :| 0 <= i < |spans| && spans[i].end == last.end;
        assert spans[i].end <= x < spans[at].start <= spans[i].end + GAP;
      }
    }
  }

  lemma {:induction false} MergeWidens(spans: seq<Span>, sorted: seq<Span>, i: nat, merged: seq<Span>)
    requires Merging(spans, sorted, i, merged) && i < |sorted| && Ascending(sorted)
    requires sorted[i] in spans && sorted[i].start < sorted[i].end
    requires merged != [] && sorted[i].start <= merged[|merged| - 1].end + GAP
    ensures
      var n := |merged| - 1;
      Merging(spans, sorted, i + 1, merged[n := Span(merged[n].start, MaxInt(merged[n].end, sorted[i].end))])
  {
    var n := |merged| - 1;
    var wide := Span(merged[n].start, MaxInt(merged[n].end, sorted[i].end));
    var merged' := merged[n := wide];
    WideningAddsSmallGap(spans, merged, sorted[i], wide);
    forall j | 0 <= j < i + 1 ensures Inside(sorted[j], merged') {
      if j < i {
        assert Inside(sorted[j], merged);
        var k :| 0 <= k < |merged| && merged[k].start <= sorted[j].start && sorted[j].end <= merged[k].end;
        assert merged'[k].start == merged[k].start && merged'[k].end >= merged[k].end;
      } else {
        assert merged'[n] == wide;
      }
    }
  }

  /** Once all sorted ranges are merged, every given character is covered. */
  lemma {:induction false} MergingCovers(spans: seq<Span>, sorted: seq<Span>, merged: seq<Span>)
    requires Merging(spans, sorted, |sorted|, merged)
    requires forall i :: 0 <= i < |spans| ==> spans[i] in sorted
    ensures forall x :: Covered(spans, x) ==> Covered(merged, x)
  {
    forall x | Covered(spans, x) ensures Covered(merged, x) {
      var i :| 0 <= i < |spans| && spans[i].Has(x);
      var j :| 0 <= j < |sorted| && sorted[j] == spans[i];
      assert Inside(sorted[j], merged);
      var k :| 0 <= k < |merged| && merged[k].start <= sorted[j].start && sorted[j].end <= merged[k].end;
      assert merged[k].Has(x);
    }
  }

  /** Merged ranges cover every given character, add only gaps of at most 300, and
      stay more than 300 apart from each other. */
  method MergeSpans(spans: seq<Span>) returns (merged: seq<Span>)
    requires Proper(spans)
    ensures Proper(merged) && FarApart(merged) && AddsSmallGaps(spans, merged)
    ensures spans != [] ==> merged != []
    ensures forall k :: 0 <= k < |merged| ==> EndsFrom(spans, merged[k])
    ensures forall x :: Covered(spans, x) ==> Covered(merged, x)
  {
    var sorted := Sorted(spans);
    SortedSame(spans);
    merged := [];
    for i := 0 to |sorted|
      invariant Merging(spans, sorted, i, merged)
    {
      if merged != [] && sorted[i].start <= merged[|merged| - 1].end + GAP {
        MergeWidens(spans, sorted, i, merged);
        var last := merged[|merged| - 1];
        merged := merged[|merged| - 1 := Span(last.start, MaxInt(last.end, sorted[i].end))];
      } else {
        MergeAppends(spans, sorted, i, merged);
        merged := merged + [sorted[i]];
      }
    }
    MergingCovers(spans, sorted, merged);
  }

  // ---- what is still free ----

  ghost predicate InOrder(free: seq<Span>) {
    forall k, l :: 0 <= k < l < |free| ==> free[k].end <= free[l].start
  }

  /** Up to the cursor, free is exactly what the sorted ranges leave uncovered. */
  ghost predicate FreeUpTo(covered: seq<Span>, free: seq<Span>, start: int, cursor: int, end: int) {
    && start <= cursor
    && Proper(free) && InOrder(free) && Within(free, start, MinInt(cursor, end))
    && forall x :: start <= x < cursor && x < end ==> (Covered(free, x) <==> !Covered(covered, x))
  }

  /** None of the first i ranges reaches past the cursor and starts before the end. */
  ghost predicate Passed(covered: seq<Span>, i: nat, cursor: int, end: int) {
    && i <= |covered|
    && (forall j :: 0 <= j < i && covered[j].end > cursor ==> covered[j].start >= end)
  }

  lemma {:induction false} PassesOneMore(covered: seq<Span>, i: nat, cursor: int, cursor': int, end: int)
    requires i < |covered| && Passed(covered, i, cursor, end) && cursor <= cursor'
    requires covered[i].end <= cursor' || covered[i].start >= end
    ensures Passed(covered, i + 1, cursor', end)
  {
  }

  function Grown(free: seq<Span>, cursor: int, mid: int): seq<Span> {
    if mid > cursor then free + [Span(cursor, mid)] else free
  }

  lemma {:induction false} GrownCovers(free: seq<Span>, cursor: int, mid: int, x: int)
    ensures Covered(Grown(free, cursor, mid), x) <==> Covered(free, x) || cursor <= x < mid
  {
    var free' := Grown(free, cursor, mid);
    if Covered(free, x) {
      var k :| 0 <= k < |free| && free[k].Has(x);
      assert free'[k].Has(x);
    }
    if cursor <= x < mid {
      assert free'[|free|].Has(x);
    }
    if Covered(free', x) {
      var k :| 0 <= k < |free'| && free'[k].Has(x);
      assert k < |free| ==> free[k].Has(x);
    }
  }

  /** The cursor crosses first uncovered and then covered ground. */
  lemma {:induction false} FreeGrows(covered: seq<Span>, free: seq<Span>, start: int, cursor: int, mid: int,
      to: int, end: int)
    requires FreeUpTo(covered, free, start, cursor, end) && cursor <= mid <= to
    requires mid > cursor ==> mid <= end
    requires forall x :: cursor <= x < mid ==> !Covered(covered, x)
    requires forall x :: mid <= x < to && x < end ==> Covered(covered, x)
    ensures FreeUpTo(covered, Grown(free, cursor, mid), start, to, end)
  {
    forall x | start <= x < to && x < end
      ensures Covered(Grown(free, cursor, mid), x) <==> !Covered(covered, x)
    {
      GrownCovers(free, cursor, mid, x);
      assert x >= cursor ==> !Covered(free, x);
    }
  }

  /** Where the free part before the next covered range ends. */
  function FreeEnd(c: Span, cursor: int, end: int): int {
    if c.start > cursor then MinInt(c.start, end) else cursor
  }

  /** Past one more covered range, the free ranges are still exactly what is uncovered. */
  lemma {:induction false} CursorMoves(covered: seq<Span>, i: nat, free: seq<Span>, start: int, cursor: int, end: int)
    requires i < |covered| && Ascending(covered)
    requires FreeUpTo(covered, free, start, cursor, end) && Passed(covered, i, cursor, end)
    requires covered[i].end > cursor && covered[i].start < MinInt(covered[i].end, end)
    ensures
      var free' := Grown(free, cursor, FreeEnd(covered[i], cursor, end));
      FreeUpTo(covered, free', start, MaxInt(cursor, covered[i].end), end)
  {
    var mid := FreeEnd(covered[i], cursor, end);
    assert forall x :: cursor <= x < mid ==> !Covered(covered, x);
    forall x | mid <= x < covered[i].end && x < end ensures Covered(covered, x) {
      assert covered[i].Has(x);
    }
    FreeGrows(covered, free, start, cursor, mid, MaxInt(cursor, covered[i].end), end);
  }

  /** After the last covered range, the rest up to the end is free. */
  lemma {:induction false} CursorEnds(covered: seq<Span>, free: seq<Span>, start: int, cursor: int, end: int)
    requires FreeUpTo(covered, free, start, cursor, end)
    requires cursor < end ==> Passed(covered, |covered|, cursor, end)
    ensures FreeUpTo(covered, Grown(free, cursor, end), start, MaxInt(cursor, end), end)
  {
    if cursor < end {
      FreeGrows(covered, free, start, cursor, end, end, end);
    }
  }

  lemma {:induction false} FreeAtEnd(chosen: seq<Span>, covered: seq<Span>, free: seq<Span>, start: int,
      cursor: int, end: int)
    requires FreeUpTo(covered, free, start, cursor, end) && end <= cursor
    requires forall x :: Covered(covered, x) <==> Covered(chosen, x)
    ensures Within(free, start, end)
    ensures forall x :: Covered(free, x) <==> start <= x < end && !Covered(chosen, x)
  {
  }

  /** Exactly the characters of [start, end) that no chosen range has, as ordered,
      disjoint, non-empty ranges. */
  method FreeRanges(chosen: seq<Span>, start: int, end: int) returns (free: seq<Span>)
    requires Proper(chosen)
    ensures Proper(free) && Within(free, start, end) && InOrder(free)
    ensures forall x :: Covered(free, x) <==> start <= x < end && !Covered(chosen, x)
  {
    var covered := Sorted(chosen);
    SortedCovers(chosen);
    free := [];
    var cursor := start;
    var i := 0;
    while i < |covered|
      invariant i <= |covered|
      invariant FreeUpTo(covered, free, start, cursor, end)
      invariant Passed(covered, i, cursor, end)
    {
      var c := covered[i];
      if !(c.end <= cursor || c.start >= end) {
        CursorMoves(covered, i, free, start, cursor, end);
        ghost var free' := Grown(free, cursor, FreeEnd(c, cursor, end));
        if c.start > cursor {
          free := free + [Span(cursor, MinInt(c.start, end))];
        }
        assert free == free';
        PassesOneMore(covered, i, cursor, MaxInt(cursor, c.end), end);
        cursor := MaxInt(cursor, c.end);
        if cursor >= end { break; }
      } else {
        PassesOneMore(covered, i, cursor, cursor, end);
      }
      i := i + 1;
    }
    CursorEnds(covered, free, start, cursor, end);
    if cursor < end {
      free := free + [Span(cursor, end)];
    }
    FreeAtEnd(chosen, covered, free, start, MaxInt(cursor, end), end);
  }
}
