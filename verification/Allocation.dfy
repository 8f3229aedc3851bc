/** The excerpt's character budget: ranges picked so far, who they are charged to, and
    picking the free parts of a window. */
module Allocation {
  import opened Basics
  import opened Spans

  const MAX_CHARS: int := 120000

  /** The section a pick is charged to, if any, and the rank of the candidate it was
      made for; section heads come before all candidates and have rank -1. */
  datatype Owner = Owner(section: Option<nat>, rank: int)

  /** Every picked range is non-empty and in the document, no character is picked
      twice, and the lengths add up to what was spent. */
  ghost predicate Allocated(chosen: seq<Span>, owners: seq<Owner>, n: int, spent: int) {
    && |owners| == |chosen|
    && Proper(chosen) && Within(chosen, 0, n) && Disjoint(chosen)
    && Total(chosen) == spent
  }

  /** How many picked characters are charged to a section. */
  function Charge(chosen: seq<Span>, owners: seq<Owner>, section: nat): int
    requires |owners| == |chosen|
  {
    if chosen == [] then 0 else
      var k := |chosen| - 1;
      Charge(chosen[..k], owners[..k], section)
      + if owners[k].section == Some(section) then chosen[k].end - chosen[k].start else 0
  }

  /** The picks made after the first ones, all for one owner. */
  ghost predicate Extends(chosen: seq<Span>, owners: seq<Owner>, chosen': seq<Span>, owners': seq<Owner>, o: Owner) {
    && |owners| == |chosen| <= |chosen'| == |owners'|
    && chosen'[..|chosen|] == chosen && owners'[..|chosen|] == owners
    && (forall k :: |chosen| <= k < |owners'| ==> owners'[k] == o)
  }

  /** Only the owner's section is charged, with exactly what was spent. */
  ghost predicate Charged(chosen: seq<Span>, owners: seq<Owner>, chosen': seq<Span>, owners': seq<Owner>, o: Owner,
      spent: int)
    requires |owners| == |chosen| && |owners'| == |chosen'|
  {
    forall i: nat :: Charge(chosen', owners', i) ==
      Charge(chosen, owners, i) + if o.section == Some(i) then spent else 0
  }

  lemma {:induction false} ChargeAppend(chosen: seq<Span>, owners: seq<Owner>, s: Span, o: Owner, section: nat)
    requires |owners| == |chosen|
    ensures Charge(chosen + [s], owners + [o], section) ==
      Charge(chosen, owners, section) + if o.section == Some(section) then s.end - s.start else 0
  {
    assert (chosen + [s])[..|chosen|] == chosen && (owners + [o])[..|chosen|] == owners;
  }

  lemma {:induction false} PickAllocates(chosen: seq<Span>, owners: seq<Owner>, n: int, spent: int, s: Span, o: Owner)
    requires Allocated(chosen, owners, n, spent)
    requires 0 <= s.start < s.end <= n
    requires forall k :: 0 <= k < |chosen| ==> Apart(chosen[k], s)
    ensures Allocated(chosen + [s], owners + [o], n, spent + s.end - s.start)
  {
    TotalAppend(chosen, s);
  }

  lemma {:induction false} PickCharges(chosen0: seq<Span>, owners0: seq<Owner>, chosen: seq<Span>,
      owners: seq<Owner>, s: Span, o: Owner, spent: int)
    requires Extends(chosen0, owners0, chosen, owners, o) && Charged(chosen0, owners0, chosen, owners, o, spent)
    ensures Extends(chosen0, owners0, chosen + [s], owners + [o], o)
    ensures Charged(chosen0, owners0, chosen + [s], owners + [o], o, spent + s.end - s.start)
  {
    forall i: nat ensures Charge(chosen + [s], owners + [o], i) ==
      Charge(chosen0, owners0, i) + if o.section == Some(i) then spent + s.end - s.start else 0
    {
      ChargeAppend(chosen, owners, s, o, i);
    }
  }

  lemma {:induction false} ExtendsTwice(c0: seq<Span>, o0: seq<Owner>, c1: seq<Span>, o1: seq<Owner>, c2: seq<Span>,
      o2: seq<Owner>, o: Owner)
    requires Extends(c0, o0, c1, o1, o) && Extends(c1, o1, c2, o2, o)
    ensures Extends(c0, o0, c2, o2, o)
  {
    assert c2[..|c0|] == c2[..|c1|][..|c0|];
    assert o2[..|c0|] == o2[..|c1|][..|c0|];
    forall k | |c0| <= k < |o2| ensures o2[k] == o {
      assert k < |c1| ==> o2[..|c1|][k] == o1[k];
    }
  }

  lemma {:induction false} CoveredStays(chosen: seq<Span>, chosen': seq<Span>, x: int)
    requires |chosen| <= |chosen'| && chosen'[..|chosen|] == chosen && Covered(chosen, x)
    ensures Covered(chosen', x)
  {
    var k :| 0 <= k < |chosen| && chosen[k].Has(x);
    assert chosen'[..|chosen|][k] == chosen'[k];
    assert chosen'[k].Has(x);
  }

  ghost predicate Covers(chosen: seq<Span>, windows: seq<Span>) {
    forall x :: Covered(windows, x) ==> Covered(chosen, x)
  }

  /** Picks from the first ones on lie inside the windows. */
  ghost predicate PicksInside(chosen: seq<Span>, first: nat, windows: seq<Span>) {
    forall k :: first <= k < |chosen| ==> Inside(chosen[k], windows)
  }

  /** While picking from the free ranges: the first j are done, the others untouched. */
  ghost predicate Picking(chosen: seq<Span>, free: seq<Span>, j: nat, cap: int) {
    && (forall l, k :: j <= l < |free| && 0 <= k < |chosen| ==> Apart(chosen[k], free[l]))
    && (cap > 0 ==> forall l :: 0 <= l < j <= |free| ==> Inside(free[l], chosen))
  }

  lemma {:induction false} FreeIsApart(chosen: seq<Span>, free: seq<Span>)
    requires Proper(chosen) && Proper(free)
    requires forall x :: Covered(free, x) ==> !Covered(chosen, x)
    ensures forall l, k :: 0 <= l < |free| && 0 <= k < |chosen| ==> Apart(chosen[k], free[l])
  {
    forall l, k | 0 <= l < |free| && 0 <= k < |chosen| ensures Apart(chosen[k], free[l]) {
      var x := MaxInt(chosen[k].start, free[l].start);
      assert chosen[k].Has(x) && free[l].Has(x) ==> Covered(free, x) && Covered(chosen, x);
    }
  }

  lemma {:induction false} PickingGoesOn(chosen: seq<Span>, free: seq<Span>, j: nat, cap: int, take: int)
    requires Picking(chosen, free, j, cap) && j < |free| && Proper(free) && InOrder(free)
    requires 0 < take <= cap && take <= free[j].end - free[j].start
    requires take < cap ==> take == free[j].end - free[j].start
    ensures Picking(chosen + [Span(free[j].start, free[j].start + take)], free, j + 1, cap - take)
  {
    var s := Span(free[j].start, free[j].start + take);
    var chosen' := chosen + [s];
    forall l | 0 <= l < j + 1 && cap - take > 0 ensures Inside(free[l], chosen') {
      if l < j {
        assert Inside(free[l], chosen);
        var k :| 0 <= k < |chosen| && chosen[k].start <= free[l].start && free[l].end <= chosen[k].end;
        assert chosen'[k] == chosen[k];
      } else {
        assert chosen'[|chosen|] == s;
      }
    }
  }

  /** When the cap was not used up, the whole window is picked. */
  lemma {:induction false} WindowCovered(chosen0: seq<Span>, chosen: seq<Span>, free: seq<Span>, window: Span)
    requires |chosen0| <= |chosen| && chosen[..|chosen0|] == chosen0
    requires forall l :: 0 <= l < |free| ==> Inside(free[l], chosen)
    requires forall x :: window.Has(x) && !Covered(chosen0, x) ==> Covered(free, x)
    ensures forall x :: window.Has(x) ==> Covered(chosen, x)
  {
    forall x | window.Has(x) ensures Covered(chosen, x) {
      if Covered(chosen0, x) {
        CoveredStays(chosen0, chosen, x);
      } else {
        var l :| 0 <= l < |free| && free[l].Has(x);
        assert Inside(free[l], chosen);
        var k :| 0 <= k < |chosen| && chosen[k].start <= free[l].start && free[l].end <= chosen[k].end;
        assert chosen[k].Has(x);
      }
    }
  }

  /** Picks what is still free of one window, as far as the cap and the budget reach. */
  method TakeFree(chosen0: seq<Span>, ghost owners0: seq<Owner>, budget0: int, cap0: int, window: Span,
      ghost o: Owner, ghost n: int)
    returns (chosen: seq<Span>, ghost owners: seq<Owner>, budget: int, cap: int)
    requires Allocated(chosen0, owners0, n, MAX_CHARS - budget0)
    requires 0 <= window.start && window.end <= n && 0 < cap0 <= budget0
    ensures Allocated(chosen, owners, n, MAX_CHARS - budget)
    ensures Extends(chosen0, owners0, chosen, owners, o)
    ensures Charged(chosen0, owners0, chosen, owners, o, budget0 - budget)
    ensures 0 <= cap == cap0 - (budget0 - budget) <= cap0
    ensures forall k :: |chosen0| <= k < |chosen| ==> window.start <= chosen[k].start && chosen[k].end <= window.end
    ensures cap > 0 ==> forall x :: window.Has(x) ==> Covered(chosen, x)
  {
    chosen, owners, budget, cap := chosen0, owners0, budget0, cap0;
    var free := FreeRanges(chosen, window.start, window.end);
    FreeIsApart(chosen, free);
    var j := 0;
    while j < |free|
      invariant 0 <= j <= |free|
      invariant Picking(chosen, free, j, cap)
      invariant Allocated(chosen, owners, n, MAX_CHARS - budget)
      invariant Extends(chosen0, owners0, chosen, owners, o)
      invariant Charged(chosen0, owners0, chosen, owners, o, budget0 - budget)
      invariant 0 <= cap == cap0 - (budget0 - budget) <= cap0
      invariant forall k :: |chosen0| <= k < |chosen| ==> window.start <= chosen[k].start && chosen[k].end <= window.end
    {
      if cap <= 0 || budget <= 0 { break; }
      var take := MinInt(MinInt(free[j].end - free[j].start, cap), budget);
      if take > 0 {
        var pick := Span(free[j].start, free[j].start + take);
        PickingGoesOn(chosen, free, j, cap, take);
        PickAllocates(chosen, owners, n, MAX_CHARS - budget, pick, o);
        PickCharges(chosen0, owners0, chosen, owners, pick, o, budget0 - budget);
        chosen := chosen + [pick];
        owners := owners + [o];
        cap := cap - take;
        budget := budget - take;
      }
      j := j + 1;
    }
    if cap > 0 {
      WindowCovered(chosen0, chosen, free, window);
    }
  }

  /** The characters of the windows that nothing picked so far holds. */
  function FreeChars(chosen: seq<Span>, windows: seq<Span>, n: int): set<int> {
    Chars(windows, n) - Chars(chosen, n)
  }

  lemma {:induction false} CharsStay(chosen0: seq<Span>, chosen: seq<Span>, n: int)
    requires |chosen0| <= |chosen| && chosen[..|chosen0|] == chosen0
    ensures Chars(chosen0, n) <= Chars(chosen, n)
  {
    forall x | x in Chars(chosen0, n) ensures x in Chars(chosen, n) {
      CoveredStays(chosen0, chosen, x);
    }
  }

  lemma {:induction false} PicksAreFree(chosen0: seq<Span>, chosen: seq<Span>, windows: seq<Span>, n: int)
    requires |chosen0| <= |chosen| && chosen[..|chosen0|] == chosen0 && PicksInside(chosen, |chosen0|, windows)
    ensures Chars(chosen, n) - Chars(chosen0, n) <= FreeChars(chosen0, windows, n)
  {
    forall x | x in Chars(chosen, n) && x !in Chars(chosen0, n) ensures x in Chars(windows, n) {
      var k :| 0 <= k < |chosen| && chosen[k].Has(x);
      assert forall j :: 0 <= j < |chosen0| ==> chosen[j] == chosen0[j] && !chosen0[j].Has(x);
      var l :| 0 <= l < |windows| && windows[l].start <= chosen[k].start && chosen[k].end <= windows[l].end;
      assert windows[l].Has(x);
    }
  }

  lemma {:induction false} Subset(few: set<int>, many: set<int>)
    requires few <= many
    ensures |many - few| == |many| - |few| >= 0
    ensures |few| == |many| ==> few == many
  {
    assert many == few + (many - few);
    if |few| == |many| {
      assert many - few == {};
    }
  }

  /** What is spent on the windows is the smaller of the cap and the number of characters
      they still have free; they are picked whole exactly if that number is within the cap. */
  lemma {:induction false} SpendCounts(chosen0: seq<Span>, owners0: seq<Owner>, chosen: seq<Span>,
      owners: seq<Owner>, windows: seq<Span>, n: int, budget0: int, budget: int, cap0: int)
    requires Allocated(chosen0, owners0, n, MAX_CHARS - budget0) && Allocated(chosen, owners, n, MAX_CHARS - budget)
    requires |chosen0| <= |chosen| && chosen[..|chosen0|] == chosen0 && PicksInside(chosen, |chosen0|, windows)
    requires Within(windows, 0, n) && 0 <= budget0 - budget <= cap0
    requires budget0 - budget < cap0 ==> Covers(chosen, windows)
    ensures budget0 - budget == MinInt(cap0, |FreeChars(chosen0, windows, n)|)
    ensures Covers(chosen, windows) <==> |FreeChars(chosen0, windows, n)| <= cap0
  {
    var before, after, free := Chars(chosen0, n), Chars(chosen, n), FreeChars(chosen0, windows, n);
    CharsCounted(chosen0, n);
    CharsCounted(chosen, n);
    CharsStay(chosen0, chosen, n);
    Subset(before, after);
    PicksAreFree(chosen0, chosen, windows, n);
    Subset(after - before, free);
    assert Covers(chosen, windows) <==> after - before == free by {
      WindowsPicked(chosen0, chosen, windows, n);
    }
  }

  lemma {:induction false} WindowsPicked(chosen0: seq<Span>, chosen: seq<Span>, windows: seq<Span>, n: int)
    requires |chosen0| <= |chosen| && chosen[..|chosen0|] == chosen0 && PicksInside(chosen, |chosen0|, windows)
    requires Within(windows, 0, n)
    ensures Covers(chosen, windows) <==> Chars(chosen, n) - Chars(chosen0, n) == FreeChars(chosen0, windows, n)
  {
    PicksAreFree(chosen0, chosen, windows, n);
    CharsStay(chosen0, chosen, n);
    if Chars(chosen, n) - Chars(chosen0, n) == FreeChars(chosen0, windows, n) {
      forall x | Covered(windows, x) ensures Covered(chosen, x) {
        assert x in Chars(windows, n);
        assert x in FreeChars(chosen0, windows, n) || x in Chars(chosen0, n);
      }
    }
  }

  lemma {:induction false} CoversOneMore(chosen0: seq<Span>, chosen: seq<Span>, windows: seq<Span>, i: nat)
    requires |chosen0| <= |chosen| && chosen[..|chosen0|] == chosen0 && i < |windows|
    requires Covers(chosen0, windows[..i]) && forall x :: windows[i].Has(x) ==> Covered(chosen, x)
    ensures Covers(chosen, windows[..i + 1])
  {
    forall x | Covered(windows[..i + 1], x) ensures Covered(chosen, x) {
      var k :| 0 <= k < i + 1 && windows[..i + 1][k].Has(x);
      if k < i {
        assert windows[..i][k].Has(x);
        CoveredStays(chosen0, chosen, x);
      }
    }
  }

  /** Picks what is still free of a candidate's windows, in their order, until its cap
      or the budget is used up. */
  method SpendOn(chosen0: seq<Span>, ghost owners0: seq<Owner>, budget0: int, cap0: int, windows: seq<Span>,
      ghost o: Owner, ghost n: int)
    returns (chosen: seq<Span>, ghost owners: seq<Owner>, budget: int, cap: int)
    requires Allocated(chosen0, owners0, n, MAX_CHARS - budget0)
    requires Within(windows, 0, n) && 0 <= cap0 <= budget0
    ensures Allocated(chosen, owners, n, MAX_CHARS - budget)
    ensures Extends(chosen0, owners0, chosen, owners, o)
    ensures Charged(chosen0, owners0, chosen, owners, o, budget0 - budget)
    ensures 0 <= cap == cap0 - (budget0 - budget) <= cap0
    ensures PicksInside(chosen, |chosen0|, windows)
    ensures cap > 0 ==> Covers(chosen, windows)
    ensures budget0 - budget == MinInt(cap0, |FreeChars(chosen0, windows, n)|)
    ensures Covers(chosen, windows) <==> |FreeChars(chosen0, windows, n)| <= cap0
  {
    chosen, owners, budget, cap := chosen0, owners0, budget0, cap0;
    var i := 0;
    while i < |windows|
      invariant 0 <= i <= |windows|
      invariant Allocated(chosen, owners, n, MAX_CHARS - budget)
      invariant Extends(chosen0, owners0, chosen, owners, o)
      invariant Charged(chosen0, owners0, chosen, owners, o, budget0 - budget)
      invariant 0 <= cap == cap0 - (budget0 - budget) <= cap0
      invariant PicksInside(chosen, |chosen0|, windows)
      invariant cap > 0 ==> Covers(chosen, windows[..i])
    {
      if cap <= 0 || budget <= 0 { break; }
      ghost var chosen1, owners1 := chosen, owners;
      chosen, owners, budget, cap := TakeFree(chosen, owners, budget, cap, windows[i], o, n);
      ExtendsTwice(chosen0, owners0, chosen1, owners1, chosen, owners, o);
      MorePicksInside(chosen, |chosen0|, |chosen1|, chosen1, windows, i);
      CoversIfLeft(chosen1, chosen, windows, i, cap);
      i := i + 1;
    }
    assert windows[..|windows|] == windows;
    SpendCounts(chosen0, owners0, chosen, owners, windows, n, budget0, budget, cap0);
  }

  lemma {:induction false} MorePicksInside(chosen: seq<Span>, first: nat, next: nat, chosen1: seq<Span>,
      windows: seq<Span>, i: nat)
    requires next == |chosen1| <= |chosen| && chosen[..next] == chosen1 && i < |windows|
    requires PicksInside(chosen1, first, windows)
    requires forall k :: next <= k < |chosen| ==> windows[i].start <= chosen[k].start && chosen[k].end <= windows[i].end
    ensures PicksInside(chosen, first, windows)
  {
    forall k | first <= k < |chosen| ensures Inside(chosen[k], windows) {
      if k < next {
        assert chosen[..next][k] == chosen1[k];
      }
    }
  }

  lemma {:induction false} CoversIfLeft(chosen1: seq<Span>, chosen: seq<Span>, windows: seq<Span>, i: nat, cap: int)
    requires |chosen1| <= |chosen| && chosen[..|chosen1|] == chosen1 && i < |windows|
    requires Covers(chosen1, windows[..i])
    requires cap > 0 ==> forall x :: windows[i].Has(x) ==> Covered(chosen, x)
    ensures cap > 0 ==> Covers(chosen, windows[..i + 1])
  {
    if cap > 0 {
      CoversOneMore(chosen1, chosen, windows, i);
    }
  }
}
