/** The grid of valuations around a base case, its range, and what drives it. */
module Sensitivity {
  import opened Basics
  import opened Dcf
  import opened Products
  import opened Scenarios

  /** A base case with its net debt and shares. */
  datatype Company = Company(fcf: Option<real>, growth: Option<real>, dr: real, tg: real, netDebt: Option<real>,
      shares: Option<real>)

  datatype Cell = Cell(dr: real, tg: real, value: Case)

  datatype Range = Range(low: Option<real>, high: Option<real>)

  datatype Answer = Unavailable | Calculated(grid: seq<Cell>, enterprise: Range, perShare: Range)

  predicate Answerable(c: Company) {
    c.fcf.Some? && c.fcf.value > 0.0 && c.growth.Some? && c.dr > c.tg
  }

  function Rates(dr: real): seq<real> { [dr - 0.01, dr, dr + 0.01] }

  function Growths(tg: real): seq<real> { [tg - 0.005, tg, tg + 0.005] }

  /** The grid's cell for one pair of rates, if there is a valuation. */
  function CellFor(c: Company, dr: real, tg: real): Option<Cell>
    requires Answerable(c)
  {
    var v := CaseAt(c.fcf, c.growth.value, dr, tg, c.netDebt, c.shares);
    if v.Some? then Some(Cell(dr, tg, v.value)) else None
  }

  /** The least and the greatest of some figures, both among them. */
  ghost predicate IsRange(xs: seq<real>, r: Range) {
    && (r.low.Some? <==> xs != []) && (r.high.Some? <==> xs != [])
    && (r.low.Some? ==> r.low.value in xs && forall k :: 0 <= k < |xs| ==> r.low.value <= xs[k])
    && (r.high.Some? ==> r.high.value in xs && forall k :: 0 <= k < |xs| ==> xs[k] <= r.high.value)
  }

  method RangeOf(xs: seq<real>) returns (r: Range)
    ensures IsRange(xs, r)
  {
    if xs == [] {
      return Range(None, None);
    }
    var low, high := xs[0], xs[0];
    for k := 1 to |xs|
      invariant low in xs && forall l :: 0 <= l < k ==> low <= xs[l]
      invariant high in xs && forall l :: 0 <= l < k ==> xs[l] <= high
    {
      low := Min(low, xs[k]);
      high := Max(high, xs[k]);
    }
    r := Range(Some(low), Some(high));
  }

  function Enterprises(grid: seq<Cell>): seq<real> {
    seq(|grid|, k requires 0 <= k < |grid| => grid[k].value.enterprise)
  }

  ghost predicate IsCell(c: Company, cell: Cell)
    requires Answerable(c)
  {
    cell.dr in Rates(c.dr) && cell.tg in Growths(c.tg) && CellFor(c, cell.dr, cell.tg) == Some(cell)
  }

  /** Before the pair of the i-th rate and the j-th terminal growth. */
  predicate IsBefore(c: Company, cell: Cell, i: nat, j: nat) {
    var dr, tg := c.dr - 0.01 + 0.01 * i as real, c.tg - 0.005 + 0.005 * j as real;
    cell.dr < dr || (cell.dr == dr && cell.tg < tg)
  }

  /** Row by row and without repetition. */
  ghost predicate InGridOrder(grid: seq<Cell>) {
    forall k, l :: 0 <= k < l < |grid| ==>
      grid[k].dr < grid[l].dr || (grid[k].dr == grid[l].dr && grid[k].tg < grid[l].tg)
  }

  ghost predicate Arranged(c: Company, grid: seq<Cell>, i: nat, j: nat) {
    InGridOrder(grid) && forall k :: 0 <= k < |grid| ==> IsBefore(c, grid[k], i, j)
  }

  lemma {:induction false} ArrangeOn(c: Company, grid: seq<Cell>, i: nat, j: nat, i': nat, j': nat)
    requires Arranged(c, grid, i, j) && (i < i' || (i == i' && j <= j'))
    ensures Arranged(c, grid, i', j')
  {
    forall k | 0 <= k < |grid| ensures IsBefore(c, grid[k], i', j') {
      assert IsBefore(c, grid[k], i, j);
    }
  }

  /** At most the cell of row i and column j is added. */
  predicate Grown(c: Company, grid: seq<Cell>, grid': seq<Cell>, i: nat, j: nat)
    requires i < 3 && j < 3
  {
    || grid' == grid
    || (|grid'| == |grid| + 1 && grid'[..|grid|] == grid
        && grid'[|grid|].dr == Rates(c.dr)[i] && grid'[|grid|].tg == Growths(c.tg)[j])
  }

  lemma {:induction false} ArrangeGrown(c: Company, grid: seq<Cell>, grid': seq<Cell>, i: nat, j: nat)
    requires i < 3 && j < 3 && Arranged(c, grid, i, j) && Grown(c, grid, grid', i, j)
    ensures Arranged(c, grid', i, j + 1)
  {
    ArrangeOn(c, grid, i, j, i, j + 1);
    if grid' != grid {
      forall k | 0 <= k < |grid| ensures grid'[k] == grid[k] && IsBefore(c, grid[k], i, j) {
        assert grid'[..|grid|][k] == grid'[k];
      }
      assert IsBefore(c, grid'[|grid|], i, j + 1);
      forall k | 0 <= k < |grid'| ensures IsBefore(c, grid'[k], i, j + 1) {
        assert k < |grid| ==> IsBefore(c, grid[k], i, j + 1);
      }
    }
  }

  /** The cells of the rates before row i, and of row i before column j. */
  ghost predicate Filled(c: Company, grid: seq<Cell>, i: nat, j: nat)
    requires Answerable(c)
  {
    && (forall k :: 0 <= k < |grid| ==> IsCell(c, grid[k]))
    && (forall a, b :: 0 <= a < 3 && 0 <= b < 3 && (a < i || (a == i && b < j)) ==>
      Shown(c, grid, Rates(c.dr)[a], Growths(c.tg)[b]))
  }

  ghost predicate Shown(c: Company, grid: seq<Cell>, dr: real, tg: real)
    requires Answerable(c)
  {
    CellFor(c, dr, tg).Some? ==> CellFor(c, dr, tg).value in grid
  }

  /** The per-share figures of the cells that have one, in grid order. */
  function PerShares(grid: seq<Cell>): seq<real> {
    if grid == [] then [] else
      var before := PerShares(grid[..|grid| - 1]);
      var v := grid[|grid| - 1].value.perShare;
      if v.Some? then before + [v.value] else before
  }

  /** The answer shows exactly the valuations there are, and their true ranges. */
  ghost predicate Correct(c: Company, a: Answer) {
    && (a.Unavailable? <==> !Answerable(c))
    && (a.Calculated? ==> Filled(c, a.grid, 3, 0))
    && (a.Calculated? ==> IsRange(Enterprises(a.grid), a.enterprise) && IsRange(PerShares(a.grid), a.perShare))
  }

  lemma {:induction false} FillOne(c: Company, grid: seq<Cell>, i: nat, j: nat, grid': seq<Cell>)
    requires Answerable(c) && i < 3 && j < 3 && Filled(c, grid, i, j)
    requires
      var cell := CellFor(c, Rates(c.dr)[i], Growths(c.tg)[j]);
      grid' == if cell.Some? then grid + [cell.value] else grid
    ensures Filled(c, grid', i, j + 1)
  {
    assert Shown(c, grid', Rates(c.dr)[i], Growths(c.tg)[j]);
    forall a, b | 0 <= a < 3 && 0 <= b < 3 && (a < i || (a == i && b < j + 1))
      ensures Shown(c, grid', Rates(c.dr)[a], Growths(c.tg)[b])
    {
      assert (a < i || (a == i && b < j)) ==> Shown(c, grid, Rates(c.dr)[a], Growths(c.tg)[b]);
    }
  }

  /** Values one pair of rates, and adds it to the grid if it has a valuation. */
  method AddCell(c: Company, grid0: seq<Cell>, evs0: seq<real>, pss0: seq<real>, i: nat, j: nat)
    returns (grid: seq<Cell>, evs: seq<real>, pss: seq<real>)
    requires Answerable(c) && i < 3 && j < 3 && Filled(c, grid0, i, j)
    requires evs0 == Enterprises(grid0) && pss0 == PerShares(grid0)
    ensures Filled(c, grid, i, j + 1) && Grown(c, grid0, grid, i, j)
    ensures evs == Enterprises(grid) && pss == PerShares(grid)
  {
    grid, evs, pss := grid0, evs0, pss0;
    var dr, tg := Rates(c.dr)[i], Growths(c.tg)[j];
    if dr > tg {
      var v := DcfCase(c.fcf, c.growth.value, dr, tg, c.netDebt, c.shares);
      if v.Some? {
        evs := evs + [v.value.enterprise];
        if v.value.perShare.Some? {
          pss := pss + [v.value.perShare.value];
        }
        grid := grid + [Cell(dr, tg, v.value)];
        assert grid[..|grid| - 1] == grid0;
      }
    }
    FillOne(c, grid0, i, j, grid);
  }

  method Analyse(c: Company) returns (a: Answer)
    ensures Correct(c, a) && (a.Calculated? ==> InGridOrder(a.grid))
  {
    if c.fcf.None? || c.fcf.value <= 0.0 || c.growth.None? || c.dr <= c.tg {
      return Unavailable;
    }
    var grid, evs, pss := [], [], [];
    for i := 0 to 3
      invariant Filled(c, grid, i, 0) && Arranged(c, grid, i, 0)
      invariant evs == Enterprises(grid) && pss == PerShares(grid)
    {
      for j := 0 to 3
        invariant Filled(c, grid, i, j) && Arranged(c, grid, i, j)
        invariant evs == Enterprises(grid) && pss == PerShares(grid)
      {
        ghost var before := grid;
        grid, evs, pss := AddCell(c, grid, evs, pss, i, j);
        ArrangeGrown(c, before, grid, i, j);
      }
      ArrangeOn(c, grid, i, 3, i + 1, 0);
    }
    var enterprise := RangeOf(evs);
    var perShare := RangeOf(pss);
    a := Calculated(grid, enterprise, perShare);
  }

  /** The range always holds the base case. */
  lemma {:induction false} RangeHoldsBase(c: Company, a: Answer)
    requires Correct(c, a) && Defined(c.fcf, c.growth, c.dr, c.tg)
    ensures a.Calculated? && a.enterprise.low.Some? && a.enterprise.high.Some?
    ensures a.enterprise.low.value <= Value(c.fcf.value, c.growth.value, c.dr, c.tg) <= a.enterprise.high.value
  {
    assert Shown(c, a.grid, Rates(c.dr)[1], Growths(c.tg)[1]);
    InRange(c, a, c.dr, c.tg);
  }

  lemma {:induction false} InRange(c: Company, a: Answer, dr: real, tg: real)
    requires Correct(c, a) && a.Calculated? && Answerable(c)
    requires Shown(c, a.grid, dr, tg) && CellFor(c, dr, tg).Some?
    ensures a.enterprise.low.Some? && a.enterprise.high.Some?
    ensures a.enterprise.low.value <= CellFor(c, dr, tg).value.value.enterprise <= a.enterprise.high.value
  {
    var k :| 0 <= k < |a.grid| && a.grid[k] == CellFor(c, dr, tg).value;
    assert Enterprises(a.grid)[k] == a.grid[k].value.enterprise;
  }

  /** Every pair of rates has a valuation. */
  predicate Tame(c: Company) {
    Answerable(c) && c.growth.value > -1.0 && c.tg >= 0.005 && c.dr - 0.01 > c.tg + 0.005
  }

  function Best(c: Company): real
    requires Tame(c)
  {
    Value(c.fcf.value, c.growth.value, c.dr - 0.01, c.tg + 0.005)
  }

  function Worst(c: Company): real
    requires Tame(c)
  {
    Value(c.fcf.value, c.growth.value, c.dr + 0.01, c.tg - 0.005)
  }

  lemma {:induction false} CornerShown(c: Company, a: Answer, i: nat, j: nat, dr: real, tg: real)
    requires Correct(c, a) && Tame(c) && i < 3 && j < 3 && dr == Rates(c.dr)[i] && tg == Growths(c.tg)[j]
    ensures a.Calculated? && a.enterprise.low.Some? && a.enterprise.high.Some?
    ensures dr > tg && dr > 0.0
    ensures a.enterprise.low.value <= Value(c.fcf.value, c.growth.value, dr, tg) <= a.enterprise.high.value
  {
    assert Shown(c, a.grid, Rates(c.dr)[i], Growths(c.tg)[j]);
    InRange(c, a, dr, tg);
  }

  lemma {:induction false} BestShown(c: Company, a: Answer)
    requires Correct(c, a) && Tame(c)
    ensures a.Calculated? && a.enterprise.high.Some? && Best(c) <= a.enterprise.high.value
  {
    CornerShown(c, a, 0, 2, c.dr - 0.01, c.tg + 0.005);
  }

  lemma {:induction false} WorstShown(c: Company, a: Answer)
    requires Correct(c, a) && Tame(c)
    ensures a.Calculated? && a.enterprise.low.Some? && a.enterprise.low.value <= Worst(c)
  {
    CornerShown(c, a, 2, 0, c.dr + 0.01, c.tg - 0.005);
  }

  lemma {:induction false} CellBetweenCorners(c: Company, cell: Cell)
    requires Tame(c) && IsCell(c, cell)
    ensures Worst(c) <= cell.value.enterprise <= Best(c)
  {
    var fcf, g := c.fcf.value, c.growth.value;
    ValueGrows(fcf, g, c.dr + 0.01, c.tg - 0.005, g, cell.dr, cell.tg);
    ValueGrows(fcf, g, cell.dr, cell.tg, g, c.dr - 0.01, c.tg + 0.005);
  }

  lemma {:induction false} CellsBetweenCorners(c: Company, grid: seq<Cell>, x: real)
    requires Tame(c) && Filled(c, grid, 3, 0) && x in Enterprises(grid)
    ensures Worst(c) <= x <= Best(c)
  {
    var k :| 0 <= k < |grid| && grid[k].value.enterprise == x;
    CellBetweenCorners(c, grid[k]);
  }

  /** When all nine valuations exist, the cheapest money with the best terminal growth is
      the top of the range, and the dearest money with the worst growth the bottom. */
  lemma {:induction false} CornersAreTheRange(c: Company, a: Answer)
    requires Correct(c, a) && Tame(c)
    ensures a.Calculated? && |a.grid| >= 1
    ensures a.enterprise == Range(Some(Worst(c)), Some(Best(c)))
  {
    BestShown(c, a);
    WorstShown(c, a);
    CellsBetweenCorners(c, a.grid, a.enterprise.low.value);
    CellsBetweenCorners(c, a.grid, a.enterprise.high.value);
  }

  // ---- drivers ----

  datatype Params = Params(fcf: real, growth: real, dr: real, tg: real)

  /** The low and high settings of cash flow, growth, discount rate and terminal growth. */
  function Settings(driver: nat, b: Params): (Params, Params)
    requires driver < 4
  {
    if driver == 0 then (b.(fcf := b.fcf * 0.9), b.(fcf := b.fcf * 1.1))
    else if driver == 1 then (b.(growth := b.growth * 0.8), b.(growth := b.growth * 1.2))
    else if driver == 2 then (b.(dr := b.dr + 0.01), b.(dr := Max(0.001, b.dr - 0.01)))
    else (b.(tg := Max(0.0, b.tg - 0.005)), b.(tg := b.tg + 0.005))
  }

  /** Each driver is moved alone, the same way up and down: a tenth of the cash flow, a fifth
      of the growth, a point of discount rate and half a point of terminal growth; the rates
      stay at least at 0.001 and zero. */
  lemma {:induction false} OneDriverMoves(driver: nat, b: Params)
    requires driver < 4
    ensures
      var (low, high) := Settings(driver, b);
      && (driver != 0 ==> low.fcf == high.fcf == b.fcf) && (driver != 1 ==> low.growth == high.growth == b.growth)
      && (driver != 2 ==> low.dr == high.dr == b.dr) && (driver != 3 ==> low.tg == high.tg == b.tg)
      && (driver == 0 ==> low.fcf + high.fcf == 2.0 * b.fcf && high.fcf - low.fcf == b.fcf / 5.0)
      && (driver == 1 ==> low.growth + high.growth == 2.0 * b.growth && high.growth - low.growth == 0.4 * b.growth)
      && (driver == 2 ==> low.dr == b.dr + 0.01 && (b.dr >= 0.011 ==> low.dr + high.dr == 2.0 * b.dr))
      && (driver == 2 && b.dr < 0.011 ==> high.dr == 0.001)
      && (driver == 3 ==> high.tg == b.tg + 0.005 && (b.tg >= 0.005 ==> low.tg + high.tg == 2.0 * b.tg))
      && (driver == 3 && b.tg < 0.005 ==> low.tg == 0.0)
  {
  }

  predicate Sound(p: Params) { Defined(Some(p.fcf), Some(p.growth), p.dr, p.tg) }

  function Worth(p: Params): real
    requires Sound(p)
  {
    Value(p.fcf, p.growth, p.dr, p.tg)
  }

  predicate Compared(driver: nat, b: Params)
    requires driver < 4
  {
    Sound(Settings(driver, b).0) && Sound(Settings(driver, b).1)
  }

  /** How far the value moves between a driver's two settings, if both have a valuation. */
  function Spread(driver: nat, b: Params): Option<real>
    requires driver < 4
  {
    if Compared(driver, b) then
      var low, high := Worth(Settings(driver, b).0), Worth(Settings(driver, b).1);
      Some(Max(low, high) - Min(low, high))
    else None
  }

  /** The base value lies between the two settings' values. */
  predicate Brackets(driver: nat, b: Params)
    requires driver < 4 && Compared(driver, b) && Sound(b)
  {
    var low, high := Worth(Settings(driver, b).0), Worth(Settings(driver, b).1);
    Min(low, high) <= Worth(b) <= Max(low, high)
  }

  /** The driver with the widest spread, the first of equals. */
  method LargestDriver(b: Params, netDebt: Option<real>, shares: Option<real>) returns (largest: Option<nat>)
    ensures largest.None? <==> forall d :: 0 <= d < 4 ==> Spread(d, b).None?
    ensures largest.Some? ==>
      && largest.value < 4 && Spread(largest.value, b).Some?
      && (forall d :: 0 <= d < 4 && Spread(d, b).Some? ==> Spread(d, b).value <= Spread(largest.value, b).value)
      && (forall d :: 0 <= d < largest.value && Spread(d, b).Some? ==>
        Spread(d, b).value < Spread(largest.value, b).value)
  {
    largest := None;
    var widest := 0.0;
    for d := 0 to 4
      invariant largest.None? <==> forall e :: 0 <= e < d ==> Spread(e, b).None?
      invariant largest.Some? ==>
        && largest.value < d && Spread(largest.value, b) == Some(widest)
        && (forall e :: 0 <= e < d && Spread(e, b).Some? ==> Spread(e, b).value <= widest)
        && (forall e :: 0 <= e < largest.value && Spread(e, b).Some? ==> Spread(e, b).value < widest)
    {
      var low, high := Settings(d, b).0, Settings(d, b).1;
      var c := DcfCase(Some(low.fcf), low.growth, low.dr, low.tg, netDebt, shares);
      var e := DcfCase(Some(high.fcf), high.growth, high.dr, high.tg, netDebt, shares);
      if c.Some? && e.Some? {
        var spread := Max(c.value.enterprise, e.value.enterprise) - Min(c.value.enterprise, e.value.enterprise);
        assert Spread(d, b) == Some(spread);
        if largest.None? || spread > widest {
          largest, widest := Some(d), spread;
        }
      }
    }
  }

  /** Ten percent of cash flow either way always moves the value by a fifth. */
  lemma {:induction false} CashFlowSpread(b: Params)
    requires Sound(b) && b.growth > -1.0
    ensures Spread(0, b) == Some(0.2 * Worth(b)) && Brackets(0, b)
  {
    ValueGrows(b.fcf, b.growth, b.dr, b.tg, b.growth, b.dr, b.tg);
    var x := Factor(Ratio(b.growth, b.dr), Multiple(b.dr, b.tg));
    assert Times(b.fcf * 0.9, x) == 0.9 * Times(b.fcf, x) && Times(b.fcf * 1.1, x) == 1.1 * Times(b.fcf, x);
  }

  /** Growth and terminal growth settings always bracket the base value. */
  lemma {:induction false} GrowthBrackets(driver: nat, b: Params)
    requires (driver == 1 || driver == 3) && Sound(b) && b.growth >= 0.0 && Compared(driver, b)
    ensures Brackets(driver, b)
  {
    var low, high := Settings(driver, b).0, Settings(driver, b).1;
    ValueGrows(b.fcf, low.growth, low.dr, low.tg, b.growth, b.dr, b.tg);
    ValueGrows(b.fcf, b.growth, b.dr, b.tg, high.growth, high.dr, high.tg);
  }

  /** The discount rate's settings bracket the base value exactly if the rate is at least
      a tenth of a percent: below that both settings lie above it. */
  lemma {:induction false} DiscountBracketsIff(b: Params)
    requires Sound(b) && b.growth > -1.0 && Compared(2, b)
    ensures Brackets(2, b) <==> b.dr >= 0.001
  {
    var high := Max(0.001, b.dr - 0.01);
    ValueGrows(b.fcf, b.growth, b.dr + 0.01, b.tg, b.growth, b.dr, b.tg);
    if b.dr >= 0.001 {
      ValueGrows(b.fcf, b.growth, b.dr, b.tg, b.growth, high, b.tg);
    } else {
      ValueGrows(b.fcf, b.growth, high, b.tg, b.growth, b.dr, b.tg);
    }
  }
}
