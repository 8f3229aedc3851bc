/** Bear, base and bull valuations of one company, and the sensitivity of the base case. */
module Scenarios {
  import opened Basics
  import opened Dcf
  import opened Products

  /** Growth read off the last two cash flows, between zero and twenty percent. */
  function InferredGrowth(fcf: Option<real>, prior: Option<real>): (g: real)
    ensures 0.0 <= g <= 0.2
  {
    if fcf.Some? && fcf.value != 0.0 && prior.Some? && prior.value > 0.0
    then Min(0.2, Max(0.0, (fcf.value - prior.value) / prior.value))
    else 0.05
  }

  /** A rate given as a fraction or in percent; a missing or zero one takes the default. */
  function Rate(input: Option<real>, default: real): real {
    var v := if input.None? || input.value == 0.0 then default else input.value;
    if v > 1.0 then v / 100.0 else v
  }

  /** Growth within the range is read off two cash flows exactly; beyond it, it is cut off at
      nothing and at twenty percent. */
  lemma {:induction false} GrowthIsReadOff(fcf: real, prior: real, g: real)
    requires prior > 0.0 && fcf == prior * (1.0 + g) && fcf != 0.0
    ensures InferredGrowth(Some(fcf), Some(prior)) == if g <= 0.0 then 0.0 else if g >= 0.2 then 0.2 else g
  {
    assert fcf - prior == g * prior;
    assert (fcf - prior) / prior == g;
  }

  /** Without two usable cash flows, growth is taken to be five percent. */
  lemma {:induction false} GrowthUnknown(fcf: Option<real>, prior: Option<real>)
    requires fcf.None? || prior.None? || fcf.value == 0.0 || prior.value <= 0.0
    ensures InferredGrowth(fcf, prior) == 0.05
  {
  }

  /** A rate means the same in percent as in fractions, and nothing means the default. */
  lemma {:induction false} PercentOrFraction(x: real, default: real)
    requires 0.0 < default <= 1.0
    ensures 0.01 < x <= 1.0 ==> Rate(Some(x * 100.0), default) == Rate(Some(x), default) == x
    ensures Rate(Some(0.0), default) == Rate(None, default) == default
    ensures x <= 1.0 && x != 0.0 ==> Rate(Some(x), default) == x
  {
  }

  datatype Case = Case(enterprise: real, equity: Option<real>, perShare: Option<real>)

  function CaseFrom(enterprise: real, netDebt: Option<real>, shares: Option<real>): Case {
    var equity := if netDebt.Some? then Some(enterprise - netDebt.value) else None;
    Case(enterprise, equity,
      if equity.Some? && shares.Some? && shares.value > 0.0 then Some(Over(equity.value, shares.value)) else None)
  }

  function CaseAt(fcf: Option<real>, g: real, dr: real, tg: real, netDebt: Option<real>,
      shares: Option<real>): Option<Case> {
    if Defined(fcf, Some(g), dr, tg) then Some(CaseFrom(Value(fcf.value, g, dr, tg), netDebt, shares)) else None
  }

  method DcfCase(fcf: Option<real>, g: real, dr: real, tg: real, netDebt: Option<real>,
      shares: Option<real>) returns (c: Option<Case>)
    ensures c == CaseAt(fcf, g, dr, tg, netDebt, shares)
  {
    var v := Evaluate(fcf, Some(g), dr, tg);
    c := if v.Some? then Some(CaseFrom(v.value.enterprise, netDebt, shares)) else None;
  }

  /** What one company's market data and cash flows say. */
  datatype Inputs = Inputs(fcf: Option<real>, prior: Option<real>, discount: Option<real>, terminal: Option<real>,
      netDebt: Option<real>, shares: Option<real>)
  {
    function Growth(): real { InferredGrowth(fcf, prior) }
    function DiscountRate(): real { Rate(discount, 0.1) }
    function TerminalGrowth(): real { Rate(terminal, 0.03) }
  }

  /** A company without rates of its own is valued at ten and three percent. */
  lemma {:induction false} UsualRates(i: Inputs)
    requires i.discount.None? && i.terminal.None?
    ensures i.DiscountRate() == 0.10 && i.TerminalGrowth() == 0.03
  {
  }

  function Base(i: Inputs): Option<Case> {
    CaseAt(i.fcf, i.Growth(), i.DiscountRate(), i.TerminalGrowth(), i.netDebt, i.shares)
  }

  function Bull(i: Inputs): Option<Case> {
    var g, dr, tg := Min(0.25, i.Growth() * 1.2), Max(0.06, i.DiscountRate() - 0.01), i.TerminalGrowth() + 0.005;
    CaseAt(i.fcf, g, dr, tg, i.netDebt, i.shares)
  }

  function Bear(i: Inputs): Option<Case> {
    var g, dr, tg := Max(0.0, i.Growth() * 0.8), i.DiscountRate() + 0.01, Max(0.01, i.TerminalGrowth() - 0.005);
    CaseAt(i.fcf, g, dr, tg, i.netDebt, i.shares)
  }

  /** The parts add up: what owners and lenders have is the enterprise, and all shares
      together are what owners have. */
  lemma {:induction false} CaseAddsUp(enterprise: real, netDebt: Option<real>, shares: Option<real>)
    ensures
      var c := CaseFrom(enterprise, netDebt, shares);
      && c.enterprise == enterprise
      && (c.equity.Some? <==> netDebt.Some?)
      && (c.equity.Some? ==> c.equity.value + netDebt.value == enterprise)
      && (c.perShare.Some? <==> netDebt.Some? && shares.Some? && shares.value > 0.0)
      && (c.perShare.Some? ==> Times(c.perShare.value, shares.value) == c.equity.value)
  {
    if netDebt.Some? && shares.Some? && shares.value > 0.0 {
      OverTimes(enterprise - netDebt.value, shares.value);
    }
  }

  predicate Less(a: Option<real>, b: Option<real>) {
    (a.None? && b.None?) || (a.Some? && b.Some? && a.value < b.value)
  }

  /** Worth less as an enterprise, to its owners and per share. */
  predicate Below(a: Case, b: Case) {
    a.enterprise < b.enterprise && Less(a.equity, b.equity) && Less(a.perShare, b.perShare)
  }

  lemma {:induction false} CheaperCase(x: real, y: real, netDebt: Option<real>, shares: Option<real>)
    requires x < y
    ensures Below(CaseFrom(x, netDebt, shares), CaseFrom(y, netDebt, shares))
  {
    if netDebt.Some? && shares.Some? && shares.value > 0.0 {
      OverTimes(x - netDebt.value, shares.value);
      OverTimes(y - netDebt.value, shares.value);
      SameFactor(Over(x - netDebt.value, shares.value), Over(y - netDebt.value, shares.value), shares.value);
    }
  }

  predicate HasBase(i: Inputs) { Defined(i.fcf, Some(i.Growth()), i.DiscountRate(), i.TerminalGrowth()) }

  /** With a base case there is always a bear case, and it is always worth less. */
  lemma {:induction false} BearBelowBase(i: Inputs)
    requires HasBase(i)
    ensures Base(i).Some? && Bear(i).Some? && Below(Bear(i).value, Base(i).value)
  {
    var fcf, g, dr, tg := i.fcf.value, i.Growth(), i.DiscountRate(), i.TerminalGrowth();
    var low := Max(0.0, g * 0.8);
    var floor := Max(0.01, tg - 0.005);
    if tg < 0.01 {
      ValueGrows(fcf, low, dr + 0.01, 0.01, g, dr + 0.01, 0.01);
      FlooredTerminalGrowth(fcf, g, dr, tg);
    } else {
      ValueGrows(fcf, low, dr + 0.01, floor, g, dr, tg);
    }
    CheaperCase(Value(fcf, low, dr + 0.01, floor), Value(fcf, g, dr, tg), i.netDebt, i.shares);
  }

  // ---- the bull case against the base case ----

  /** The terminal growth stays below the discount rate at the bull case's settings too. */
  predicate HasBull(i: Inputs) {
    HasBase(i) && i.TerminalGrowth() + 0.005 < Max(0.06, i.DiscountRate() - 0.01)
  }

  /** With a base case, a bull case exists exactly if its terminal growth stays below its
      discount rate. */
  lemma {:induction false} BullExistsIff(i: Inputs)
    ensures Base(i).Some? <==> HasBase(i)
    ensures HasBase(i) ==> (Bull(i).Some? <==> HasBull(i))
  {
  }

  /** At discount rates of 5.65 percent and more, the bull case is worth more. */
  lemma {:induction false} BaseBelowBull(i: Inputs)
    requires HasBull(i) && i.DiscountRate() >= 0.0565
    ensures Base(i).Some? && Bull(i).Some? && Below(Base(i).value, Bull(i).value)
  {
    var fcf, g, dr, tg := i.fcf.value, i.Growth(), i.DiscountRate(), i.TerminalGrowth();
    var high := Min(0.25, g * 1.2);
    var rate := Max(0.06, dr - 0.01);
    if dr < 0.06 {
      ValueGrows(fcf, g, dr, tg, g, 0.0565, tg);
      HighRatesFavourBull(fcf, g, tg);
      ValueGrows(fcf, g, 0.06, tg + 0.005, high, 0.06, tg + 0.005);
    } else {
      ValueGrows(fcf, g, dr, tg, high, rate, tg + 0.005);
    }
    CheaperCase(Value(fcf, g, dr, tg), Value(fcf, high, rate, tg + 0.005), i.netDebt, i.shares);
  }

  /** The bull case is not always the better one: at discount rates of 4.75 percent and
      less it is always worth less than the base case. */
  lemma {:induction false} BullBelowBase(i: Inputs)
    requires HasBase(i) && i.DiscountRate() <= 0.0475
    ensures Base(i).Some? && Bull(i).Some? && Below(Bull(i).value, Base(i).value)
  {
    var fcf, g, dr, tg := i.fcf.value, i.Growth(), i.DiscountRate(), i.TerminalGrowth();
    var high := Min(0.25, g * 1.2);
    ValueGrows(fcf, g, 0.0475, tg, g, dr, tg);
    LowRatesFavourBase(fcf, g, tg);
    CheaperCase(Value(fcf, high, 0.06, tg + 0.005), Value(fcf, g, dr, tg), i.netDebt, i.shares);
  }

  /** The same company at another discount rate. */
  predicate Discounted(i: Inputs, j: Inputs) {
    && (i.fcf, i.prior, i.netDebt, i.shares) == (j.fcf, j.prior, j.netDebt, j.shares)
    && i.TerminalGrowth() == j.TerminalGrowth()
  }

  /** The order of the two cases turns once: where the bull case is worth no less than
      the base case, it is worth more at every higher discount rate. */
  lemma {:induction false} OrderTurnsOnce(i: Inputs, j: Inputs)
    requires HasBull(i) && Discounted(i, j) && i.DiscountRate() < j.DiscountRate()
    ensures Base(i).Some? && Bull(i).Some? && Base(j).Some? && Bull(j).Some?
    ensures Base(i).value.enterprise <= Bull(i).value.enterprise ==> Below(Base(j).value, Bull(j).value)
  {
    var fcf, g, tg := i.fcf.value, i.Growth(), i.TerminalGrowth();
    var dr, dr' := i.DiscountRate(), j.DiscountRate();
    assert j.Growth() == g;
    ValueGrows(fcf, g, dr', tg, g, dr, tg);
    if dr' >= 0.0565 {
      BaseBelowBull(j);
    } else if Base(i).value.enterprise <= Bull(i).value.enterprise {
      CheaperCase(Base(j).value.enterprise, Bull(j).value.enterprise, j.netDebt, j.shares);
    }
  }

  lemma {:induction false} LowRatesFavourBase(fcf: real, g: real, tg: real)
    requires fcf > 0.0 && 0.0 <= g <= 0.2 && 0.0 <= tg < 0.0475
    ensures Value(fcf, g * 1.2, 0.06, tg + 0.005) < Value(fcf, g, 0.0475, tg)
  {
    var p, q := Ratio(g * 1.2, 0.06), Ratio(g, 0.0475);
    var u, m, d := Multiple(0.06, tg + 0.005), Multiple(0.0475, tg), 0.0475 - tg;
    OverTimes(1.0 + g * 1.2, 1.06);
    OverTimes(1.0 + g, 1.0475);
    FlooredMultiple(u, tg);
    OverTimes(1.0 + tg, d);
    OverGrows(1.0, 1.0 + tg, 0.0475, d);
    OverIs(1.0, 0.0475, 1.0 / 0.0475);
    Distributes(u, d, 0.0075);
    FewerTimes(u, m, 0.874, d);
    FactorBelow(p, u, q, m, 1.02115, 0.874, 21.05);
    Scaled(fcf, Factor(p, u), Factor(q, m));
  }

  lemma {:induction false} HighRatesFavourBull(fcf: real, g: real, tg: real)
    requires fcf > 0.0 && 0.0 <= g <= 0.2 && 0.0 <= tg < 0.055
    ensures Value(fcf, g, 0.0565, tg) < Value(fcf, g, 0.06, tg + 0.005)
  {
    var p, q := Ratio(g, 0.06), Ratio(g, 0.0565);
    var u, m, d := Multiple(0.06, tg + 0.005), Multiple(0.0565, tg), 0.0565 - tg;
    OverTimes(1.0 + g, 1.06);
    OverTimes(1.0 + g, 1.0565);
    FlooredMultiple(u, tg);
    OverTimes(1.0 + tg, d);
    Distributes(u, d, -0.0015);
    FewerTimes(m, u, 0.9703, d);
    FactorBelow(q, m, p, u, 1.003314, 0.9703, 18.27);
    Scaled(fcf, Factor(q, m), Factor(p, u));
  }

  /** The multiple of the floored bull case. */
  lemma {:induction false} FlooredMultiple(u: real, tg: real)
    requires 0.0 <= tg < 0.055 && u == Multiple(0.06, tg + 0.005)
    ensures Times(u, 0.055 - tg) == 1.005 + tg && u * 0.055 >= 1.005
  {
    OverTimes(1.005 + tg, 0.055 - tg);
    Zero(0.055 - tg);
    SameFactor(0.0, u, 0.055 - tg);
    TimesGrows(u, u, 0.055 - tg, 0.055);
  }

  lemma {:induction false} FewerTimes(u: real, m: real, k: real, d: real)
    requires d > 0.0 && Times(u, d) <= k * Times(m, d)
    ensures u <= Times(k, m)
  {
    Associates(k, m, d);
    SameFactor(u, Times(k, m), d);
  }

  /** Five years of at most r times the growth, and a multiple of at most k times the other:
      worth less if what the multiple loses outweighs what the growth gains. */
  lemma {:induction false} FactorBelow(p: real, u: real, q: real, m: real, r: real, k: real, least: real)
    requires 0.0 <= p <= Times(r, q) && 0.0 <= u <= Times(k, m) && 0.0 <= least <= m && r >= 1.0
    requires q > 0.0 && q * 1.06 >= 1.0
    requires (Pow(r, 5) - 1.0) * 5.637093 < (1.0 - Times(Pow(r, 5), k)) * least
    ensures Factor(p, u) < Factor(q, m)
  {
    var f, last, scale := Forecast(q, 5), Pow(q, 5), Pow(r, 5);
    PowAtLeastOne(r, 5, 5);
    ForecastScales(p, q, r, 5, 5);
    PowGrows(p, p, 5);
    PowGrows(q, q, 5);
    TimesGrows(Pow(p, 5), Times(scale, last), u, Times(k, m));
    Exchanges(scale, last, k, m);
    LastYearCounts(q);
    TimesGrows(last, last, least, m);
    Swaps(last, least);
    Outweighs(scale, Times(scale, k), 5.637093, least, f, last, Times(last, m));
  }

  lemma {:induction false} Outweighs(r: real, k: real, c: real, least: real, f: real, q: real, t: real)
    requires r >= 1.0 && q > 0.0 && 0.0 <= f <= Times(c, q) && Times(least, q) <= t && 0.0 <= least
    requires Times(r - 1.0, c) < Times(1.0 - k, least) && 0.0 <= c
    ensures Times(r, f) + Times(k, t) < f + t
  {
    Distributes(f, r - 1.0, 1.0);
    Distributes(t, 1.0 - k, k);
    TimesGrows(r - 1.0, r - 1.0, f, Times(c, q));
    Associates(r - 1.0, c, q);
    Swaps(Times(r - 1.0, c), q);
    Swaps(Times(1.0 - k, least), q);
    Scaled(q, Times(r - 1.0, c), Times(1.0 - k, least));
    Associates(1.0 - k, least, q);
    Zero(least);
    TimesGrows(0.0, r - 1.0, 0.0, c);
    SameFactor(0.0, 1.0 - k, least);
    TimesGrows(1.0 - k, 1.0 - k, Times(least, q), t);
  }

  lemma {:induction false} ForecastScales(p: real, q: real, r: real, n: nat, top: nat)
    requires 0.0 <= p <= Times(r, q) && q >= 0.0 && r >= 1.0 && n <= top
    ensures Forecast(p, n) <= Times(Pow(r, top), Forecast(q, n)) && Pow(p, n) <= Times(Pow(r, n), Pow(q, n))
  {
    PowScales(r, q, Times(r, q), n);
    PowGrows(p, Times(r, q), n);
    if n == 0 {
      Zero(Pow(r, top));
    } else {
      ForecastScales(p, q, r, n - 1, top);
      PowAtLeastOne(r, n, top);
      PowGrows(q, q, n);
      TimesGrows(Pow(r, n), Pow(r, top), Pow(q, n), Pow(q, n));
      Distributes(Pow(r, top), Forecast(q, n - 1), Pow(q, n));
    }
  }

  lemma {:induction false} YearBefore(q: real, n: nat)
    requires q > 0.0 && q * 1.06 >= 1.0
    ensures Pow(q, n) <= 1.06 * Pow(q, n + 1)
  {
    var x := Pow(q, n);
    PowGrows(q, q, n);
    Associates(1.06, q, x);
    TimesGrows(1.0, 1.06 * q, x, x);
  }

  /** A forecast that loses at most six percent a year is no more than 5.64 last years. */
  lemma {:induction false} LastYearCounts(q: real)
    requires q > 0.0 && q * 1.06 >= 1.0
    ensures 0.0 <= Forecast(q, 5) <= Times(5.637093, Pow(q, 5))
  {
    YearBefore(q, 4);
    YearBefore(q, 3);
    YearBefore(q, 2);
    YearBefore(q, 1);
    ForecastGrows(q, q, 5);
    assert Forecast(q, 1) == Pow(q, 1) && Forecast(q, 3) == Pow(q, 1) + Pow(q, 2) + Pow(q, 3);
    assert Forecast(q, 5) == Forecast(q, 3) + Pow(q, 4) + Pow(q, 5);
  }
}
