/** Discounted cash flow: a five-year forecast plus a terminal value, over exact reals,
    and how it moves with growth, discount rate and terminal growth. */
module Dcf {
  import opened Basics
  import opened Products

  // ---- the model ----

  /** The growth factors of n years, discounted and added up. */
  function Forecast(q: real, n: nat): real {
    if n == 0 then 0.0 else Forecast(q, n - 1) + Pow(q, n)
  }

  /** Value of one unit of cash flow: the forecast, and m times the last year beyond it. */
  function Factor(q: real, m: real): real {
    Forecast(q, 5) + Times(Pow(q, 5), m)
  }

  /** One year's growth, discounted by one year. */
  function Ratio(g: real, dr: real): real
    requires dr > 0.0
  {
    Over(1.0 + g, 1.0 + dr)
  }

  /** The terminal value in units of the last year's cash flow. */
  function Multiple(dr: real, tg: real): real
    requires dr > tg
  {
    Over(1.0 + tg, dr - tg)
  }

  /** Enterprise value, in closed form. */
  function Value(fcf: real, g: real, dr: real, tg: real): real
    requires dr > tg && dr > 0.0
  {
    Times(fcf, Factor(Ratio(g, dr), Multiple(dr, tg)))
  }

  /** When a valuation exists: positive cash flow, known growth, and 0 <= tg < dr. */
  predicate Defined(fcf: Option<real>, growth: Option<real>, dr: real, tg: real) {
    fcf.Some? && fcf.value > 0.0 && growth.Some? && dr > tg && dr > 0.0 && tg >= 0.0
  }

  datatype Valuation = Valuation(enterprise: real, forecast: real, terminal: real)

  // ---- the year-by-year computation ----

  /** The running figures after some years of the projection. */
  ghost predicate Projected(fcf: real, g: real, dr: real, years: nat, projected: real, discount: real, present: real)
    requires dr > 0.0
  {
    && projected == Times(fcf, Pow(1.0 + g, years))
    && discount == Pow(1.0 + dr, years) && discount > 0.0
    && present == Times(fcf, Forecast(Ratio(g, dr), years))
  }

  /** A year's cash flow over its discount is the cash flow times the discounted growth. */
  lemma {:induction false} YearIsRatio(fcf: real, g: real, dr: real, n: nat, x: real)
    requires dr > 0.0 && Times(x, Pow(1.0 + dr, n)) == Times(fcf, Pow(1.0 + g, n))
    ensures x == Times(fcf, Pow(Ratio(g, dr), n))
  {
    var q, d := Pow(Ratio(g, dr), n), Pow(1.0 + dr, n);
    OverTimes(1.0 + g, 1.0 + dr);
    PowScales(Ratio(g, dr), 1.0 + dr, 1.0 + g, n);
    PowGrows(1.0 + dr, 1.0 + dr, n);
    Associates(fcf, q, d);
    SameFactor(x, Times(fcf, q), d);
  }

  lemma {:induction false} FlowGoesOn(fcf: real, x: real, n: nat)
    ensures Times(Times(fcf, Pow(x, n)), x) == Times(fcf, Pow(x, n + 1))
  {
    Associates(fcf, Pow(x, n), x);
    Swaps(Pow(x, n), x);
  }

  lemma {:induction false} YearGoesOn(fcf: real, g: real, dr: real, years: nat, projected: real, discount: real,
      present: real, projected': real, discount': real, year: real)
    requires dr > 0.0 && Projected(fcf, g, dr, years, projected, discount, present)
    requires projected' == Times(projected, 1.0 + g) && discount' == Times(discount, 1.0 + dr)
    requires Times(year, discount') == projected'
    ensures Projected(fcf, g, dr, years + 1, projected', discount', present + year)
  {
    FlowGoesOn(fcf, 1.0 + g, years);
    Swaps(discount, 1.0 + dr);
    PowGrows(1.0 + dr, 1.0 + dr, years + 1);
    YearIsRatio(fcf, g, dr, years + 1, year);
    Distributes(fcf, Forecast(Ratio(g, dr), years), Pow(Ratio(g, dr), years + 1));
  }

  /** Cash flow beyond the forecast, discounted, is the last year times the multiple. */
  lemma {:induction false} TerminalIsMultiple(fcf: real, g: real, dr: real, tg: real, projected: real,
      discount: real, present: real, lastYear: real, value: real, terminal: real)
    requires dr > tg && dr > 0.0 && Projected(fcf, g, dr, 5, projected, discount, present)
    requires lastYear == Times(projected, 1.0 + tg) && Times(value, dr - tg) == lastYear
    requires Times(terminal, discount) == value
    ensures present + terminal == Value(fcf, g, dr, tg)
  {
    var q, m, last := Ratio(g, dr), Multiple(dr, tg), Over(projected, discount);
    OverTimes(projected, discount);
    YearIsRatio(fcf, g, dr, 5, last);
    OverTimes(1.0 + tg, dr - tg);
    Associates(projected, m, dr - tg);
    SameFactor(value, Times(projected, m), dr - tg);
    Associates(last, m, discount);
    Swaps(m, discount);
    Associates(last, discount, m);
    SameFactor(terminal, Times(last, m), discount);
    Associates(fcf, Pow(q, 5), m);
    Distributes(fcf, Forecast(q, 5), Times(Pow(q, 5), m));
  }

  lemma {:induction false} NothingProjected(fcf: real, g: real, dr: real)
    requires dr > 0.0
    ensures Projected(fcf, g, dr, 0, fcf, 1.0, 0.0)
  {
    Zero(fcf);
  }

  /** The year-by-year computation arrives at the closed form. */
  method Evaluate(fcf: Option<real>, growth: Option<real>, dr: real, tg: real) returns (v: Option<Valuation>)
    ensures v.Some? <==> Defined(fcf, growth, dr, tg)
    ensures v.Some? ==>
      && v.value.enterprise == Value(fcf.value, growth.value, dr, tg)
      && v.value.forecast == Times(fcf.value, Forecast(Ratio(growth.value, dr), 5))
      && v.value.terminal == v.value.enterprise - v.value.forecast
  {
    if fcf.None? || fcf.value <= 0.0 || growth.None? || dr <= tg || dr <= 0.0 || tg < 0.0 {
      return None;
    }
    var g := growth.value;
    var projected, discount, present := fcf.value, 1.0, 0.0;
    NothingProjected(fcf.value, g, dr);
    for years := 0 to 5
      invariant Projected(fcf.value, g, dr, years, projected, discount, present)
    {
      var grown, discounted := Times(projected, 1.0 + g), Times(discount, 1.0 + dr);
      Scaled(discount, 0.0, 1.0 + dr);
      var year := Over(grown, discounted);
      OverTimes(grown, discounted);
      YearGoesOn(fcf.value, g, dr, years, projected, discount, present, grown, discounted, year);
      projected, discount, present := grown, discounted, present + year;
    }
    var lastYear := Times(projected, 1.0 + tg);
    var value := Over(lastYear, dr - tg);
    var terminal := Over(value, discount);
    OverTimes(lastYear, dr - tg);
    OverTimes(value, discount);
    TerminalIsMultiple(fcf.value, g, dr, tg, projected, discount, present, lastYear, value, terminal);
    v := Some(Valuation(present + terminal, present, terminal));
  }

  // ---- how the value moves ----

  lemma {:induction false} ForecastGrows(p: real, q: real, n: nat)
    requires 0.0 <= p <= q
    ensures 0.0 <= Forecast(p, n) <= Forecast(q, n)
    ensures p < q && n > 0 ==> Forecast(p, n) < Forecast(q, n)
  {
    if n > 0 {
      ForecastGrows(p, q, n - 1);
      PowGrows(p, q, n);
      if p < q && n == 1 {
        PowGrows(q, q, 0);
        TimesGrows(p, q, 1.0, 1.0);
      }
    }
  }

  lemma {:induction false} FactorGrows(p: real, q: real, m: real, n: real)
    requires 0.0 <= p <= q && 0.0 <= m <= n
    ensures 0.0 <= Factor(p, m) <= Factor(q, n)
    ensures p < q ==> Factor(p, m) < Factor(q, n)
    ensures 0.0 < p && m < n ==> Factor(p, m) < Factor(q, n)
  {
    ForecastGrows(p, q, 5);
    PowGrows(p, q, 5);
    TimesGrows(Pow(p, 5), Pow(q, 5), m, n);
  }

  lemma {:induction false} RatesGrow(g: real, dr: real, tg: real, g': real, dr': real, tg': real)
    requires -1.0 < g <= g' && 0.0 < dr' <= dr && 0.0 <= tg <= tg' < dr' && tg < dr
    ensures 0.0 < Ratio(g, dr) <= Ratio(g', dr') && 0.0 < Multiple(dr, tg) <= Multiple(dr', tg')
    ensures g < g' || dr' < dr ==> Ratio(g, dr) < Ratio(g', dr')
    ensures tg < tg' ==> Multiple(dr, tg) < Multiple(dr', tg')
  {
    OverGrows(1.0 + g, 1.0 + g', 1.0 + dr, 1.0 + dr');
    OverGrows(1.0 + tg, 1.0 + tg', dr - tg, dr' - tg');
  }

  /** No worse growth, no higher discount rate and no lower terminal growth: no lower value;
      and a strictly higher one when a rate improves. */
  lemma {:induction false} ValueGrows(fcf: real, g: real, dr: real, tg: real, g': real, dr': real, tg': real)
    requires fcf > 0.0 && -1.0 < g <= g' && 0.0 < dr' <= dr && 0.0 <= tg <= tg' < dr' && tg < dr
    ensures 0.0 <= Value(fcf, g, dr, tg) <= Value(fcf, g', dr', tg')
    ensures g < g' || dr' < dr || tg < tg' ==> Value(fcf, g, dr, tg) < Value(fcf, g', dr', tg')
  {
    var p, q := Ratio(g, dr), Ratio(g', dr');
    var m, n := Multiple(dr, tg), Multiple(dr', tg');
    RatesGrow(g, dr, tg, g', dr', tg');
    FactorGrows(p, q, m, n);
    Scaled(fcf, Factor(p, m), Factor(q, n));
  }

  /** One percentage point more on the discount rate always costs more than raising a
      terminal growth below one percent to one percent gains. */
  lemma {:induction false} FlooredTerminalGrowth(fcf: real, g: real, dr: real, tg: real)
    requires fcf > 0.0 && g > -1.0 && 0.0 <= tg < dr && tg <= 0.01
    ensures Value(fcf, g, dr + 0.01, 0.01) < Value(fcf, g, dr, tg)
  {
    var q, p, m := Ratio(g, dr), Ratio(g, dr + 0.01), Multiple(dr, tg);
    var u, v := Multiple(dr + 0.01, 0.01), Multiple(dr, 0.0);
    RatesGrow(g, dr + 0.01, 0.0, g, dr, 0.0);
    RatesGrow(g, dr, 0.0, g, dr, tg);
    ForecastGrows(p, q, 4);
    OverTimes(1.0 + g, 1.0 + dr);
    OverTimes(1.0 + g, 1.0 + (dr + 0.01));
    OverTimes(1.0, dr);
    OverTimes(1.01, dr);
    LastYears(1.0 + g, dr, q, p, v, u);
    PowGrows(q, q, 5);
    TimesGrows(Pow(q, 5), Pow(q, 5), v, m);
    Scaled(fcf, Factor(p, u), Factor(q, m));
  }

  /** The last year and what lies beyond it, at the two discount rates. */
  lemma {:induction false} LastYears(g: real, dr: real, q: real, p: real, v: real, u: real)
    requires dr > 0.0 && g > 0.0 && 0.0 < p < q
    requires Times(q, 1.0 + dr) == g && Times(p, 1.01 + dr) == g
    requires Times(v, dr) == 1.0 && Times(u, dr) == 1.01
    ensures Pow(p, 5) + Times(Pow(p, 5), u) <= Pow(q, 5) + Times(Pow(q, 5), v)
  {
    PowGrows(p, q, 4);
    var a, b := Pow(p, 4), Pow(q, 4);
    LastYear(a, p, dr, 1.01, u, g);
    LastYear(b, q, dr, 1.0, v, g);
    TimesGrows(a, b, g, g);
    SameFactor(Times(p, a) + Times(Times(p, a), u), Times(q, b) + Times(Times(q, b), v), dr);
  }

  lemma {:induction false} LastYear(a: real, p: real, dr: real, c: real, u: real, g: real)
    requires Times(p, c + dr) == g && Times(u, dr) == c
    ensures Times(Times(p, a) + Times(Times(p, a), u), dr) == Times(a, g)
  {
    var x := Times(p, a);
    Distributes(dr, x, Times(x, u));
    Associates(x, u, dr);
    Distributes(x, c, dr);
    Swaps(p, a);
    Associates(a, p, c + dr);
  }
}
