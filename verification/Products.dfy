/** Products, quotients and powers of reals, each kept as one term so that proofs about
    them are steps of rewriting and not searches through nonlinear arithmetic. */
module Products {

  function Times(a: real, b: real): real { a * b }

  function Over(a: real, b: real): real
    requires b != 0.0
  {
    a / b
  }

  function Pow(x: real, n: nat): real {
    if n == 0 then 1.0 else Times(x, Pow(x, n - 1))
  }

  // ---- products ----

  lemma {:induction false} Swaps(a: real, b: real)
    ensures Times(a, b) == Times(b, a)
  {
  }

  lemma {:induction false} Associates(a: real, b: real, c: real)
    ensures Times(Times(a, b), c) == Times(a, Times(b, c))
  {
  }

  lemma {:induction false} Distributes(a: real, b: real, c: real)
    ensures Times(a, b + c) == Times(a, b) + Times(a, c)
    ensures Times(b + c, a) == Times(b, a) + Times(c, a)
  {
  }

  /** (a b) (c d) is (a c) (b d). */
  lemma {:induction false} Exchanges(a: real, b: real, c: real, d: real)
    ensures Times(Times(a, b), Times(c, d)) == Times(Times(a, c), Times(b, d))
  {
    var x, y := Times(c, d), Times(b, d);
    Associates(a, b, x);
    assert Times(b, x) == Times(c, y) by {
      Associates(b, c, d);
      Swaps(b, c);
      Associates(c, b, d);
    }
    Associates(a, c, y);
  }

  lemma {:induction false} Scaled(k: real, x: real, y: real)
    requires k > 0.0
    ensures x <= y ==> Times(k, x) <= Times(k, y)
    ensures x < y ==> Times(k, x) < Times(k, y)
    ensures 0.0 <= x ==> 0.0 <= Times(k, x)
    ensures 0.0 < x ==> 0.0 < Times(k, x)
  {
  }

  lemma {:induction false} Zero(a: real)
    ensures Times(a, 0.0) == 0.0 && Times(0.0, a) == 0.0
  {
  }

  lemma {:induction false} TimesGrows(a: real, b: real, c: real, d: real)
    requires 0.0 <= a <= b && 0.0 <= c <= d
    ensures 0.0 <= Times(a, c) <= Times(b, d)
    ensures 0.0 < a && 0.0 < c ==> 0.0 < Times(a, c)
    ensures a < b && 0.0 < d ==> Times(a, c) < Times(b, d)
    ensures c < d && 0.0 < b ==> Times(a, c) < Times(b, d)
  {
    Zero(a);
    Zero(c);
    Zero(d);
    if 0.0 < a {
      Scaled(a, c, d);
    }
    if 0.0 < d {
      Scaled(d, a, b);
      Swaps(a, d);
      Swaps(b, d);
    }
  }

  lemma {:induction false} SameFactor(x: real, y: real, c: real)
    requires c > 0.0
    ensures Times(x, c) == Times(y, c) ==> x == y
    ensures Times(x, c) <= Times(y, c) ==> x <= y
    ensures Times(x, c) < Times(y, c) ==> x < y
  {
    Swaps(x, c);
    Swaps(y, c);
    Scaled(c, x, y);
    Scaled(c, y, x);
  }

  // ---- quotients ----

  lemma {:induction false} OverTimes(a: real, b: real)
    requires b > 0.0
    ensures Times(Over(a, b), b) == a
  {
  }

  /** The quotient is the one number whose product with the divisor is the dividend. */
  lemma {:induction false} OverIs(a: real, b: real, x: real)
    requires b > 0.0 && Times(x, b) == a
    ensures Over(a, b) == x
  {
    OverTimes(a, b);
    SameFactor(Over(a, b), x, b);
  }

  lemma {:induction false} OverGrows(a: real, b: real, c: real, d: real)
    requires 0.0 <= a <= b && 0.0 < d <= c
    ensures 0.0 <= Over(a, c) <= Over(b, d)
    ensures 0.0 < a ==> 0.0 < Over(a, c)
    ensures a < b || (0.0 < a && d < c) ==> Over(a, c) < Over(b, d)
  {
    var x, y := Over(a, c), Over(b, d);
    OverTimes(a, c);
    OverTimes(b, d);
    Zero(c);
    SameFactor(0.0, x, c);
    TimesGrows(x, x, d, c);
    SameFactor(x, y, d);
  }

  // ---- powers ----

  lemma {:induction false} PowGrows(x: real, y: real, n: nat)
    requires 0.0 <= x <= y
    ensures 0.0 <= Pow(x, n) <= Pow(y, n)
    ensures 0.0 < x ==> 0.0 < Pow(x, n)
  {
    if n > 0 {
      PowGrows(x, y, n - 1);
      TimesGrows(x, y, Pow(x, n - 1), Pow(y, n - 1));
    }
  }

  /** The power of a product is the product of the powers. */
  lemma {:induction false} PowScales(r: real, y: real, x: real, n: nat)
    requires Times(r, y) == x
    ensures Times(Pow(r, n), Pow(y, n)) == Pow(x, n)
  {
    if n > 0 {
      PowScales(r, y, x, n - 1);
      Exchanges(r, Pow(r, n - 1), y, Pow(y, n - 1));
    }
  }

  lemma {:induction false} PowAtLeastOne(x: real, m: nat, n: nat)
    requires x >= 1.0 && m <= n
    ensures 1.0 <= Pow(x, m) <= Pow(x, n)
    decreases n
  {
    if m < n {
      PowAtLeastOne(x, m, n - 1);
      var p := Pow(x, n - 1);
      TimesGrows(1.0, x, p, p);
    } else if n > 0 {
      PowAtLeastOne(x, n - 1, n - 1);
      var p := Pow(x, n - 1);
      TimesGrows(1.0, x, p, p);
    }
  }
}
