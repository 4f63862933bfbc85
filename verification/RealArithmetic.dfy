/** A few facts about products and quotients of reals that the solver needs one at a time. */
module RealArithmetic {
  lemma Assoc(x: real, y: real, z: real)
    ensures (x * y) * z == x * (y * z)
  {
  }

  lemma Distribute(x: real, y: real, z: real)
    ensures (x + y) * z == x * z + y * z
  {
  }

  lemma DistributeLeft(c: real, x: real, y: real)
    ensures c * (x + y) == c * x + c * y
    ensures c * (x - y) == c * x - c * y
  {
  }

  lemma Cancel(x: real, y: real, p: real)
    requires p != 0.0 && x * p == y * p
    ensures x == y
  {
  }

  lemma DivUnique(x: real, y: real, z: real)
    requires y != 0.0 && z * y == x
    ensures x / y == z
  {
  }

  lemma DivideLe(x: real, y: real, p: real)
    requires 0.0 < p && x * p <= y * p
    ensures x <= y
  {
  }

  function Times(x: real, y: real): real {
    x * y
  }

  lemma TimesFraction(x: real, m: real)
    requires 0.0 <= m <= 1.0
    ensures 0.0 <= x ==> 0.0 <= Times(x, m) <= x
    ensures x <= 0.0 ==> x <= Times(x, m) <= 0.0
  {
    DistributeLeft(x, 1.0, m);
    if 0.0 <= x {
      assert 0.0 <= x * (1.0 - m);
    } else {
      assert x * (1.0 - m) <= 0.0;
    }
  }

  /** One more share of at least `lo`. */
  lemma ShareAbove(lo: real, average: real, q: real, x: real, p: real)
    requires q + 1.0 == p && 0.0 <= q && lo <= average && lo <= x
    ensures Times(lo, p) <= Times(average, q) + x
  {
    MulLe(lo, average, q);
    DistributeLeft(lo, q, 1.0);
  }

  lemma ShareBelow(hi: real, average: real, q: real, x: real, p: real)
    requires q + 1.0 == p && 0.0 <= q && average <= hi && x <= hi
    ensures Times(average, q) + x <= Times(hi, p)
  {
    MulLe(average, hi, q);
    DistributeLeft(hi, q, 1.0);
  }

  lemma MulLe(x: real, y: real, p: real)
    requires x <= y && 0.0 <= p
    ensures x * p <= y * p
  {
  }

  lemma MulLess(x: real, y: real, p: real)
    requires x < y && 0.0 < p
    ensures x * p < y * p
  {
  }

  lemma QuotientRange(x: real, p: real, lo: real, hi: real)
    requires 0.0 < p && Times(lo, p) <= x <= Times(hi, p)
    ensures lo <= x / p <= hi
  {
    var z := x / p;
    assert Times(z, p) == x;
    TimesOrder(lo, z, p);
    TimesOrder(z, hi, p);
    hide Times;
  }

  lemma TimesOrder(x: real, y: real, p: real)
    requires 0.0 < p && Times(x, p) <= Times(y, p)
    ensures x <= y
  {
    DivideLe(x, y, p);
  }

  lemma ScaleQuotient(x: real, y: real, c: real)
    requires y != 0.0
    ensures (c * x) / y == c * (x / y)
  {
    var z := x / y;
    assert z * y == x;
    Assoc(c, z, y);
    DivUnique(c * x, y, c * z);
  }

  lemma CancelFactor(x: real, y: real, c: real)
    requires y != 0.0 && c != 0.0
    ensures c * y != 0.0
    ensures (c * x) / (c * y) == x / y
  {
    var z := x / y;
    assert z * y == x;
    assert z * (c * y) == c * x;
    DivUnique(c * x, c * y, z);
  }

  lemma ReciprocalOfRatio(g: real, l: real)
    requires 0.0 < g && 0.0 < l
    ensures 1.0 + g / l != 0.0
    ensures 1.0 / (1.0 + g / l) == l / (g + l)
  {
    var q, y := g / l, l / (g + l);
    var d := 1.0 + q;
    assert q * l == g && y * (g + l) == l;
    Distribute(1.0, q, l);
    Assoc(y, d, l);
    Cancel(y * d, 1.0, l);
    DivUnique(1.0, d, y);
  }

  lemma SharesSumToOne(g: real, l: real)
    requires 0.0 < g && 0.0 < l
    ensures l / (g + l) + g / (l + g) == 1.0
  {
    var t := g + l;
    var x, y := l / t, g / t;
    assert x * t == l && y * t == g;
    Distribute(x, y, t);
    Cancel(x + y, 1.0, t);
  }

  lemma NegativeProduct(x: real, y: real)
    ensures (-x) * y == -(x * y)
    ensures Times(-x, y) == -Times(x, y)
  {
  }

  lemma NegativeQuotient(x: real, y: real)
    requires y != 0.0
    ensures (-x) / y == -(x / y)
  {
    ScaleQuotient(x, y, -1.0);
  }
}
