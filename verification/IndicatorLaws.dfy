/** How the indicators transform when prices are reflected or rescaled, and the ranges they stay in. */
module IndicatorLaws {
  import opened RealArithmetic
  import opened Indicators

  function Line(a: real, b: real, x: real): real {
    a * x + b
  }

  /** Every value mapped by x -> a * x + b. */
  function Affine(xs: seq<real>, a: real, b: real): (ys: seq<real>)
    ensures |ys| == |xs|
  {
    seq(|xs|, i requires 0 <= i < |xs| => Line(a, b, xs[i]))
  }

  lemma AffineSplit(xs: seq<real>, a: real, b: real)
    requires xs != []
    ensures var n := |xs| - 1; Affine(xs, a, b) == Affine(xs[..n], a, b) + [Line(a, b, xs[n])]
    ensures Affine(xs, a, b)[..|xs| - 1] == Affine(xs[..|xs| - 1], a, b)
    ensures Last(Affine(xs, a, b)) == Line(a, b, Last(xs))
  {
    hide Line;
  }

  // ---------- EMA ----------

  lemma EmaStepAffine(v: real, e: real, m: real, a: real, b: real)
    ensures EmaStep(Line(a, b, v), Line(a, b, e), m) == Line(a, b, EmaStep(v, e, m))
  {
    DistributeLeft(a, v, e);
    Assoc(a, v - e, m);
    DistributeLeft(a, (v - e) * m, e);
  }

  /** The moving average commutes with every affine map of the prices. */
  lemma {:induction false} EmaAffine(vs: seq<real>, period: nat, a: real, b: real)
    ensures EmaValues(Affine(vs, a, b), period) == Affine(EmaValues(vs, period), a, b)
  {
    hide EmaStep, Multiplier, Line;
    if |vs| > 1 {
      var n := |vs| - 1;
      var es, m := EmaValues(vs[..n], period), Multiplier(period);
      EmaAffine(vs[..n], period, a, b);
      AffineSplit(vs, a, b);
      AffineSplit(es, a, b);
      AffineSplit(EmaValues(vs, period), a, b);
      assert EmaValues(vs, period)[..n] == es;
      EmaStepAffine(vs[n], Last(es), m, a, b);
    }
  }

  /** The moving average stays between the extreme values. */
  lemma {:induction false} EmaRange(vs: seq<real>, period: nat, lo: real, hi: real)
    requires 1 <= period && forall i :: 0 <= i < |vs| ==> lo <= vs[i] <= hi
    ensures forall i :: 0 <= i < |vs| ==> lo <= EmaValues(vs, period)[i] <= hi
  {
    if |vs| > 1 {
      var n := |vs| - 1;
      EmaRange(vs[..n], period, lo, hi);
      EmaStepRange(vs[n], Last(EmaValues(vs[..n], period)), period, lo, hi);
      hide EmaStep, Multiplier;
    }
  }

  lemma EmaStepRange(v: real, e: real, period: nat, lo: real, hi: real)
    requires 1 <= period && lo <= v <= hi && lo <= e <= hi
    ensures lo <= EmaStep(v, e, Multiplier(period)) <= hi
  {
    var m := Multiplier(period);
    MultiplierRange(period);
    TimesFraction(v - e, m);
    assert EmaStep(v, e, m) == Times(v - e, m) + e;
    hide Times, EmaStep, Multiplier;
  }

  lemma MultiplierRange(period: nat)
    requires 1 <= period
    ensures 0.0 < Multiplier(period) <= 1.0
  {
  }

  // ---------- Wilder smoothing ----------

  lemma {:induction false} SumScale(xs: seq<real>, c: real)
    ensures Sum(Affine(xs, c, 0.0)) == Line(c, 0.0, Sum(xs))
  {
    LineOfZero(c, 0.0);
    if xs == [] {
      assert Affine(xs, c, 0.0) == [];
    } else {
      var n := |xs| - 1;
      SumScale(xs[..n], c);
      AffineSplit(xs, c, 0.0);
      LineSum(c, Sum(xs[..n]), xs[n]);
      hide Affine, Line;
    }
  }

  lemma LineSum(c: real, x: real, y: real)
    ensures Line(c, 0.0, x) + Line(c, 0.0, y) == Line(c, 0.0, x + y)
  {
    DistributeLeft(c, x, y);
  }

  lemma LineQuotient(x: real, y: real, c: real)
    requires y != 0.0
    ensures Line(c, 0.0, x) / y == Line(c, 0.0, x / y)
  {
    ScaleQuotient(x, y, c);
  }

  lemma WilderStepScale(average: real, x: real, period: nat, c: real)
    requires 1 <= period
    ensures WilderStep(Line(c, 0.0, average), Line(c, 0.0, x), period) == Line(c, 0.0, WilderStep(average, x, period))
  {
    var p := period as real;
    var q := (period - 1) as real;
    Assoc(c, average, q);
    DistributeLeft(c, average * q, x);
    ScaleQuotient(average * q + x, p, c);
  }

  /** Smoothing is homogeneous. */
  lemma {:induction false} WilderScale(xs: seq<real>, period: nat, c: real)
    requires 1 <= period <= |xs|
    ensures Wilder(Affine(xs, c, 0.0), period) == Line(c, 0.0, Wilder(xs, period))
  {
    if |xs| == period {
      SumScale(xs, c);
      LineQuotient(Sum(xs), period as real, c);
      hide Affine, Sum, Line;
    } else {
      var n := |xs| - 1;
      WilderScale(xs[..n], period, c);
      AffineSplit(xs, c, 0.0);
      WilderStepScale(Wilder(xs[..n], period), xs[n], period, c);
      hide WilderStep, Sum, Line, Affine;
    }
  }

  lemma {:induction false} SumRange(xs: seq<real>, lo: real, hi: real)
    requires forall i :: 0 <= i < |xs| ==> lo <= xs[i] <= hi
    ensures lo * |xs| as real <= Sum(xs) <= hi * |xs| as real
  {
    if xs != [] {
      var n := |xs| - 1;
      SumRange(xs[..n], lo, hi);
      DistributeLeft(lo, n as real, 1.0);
      DistributeLeft(hi, n as real, 1.0);
    }
  }

  /** Smoothing stays between the extreme values. */
  lemma {:induction false} WilderRange(xs: seq<real>, period: nat, lo: real, hi: real)
    requires 1 <= period <= |xs| && forall i :: 0 <= i < |xs| ==> lo <= xs[i] <= hi
    ensures lo <= Wilder(xs, period) <= hi
  {
    if |xs| == period {
      SumRange(xs, lo, hi);
      QuotientRange(Sum(xs), period as real, lo, hi);
    } else {
      var n := |xs| - 1;
      WilderRange(xs[..n], period, lo, hi);
      WilderStepRange(Wilder(xs[..n], period), xs[n], period, lo, hi);
      hide WilderStep;
    }
  }

  lemma WilderStepRange(average: real, x: real, period: nat, lo: real, hi: real)
    requires 1 <= period && lo <= average <= hi && lo <= x <= hi
    ensures lo <= WilderStep(average, x, period) <= hi
  {
    var p, q := period as real, (period - 1) as real;
    ShareAbove(lo, average, q, x, p);
    ShareBelow(hi, average, q, x, p);
    assert WilderStep(average, x, period) == (Times(average, q) + x) / p;
    hide Times, WilderStep;
    QuotientRange(Times(average, q) + x, p, lo, hi);
  }

  // ---------- RSI ----------

  /** Before the clamp the index already lies between 0 and 100. */
  lemma StrengthRange(gain: real, loss: real)
    requires 0.0 <= gain && 0.0 <= loss
    ensures 0.0 <= Strength(gain, loss) <= 100.0
  {
    if loss != 0.0 {
      Quotient(gain, loss);
      var d := 1.0 + gain / loss;
      MulLe(1.0, d, 100.0);
      QuotientRange(100.0, d, 0.0, 100.0);
    }
  }

  /** The clamp of the RSI never changes a value. */
  lemma RsiUnclamped(cs: seq<real>, period: nat)
    requires 1 <= period < |cs|
    ensures Rsi(cs, period) == Strength(AverageGain(cs, period), AverageLoss(cs, period))
    ensures 0.0 <= Rsi(cs, period) <= 100.0
  {
    StrengthRange(AverageGain(cs, period), AverageLoss(cs, period));
  }

  /** Exchanging gains and losses complements the index. */
  lemma StrengthComplement(gain: real, loss: real)
    requires 0.0 <= gain && 0.0 <= loss
    ensures Strength(loss, gain) == 100.0 - Strength(gain, loss)
  {
    if gain != 0.0 && loss != 0.0 {
      Quotient(gain, loss);
      Quotient(loss, gain);
      ReciprocalOfRatio(gain, loss);
      ReciprocalOfRatio(loss, gain);
      SharesSumToOne(gain, loss);
      ScaleQuotient(1.0, 1.0 + gain / loss, 100.0);
      ScaleQuotient(1.0, 1.0 + loss / gain, 100.0);
    } else if gain == 0.0 && loss != 0.0 {
      assert gain / loss == 0.0;
    } else if loss == 0.0 && gain != 0.0 {
      assert loss / gain == 0.0;
    }
  }

  /** Rescaling gains and losses leaves the index alone. */
  lemma StrengthScale(gain: real, loss: real, c: real)
    requires 0.0 <= gain && 0.0 <= loss && 0.0 < c
    ensures 0.0 <= Line(c, 0.0, gain) && 0.0 <= Line(c, 0.0, loss)
    ensures Strength(Line(c, 0.0, gain), Line(c, 0.0, loss)) == Strength(gain, loss)
  {
    if loss != 0.0 {
      CancelFactor(gain, loss, c);
    }
  }

  // ---------- price series under an affine map ----------

  lemma LineDifference(a: real, b: real, x: real, y: real)
    ensures Line(a, b, x) - Line(a, b, y) == Line(a, 0.0, x - y)
  {
    DistributeLeft(a, x, y);
  }

  lemma ChangesAffine(cs: seq<real>, a: real, b: real)
    requires cs != []
    ensures Changes(Affine(cs, a, b)) == Affine(Changes(cs), a, 0.0)
  {
    forall i | 0 <= i < |cs| - 1 ensures Changes(Affine(cs, a, b))[i] == Affine(Changes(cs), a, 0.0)[i] {
      LineDifference(a, b, cs[i + 1], cs[i]);
      hide Line;
    }
  }

  lemma MaxScale(x: real, y: real, c: real)
    requires 0.0 < c
    ensures Max(Line(c, 0.0, x), Line(c, 0.0, y)) == Line(c, 0.0, Max(x, y))
  {
    if x >= y {
      MulLe(y, x, c);
    } else {
      MulLess(x, y, c);
    }
  }

  lemma GainsScale(ds: seq<real>, c: real)
    requires 0.0 < c
    ensures Gains(Affine(ds, c, 0.0)) == Affine(Gains(ds), c, 0.0)
    ensures Losses(Affine(ds, c, 0.0)) == Affine(Losses(ds), c, 0.0)
  {
    forall i | 0 <= i < |ds|
      ensures Gains(Affine(ds, c, 0.0))[i] == Affine(Gains(ds), c, 0.0)[i]
      ensures Losses(Affine(ds, c, 0.0))[i] == Affine(Losses(ds), c, 0.0)[i]
    {
      MaxScale(ds[i], 0.0, c);
      MaxScale(-ds[i], 0.0, c);
      LineOfZero(c, ds[i]);
      hide Line, Max;
    }
  }

  lemma LineOfZero(c: real, x: real)
    ensures Line(c, 0.0, 0.0) == 0.0 && Line(c, 0.0, -x) == -Line(c, 0.0, x)
  {
  }

  lemma AveragesScale(cs: seq<real>, period: nat, c: real)
    requires 1 <= period < |cs| && 0.0 < c
    ensures AverageGain(Affine(cs, c, 0.0), period) == Line(c, 0.0, AverageGain(cs, period))
    ensures AverageLoss(Affine(cs, c, 0.0), period) == Line(c, 0.0, AverageLoss(cs, period))
  {
    hide Wilder, Gains, Losses, Changes, Affine, Line;
    ChangesAffine(cs, c, 0.0);
    GainsScale(Changes(cs), c);
    WilderScale(Gains(Changes(cs)), period, c);
    WilderScale(Losses(Changes(cs)), period, c);
  }

  /** The RSI does not depend on the unit of the prices. */
  lemma RsiScale(cs: seq<real>, period: nat, c: real)
    requires 1 <= period < |cs| && 0.0 < c
    ensures Rsi(Affine(cs, c, 0.0), period) == Rsi(cs, period)
  {
    hide Strength, AverageGain, AverageLoss, Affine, Clamp, Line;
    AveragesScale(cs, period, c);
    StrengthScale(AverageGain(cs, period), AverageLoss(cs, period), c);
  }

  lemma AveragesReflect(cs: seq<real>, period: nat, k: real)
    requires 1 <= period < |cs|
    ensures AverageGain(Affine(cs, -1.0, k), period) == AverageLoss(cs, period)
    ensures AverageLoss(Affine(cs, -1.0, k), period) == AverageGain(cs, period)
  {
    hide Wilder;
    var cs' := Affine(cs, -1.0, k);
    ChangesAffine(cs, -1.0, k);
    assert Gains(Changes(cs')) == Losses(Changes(cs));
    assert Losses(Changes(cs')) == Gains(Changes(cs));
  }

  /** Reflected prices have the complementary RSI. */
  lemma RsiReflect(cs: seq<real>, period: nat, k: real)
    requires 1 <= period < |cs|
    ensures Rsi(Affine(cs, -1.0, k), period) == 100.0 - Rsi(cs, period)
  {
    hide Strength, AverageGain, AverageLoss, Affine, Rsi;
    AveragesReflect(cs, period, k);
    RsiUnclamped(cs, period);
    RsiUnclamped(Affine(cs, -1.0, k), period);
    StrengthComplement(AverageGain(cs, period), AverageLoss(cs, period));
  }

  // ---------- MACD ----------

  lemma MacdAffine(cs: seq<real>, fast: nat, slow: nat, a: real, b: real)
    ensures MacdValues(Affine(cs, a, b), fast, slow) == Affine(MacdValues(cs, fast, slow), a, 0.0)
  {
    EmaAffine(cs, fast, a, b);
    EmaAffine(cs, slow, a, b);
    hide EmaValues;
    var xs, ys := EmaValues(cs, fast), EmaValues(cs, slow);
    forall i | 0 <= i < |cs| ensures Line(a, b, xs[i]) - Line(a, b, ys[i]) == Line(a, 0.0, xs[i] - ys[i]) {
      LineDifference(a, b, xs[i], ys[i]);
    }
    hide Line;
  }

  /** The histogram is linear in the prices and ignores a shift. */
  lemma HistogramAffine(cs: seq<real>, fast: nat, slow: nat, signal: nat, a: real, b: real)
    requires cs != []
    ensures Histogram(Affine(cs, a, b), fast, slow, signal) == Line(a, 0.0, Histogram(cs, fast, slow, signal))
  {
    hide EmaValues, MacdValues, Line;
    var ms := MacdValues(cs, fast, slow);
    MacdAffine(cs, fast, slow, a, b);
    EmaAffine(ms, signal, a, 0.0);
    LineDifference(a, 0.0, Last(ms), Last(EmaValues(ms, signal)));
  }

  // ---------- ATR ----------

  lemma TrueRangeAt(bars: seq<Bar>, i: nat)
    requires 0 < i < |bars|
    ensures TrueRanges(bars)[i] == TrueRange(bars[i], bars[i - 1].close)
  {
    hide TrueRange;
  }
}
