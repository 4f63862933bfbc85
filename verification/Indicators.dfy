/** The technical indicators over exact reals: what the loops compute, as recurrences. */
module Indicators {

  datatype Bar = Bar(high: real, low: real, close: real, volume: real)

  /** What the bar model validates. */
  predicate ValidBar(b: Bar) {
    0.0 < b.low <= b.close <= b.high && 0.0 <= b.volume
  }

  ghost predicate ValidBars(bars: seq<Bar>) {
    forall i :: 0 <= i < |bars| ==> ValidBar(bars[i])
  }

  function Closes(bars: seq<Bar>): (cs: seq<real>)
    ensures |cs| == |bars|
  {
    seq(|bars|, i requires 0 <= i < |bars| => bars[i].close)
  }

  function Last(xs: seq<real>): real
    requires xs != []
  {
    xs[|xs| - 1]
  }

  function Max(x: real, y: real): real { if x >= y then x else y }
  function Abs(x: real): real { if x >= 0.0 then x else -x }

  function Sum(xs: seq<real>): real {
    if xs == [] then 0.0 else Sum(xs[..|xs| - 1]) + xs[|xs| - 1]
  }

  // ---------- exponential moving average ----------

  function Multiplier(period: nat): real {
    2.0 / (period as real + 1.0)
  }

  function EmaStep(value: real, previous: real, m: real): real {
    (value - previous) * m + previous
  }

  function EmaValues(vs: seq<real>, period: nat): (es: seq<real>)
    ensures |es| == |vs|
  {
    if |vs| <= 1 then vs else
      var n := |vs| - 1;
      var es := EmaValues(vs[..n], period);
      es + [EmaStep(vs[n], Last(es), Multiplier(period))]
  }

  function Ema(vs: seq<real>, period: nat): real
    requires vs != []
  {
    Last(EmaValues(vs, period))
  }

  // ---------- Wilder smoothing ----------

  function WilderStep(average: real, x: real, period: nat): real
    requires 1 <= period
  {
    (average * (period - 1) as real + x) / period as real
  }

  /** The mean of the first `period` values, then one smoothing step for each further value. */
  function Wilder(xs: seq<real>, period: nat): real
    requires 1 <= period <= |xs|
  {
    if |xs| == period then Sum(xs) / period as real else
      var n := |xs| - 1;
      WilderStep(Wilder(xs[..n], period), xs[n], period)
  }

  predicate NonNegative(xs: seq<real>) {
    forall i :: 0 <= i < |xs| ==> 0.0 <= xs[i]
  }

  lemma {:induction false} SumNonNegative(xs: seq<real>)
    requires NonNegative(xs)
    ensures 0.0 <= Sum(xs)
  {
    if xs != [] {
      SumNonNegative(xs[..|xs| - 1]);
    }
  }

  lemma Quotient(x: real, y: real)
    requires 0.0 <= x && 0.0 < y
    ensures 0.0 <= x / y
  {
  }

  lemma {:induction false} WilderNonNegative(xs: seq<real>, period: nat)
    requires 1 <= period <= |xs| && NonNegative(xs)
    ensures 0.0 <= Wilder(xs, period)
  {
    if |xs| == period {
      SumNonNegative(xs);
      Quotient(Sum(xs), period as real);
    } else {
      var n := |xs| - 1;
      WilderNonNegative(xs[..n], period);
      StepNonNegative(Wilder(xs[..n], period), xs[n], period);
    }
  }

  lemma StepNonNegative(average: real, x: real, period: nat)
    requires 1 <= period && 0.0 <= average && 0.0 <= x
    ensures 0.0 <= WilderStep(average, x, period)
  {
    assert 0.0 <= average * (period - 1) as real;
    Quotient(average * (period - 1) as real + x, period as real);
  }

  // ---------- RSI ----------

  function Changes(cs: seq<real>): (ds: seq<real>)
    requires cs != []
    ensures |ds| == |cs| - 1
  {
    seq(|cs| - 1, i requires 0 <= i < |cs| - 1 => cs[i + 1] - cs[i])
  }

  function Gains(ds: seq<real>): (gs: seq<real>)
    ensures |gs| == |ds|
  {
    seq(|ds|, i requires 0 <= i < |ds| => Max(ds[i], 0.0))
  }

  function Losses(ds: seq<real>): (ls: seq<real>)
    ensures |ls| == |ds|
  {
    seq(|ds|, i requires 0 <= i < |ds| => Max(-ds[i], 0.0))
  }

  /** The index from the average gain and the average loss, before the clamp. */
  function Strength(gain: real, loss: real): real
    requires 0.0 <= gain && 0.0 <= loss
  {
    if loss == 0.0 && gain == 0.0 then 50.0
    else if loss == 0.0 then 100.0
    else Quotient(gain, loss); 100.0 - 100.0 / (1.0 + gain / loss)
  }

  function Clamp(x: real, lo: real, hi: real): real {
    if Max(lo, x) <= hi then Max(lo, x) else hi
  }

  function AverageGain(cs: seq<real>, period: nat): (g: real)
    requires 1 <= period < |cs|
    ensures 0.0 <= g
  {
    WilderNonNegative(Gains(Changes(cs)), period);
    Wilder(Gains(Changes(cs)), period)
  }

  function AverageLoss(cs: seq<real>, period: nat): (l: real)
    requires 1 <= period < |cs|
    ensures 0.0 <= l
  {
    WilderNonNegative(Losses(Changes(cs)), period);
    Wilder(Losses(Changes(cs)), period)
  }

  function Rsi(cs: seq<real>, period: nat): real
    requires 1 <= period < |cs|
  {
    Clamp(Strength(AverageGain(cs, period), AverageLoss(cs, period)), 0.0, 100.0)
  }

  // ---------- MACD ----------

  function Minus(xs: seq<real>, ys: seq<real>): (zs: seq<real>)
    requires |xs| == |ys|
    ensures |zs| == |xs|
  {
    seq(|xs|, i requires 0 <= i < |xs| => xs[i] - ys[i])
  }

  function MacdValues(cs: seq<real>, fast: nat, slow: nat): (ms: seq<real>)
    ensures |ms| == |cs|
  {
    Minus(EmaValues(cs, fast), EmaValues(cs, slow))
  }

  function Histogram(cs: seq<real>, fast: nat, slow: nat, signal: nat): real
    requires cs != []
  {
    var ms := MacdValues(cs, fast, slow);
    Last(ms) - Last(EmaValues(ms, signal))
  }

  // ---------- ATR ----------

  function TrueRange(b: Bar, previousClose: real): real {
    Max(b.high - b.low, Max(Abs(b.high - previousClose), Abs(b.low - previousClose)))
  }

  function TrueRanges(bars: seq<Bar>): (rs: seq<real>)
    ensures |rs| == |bars|
  {
    seq(|bars|, i requires 0 <= i < |bars| =>
      if i == 0 then bars[0].high - bars[0].low else TrueRange(bars[i], bars[i - 1].close))
  }

  function Atr(bars: seq<Bar>, period: nat): real
    requires 1 <= period <= |bars|
  {
    Wilder(TrueRanges(bars), period)
  }

  // ---------- returns, volatility, volume ----------

  predicate Positive(xs: seq<real>) {
    forall i :: 0 <= i < |xs| ==> 0.0 < xs[i]
  }

  function Return(cs: seq<real>, lookback: nat): real
    requires lookback < |cs| && Positive(cs)
  {
    cs[|cs| - 1] / cs[|cs| - 1 - lookback] - 1.0
  }

  function Ratios(cs: seq<real>): (rs: seq<real>)
    requires cs != [] && Positive(cs)
    ensures |rs| == |cs| - 1
  {
    seq(|cs| - 1, i requires 0 <= i < |cs| - 1 => cs[i + 1] / cs[i])
  }

  function Volumes(bars: seq<Bar>): (vs: seq<real>)
    ensures |vs| == |bars|
  {
    seq(|bars|, i requires 0 <= i < |bars| => bars[i].volume)
  }

  function Mean(xs: seq<real>): real
    requires xs != []
  {
    Sum(xs) / |xs| as real
  }

  function VolumeRatio(bars: seq<Bar>, short: nat, long: nat): real
    requires 1 <= short < long <= |bars|
  {
    var vs := Volumes(bars);
    var n := |vs|;
    if Mean(vs[n - long..]) == 0.0 then 1.0 else Mean(vs[n - short..]) / Mean(vs[n - long..])
  }

  // ---------- the loops ----------

  method ComputeEmaValues(vs: seq<real>, period: nat) returns (es: seq<real>)
    ensures es == EmaValues(vs, period)
  {
    if vs == [] {
      return [];
    }
    var multiplier := Multiplier(period);
    hide EmaStep, Multiplier;
    es := [vs[0]];
    for i := 1 to |vs|
      invariant es == EmaValues(vs[..i], period)
    {
      assert vs[..i + 1][..i] == vs[..i];
      es := es + [EmaStep(vs[i], es[|es| - 1], multiplier)];
    }
    assert vs[..|vs|] == vs;
  }

  method ComputeSum(xs: seq<real>) returns (total: real)
    ensures total == Sum(xs)
  {
    total := 0.0;
    for i := 0 to |xs|
      invariant total == Sum(xs[..i])
    {
      total := total + xs[i];
      assert xs[..i + 1][..i] == xs[..i];
    }
    assert xs[..|xs|] == xs;
  }

  /** The smoothing loop: a mean, then one step for each further value. */
  method ComputeWilder(xs: seq<real>, period: nat) returns (average: real)
    requires 1 <= period <= |xs|
    ensures average == Wilder(xs, period)
  {
    hide WilderStep;
    average := ComputeSum(xs[..period]);
    average := average / period as real;
    for i := period to |xs|
      invariant average == Wilder(xs[..i], period)
    {
      assert xs[..i + 1][..i] == xs[..i];
      average := WilderStep(average, xs[i], period);
    }
    assert xs[..|xs|] == xs;
  }

  method ComputeRsi(cs: seq<real>, period: nat) returns (rsi: real)
    requires 1 <= period < |cs|
    ensures rsi == Rsi(cs, period)
  {
    hide WilderStep, Sum, Gains, Losses;
    var changes := Changes(cs);
    var gains, losses := Gains(changes), Losses(changes);
    var avgGain := ComputeSum(gains[..period]);
    avgGain := avgGain / period as real;
    var avgLoss := ComputeSum(losses[..period]);
    avgLoss := avgLoss / period as real;
    for i := period to |changes|
      invariant avgGain == Wilder(gains[..i], period) && avgLoss == Wilder(losses[..i], period)
    {
      assert gains[..i + 1][..i] == gains[..i] && losses[..i + 1][..i] == losses[..i];
      avgGain := WilderStep(avgGain, gains[i], period);
      avgLoss := WilderStep(avgLoss, losses[i], period);
    }
    assert gains[..|changes|] == gains && losses[..|changes|] == losses;
    assert avgGain == AverageGain(cs, period) && avgLoss == AverageLoss(cs, period);
    rsi := Clamp(Strength(avgGain, avgLoss), 0.0, 100.0);
  }

  method ComputeTrueRanges(bars: seq<Bar>) returns (ranges: seq<real>)
    ensures ranges == TrueRanges(bars)
  {
    hide Max, Abs;
    ranges := [];
    var previousClose := 0.0;
    for i := 0 to |bars|
      invariant ranges == TrueRanges(bars)[..i]
      invariant 0 < i ==> previousClose == bars[i - 1].close
    {
      var trueRange := bars[i].high - bars[i].low;
      if 0 < i {
        trueRange := Max(trueRange, Max(Abs(bars[i].high - previousClose), Abs(bars[i].low - previousClose)));
      }
      ranges := ranges + [trueRange];
      previousClose := bars[i].close;
    }
  }

  method ComputeAtr(bars: seq<Bar>, period: nat) returns (atr: real)
    requires 1 <= period <= |bars|
    ensures atr == Atr(bars, period)
  {
    var ranges := ComputeTrueRanges(bars);
    atr := ComputeWilder(ranges, period);
  }
}
