/** The unit of the prices and the unit of the volumes do not matter. */
module Scaling {
  import opened RealArithmetic
  import opened Indicators
  import opened IndicatorLaws
  import opened Technical

  function ScaleBar(c: real, d: real, b: Bar): Bar {
    Bar(Line(c, 0.0, b.high), Line(c, 0.0, b.low), Line(c, 0.0, b.close), Line(d, 0.0, b.volume))
  }

  function ScaleBars(c: real, d: real, bars: seq<Bar>): (rs: seq<Bar>)
    ensures |rs| == |bars|
  {
    seq(|bars|, i requires 0 <= i < |bars| => ScaleBar(c, d, bars[i]))
  }

  function ScaleAll(c: real, d: real, series: seq<Series>): (rs: seq<Series>)
    ensures |rs| == |series|
  {
    seq(|series|, i requires 0 <= i < |series| => series[i].(bars := ScaleBars(c, d, series[i].bars)))
  }

  // ---------- order ----------

  lemma LineOrder(c: real, x: real, y: real)
    requires 0.0 < c
    ensures Line(c, 0.0, x) < Line(c, 0.0, y) <==> x < y
    ensures Line(c, 0.0, x) <= Line(c, 0.0, y) <==> x <= y
  {
    if x < y { MulLess(x, y, c); }
    if y < x { MulLess(y, x, c); }
  }

  lemma LineSign(c: real, x: real)
    requires 0.0 < c
    ensures 0.0 < Line(c, 0.0, x) <==> 0.0 < x
    ensures Line(c, 0.0, x) < 0.0 <==> x < 0.0
    ensures Line(c, 0.0, x) == 0.0 <==> x == 0.0
  {
    LineOfZero(c, 0.0);
    LineOrder(c, 0.0, x);
    LineOrder(c, x, 0.0);
    hide Line;
  }

  lemma LineRatio(c: real, x: real, y: real)
    requires c != 0.0 && y != 0.0
    ensures Line(c, 0.0, y) != 0.0
    ensures Line(c, 0.0, x) / Line(c, 0.0, y) == x / y
  {
    CancelFactor(x, y, c);
  }

  lemma LineAbs(c: real, x: real)
    requires 0.0 < c
    ensures Abs(Line(c, 0.0, x)) == Line(c, 0.0, Abs(x))
  {
    LineSign(c, x);
    LineOfZero(c, x);
    hide Line;
  }

  // ---------- bars ----------

  lemma ScaledBarsAreValid(c: real, d: real, bars: seq<Bar>)
    requires ValidBars(bars) && 0.0 < c && 0.0 < d
    ensures ValidBars(ScaleBars(c, d, bars))
  {
    forall i | 0 <= i < |bars| ensures ValidBar(ScaleBars(c, d, bars)[i]) {
      var b := bars[i];
      assert ValidBar(b);
      LineSign(c, b.low);
      LineOrder(c, b.low, b.close);
      LineOrder(c, b.close, b.high);
      LineSign(d, b.volume);
      hide Line;
    }
  }

  lemma ClosesScale(c: real, d: real, bars: seq<Bar>)
    ensures Closes(ScaleBars(c, d, bars)) == Affine(Closes(bars), c, 0.0)
  {
    hide Line;
  }

  lemma VolumesScale(c: real, d: real, bars: seq<Bar>)
    ensures Volumes(ScaleBars(c, d, bars)) == Affine(Volumes(bars), d, 0.0)
  {
    hide Line;
  }

  lemma SpreadScale(c: real, x: real, y: real)
    requires 0.0 < c
    ensures Abs(Line(c, 0.0, x) - Line(c, 0.0, y)) == Line(c, 0.0, Abs(x - y))
  {
    LineDifference(c, 0.0, x, y);
    LineAbs(c, x - y);
    hide Line, Abs;
  }

  lemma TrueRangeScale(c: real, d: real, b: Bar, previousClose: real)
    requires 0.0 < c
    ensures TrueRange(ScaleBar(c, d, b), Line(c, 0.0, previousClose)) == Line(c, 0.0, TrueRange(b, previousClose))
  {
    hide Line, Abs, Max;
    LineDifference(c, 0.0, b.high, b.low);
    SpreadScale(c, b.high, previousClose);
    SpreadScale(c, b.low, previousClose);
    MaxScale(Abs(b.high - previousClose), Abs(b.low - previousClose), c);
    MaxScale(b.high - b.low, Max(Abs(b.high - previousClose), Abs(b.low - previousClose)), c);
  }

  lemma TrueRangesScaleAt(c: real, d: real, bars: seq<Bar>, i: nat)
    requires i < |bars| && 0.0 < c
    ensures TrueRanges(ScaleBars(c, d, bars))[i] == Line(c, 0.0, TrueRanges(bars)[i])
  {
    var rs := ScaleBars(c, d, bars);
    assert rs[i] == ScaleBar(c, d, bars[i]);
    hide Line, TrueRange, Max, Abs;
    if i == 0 {
      LineDifference(c, 0.0, bars[0].high, bars[0].low);
      hide ScaleBars;
    } else {
      assert rs[i - 1].close == Line(c, 0.0, bars[i - 1].close);
      hide ScaleBars, ScaleBar, TrueRanges;
      TrueRangeAt(bars, i);
      TrueRangeAt(rs, i);
      TrueRangeScale(c, d, bars[i], bars[i - 1].close);
    }
  }

  lemma TrueRangesScale(c: real, d: real, bars: seq<Bar>)
    requires 0.0 < c
    ensures TrueRanges(ScaleBars(c, d, bars)) == Affine(TrueRanges(bars), c, 0.0)
  {
    hide Line, TrueRange, TrueRanges, ScaleBars;
    forall i | 0 <= i < |bars|
      ensures TrueRanges(ScaleBars(c, d, bars))[i] == Line(c, 0.0, TrueRanges(bars)[i])
    {
      TrueRangesScaleAt(c, d, bars, i);
    }
  }

  lemma AtrScale(c: real, d: real, bars: seq<Bar>, period: nat)
    requires 1 <= period <= |bars| && 0.0 < c
    ensures Atr(ScaleBars(c, d, bars), period) == Line(c, 0.0, Atr(bars, period))
  {
    hide Line, TrueRanges, Wilder, ScaleBars, Affine;
    TrueRangesScale(c, d, bars);
    WilderScale(TrueRanges(bars), period, c);
  }

  // ---------- features ----------

  lemma EmaScale(cs: seq<real>, period: nat, c: real)
    requires cs != []
    ensures Ema(Affine(cs, c, 0.0), period) == Line(c, 0.0, Ema(cs, period))
  {
    EmaAffine(cs, period, c, 0.0);
    hide EmaValues, Line;
  }

  lemma ReturnScale(cs: seq<real>, lookback: nat, c: real)
    requires lookback < |cs| && Positive(cs) && Positive(Affine(cs, c, 0.0)) && 0.0 < c
    ensures Return(Affine(cs, c, 0.0), lookback) == Return(cs, lookback)
  {
    var n := |cs| - 1;
    LineRatio(c, cs[n], cs[n - lookback]);
    hide Line;
  }

  lemma RatiosScale(cs: seq<real>, c: real)
    requires cs != [] && Positive(cs) && Positive(Affine(cs, c, 0.0)) && 0.0 < c
    ensures Ratios(Affine(cs, c, 0.0)) == Ratios(cs)
  {
    forall i | 0 <= i < |cs| - 1 ensures Ratios(Affine(cs, c, 0.0))[i] == Ratios(cs)[i] {
      LineRatio(c, cs[i + 1], cs[i]);
      hide Line;
    }
  }

  lemma MeanScale(xs: seq<real>, d: real)
    requires xs != []
    ensures Mean(Affine(xs, d, 0.0)) == Line(d, 0.0, Mean(xs))
  {
    SumScale(xs, d);
    LineQuotient(Sum(xs), |xs| as real, d);
    hide Line, Sum, Affine;
  }

  lemma TailScale(xs: seq<real>, d: real, k: nat)
    requires k <= |xs|
    ensures Affine(xs, d, 0.0)[k..] == Affine(xs[k..], d, 0.0)
  {
    hide Line;
  }

  lemma MeanRatioScale(xs: seq<real>, ys: seq<real>, d: real)
    requires xs != [] && ys != [] && 0.0 < d
    ensures Mean(Affine(ys, d, 0.0)) == 0.0 <==> Mean(ys) == 0.0
    ensures Mean(ys) != 0.0 ==> Mean(Affine(xs, d, 0.0)) / Mean(Affine(ys, d, 0.0)) == Mean(xs) / Mean(ys)
  {
    hide Line, Mean, Affine;
    MeanScale(xs, d);
    MeanScale(ys, d);
    LineSign(d, Mean(ys));
    if Mean(ys) != 0.0 {
      LineRatio(d, Mean(xs), Mean(ys));
    }
  }

  lemma VolumeRatioScale(c: real, d: real, bars: seq<Bar>, short: nat, long: nat)
    requires 1 <= short < long <= |bars| && 0.0 < d
    ensures VolumeRatio(ScaleBars(c, d, bars), short, long) == VolumeRatio(bars, short, long)
  {
    hide Line, Mean, ScaleBars, Volumes, Affine;
    var vs := Volumes(bars);
    var n := |vs|;
    VolumesScale(c, d, bars);
    TailScale(vs, d, n - short);
    TailScale(vs, d, n - long);
    MeanRatioScale(vs[n - short..], vs[n - long..], d);
  }

  /** The prices among the features scale, the other features stay. */
  predicate ScaledFeatures(c: real, f: Features, f': Features) {
    && f'.close == Line(c, 0.0, f.close) && f'.fast == Line(c, 0.0, f.fast) && f'.slow == Line(c, 0.0, f.slow)
    && f'.histogram == Line(c, 0.0, f.histogram) && f'.atr == Line(c, 0.0, f.atr)
    && f'.rsi == f.rsi && f'.atrPercent == f.atrPercent && f'.realized == f.realized
    && f'.lastReturn == f.lastReturn && f'.volumeRatio == f.volumeRatio
  }

  lemma LastScales(cs: seq<real>, c: real)
    requires cs != []
    ensures Last(Affine(cs, c, 0.0)) == Line(c, 0.0, Last(cs))
  {
    hide Line;
  }

  lemma FeaturesScale(p: Pipeline, spread: seq<real> -> real, bars: seq<Bar>, c: real, d: real)
    requires ValidPipeline(p) && Enough(p, |bars|) && ValidBars(bars) && 0.0 < c && 0.0 < d
    ensures ValidBars(ScaleBars(c, d, bars))
    ensures ScaledFeatures(c, FeaturesOf(p, spread, bars), FeaturesOf(p, spread, ScaleBars(c, d, bars)))
  {
    var bars', cs := ScaleBars(c, d, bars), Closes(bars);
    hide Ema, Rsi, Histogram, Return, Ratios, Atr, VolumeRatio, Closes, ScaleBars, Affine, ValidBars, Positive, Line;
    ScaledBarsAreValid(c, d, bars);
    ClosesScale(c, d, bars);
    ClosesPositive(bars);
    ClosesPositive(bars');
    LastScales(cs, c);
    PositiveLast(cs);
    EmaScale(cs, p.emaFast, c);
    EmaScale(cs, p.emaSlow, c);
    RsiScale(cs, p.rsi, c);
    HistogramAffine(cs, p.macdFast, p.macdSlow, p.macdSignal, c, 0.0);
    AtrScale(c, d, bars, p.atr);
    LineRatio(c, Atr(bars, p.atr), Last(cs));
    RatiosScale(cs, c);
    ReturnScale(cs, p.lookback, c);
    VolumeRatioScale(c, d, bars, p.volumeShort, p.volumeLong);
  }

  lemma PositiveLast(cs: seq<real>)
    requires cs != [] && Positive(cs)
    ensures 0.0 < Last(cs)
  {
  }

  // ---------- swing ----------

  lemma {:induction false} ExtremesScale(bars: seq<Bar>, c: real, d: real)
    requires bars != [] && 0.0 < c
    ensures MaxHigh(ScaleBars(c, d, bars)) == Line(c, 0.0, MaxHigh(bars))
    ensures MinLow(ScaleBars(c, d, bars)) == Line(c, 0.0, MinLow(bars))
  {
    hide Line;
    if |bars| > 1 {
      var n := |bars| - 1;
      ExtremesScale(bars[..n], c, d);
      assert ScaleBars(c, d, bars)[..n] == ScaleBars(c, d, bars[..n]);
      MaxScale(MaxHigh(bars[..n]), bars[n].high, c);
      LineOrder(c, MinLow(bars[..n]), bars[n].low);
    }
  }

  lemma SwingScale(bars: seq<Bar>, lookback: nat, c: real, d: real)
    requires bars != [] && 0.0 < c
    ensures var n := |bars| - 1;
            SwingOf(Line(c, 0.0, bars[n].close), Prior(ScaleBars(c, d, bars), lookback)) == SwingOf(bars[n].close, Prior(bars, lookback))
  {
    hide Line;
    var prior, close := Prior(bars, lookback), bars[|bars| - 1].close;
    assert Prior(ScaleBars(c, d, bars), lookback) == ScaleBars(c, d, prior);
    if prior != [] {
      ExtremesScale(prior, c, d);
      LineOrder(c, MaxHigh(prior), close);
      LineOrder(c, close, MinLow(prior));
      hide MaxHigh, MinLow, Prior, ScaleBars;
    }
  }

  // ---------- states ----------

  lemma TrendScale(c: real, close: real, fast: real, slow: real)
    requires 0.0 < c
    ensures TrendOf(Line(c, 0.0, close), Line(c, 0.0, fast), Line(c, 0.0, slow)) == TrendOf(close, fast, slow)
  {
    LineOrder(c, close, fast);
    LineOrder(c, close, slow);
    LineOrder(c, fast, slow);
    hide Line;
  }

  lemma RangeLikeScale(r: RoleConfig, f: Features, f': Features, c: real)
    requires ScaledFeatures(c, f, f') && 0.0 < c
    ensures RangeLike(r, f') == RangeLike(r, f)
  {
    Assoc(c, f.atr, r.rangeRatio);
    assert f'.atr * r.rangeRatio == Line(c, 0.0, f.atr * r.rangeRatio);
    SpreadScale(c, f.fast, f.slow);
    LineOrder(c, Abs(f.fast - f.slow), f.atr * r.rangeRatio);
    hide Line, Abs;
  }

  lemma StateFromScales(r: RoleConfig, timeframe: Timeframe, f: Features, f': Features, swing: real, c: real)
    requires ScaledFeatures(c, f, f') && 0.0 < c
    ensures StateFrom(r, timeframe, f', swing) == StateFrom(r, timeframe, f, swing)
  {
    TrendScale(c, f.close, f.fast, f.slow);
    LineSign(c, f.histogram);
    RangeLikeScale(r, f, f', c);
    hide TrendOf, Line, VolatilityOf, VolumeOf, RangeLike, RawScore, Clamp;
  }

  lemma StateScales(r: RoleConfig, spread: seq<real> -> real, timeframe: Timeframe, bars: seq<Bar>, c: real, d: real)
    requires ValidPipeline(r.pipeline) && Enough(r.pipeline, |bars|) && ValidBars(bars) && 0.0 < c && 0.0 < d
    ensures ValidBars(ScaleBars(c, d, bars))
    ensures StateOf(r, spread, timeframe, ScaleBars(c, d, bars)) == StateOf(r, spread, timeframe, bars)
  {
    hide FeaturesOf, StateFrom, Prior, SwingOf, ScaleBars, ValidBars, ScaledFeatures, Line, Enough, ValidPipeline;
    EnoughIsSome(r.pipeline, |bars|);
    FeaturesScale(r.pipeline, spread, bars, c, d);
    SwingScale(bars, r.swingLookback, c, d);
    LastBarScales(c, d, bars);
    StateFromScales(r, timeframe, FeaturesOf(r.pipeline, spread, bars), FeaturesOf(r.pipeline, spread, ScaleBars(c, d, bars)),
                    SwingOf(bars[|bars| - 1].close, Prior(bars, r.swingLookback)), c);
  }

  lemma LastBarScales(c: real, d: real, bars: seq<Bar>)
    requires bars != []
    ensures ScaleBars(c, d, bars)[|bars| - 1].close == Line(c, 0.0, bars[|bars| - 1].close)
  {
    hide Line;
  }

  lemma ScaledSeries(r: RoleConfig, spread: seq<real> -> real, series: seq<Series>, c: real, d: real)
    requires Admissible(series) && 0.0 < c && 0.0 < d
    ensures var series' := ScaleAll(c, d, series);
            && Admissible(series') && Keys(series') == Keys(series)
            && forall i :: 0 <= i < |series| ==> series'[i].instrument == series[i].instrument && |series'[i].bars| == |series[i].bars|
  {
    var series' := ScaleAll(c, d, series);
    forall i | 0 <= i < |series| ensures ValidBars(series'[i].bars) {
      ScaledBarsAreValid(c, d, series[i].bars);
    }
    forall i | 0 <= i < |series|
      ensures (series[i].instrument, series[i].timeframe) in Keys(series')
      ensures (series'[i].instrument, series'[i].timeframe) in Keys(series)
    {
      assert series'[i].instrument == series[i].instrument && series'[i].timeframe == series[i].timeframe;
    }
  }

  lemma StatesScale(r: RoleConfig, spread: seq<real> -> real, series: seq<Series>, c: real, d: real)
    requires ValidConfig(r) && Admissible(series) && LongEnough(r.pipeline, series) && 0.0 < c && 0.0 < d
    requires Admissible(ScaleAll(c, d, series)) && LongEnough(r.pipeline, ScaleAll(c, d, series))
    ensures StatesOf(r, spread, ScaleAll(c, d, series)) == StatesOf(r, spread, series)
  {
    forall i | 0 <= i < |series|
      ensures ValidBars(ScaleBars(c, d, series[i].bars))
      ensures StateOf(r, spread, series[i].timeframe, ScaleBars(c, d, series[i].bars)) ==
              StateOf(r, spread, series[i].timeframe, series[i].bars)
    {
      StateScales(r, spread, series[i].timeframe, series[i].bars, c, d);
    }
    hide StateOf, ValidBars, ScaleBars, Enough;
  }

  /** Multiplying all prices by c and all volumes by d, both positive, leaves the whole analysis
      unchanged: every timeframe's states and score, the bias, the confidence and the reasons. */
  lemma AnalysisScales(r: RoleConfig, spread: seq<real> -> real, asset: Instrument,
                       required: set<(Instrument, Timeframe)>, series: seq<Series>, c: real, d: real)
    requires ValidConfig(r) && Admissible(series) && 0.0 < c && 0.0 < d
    ensures Admissible(ScaleAll(c, d, series))
    ensures Analyzed(r, spread, asset, required, ScaleAll(c, d, series)) == Analyzed(r, spread, asset, required, series)
  {
    ScaledSeries(r, spread, series, c, d);
    hide Judge, StatesOf, ScaleAll, ValidConfig, Admissible, Keys, Enough;
    if LongEnough(r.pipeline, series) {
      StatesScale(r, spread, series, c, d);
    }
  }
}
