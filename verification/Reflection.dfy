/** Turning every price upside down turns the verdict upside down. */
module Reflection {
  import opened RealArithmetic
  import opened Indicators
  import opened IndicatorLaws
  import opened Technical

  function ReflectBar(k: real, b: Bar): Bar {
    Bar(k - b.low, k - b.high, k - b.close, b.volume)
  }

  function ReflectBars(k: real, bars: seq<Bar>): (rs: seq<Bar>)
    ensures |rs| == |bars|
  {
    seq(|bars|, i requires 0 <= i < |bars| => ReflectBar(k, bars[i]))
  }

  function ReflectAll(k: real, series: seq<Series>): (rs: seq<Series>)
    ensures |rs| == |series|
  {
    seq(|series|, i requires 0 <= i < |series| => series[i].(bars := ReflectBars(k, series[i].bars)))
  }

  ghost predicate Above(k: real, bars: seq<Bar>) {
    forall i :: 0 <= i < |bars| ==> bars[i].high < k
  }

  function MirrorBias(b: Bias): Bias {
    match b case Long => Short case Short => Long case Neutral => Neutral
  }

  function MirrorTrend(t: Trend): Trend {
    match t
    case StrongUp => StrongDown case Up => Down case Flat => Flat case Down => Up case StrongDown => StrongUp
  }

  function MirrorMomentum(m: Momentum): Momentum {
    match m case Bullish => Bearish case Level => Level case Bearish => Bullish
  }

  /** The volatility state may differ: it is relative to the price level. */
  predicate Mirrors(s: FrameState, s': FrameState) {
    && s'.timeframe == s.timeframe
    && s'.trend == MirrorTrend(s.trend)
    && s'.momentum == MirrorMomentum(s.momentum)
    && s'.volume == s.volume
    && s'.score == -s.score
  }

  // ---------- bars ----------

  lemma ReflectedBarsAreValid(k: real, bars: seq<Bar>)
    requires ValidBars(bars) && Above(k, bars)
    ensures ValidBars(ReflectBars(k, bars))
  {
    forall i | 0 <= i < |bars| ensures ValidBar(ReflectBars(k, bars)[i]) {
      assert ValidBar(bars[i]);
    }
  }

  lemma ClosesReflect(k: real, bars: seq<Bar>)
    ensures Closes(ReflectBars(k, bars)) == Affine(Closes(bars), -1.0, k)
  {
    forall i | 0 <= i < |bars| ensures Closes(ReflectBars(k, bars))[i] == Affine(Closes(bars), -1.0, k)[i] {}
  }

  lemma TrueRangeReflect(k: real, b: Bar, previousClose: real)
    ensures TrueRange(ReflectBar(k, b), k - previousClose) == TrueRange(b, previousClose)
  {
  }

  lemma TrueRangesReflect(k: real, bars: seq<Bar>, i: nat)
    requires i < |bars|
    ensures TrueRanges(ReflectBars(k, bars))[i] == TrueRanges(bars)[i]
  {
    if i == 0 {
      hide TrueRange;
    } else {
      var rs := ReflectBars(k, bars);
      assert rs[i] == ReflectBar(k, bars[i]) && rs[i - 1].close == k - bars[i - 1].close;
      hide TrueRange, TrueRanges, ReflectBars, ReflectBar;
      TrueRangeAt(bars, i);
      TrueRangeAt(rs, i);
      TrueRangeReflect(k, bars[i], bars[i - 1].close);
    }
  }

  lemma AtrReflect(k: real, bars: seq<Bar>, period: nat)
    requires 1 <= period <= |bars|
    ensures Atr(ReflectBars(k, bars), period) == Atr(bars, period)
  {
    hide Wilder, TrueRanges;
    var bars' := ReflectBars(k, bars);
    forall i | 0 <= i < |bars| ensures TrueRanges(bars')[i] == TrueRanges(bars)[i] {
      TrueRangesReflect(k, bars, i);
    }
    assert TrueRanges(bars') == TrueRanges(bars);
  }

  lemma VolumeReflect(k: real, bars: seq<Bar>, short: nat, long: nat)
    requires 1 <= short < long <= |bars|
    ensures VolumeRatio(ReflectBars(k, bars), short, long) == VolumeRatio(bars, short, long)
  {
    hide Mean;
    assert Volumes(ReflectBars(k, bars)) == Volumes(bars);
  }

  // ---------- features ----------

  /** The features of the reflected bars. */
  predicate MirrorsFeatures(k: real, f: Features, f': Features) {
    && f'.close == k - f.close && f'.fast == k - f.fast && f'.slow == k - f.slow
    && f'.rsi == 100.0 - f.rsi
    && f'.histogram == -f.histogram
    && f'.atr == f.atr
    && (f'.lastReturn > 0.0 <==> f.lastReturn < 0.0) && (f'.lastReturn < 0.0 <==> f.lastReturn > 0.0)
    && f'.volumeRatio == f.volumeRatio
  }

  lemma EmaReflect(cs: seq<real>, period: nat, k: real)
    requires cs != []
    ensures Ema(Affine(cs, -1.0, k), period) == k - Ema(cs, period)
  {
    EmaAffine(cs, period, -1.0, k);
    hide EmaValues;
  }

  lemma HistogramReflect(cs: seq<real>, fast: nat, slow: nat, signal: nat, k: real)
    requires cs != []
    ensures Histogram(Affine(cs, -1.0, k), fast, slow, signal) == -Histogram(cs, fast, slow, signal)
  {
    HistogramAffine(cs, fast, slow, signal, -1.0, k);
    hide Histogram;
  }

  /** The sign of a return is the sign of the price difference. */
  lemma ReturnSign(x: real, y: real)
    requires 0.0 < x && 0.0 < y
    ensures x / y - 1.0 > 0.0 <==> x > y
    ensures x / y - 1.0 < 0.0 <==> x < y
  {
    var z := x / y;
    assert z * y == x;
    if z > 1.0 { MulLess(1.0, z, y); }
    if z < 1.0 { MulLess(z, 1.0, y); }
  }

  lemma ReturnReflect(cs: seq<real>, lookback: nat, k: real)
    requires lookback < |cs| && Positive(cs) && Positive(Affine(cs, -1.0, k))
    ensures var r, r' := Return(cs, lookback), Return(Affine(cs, -1.0, k), lookback);
            (r' > 0.0 <==> r < 0.0) && (r' < 0.0 <==> r > 0.0)
  {
    var n := |cs| - 1;
    var x, y := cs[n], cs[n - lookback];
    assert Affine(cs, -1.0, k)[n] == k - x && Affine(cs, -1.0, k)[n - lookback] == k - y;
    ReturnSign(x, y);
    ReturnSign(k - x, k - y);
  }

  lemma LastReflects(cs: seq<real>, k: real)
    requires cs != []
    ensures Last(Affine(cs, -1.0, k)) == k - Last(cs)
  {
  }

  lemma FeaturesReflect(p: Pipeline, spread: seq<real> -> real, bars: seq<Bar>, k: real)
    requires ValidPipeline(p) && Enough(p, |bars|) && ValidBars(bars) && Above(k, bars)
    ensures ValidBars(ReflectBars(k, bars))
    ensures MirrorsFeatures(k, FeaturesOf(p, spread, bars), FeaturesOf(p, spread, ReflectBars(k, bars)))
  {
    var bars', cs := ReflectBars(k, bars), Closes(bars);
    hide Ema, Rsi, Histogram, Return, Atr, VolumeRatio, Closes, ReflectBars, Affine, FeaturesOf, ValidBars, Above, Positive;
    ReflectedBarsAreValid(k, bars);
    ClosesReflect(k, bars);
    FeatureFields(p, spread, bars);
    FeatureFields(p, spread, bars');
    LastReflects(cs, k);
    EmaReflect(cs, p.emaFast, k);
    EmaReflect(cs, p.emaSlow, k);
    RsiReflect(cs, p.rsi, k);
    HistogramReflect(cs, p.macdFast, p.macdSlow, p.macdSignal, k);
    AtrReflect(k, bars, p.atr);
    ReturnReflect(cs, p.lookback, k);
    VolumeReflect(k, bars, p.volumeShort, p.volumeLong);
  }

  // ---------- swing ----------

  lemma {:induction false} ExtremesReflect(bars: seq<Bar>, k: real)
    requires bars != []
    ensures MaxHigh(ReflectBars(k, bars)) == k - MinLow(bars)
    ensures MinLow(ReflectBars(k, bars)) == k - MaxHigh(bars)
  {
    if |bars| > 1 {
      var n := |bars| - 1;
      ExtremesReflect(bars[..n], k);
      assert ReflectBars(k, bars)[..n] == ReflectBars(k, bars[..n]);
    }
  }

  lemma ExtremesOrdered(bars: seq<Bar>)
    requires bars != [] && ValidBars(bars)
    ensures MinLow(bars) <= MaxHigh(bars)
  {
    assert ValidBar(bars[|bars| - 1]);
  }

  lemma PriorReflect(bars: seq<Bar>, lookback: nat, k: real)
    requires bars != []
    ensures Prior(ReflectBars(k, bars), lookback) == ReflectBars(k, Prior(bars, lookback))
  {
    hide ReflectBar;
  }

  lemma PriorIsValid(bars: seq<Bar>, lookback: nat)
    requires bars != [] && ValidBars(bars)
    ensures ValidBars(Prior(bars, lookback))
  {
    hide ValidBar;
  }

  lemma SwingFromReflect(close: real, prior: seq<Bar>, k: real)
    requires ValidBars(prior)
    ensures SwingOf(k - close, ReflectBars(k, prior)) == -SwingOf(close, prior)
  {
    hide MaxHigh, MinLow, ReflectBars, ValidBars;
    if prior != [] {
      ExtremesReflect(prior, k);
      ExtremesOrdered(prior);
    }
  }

  lemma SwingReflect(bars: seq<Bar>, lookback: nat, k: real)
    requires bars != [] && ValidBars(bars)
    ensures var n := |bars| - 1;
            SwingOf(k - bars[n].close, Prior(ReflectBars(k, bars), lookback)) == -SwingOf(bars[n].close, Prior(bars, lookback))
  {
    hide SwingOf, Prior, ReflectBars, ValidBars;
    PriorReflect(bars, lookback, k);
    PriorIsValid(bars, lookback);
    SwingFromReflect(bars[|bars| - 1].close, Prior(bars, lookback), k);
  }

  // ---------- one timeframe ----------

  lemma TrendMirrors(close: real, fast: real, slow: real, k: real)
    ensures var t, t' := TrendOf(close, fast, slow), TrendOf(k - close, k - fast, k - slow);
            t'.0 == MirrorTrend(t.0) && t'.1 == -t.1
  {
  }

  lemma MomentumMirrors(c: RoleConfig, rsi: real, histogram: real)
    requires c.rsiBullish + c.rsiBearish == 100.0 && c.rsiBearish < c.rsiBullish
    ensures var m, m' := MomentumOf(c, rsi, histogram), MomentumOf(c, 100.0 - rsi, -histogram);
            m'.0 == MirrorMomentum(m.0) && m'.1 == -m.1
  {
  }

  predicate MomentumMirrored(c: RoleConfig, rsi: real, histogram: real) {
    var m, m' := MomentumOf(c, rsi, histogram), MomentumOf(c, 100.0 - rsi, -histogram);
    m'.0 == MirrorMomentum(m.0) && m'.1 == -m.1
  }

  /** Momentum mirrors on every input exactly when the two thresholds are symmetric around 50. */
  lemma SymmetryIsNeeded(c: RoleConfig)
    requires 50.0 < c.rsiBullish < 100.0 && 0.0 < c.rsiBearish < 50.0
    ensures (forall rsi, histogram :: 0.0 <= rsi <= 100.0 ==> MomentumMirrored(c, rsi, histogram)) <==> c.rsiBullish + c.rsiBearish == 100.0
  {
    if c.rsiBullish + c.rsiBearish == 100.0 {
      forall rsi, histogram ensures MomentumMirrored(c, rsi, histogram) {
        MomentumMirrors(c, rsi, histogram);
      }
    } else if c.rsiBullish + c.rsiBearish < 100.0 {
      assert !MomentumMirrored(c, c.rsiBullish, 1.0);
    } else {
      assert !MomentumMirrored(c, c.rsiBearish, -1.0);
    }
  }

  lemma RangeMirrors(c: RoleConfig, f: Features, f': Features, k: real)
    requires MirrorsFeatures(k, f, f')
    ensures RangeLike(c, f') == RangeLike(c, f)
  {
  }

  lemma ScoreMirrors(trend: real, momentum: real, swing: real, ret: real)
    ensures RawScore(-trend, -momentum, -swing, -ret) == -RawScore(trend, momentum, swing, ret)
  {
  }

  lemma ClampMirrors(x: real)
    ensures Clamp(-x, -1.0, 1.0) == -Clamp(x, -1.0, 1.0)
    ensures Clamp(-x * 0.25, -1.0, 1.0) == -Clamp(x * 0.25, -1.0, 1.0)
  {
  }

  /** The score of a timeframe changes its sign with all four components. */
  lemma StateFromMirrors(c: RoleConfig, timeframe: Timeframe, f: Features, f': Features, swing: real, k: real)
    requires c.rsiBullish + c.rsiBearish == 100.0 && c.rsiBearish < c.rsiBullish && MirrorsFeatures(k, f, f')
    ensures Mirrors(StateFrom(c, timeframe, f, swing), StateFrom(c, timeframe, f', -swing))
  {
    hide VolatilityOf, VolumeOf, TrendOf, MomentumOf, RangeLike, RawScore, Clamp;
    TrendMirrors(f.close, f.fast, f.slow, k);
    MomentumMirrors(c, f.rsi, f.histogram);
    RangeMirrors(c, f, f', k);
    assert SignOf(f'.lastReturn) == -SignOf(f.lastReturn);
    var t, m, r := TrendOf(f.close, f.fast, f.slow).1, MomentumOf(c, f.rsi, f.histogram).1, SignOf(f.lastReturn);
    ScoreMirrors(t, m, swing, r);
    ClampMirrors(RawScore(t, m, swing, r));
    hide MirrorTrend, MirrorMomentum, SignOf;
    hide MirrorsFeatures;
  }

  lemma StateMirrors(c: RoleConfig, spread: seq<real> -> real, timeframe: Timeframe, bars: seq<Bar>, k: real)
    requires ValidPipeline(c.pipeline) && Enough(c.pipeline, |bars|) && ValidBars(bars) && Above(k, bars)
    requires c.rsiBullish + c.rsiBearish == 100.0 && c.rsiBearish < c.rsiBullish
    ensures ValidBars(ReflectBars(k, bars))
    ensures Mirrors(StateOf(c, spread, timeframe, bars), StateOf(c, spread, timeframe, ReflectBars(k, bars)))
  {
    hide FeaturesOf, StateFrom, Prior, SwingOf, ReflectBars, Mirrors, ValidBars, Above, MirrorsFeatures, Enough, ValidPipeline;
    EnoughIsSome(c.pipeline, |bars|);
    FeaturesReflect(c.pipeline, spread, bars, k);
    SwingReflect(bars, c.swingLookback, k);
    LastBarReflects(k, bars);
    StateFromMirrors(c, timeframe, FeaturesOf(c.pipeline, spread, bars), FeaturesOf(c.pipeline, spread, ReflectBars(k, bars)),
                     SwingOf(bars[|bars| - 1].close, Prior(bars, c.swingLookback)), k);
  }

  lemma LastBarReflects(k: real, bars: seq<Bar>)
    requires bars != []
    ensures ReflectBars(k, bars)[|bars| - 1].close == k - bars[|bars| - 1].close
  {
  }

  // ---------- all timeframes ----------

  ghost predicate AllMirror(ss: seq<FrameState>, ss': seq<FrameState>) {
    |ss'| == |ss| && forall i :: 0 <= i < |ss| ==> Mirrors(ss[i], ss'[i])
  }

  lemma {:induction false} SumsMirror(c: RoleConfig, ss: seq<FrameState>, ss': seq<FrameState>, threshold: real)
    requires AllMirror(ss, ss')
    ensures WeightedSum(c, ss') == -WeightedSum(c, ss)
    ensures TotalWeight(c, ss') == TotalWeight(c, ss)
    ensures Positives(ss', threshold) == Negatives(ss, threshold)
    ensures Negatives(ss', threshold) == Positives(ss, threshold)
  {
    if ss != [] {
      var n := |ss| - 1;
      SumsMirror(c, ss[..n], ss'[..n], threshold);
      assert Mirrors(ss[n], ss'[n]);
      NegativeProduct(ss[n].score, WeightOf(c, ss[n].timeframe));
      hide WeightOf;
    }
  }

  /** The mirrored analysis: the other direction, the same confidence, and the same reasons apart
      from HIGH_VOLATILITY. */
  ghost predicate MirrorsAnalysis(a: Analysis, a': Analysis) {
    if a.Abstained? then a' == a
    else
      && a'.Judged?
      && a'.bias == MirrorBias(a.bias)
      && a'.confidence == a.confidence
      && AllMirror(a.states, a'.states)
      && (TimeframeConflict in a'.reasons <==> TimeframeConflict in a.reasons)
      && (NoClearEdge in a'.reasons <==> NoClearEdge in a.reasons)
  }

  lemma ScoresMirror(c: RoleConfig, ss: seq<FrameState>, ss': seq<FrameState>)
    requires ValidConfig(c) && ss != [] && AllMirror(ss, ss')
    ensures WeightedScore(c, ss') == -WeightedScore(c, ss)
  {
    SumsMirror(c, ss, ss', c.neutralThreshold);
    TotalWeightPositive(c, ss);
    NegativeQuotient(WeightedSum(c, ss), TotalWeight(c, ss));
    hide WeightedSum, TotalWeight, Positives, Negatives, AllMirror, ValidConfig;
  }

  /** Is one verdict the mirror image of the other? */
  predicate MirrorsVerdict(v: (Bias, real, seq<Reason>), v': (Bias, real, seq<Reason>)) {
    && v'.0 == MirrorBias(v.0) && v'.1 == v.1
    && (TimeframeConflict in v'.2 <==> TimeframeConflict in v.2)
    && (NoClearEdge in v'.2 <==> NoClearEdge in v.2)
  }

  lemma VerdictMirrors(c: RoleConfig, score: real, positives: nat, negatives: nat, count: nat, agitated: bool, agitated': bool)
    requires 0.0 < c.neutralThreshold && 0.0 < c.strongThreshold && count != 0
    ensures MirrorsVerdict(Verdict(c, score, positives, negatives, count, agitated),
                           Verdict(c, -score, negatives, positives, count, agitated'))
  {
    assert Abs(-score) == Abs(score);
    assert NeutralConfidence(c, -score) == NeutralConfidence(c, score);
    assert DirectionalConfidence(c, -score, positives, count) == DirectionalConfidence(c, score, positives, count);
    assert DirectionalConfidence(c, -score, negatives, count) == DirectionalConfidence(c, score, negatives, count);
    hide NeutralConfidence, DirectionalConfidence;
  }

  lemma JudgementMirrors(c: RoleConfig, ss: seq<FrameState>, ss': seq<FrameState>)
    requires ValidConfig(c) && ss != [] && AllMirror(ss, ss')
    ensures MirrorsAnalysis(Judge(c, ss), Judge(c, ss'))
  {
    hide WeightedScore, WeightedSum, TotalWeight, Positives, Negatives, Agitated, Verdict, Mirrors;
    SumsMirror(c, ss, ss', c.neutralThreshold);
    ScoresMirror(c, ss, ss');
    VerdictMirrors(c, WeightedScore(c, ss), Positives(ss, c.neutralThreshold), Negatives(ss, c.neutralThreshold), |ss|,
                   Agitated(ss), Agitated(ss'));
    hide ValidConfig, MirrorBias;
  }

  lemma StatesMirror(c: RoleConfig, spread: seq<real> -> real, series: seq<Series>, k: real)
    requires ValidConfig(c) && Admissible(series) && LongEnough(c.pipeline, series)
    requires forall i :: 0 <= i < |series| ==> Above(k, series[i].bars)
    requires c.rsiBullish + c.rsiBearish == 100.0
    ensures Admissible(ReflectAll(k, series)) && LongEnough(c.pipeline, ReflectAll(k, series))
    ensures AllMirror(StatesOf(c, spread, series), StatesOf(c, spread, ReflectAll(k, series)))
  {
    forall i | 0 <= i < |series|
      ensures ValidBars(ReflectBars(k, series[i].bars))
      ensures Mirrors(StateOf(c, spread, series[i].timeframe, series[i].bars),
                      StateOf(c, spread, series[i].timeframe, ReflectBars(k, series[i].bars)))
    {
      StateMirrors(c, spread, series[i].timeframe, series[i].bars, k);
    }
    hide StateOf, Mirrors, ValidBars, ReflectBars, Enough;
  }

  lemma ReflectedSeriesAreAdmissible(series: seq<Series>, k: real)
    requires Admissible(series) && forall i :: 0 <= i < |series| ==> Above(k, series[i].bars)
    ensures Admissible(ReflectAll(k, series)) && Keys(ReflectAll(k, series)) == Keys(series)
    ensures forall i :: 0 <= i < |series| ==> ReflectAll(k, series)[i].instrument == series[i].instrument
    ensures forall i :: 0 <= i < |series| ==> |ReflectAll(k, series)[i].bars| == |series[i].bars|
  {
    forall i | 0 <= i < |series|
      ensures (series[i].instrument, series[i].timeframe) in Keys(ReflectAll(k, series))
      ensures (ReflectAll(k, series)[i].instrument, ReflectAll(k, series)[i].timeframe) in Keys(series)
    {
      var s, s' := series[i], ReflectAll(k, series)[i];
      assert s'.instrument == s.instrument && s'.timeframe == s.timeframe;
    }
    forall i | 0 <= i < |series| ensures ValidBars(ReflectBars(k, series[i].bars)) {
      ReflectedBarsAreValid(k, series[i].bars);
    }
  }

  /** Reflection antisymmetry, from the bars to the verdict: replacing every price p by k - p, with k
      above every high, exchanges LONG and SHORT, keeps NEUTRAL and every abstention, and keeps the
      confidence, when the two RSI thresholds are symmetric around 50. */
  lemma AnalysisReflects(c: RoleConfig, spread: seq<real> -> real, asset: Instrument,
                         required: set<(Instrument, Timeframe)>, series: seq<Series>, k: real)
    requires ValidConfig(c) && Admissible(series)
    requires forall i :: 0 <= i < |series| ==> Above(k, series[i].bars)
    requires c.rsiBullish + c.rsiBearish == 100.0
    ensures Admissible(ReflectAll(k, series))
    ensures MirrorsAnalysis(Analyzed(c, spread, asset, required, series), Analyzed(c, spread, asset, required, ReflectAll(k, series)))
  {
    hide Judge, StatesOf, ReflectAll, MirrorBias, ValidConfig, Admissible, AllMirror, Keys, Enough, Above;
    var series' := ReflectAll(k, series);
    ReflectedSeriesAreAdmissible(series, k);
    if series != [] && LongEnough(c.pipeline, series) {
      StatesMirror(c, spread, series, k);
      JudgementMirrors(c, StatesOf(c, spread, series), StatesOf(c, spread, series'));
    }
  }
}
