/** The analysis as it runs: locals that are reassigned step by step and loops over bars and states. */
module TechnicalEngine {
  import opened Indicators
  import opened Rows
  import opened Technical

  method ComputeHistogram(cs: seq<real>, fast: nat, slow: nat, signal: nat) returns (histogram: real)
    requires cs != []
    ensures histogram == Histogram(cs, fast, slow, signal)
  {
    var fastValues := ComputeEmaValues(cs, fast);
    var slowValues := ComputeEmaValues(cs, slow);
    hide EmaValues;
    var macdValues := Minus(fastValues, slowValues);
    var signalValues := ComputeEmaValues(macdValues, signal);
    histogram := macdValues[|macdValues| - 1] - signalValues[|signalValues| - 1];
  }

  method ComputeMean(xs: seq<real>) returns (mean: real)
    requires xs != []
    ensures mean == Mean(xs)
  {
    var total := ComputeSum(xs);
    mean := total / |xs| as real;
  }

  method ComputeVolumeRatio(bars: seq<Bar>, short: nat, long: nat) returns (ratio: real)
    requires 1 <= short < long <= |bars|
    ensures ratio == VolumeRatio(bars, short, long)
  {
    hide Mean;
    var volumes := Volumes(bars);
    var shortMean := ComputeMean(volumes[|volumes| - short..]);
    var longMean := ComputeMean(volumes[|volumes| - long..]);
    ratio := if longMean == 0.0 then 1.0 else shortMean / longMean;
  }

  /** Every feature, or nothing when the history is too short for one of them. */
  method ComputeFeatures(p: Pipeline, spread: seq<real> -> real, bars: seq<Bar>) returns (r: Option<Features>)
    requires ValidPipeline(p) && bars != [] && ValidBars(bars)
    ensures r.Some? <==> Enough(p, |bars|)
    ensures r.Some? ==> r.value == FeaturesOf(p, spread, bars)
  {
    hide EmaValues, Rsi, Histogram, Atr, VolumeRatio, Closes, ValidBars, Positive, Return, Ratios;
    if !Enough(p, |bars|) {
      return None;
    }
    ClosesPositive(bars);
    var closes := Closes(bars);
    var fast := ComputeEmaValues(closes, p.emaFast);
    var slow := ComputeEmaValues(closes, p.emaSlow);
    var rsi := ComputeRsi(closes, p.rsi);
    var histogram := ComputeHistogram(closes, p.macdFast, p.macdSlow, p.macdSignal);
    var atr := ComputeAtr(bars, p.atr);
    var volumeRatio := ComputeVolumeRatio(bars, p.volumeShort, p.volumeLong);
    var close := closes[|closes| - 1];
    LastPositive(closes);
    r := Some(Features(close, Last(fast), Last(slow), rsi, histogram, atr, atr / close,
                       spread(Ratios(closes)[|closes| - 1 - p.volatility..]), Return(closes, p.lookback), volumeRatio));
  }

  lemma LastPositive(cs: seq<real>)
    requires cs != [] && Positive(cs)
    ensures 0.0 < cs[|cs| - 1]
  {
  }

  method ComputeExtremes(bars: seq<Bar>) returns (high: real, low: real)
    requires bars != []
    ensures high == MaxHigh(bars) && low == MinLow(bars)
  {
    high, low := bars[0].high, bars[0].low;
    for i := 1 to |bars|
      invariant high == MaxHigh(bars[..i]) && low == MinLow(bars[..i])
    {
      assert bars[..i + 1][..i] == bars[..i];
      high := if high >= bars[i].high then high else bars[i].high;
      low := if low <= bars[i].low then low else bars[i].low;
    }
    assert bars[..|bars|] == bars;
  }

  /** The score of a bar that closes above every earlier high, or below every earlier low. */
  method ComputeSwing(close: real, prior: seq<Bar>) returns (swing: real)
    ensures swing == SwingOf(close, prior)
  {
    hide MaxHigh, MinLow;
    swing := 0.0;
    if prior != [] {
      var high, low := ComputeExtremes(prior);
      if close > high {
        swing := 1.0;
      } else if close < low {
        swing := -1.0;
      }
    }
  }

  method ClassifyTrend(close: real, fast: real, slow: real) returns (trend: Trend, score: real)
    ensures (trend, score) == TrendOf(close, fast, slow)
  {
    score := 0.0;
    if close > fast > slow {
      trend, score := StrongUp, 1.0;
    } else if close > fast && close > slow {
      trend, score := Up, 0.6;
    } else if close < fast < slow {
      trend, score := StrongDown, -1.0;
    } else if close < fast && close < slow {
      trend, score := Down, -0.6;
    } else {
      trend := Flat;
    }
  }

  method ClassifyMomentum(c: RoleConfig, rsi: real, histogram: real) returns (momentum: Momentum, score: real)
    ensures (momentum, score) == MomentumOf(c, rsi, histogram)
  {
    score := 0.0;
    if rsi >= c.rsiBullish && histogram > 0.0 {
      momentum, score := Bullish, 1.0;
    } else if rsi <= c.rsiBearish && histogram < 0.0 {
      momentum, score := Bearish, -1.0;
    } else {
      momentum := Level;
    }
  }

  method AnalyzeTimeframe(c: RoleConfig, spread: seq<real> -> real, series: Series) returns (r: Option<FrameState>)
    requires ValidConfig(c) && series.bars != [] && ValidBars(series.bars)
    ensures r.Some? <==> Enough(c.pipeline, |series.bars|)
    ensures r.Some? ==> r.value == StateOf(c, spread, series.timeframe, series.bars)
  {
    hide FeaturesOf, SwingOf, Prior, TrendOf, MomentumOf, RangeLike, Clamp, Enough, ValidBars;
    var computed := ComputeFeatures(c.pipeline, spread, series.bars);
    if computed.None? {
      return None;
    }
    var f, close := computed.value, series.bars[|series.bars| - 1].close;
    var trend, trendScore := ClassifyTrend(f.close, f.fast, f.slow);
    var momentum, momentumScore := ClassifyMomentum(c, f.rsi, f.histogram);
    var swing := ComputeSwing(close, Prior(series.bars, c.swingLookback));
    var rawScore := RawScore(trendScore, momentumScore, swing, SignOf(f.lastReturn));
    if RangeLike(c, f) && swing == 0.0 {
      trend := Flat;
      rawScore := rawScore * 0.25;
    }
    r := Some(FrameState(series.timeframe, trend, momentum, VolatilityOf(c, f.atrPercent, f.realized),
                         VolumeOf(f.volumeRatio), Clamp(rawScore, -1.0, 1.0)));
  }

  /** The sums and counts over the timeframes, in one pass. */
  method Tally(c: RoleConfig, states: seq<FrameState>) returns (sum: real, total: real, positives: nat, negatives: nat)
    ensures sum == WeightedSum(c, states) && total == TotalWeight(c, states)
    ensures positives == Positives(states, c.neutralThreshold) && negatives == Negatives(states, c.neutralThreshold)
  {
    hide Contribution, WeightOf;
    sum, total, positives, negatives := 0.0, 0.0, 0, 0;
    for i := 0 to |states|
      invariant sum == WeightedSum(c, states[..i]) && total == TotalWeight(c, states[..i])
      invariant positives == Positives(states[..i], c.neutralThreshold)
      invariant negatives == Negatives(states[..i], c.neutralThreshold)
    {
      assert states[..i + 1][..i] == states[..i];
      sum := sum + Contribution(c, states[i]);
      total := total + WeightOf(c, states[i].timeframe);
      positives := positives + (if states[i].score > c.neutralThreshold then 1 else 0);
      negatives := negatives + (if states[i].score < -c.neutralThreshold then 1 else 0);
    }
    assert states[..|states|] == states;
  }

  method Decide(c: RoleConfig, states: seq<FrameState>) returns (r: Analysis)
    requires ValidConfig(c) && states != []
    ensures r == Judge(c, states)
  {
    var sum, total, positives, negatives := Tally(c, states);
    TotalWeightPositive(c, states);
    hide WeightedSum, TotalWeight, Positives, Negatives, NeutralConfidence, DirectionalConfidence;
    var score := sum / total;
    var reasons: seq<Reason> := [];
    if positives != 0 && negatives != 0 {
      reasons := reasons + [TimeframeConflict];
    }
    if Agitated(states) {
      reasons := reasons + [HighVolatility];
    }
    var bias, confidence;
    if Abs(score) < c.neutralThreshold || (positives != 0 && negatives != 0) {
      bias := Neutral;
      reasons := reasons + [NoClearEdge];
      confidence := NeutralConfidence(c, score);
    } else {
      bias := if score > 0.0 then Long else Short;
      var matching := if bias == Long then positives else negatives;
      confidence := DirectionalConfidence(c, score, matching, |states|);
    }
    r := Judged(bias, confidence, reasons, states);
  }

  method Analyze(c: RoleConfig, spread: seq<real> -> real, asset: Instrument,
                 required: set<(Instrument, Timeframe)>, series: seq<Series>) returns (r: Analysis)
    requires ValidConfig(c) && Admissible(series)
    ensures r == Analyzed(c, spread, asset, required, series)
  {
    hide Judge, StateOf, Enough, ValidBars, ValidPipeline;
    if ForeignSeries(asset, series) {
      return Abstained(FeatureFailure);
    }
    if Keys(series) != required || |Keys(series)| != |series| {
      return Abstained(InsufficientHistory);
    }
    var states := [];
    for i := 0 to |series|
      invariant |states| == i
      invariant forall j :: 0 <= j < i ==> Enough(c.pipeline, |series[j].bars|)
      invariant forall j :: 0 <= j < i ==> states[j] == StateOf(c, spread, series[j].timeframe, series[j].bars)
    {
      var state := AnalyzeTimeframe(c, spread, series[i]);
      if state.None? {
        return Abstained(FeatureFailure);
      }
      states := states + [state.value];
    }
    if states == [] {
      return Abstained(InsufficientHistory);
    }
    assert states == StatesOf(c, spread, series);
    r := Decide(c, states);
  }
}
