/** The deterministic technical analysis: one score for each timeframe, one verdict for all of them.
    Reals are exact. `spread` stands for the population deviation of the logarithms of price ratios. */
module Technical {
  import opened Indicators

  type Instrument = nat

  datatype Timeframe = M15 | H1 | H4 | D1
  datatype Trend = StrongUp | Up | Flat | Down | StrongDown
  datatype Momentum = Bullish | Level | Bearish
  datatype Volatility = Low | Normal | High | Extreme
  datatype VolumeState = Rising | Falling | Steady
  datatype Bias = Long | Short | Neutral

  datatype Pipeline = Pipeline(
    emaFast: nat, emaSlow: nat, rsi: nat,
    macdFast: nat, macdSlow: nat, macdSignal: nat,
    atr: nat, volatility: nat, volumeShort: nat, volumeLong: nat, lookback: nat)

  predicate ValidPipeline(p: Pipeline) {
    && 2 <= p.emaFast < p.emaSlow && 2 <= p.rsi
    && 2 <= p.macdFast < p.macdSlow && 2 <= p.macdSignal
    && 2 <= p.atr && 2 <= p.volatility
    && 1 <= p.volumeShort < p.volumeLong && 1 <= p.lookback
  }

  datatype RoleConfig = RoleConfig(
    pipeline: Pipeline,
    weights: map<Timeframe, real>,
    neutralThreshold: real,
    strongThreshold: real,
    rsiBullish: real, rsiBearish: real,
    highAtr: real, extremeAtr: real,
    highVolatility: real, extremeVolatility: real,
    rangeRatio: real,
    swingLookback: nat)

  /** What the configuration model validates. */
  ghost predicate ValidConfig(c: RoleConfig) {
    && ValidPipeline(c.pipeline)
    && (forall t :: t in c.weights ==> 0.0 < c.weights[t])
    && 0.0 < c.neutralThreshold < 1.0
    && 0.0 < c.strongThreshold <= 1.0
    && 50.0 < c.rsiBullish < 100.0 && 0.0 < c.rsiBearish < 50.0
    && 0.0 < c.highAtr < c.extremeAtr && 0.0 < c.highVolatility < c.extremeVolatility
    && 0.0 < c.rangeRatio
    && 2 <= c.swingLookback
  }

  // ---------- features ----------

  /** Is the history long enough for every feature? */
  predicate Enough(p: Pipeline, n: nat) {
    && p.emaFast <= n && p.emaSlow <= n && p.rsi < n
    && p.macdSlow + p.macdSignal <= n
    && p.atr < n && p.lookback < n && p.volatility < n && p.volumeLong <= n
  }

  lemma EnoughIsSome(p: Pipeline, n: nat)
    requires ValidPipeline(p) && Enough(p, n)
    ensures n != 0
  {
  }

  datatype Features = Features(
    close: real, fast: real, slow: real, rsi: real, histogram: real,
    atr: real, atrPercent: real, realized: real, lastReturn: real, volumeRatio: real)

  lemma ClosesPositive(bars: seq<Bar>)
    requires ValidBars(bars)
    ensures Positive(Closes(bars))
  {
    forall i | 0 <= i < |bars| ensures 0.0 < Closes(bars)[i] {
      assert ValidBar(bars[i]);
    }
  }

  ghost function FeaturesOf(p: Pipeline, spread: seq<real> -> real, bars: seq<Bar>): Features
    requires ValidPipeline(p) && Enough(p, |bars|) && ValidBars(bars)
  {
    ClosesPositive(bars);
    var cs := Closes(bars);
    var n := |cs|;
    var atr := Atr(bars, p.atr);
    Features(
      cs[n - 1],
      Ema(cs, p.emaFast), Ema(cs, p.emaSlow), Rsi(cs, p.rsi),
      Histogram(cs, p.macdFast, p.macdSlow, p.macdSignal),
      atr, atr / cs[n - 1],
      spread(Ratios(cs)[n - 1 - p.volatility..]),
      Return(cs, p.lookback), VolumeRatio(bars, p.volumeShort, p.volumeLong))
  }

  /** The features that do not involve a quotient with the price, one by one. */
  lemma FeatureFields(p: Pipeline, spread: seq<real> -> real, bars: seq<Bar>)
    requires ValidPipeline(p) && Enough(p, |bars|) && ValidBars(bars)
    ensures Positive(Closes(bars))
    ensures var f, cs := FeaturesOf(p, spread, bars), Closes(bars);
            && f.close == cs[|cs| - 1]
            && f.fast == Ema(cs, p.emaFast) && f.slow == Ema(cs, p.emaSlow) && f.rsi == Rsi(cs, p.rsi)
            && f.histogram == Histogram(cs, p.macdFast, p.macdSlow, p.macdSignal)
            && f.atr == Atr(bars, p.atr) && f.lastReturn == Return(cs, p.lookback)
            && f.volumeRatio == VolumeRatio(bars, p.volumeShort, p.volumeLong)
  {
    ClosesPositive(bars);
    hide Ema, Rsi, Histogram, Return, Atr, VolumeRatio, Closes, Ratios;
  }

  // ---------- one timeframe ----------

  datatype FrameState = FrameState(
    timeframe: Timeframe, trend: Trend, momentum: Momentum, volatility: Volatility,
    volume: VolumeState, score: real)

  function TrendOf(close: real, fast: real, slow: real): (Trend, real) {
    if close > fast > slow then (StrongUp, 1.0)
    else if close > fast && close > slow then (Up, 0.6)
    else if close < fast < slow then (StrongDown, -1.0)
    else if close < fast && close < slow then (Down, -0.6)
    else (Flat, 0.0)
  }

  function MomentumOf(c: RoleConfig, rsi: real, histogram: real): (Momentum, real) {
    if rsi >= c.rsiBullish && histogram > 0.0 then (Bullish, 1.0)
    else if rsi <= c.rsiBearish && histogram < 0.0 then (Bearish, -1.0)
    else (Level, 0.0)
  }

  function VolatilityOf(c: RoleConfig, atrPercent: real, realized: real): Volatility {
    if atrPercent >= c.extremeAtr || realized >= c.extremeVolatility then Extreme
    else if atrPercent >= c.highAtr || realized >= c.highVolatility then High
    else if atrPercent < c.highAtr / 3.0 then Low
    else Normal
  }

  function VolumeOf(ratio: real): VolumeState {
    if ratio > 1.10 then Rising else if ratio < 0.90 then Falling else Steady
  }

  /** The bars before the last one, as many as the swing looks back. */
  function Prior(bars: seq<Bar>, lookback: nat): seq<Bar>
    requires bars != []
  {
    var n := |bars| - 1;
    var k := if lookback <= n then lookback else n;
    bars[n - k..n]
  }

  function MaxHigh(bars: seq<Bar>): real
    requires bars != []
  {
    if |bars| == 1 then bars[0].high else Max(MaxHigh(bars[..|bars| - 1]), bars[|bars| - 1].high)
  }

  function MinLow(bars: seq<Bar>): real
    requires bars != []
  {
    if |bars| == 1 then bars[0].low else
      var rest := MinLow(bars[..|bars| - 1]);
      if rest <= bars[|bars| - 1].low then rest else bars[|bars| - 1].low
  }

  function SwingOf(close: real, prior: seq<Bar>): real {
    if prior != [] && close > MaxHigh(prior) then 1.0
    else if prior != [] && close < MinLow(prior) then -1.0
    else 0.0
  }

  function SignOf(x: real): real {
    if x > 0.0 then 1.0 else if x < 0.0 then -1.0 else 0.0
  }

  function RawScore(trend: real, momentum: real, swing: real, ret: real): real {
    trend * 0.45 + momentum * 0.30 + swing * 0.15 + ret * 0.10
  }

  function RangeLike(c: RoleConfig, f: Features): bool {
    Abs(f.fast - f.slow) < f.atr * c.rangeRatio
  }

  function StateFrom(c: RoleConfig, timeframe: Timeframe, f: Features, swing: real): FrameState {
    var (trend, trendScore) := TrendOf(f.close, f.fast, f.slow);
    var (momentum, momentumScore) := MomentumOf(c, f.rsi, f.histogram);
    var raw := RawScore(trendScore, momentumScore, swing, SignOf(f.lastReturn));
    var ranging := RangeLike(c, f) && swing == 0.0;
    FrameState(timeframe,
               if ranging then Flat else trend, momentum,
               VolatilityOf(c, f.atrPercent, f.realized), VolumeOf(f.volumeRatio),
               Clamp(if ranging then raw * 0.25 else raw, -1.0, 1.0))
  }

  ghost function StateOf(c: RoleConfig, spread: seq<real> -> real, timeframe: Timeframe, bars: seq<Bar>): FrameState
    requires ValidPipeline(c.pipeline) && Enough(c.pipeline, |bars|) && ValidBars(bars)
  {
    StateFrom(c, timeframe, FeaturesOf(c.pipeline, spread, bars), SwingOf(bars[|bars| - 1].close, Prior(bars, c.swingLookback)))
  }

  // ---------- all timeframes ----------

  datatype Reason = TimeframeConflict | HighVolatility | NoClearEdge

  datatype Series = Series(instrument: Instrument, timeframe: Timeframe, bars: seq<Bar>)

  datatype AbstainReason = InsufficientHistory | FeatureFailure

  datatype Analysis =
    | Abstained(reason: AbstainReason)
    | Judged(bias: Bias, confidence: real, reasons: seq<Reason>, states: seq<FrameState>)

  function WeightOf(c: RoleConfig, t: Timeframe): real {
    if t in c.weights then c.weights[t] else 1.0
  }

  function Contribution(c: RoleConfig, s: FrameState): real {
    s.score * WeightOf(c, s.timeframe)
  }

  function WeightedSum(c: RoleConfig, states: seq<FrameState>): real {
    if states == [] then 0.0 else
      var s := states[|states| - 1];
      WeightedSum(c, states[..|states| - 1]) + Contribution(c, s)
  }

  function TotalWeight(c: RoleConfig, states: seq<FrameState>): real {
    if states == [] then 0.0 else
      TotalWeight(c, states[..|states| - 1]) + WeightOf(c, states[|states| - 1].timeframe)
  }

  /** How many timeframes score above the threshold. */
  function Positives(states: seq<FrameState>, threshold: real): nat {
    if states == [] then 0 else
      Positives(states[..|states| - 1], threshold) + (if states[|states| - 1].score > threshold then 1 else 0)
  }

  /** How many timeframes score below the negated threshold. */
  function Negatives(states: seq<FrameState>, threshold: real): nat {
    if states == [] then 0 else
      Negatives(states[..|states| - 1], threshold) + (if states[|states| - 1].score < -threshold then 1 else 0)
  }

  predicate Agitated(states: seq<FrameState>) {
    exists i :: 0 <= i < |states| && (states[i].volatility.High? || states[i].volatility.Extreme?)
  }

  function Min(x: real, y: real): real { if x <= y then x else y }

  function NeutralConfidence(c: RoleConfig, score: real): real
    requires c.neutralThreshold != 0.0
  {
    Min(0.60, Max(0.0, 1.0 - Abs(score) / c.neutralThreshold) * 0.60)
  }

  function DirectionalConfidence(c: RoleConfig, score: real, matching: nat, count: nat): real
    requires c.strongThreshold != 0.0 && count != 0
  {
    var agreement := matching as real / count as real;
    var strength := Min(1.0, Abs(score) / c.strongThreshold);
    Min(1.0, strength * 0.65 + agreement * 0.35)
  }

  /** Positive weights have a positive total. */
  lemma {:induction false} TotalWeightPositive(c: RoleConfig, states: seq<FrameState>)
    requires ValidConfig(c)
    ensures 0.0 <= TotalWeight(c, states) && (states != [] ==> 0.0 < TotalWeight(c, states))
  {
    if states != [] {
      TotalWeightPositive(c, states[..|states| - 1]);
    }
  }

  ghost function WeightedScore(c: RoleConfig, states: seq<FrameState>): real
    requires ValidConfig(c) && states != []
  {
    TotalWeightPositive(c, states);
    WeightedSum(c, states) / TotalWeight(c, states)
  }

  /** Bias, confidence and reasons from the weighted score and the counts of agreeing timeframes. */
  function Verdict(c: RoleConfig, score: real, positives: nat, negatives: nat, count: nat, agitated: bool): (Bias, real, seq<Reason>)
    requires c.neutralThreshold != 0.0 && c.strongThreshold != 0.0 && count != 0
  {
    var conflict := positives != 0 && negatives != 0;
    var reasons := (if conflict then [TimeframeConflict] else []) + (if agitated then [HighVolatility] else []);
    if Abs(score) < c.neutralThreshold || conflict then
      (Neutral, NeutralConfidence(c, score), reasons + [NoClearEdge])
    else if score > 0.0 then
      (Long, DirectionalConfidence(c, score, positives, count), reasons)
    else
      (Short, DirectionalConfidence(c, score, negatives, count), reasons)
  }

  ghost function Judge(c: RoleConfig, states: seq<FrameState>): Analysis
    requires ValidConfig(c) && states != []
  {
    var positives, negatives := Positives(states, c.neutralThreshold), Negatives(states, c.neutralThreshold);
    var (bias, confidence, reasons) := Verdict(c, WeightedScore(c, states), positives, negatives, |states|, Agitated(states));
    Judged(bias, confidence, reasons, states)
  }

  ghost predicate Admissible(series: seq<Series>) {
    forall i :: 0 <= i < |series| ==> series[i].bars != [] && ValidBars(series[i].bars)
  }

  predicate LongEnough(p: Pipeline, series: seq<Series>) {
    forall i :: 0 <= i < |series| ==> Enough(p, |series[i].bars|)
  }

  ghost function StatesOf(c: RoleConfig, spread: seq<real> -> real, series: seq<Series>): (states: seq<FrameState>)
    requires ValidConfig(c) && Admissible(series) && LongEnough(c.pipeline, series)
    ensures |states| == |series|
  {
    seq(|series|, i requires 0 <= i < |series| => StateOf(c, spread, series[i].timeframe, series[i].bars))
  }

  function Keys(series: seq<Series>): set<(Instrument, Timeframe)> {
    set i | 0 <= i < |series| :: (series[i].instrument, series[i].timeframe)
  }

  predicate ForeignSeries(asset: Instrument, series: seq<Series>) {
    exists i :: 0 <= i < |series| && series[i].instrument != asset
  }

  /** The analysis of an asset from the series that were supplied, given those that are required. */
  ghost function Analyzed(c: RoleConfig, spread: seq<real> -> real, asset: Instrument,
                          required: set<(Instrument, Timeframe)>, series: seq<Series>): Analysis
    requires ValidConfig(c) && Admissible(series)
  {
    if ForeignSeries(asset, series) then Abstained(FeatureFailure)
    else if Keys(series) != required || |Keys(series)| != |series| then Abstained(InsufficientHistory)
    else if !LongEnough(c.pipeline, series) then Abstained(FeatureFailure)
    else if series == [] then Abstained(InsufficientHistory)
    else Judge(c, StatesOf(c, spread, series))
  }
}
