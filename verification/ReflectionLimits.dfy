/** Where the reflection of prices stops: asymmetric RSI thresholds, and the volatility of a timeframe.
    Both are shown on bars, with the smallest pipeline that the configuration admits. */
module ReflectionLimits {
  import opened RealArithmetic
  import opened Indicators
  import opened IndicatorLaws
  import opened Technical
  import opened Reflection
  import opened Trends

  const PIPELINE := Pipeline(2, 3, 2, 2, 3, 2, 2, 2, 1, 2, 1)

  function Config(bullish: real, bearish: real): RoleConfig {
    RoleConfig(PIPELINE, map[H1 := 1.0], 0.01, 1.0, bullish, bearish, 0.3, 0.5, 0.3, 0.5, 0.25, 4)
  }

  /** The series of one hourly timeframe, and the requirement that it meets. */
  function Hourly(bars: seq<Bar>): seq<Series> { [Series(0, H1, bars)] }

  const NO_SPREAD: seq<real> -> real := rs => 0.0

  const REQUIRED: set<(Instrument, Timeframe)> := {(0, H1)}

  lemma HourlyIsReady(c: RoleConfig, bars: seq<Bar>)
    requires c.pipeline == PIPELINE && |bars| == 5
    ensures Ready(c, 0, REQUIRED, Hourly(bars))
  {
    assert Hourly(bars)[0] == Series(0, H1, bars);
    assert Keys(Hourly(bars)) == REQUIRED;
  }

  lemma HourlyReflects(bars: seq<Bar>, k: real)
    ensures ReflectAll(k, Hourly(bars)) == Hourly(ReflectBars(k, bars))
  {
  }

  /** The analysis of one timeframe is the judgement of its state. */
  lemma HourlyIsJudged(c: RoleConfig, spread: seq<real> -> real, bars: seq<Bar>)
    requires ValidConfig(c) && c.pipeline == PIPELINE && |bars| == 5 && ValidBars(bars)
    ensures Analyzed(c, spread, 0, REQUIRED, Hourly(bars)) == Judge(c, [StateOf(c, spread, H1, bars)])
  {
    hide Judge, StateOf, Keys, ValidBars, Analyzed, Ready;
    HourlyIsReady(c, bars);
    JudgedIffReady(c, spread, 0, REQUIRED, Hourly(bars));
    assert StatesOf(c, spread, Hourly(bars)) == [StateOf(c, spread, H1, bars)];
  }

  // ---------- five values ----------

  lemma EmaOfFive(vs: seq<real>, period: nat)
    requires |vs| == 5
    ensures var m := Multiplier(period);
            var e1 := EmaStep(vs[1], vs[0], m);
            var e2 := EmaStep(vs[2], e1, m);
            var e3 := EmaStep(vs[3], e2, m);
            EmaValues(vs, period) == [vs[0], e1, e2, e3, EmaStep(vs[4], e3, m)]
  {
    hide EmaStep, Multiplier;
    assert vs[..4][..3] == vs[..3] && vs[..3][..2] == vs[..2] && vs[..2][..1] == vs[..1];
    assert EmaValues(vs[..1], period) == [vs[0]];
    assert |EmaValues(vs[..2], period)| == 2;
    assert |EmaValues(vs[..3], period)| == 3;
    assert |EmaValues(vs[..4], period)| == 4;
  }

  lemma WilderOfFour(xs: seq<real>)
    requires |xs| == 4
    ensures Wilder(xs, 2) == (((xs[0] + xs[1]) / 2.0 + xs[2]) / 2.0 + xs[3]) / 2.0
  {
    assert xs[..3][..2] == xs[..2];
    var two := xs[..2];
    assert two[..1] == [xs[0]] && [xs[0]][..0] == [];
    assert Sum([xs[0]]) == xs[0];
    assert Sum(two) == xs[0] + xs[1];
    assert Wilder(two, 2) == (xs[0] + xs[1]) / 2.0;
    assert Wilder(xs[..3], 2) == ((xs[0] + xs[1]) / 2.0 + xs[2]) / 2.0;
  }

  // ---------- bars with a chosen RSI ----------

  /** A fall, a pause and a rise. */
  function Dip(rsi: real): seq<Bar> {
    [Bar(1000.0, 0.5, 401.0 - 4.0 * rsi, 1.0), Flat(1.0), Flat(1.0), Flat(1.0), Flat(1.0 + rsi)]
  }

  function Flat(price: real): Bar {
    Bar(price, price, price, 1.0)
  }

  function DipCloses(rsi: real): seq<real> {
    [401.0 - 4.0 * rsi, 1.0, 1.0, 1.0, 1.0 + rsi]
  }

  lemma DipIsValid(rsi: real)
    requires 50.0 < rsi < 100.0
    ensures ValidBars(Dip(rsi)) && Above(1001.0, Dip(rsi)) && Closes(Dip(rsi)) == DipCloses(rsi)
  {
  }

  lemma RatioOfShares(x: real)
    requires 0.0 < x < 100.0
    ensures Strength(x / 2.0, (400.0 - 4.0 * x) / 8.0) == x
  {
    var g, l := x / 2.0, (400.0 - 4.0 * x) / 8.0;
    var q := g / l;
    assert q * l == g;
    assert l == 50.0 - g;
    var z := 1.0 + q;
    assert z * l == 50.0;
    Quotient(g, l);
    assert (100.0 - x) == 2.0 * l;
    assert (2.0 * l) * z == 100.0;
    DivUnique(100.0, z, 2.0 * l);
  }

  lemma DipRsi(rsi: real)
    requires 50.0 < rsi < 100.0
    ensures Rsi(DipCloses(rsi), 2) == rsi
  {
    var cs := DipCloses(rsi);
    var gains, losses := Gains(Changes(cs)), Losses(Changes(cs));
    assert Changes(cs) == [-400.0 + 4.0 * rsi, 0.0, 0.0, rsi];
    assert gains == [0.0, 0.0, 0.0, rsi];
    assert losses == [400.0 - 4.0 * rsi, 0.0, 0.0, 0.0];
    hide Wilder, Gains, Losses, Changes;
    WilderOfFour(gains);
    WilderOfFour(losses);
    RsiUnclamped(cs, 2);
    RatioOfShares(rsi);
    hide Strength, Rsi;
    assert AverageGain(cs, 2) == rsi / 2.0 && AverageLoss(cs, 2) == (400.0 - 4.0 * rsi) / 8.0;
  }

  lemma DipAverages(rsi: real)
    requires 50.0 < rsi < 100.0
    ensures var cs := DipCloses(rsi); Ema(cs, 2) < 1.0 + rsi && Ema(cs, 3) < 1.0 + rsi
  {
    EmaOfFive(DipCloses(rsi), 2);
    EmaOfFive(DipCloses(rsi), 3);
    hide EmaValues;
  }

  lemma DipMacd(rsi: real)
    requires 50.0 < rsi < 100.0
    ensures var l := 400.0 - 4.0 * rsi;
            MacdValues(DipCloses(rsi), 2, 3) == [0.0, -l / 6.0, -5.0 * l / 36.0, -19.0 * l / 216.0, -65.0 * l / 1296.0 + rsi / 6.0]
  {
    EmaOfFive(DipCloses(rsi), 2);
    EmaOfFive(DipCloses(rsi), 3);
    hide EmaValues;
  }

  lemma DipHistogram(rsi: real)
    requires 50.0 < rsi < 100.0
    ensures Histogram(DipCloses(rsi), 2, 3, 2) > 0.0
  {
    DipMacd(rsi);
    EmaOfFive(MacdValues(DipCloses(rsi), 2, 3), 2);
    hide EmaValues, MacdValues;
  }

  lemma DipFeatures(spread: seq<real> -> real, rsi: real)
    requires 50.0 < rsi < 100.0 && ValidBars(Dip(rsi))
    ensures var f := FeaturesOf(PIPELINE, spread, Dip(rsi));
            f.fast < f.close && f.slow < f.close && f.rsi == rsi && f.histogram > 0.0 && f.lastReturn > 0.0
  {
    DipIsValid(rsi);
    FeatureFields(PIPELINE, spread, Dip(rsi));
    DipRsi(rsi);
    DipAverages(rsi);
    DipHistogram(rsi);
    hide FeaturesOf, Ema, Rsi, Histogram, Atr, VolumeRatio, Closes, Dip;
    ReturnSign(1.0 + rsi, 1.0);
  }

  lemma DipSwing(rsi: real)
    requires 50.0 < rsi < 100.0
    ensures SwingOf(1.0 + rsi, Prior(Dip(rsi), 4)) == 0.0
  {
    var prior := Prior(Dip(rsi), 4);
    assert prior == Dip(rsi)[..4];
    FirstBarBounds(prior);
    hide MaxHigh, MinLow, Prior;
  }

  lemma {:induction false} FirstBarBounds(bars: seq<Bar>)
    requires bars != []
    ensures bars[0].high <= MaxHigh(bars) && MinLow(bars) <= bars[0].low
  {
    if |bars| > 1 {
      FirstBarBounds(bars[..|bars| - 1]);
    }
  }

  // ---------- the verdict on the dip ----------

  /** The score of an upward timeframe without a swing, with or without the momentum. */
  function UpScore(trend: real, momentum: bool, ranging: bool): real {
    var raw := trend * 0.45 + (if momentum then 0.30 else 0.0) + 0.10;
    if ranging then raw * 0.25 else raw
  }

  lemma UpState(c: RoleConfig, f: Features)
    requires f.fast < f.close && f.slow < f.close && f.histogram > 0.0 && f.lastReturn > 0.0 && c.rsiBearish < f.rsi
    ensures var trend := TrendOf(f.close, f.fast, f.slow).1;
            && (trend == 1.0 || trend == 0.6)
            && StateFrom(c, H1, f, 0.0).score == UpScore(trend, c.rsiBullish <= f.rsi, RangeLike(c, f))
  {
    hide VolatilityOf, VolumeOf, RangeLike;
  }

  /** The same timeframe upside down: only the momentum test is a different one. */
  lemma DownState(c: RoleConfig, f: Features, f': Features, k: real)
    requires f.fast < f.close && f.slow < f.close && f.histogram > 0.0 && f.lastReturn > 0.0
    requires MirrorsFeatures(k, f, f') && 100.0 - f.rsi < c.rsiBullish
    ensures StateFrom(c, H1, f', 0.0).score == -UpScore(TrendOf(f.close, f.fast, f.slow).1, 100.0 - f.rsi <= c.rsiBearish, RangeLike(c, f))
  {
    TrendMirrors(f.close, f.fast, f.slow, k);
    RangeMirrors(c, f, f', k);
    hide VolatilityOf, VolumeOf, RangeLike, TrendOf;
  }

  lemma UpScoreRange(trend: real, momentum: bool, ranging: bool)
    requires trend == 1.0 || trend == 0.6
    ensures 0.01 < UpScore(trend, momentum, ranging) <= 1.0
    ensures UpScore(trend, true, ranging) != UpScore(trend, false, ranging)
  {
  }

  /** One decided timeframe: the confidence shows the size of its score. */
  lemma OneStateConfidence(c: RoleConfig, state: FrameState)
    requires ValidConfig(c) && c.neutralThreshold == 0.01 && c.strongThreshold == 1.0
    requires c.weights == map[H1 := 1.0] && state.timeframe == H1 && 0.01 < Abs(state.score) <= 1.0
    ensures Judge(c, [state]).confidence == Abs(state.score) * 0.65 + 0.35
  {
    OneStateScore(c, state);
    OneStateCounts(state);
    hide WeightedScore, Positives, Negatives, Agitated;
    DivUnique(1.0, 1.0, 1.0);
  }

  lemma OneStateScore(c: RoleConfig, state: FrameState)
    requires ValidConfig(c) && c.weights == map[H1 := 1.0] && state.timeframe == H1
    ensures WeightedScore(c, [state]) == state.score
  {
    assert [state][..0] == [];
    assert WeightOf(c, H1) == 1.0;
    assert WeightedSum(c, [state]) == state.score && TotalWeight(c, [state]) == 1.0;
  }

  lemma OneStateCounts(state: FrameState)
    ensures Positives([state], 0.01) == (if state.score > 0.01 then 1 else 0)
    ensures Negatives([state], 0.01) == (if state.score < -0.01 then 1 else 0)
  {
    assert [state][..0] == [];
  }

  /** Does the mirrored input give the mirrored analysis? */
  ghost predicate ReflectsOn(c: RoleConfig, spread: seq<real> -> real, asset: Instrument,
                             required: set<(Instrument, Timeframe)>, series: seq<Series>, k: real)
    requires ValidConfig(c) && Admissible(series)
  {
    && Admissible(ReflectAll(k, series))
    && MirrorsAnalysis(Analyzed(c, spread, asset, required, series), Analyzed(c, spread, asset, required, ReflectAll(k, series)))
  }

  /** The scores of the dip and of its mirror image differ in size, when one of the two RSI tests is met
      and the other is not. */
  lemma DipScores(c: RoleConfig, spread: seq<real> -> real, rsi: real)
    requires ValidConfig(c) && c.pipeline == PIPELINE && c.swingLookback == 4 && 50.0 < rsi < 100.0
    requires (c.rsiBullish <= rsi) != (100.0 - rsi <= c.rsiBearish)
    ensures ValidBars(Dip(rsi)) && ValidBars(ReflectBars(1001.0, Dip(rsi)))
    ensures var s, s' := StateOf(c, spread, H1, Dip(rsi)).score, StateOf(c, spread, H1, ReflectBars(1001.0, Dip(rsi))).score;
            0.01 < s <= 1.0 && 0.01 < -s' <= 1.0 && s != -s'
  {
    var bars, k := Dip(rsi), 1001.0;
    assert bars[4].close == 1.0 + rsi;
    hide FeaturesOf, Prior, SwingOf, ReflectBars, ValidBars, Above, StateFrom, MirrorsFeatures, Dip, Closes, UpScore;
    DipIsValid(rsi);
    DipFeatures(spread, rsi);
    DipSwing(rsi);
    FeaturesReflect(PIPELINE, spread, bars, k);
    SwingReflect(bars, 4, k);
    LastBarReflects(k, bars);
    var f, f' := FeaturesOf(PIPELINE, spread, bars), FeaturesOf(PIPELINE, spread, ReflectBars(k, bars));
    UpState(c, f);
    DownState(c, f, f', k);
    UpScoreRange(TrendOf(f.close, f.fast, f.slow).1, c.rsiBullish <= rsi, RangeLike(c, f));
    UpScoreRange(TrendOf(f.close, f.fast, f.slow).1, 100.0 - rsi <= c.rsiBearish, RangeLike(c, f));
    hide TrendOf, RangeLike;
  }

  /** With asymmetric thresholds there are five bars whose mirror image gets another confidence. */
  lemma AsymmetryIsVisible(spread: seq<real> -> real, bullish: real, bearish: real)
    requires 50.0 < bullish < 100.0 && 0.0 < bearish < 50.0 && bullish + bearish != 100.0
    ensures var c, rsi := Config(bullish, bearish), if bullish <= 100.0 - bearish then bullish else 100.0 - bearish;
            && ValidConfig(c) && Admissible(Hourly(Dip(rsi))) && Above(1001.0, Dip(rsi))
            && !ReflectsOn(c, spread, 0, REQUIRED, Hourly(Dip(rsi)), 1001.0)
  {
    var c, rsi := Config(bullish, bearish), if bullish <= 100.0 - bearish then bullish else 100.0 - bearish;
    var bars, k := Dip(rsi), 1001.0;
    assert ValidConfig(c);
    hide StateOf, Judge, Dip, ReflectBars, ValidBars, Above, Analyzed, ValidConfig, ReflectAll;
    DipIsValid(rsi);
    DipScores(c, spread, rsi);
    HourlyReflects(bars, k);
    HourlyIsJudged(c, spread, bars);
    HourlyIsJudged(c, spread, ReflectBars(k, bars));
    StateIsHourly(c, spread, bars);
    StateIsHourly(c, spread, ReflectBars(k, bars));
    OneStateConfidence(c, StateOf(c, spread, H1, bars));
    OneStateConfidence(c, StateOf(c, spread, H1, ReflectBars(k, bars)));
    assert Analyzed(c, spread, 0, REQUIRED, Hourly(bars)).confidence
        != Analyzed(c, spread, 0, REQUIRED, Hourly(ReflectBars(k, bars))).confidence;
    assert Analyzed(c, spread, 0, REQUIRED, Hourly(bars)).Judged? by { JudgeJudges(c, [StateOf(c, spread, H1, bars)]); }
  }

  lemma StateIsHourly(c: RoleConfig, spread: seq<real> -> real, bars: seq<Bar>)
    requires ValidConfig(c) && Enough(c.pipeline, |bars|) && ValidBars(bars)
    ensures StateOf(c, spread, H1, bars).timeframe == H1
  {
    hide FeaturesOf, Prior, SwingOf;
  }

  lemma JudgeJudges(c: RoleConfig, states: seq<FrameState>)
    requires ValidConfig(c) && states != []
    ensures Judge(c, states).Judged?
  {
    hide Verdict, WeightedScore, Positives, Negatives, Agitated;
  }

  /** The reflection law holds for every configuration with these thresholds and every input if and only
      if the thresholds are symmetric around 50. */
  lemma ReflectionHoldsIff(bullish: real, bearish: real)
    requires 50.0 < bullish < 100.0 && 0.0 < bearish < 50.0
    ensures (forall c: RoleConfig, spread: seq<real> -> real, asset: Instrument, required: set<(Instrument, Timeframe)>, series: seq<Series>, k: real ::
               (&& ValidConfig(c) && c.rsiBullish == bullish && c.rsiBearish == bearish
                && Admissible(series) && forall i :: 0 <= i < |series| ==> Above(k, series[i].bars))
               ==> ReflectsOn(c, spread, asset, required, series, k))
            <==> bullish + bearish == 100.0
  {
    hide Analyzed, Above, ReflectAll, MirrorsAnalysis;
    if bullish + bearish == 100.0 {
      forall c: RoleConfig, spread: seq<real> -> real, asset: Instrument, required: set<(Instrument, Timeframe)>, series: seq<Series>, k: real |
        && ValidConfig(c) && c.rsiBullish == bullish && c.rsiBearish == bearish
        && Admissible(series) && forall i :: 0 <= i < |series| ==> Above(k, series[i].bars)
        ensures ReflectsOn(c, spread, asset, required, series, k)
      {
        AnalysisReflects(c, spread, asset, required, series, k);
      }
    } else {
      AsymmetryIsVisible(NO_SPREAD, bullish, bearish);
    }
  }

  // ---------- volatility ----------

  ghost function RealizedVolatility(p: Pipeline, spread: seq<real> -> real, cs: seq<real>): real
    requires p.volatility < |cs| && Positive(cs)
  {
    spread(Ratios(cs)[|cs| - 1 - p.volatility..])
  }

  /** The volatility test at a price level: the true ranges against a share of the price, and the
      realized volatility of the closes. */
  ghost predicate Lively(c: RoleConfig, spread: seq<real> -> real, atr: real, price: real, cs: seq<real>)
    requires c.pipeline.volatility < |cs| && Positive(cs)
  {
    atr >= c.highAtr * price || RealizedVolatility(c.pipeline, spread, cs) >= c.highVolatility
  }

  ghost predicate LivelyBars(c: RoleConfig, spread: seq<real> -> real, bars: seq<Bar>)
    requires ValidPipeline(c.pipeline) && Enough(c.pipeline, |bars|) && ValidBars(bars)
  {
    ClosesPositive(bars);
    Lively(c, spread, Atr(bars, c.pipeline.atr), Last(Closes(bars)), Closes(bars))
  }

  /** The same true ranges against the mirrored price, and the mirrored closes. */
  ghost predicate LivelyMirror(c: RoleConfig, spread: seq<real> -> real, bars: seq<Bar>, k: real)
    requires ValidPipeline(c.pipeline) && Enough(c.pipeline, |bars|) && ValidBars(bars) && Above(k, bars)
  {
    MirroredClosesPositive(bars, k);
    Lively(c, spread, Atr(bars, c.pipeline.atr), k - Last(Closes(bars)), Affine(Closes(bars), -1.0, k))
  }

  lemma MirroredClosesPositive(bars: seq<Bar>, k: real)
    requires ValidBars(bars) && Above(k, bars)
    ensures Positive(Affine(Closes(bars), -1.0, k))
  {
    forall i | 0 <= i < |bars| ensures bars[i].close < k {
      assert ValidBar(bars[i]);
    }
  }

  lemma ShareOrder(x: real, y: real, z: real)
    requires 0.0 < y
    ensures x / y >= z <==> x >= z * y
  {
    var q := x / y;
    assert Times(q, y) == x && Times(z, y) == z * y;
    hide Times;
    if q >= z {
      TimesLe(z, q, y);
    } else if Times(z, y) <= x {
      TimesOrder(z, q, y);
    }
  }

  predicate IsAgitated(v: Volatility) {
    v.High? || v.Extreme?
  }

  lemma AgitatedLevels(c: RoleConfig, atrPercent: real, realized: real)
    requires ValidConfig(c)
    ensures IsAgitated(VolatilityOf(c, atrPercent, realized)) <==> atrPercent >= c.highAtr || realized >= c.highVolatility
  {
  }

  lemma RealizedField(p: Pipeline, spread: seq<real> -> real, bars: seq<Bar>)
    requires ValidPipeline(p) && Enough(p, |bars|) && ValidBars(bars)
    ensures Positive(Closes(bars))
    ensures FeaturesOf(p, spread, bars).realized == RealizedVolatility(p, spread, Closes(bars))
  {
    hide Atr, Ema, Rsi, Histogram, Return, VolumeRatio, Ratios;
    ClosesPositive(bars);
  }

  /** A timeframe is in high or extreme volatility exactly when its bars are lively. */
  lemma AgitatedIffLively(c: RoleConfig, spread: seq<real> -> real, timeframe: Timeframe, bars: seq<Bar>)
    requires ValidConfig(c) && Enough(c.pipeline, |bars|) && ValidBars(bars)
    ensures IsAgitated(StateOf(c, spread, timeframe, bars).volatility) <==> LivelyBars(c, spread, bars)
  {
    hide FeaturesOf, StateOf, VolatilityOf, IsAgitated, Atr, Closes, ValidBars, Enough, Positive, RealizedVolatility;
    var f := FeaturesOf(c.pipeline, spread, bars);
    EnoughIsSome(c.pipeline, |bars|);
    EnoughForAtr(c.pipeline, |bars|);
    StateVolatility(c, spread, timeframe, bars);
    AtrShare(c.pipeline, spread, bars);
    RealizedField(c.pipeline, spread, bars);
    LastClose(bars);
    ShareOrder(Atr(bars, c.pipeline.atr), bars[|bars| - 1].close, c.highAtr);
    AgitatedLevels(c, f.atrPercent, f.realized);
  }

  lemma EnoughForAtr(p: Pipeline, n: nat)
    requires ValidPipeline(p) && Enough(p, n)
    ensures 1 <= p.atr <= n && p.volatility < n
  {
  }

  lemma StateVolatility(c: RoleConfig, spread: seq<real> -> real, timeframe: Timeframe, bars: seq<Bar>)
    requires ValidPipeline(c.pipeline) && Enough(c.pipeline, |bars|) && ValidBars(bars)
    ensures var f := FeaturesOf(c.pipeline, spread, bars);
            StateOf(c, spread, timeframe, bars).volatility == VolatilityOf(c, f.atrPercent, f.realized)
  {
    hide FeaturesOf, Prior, SwingOf, TrendOf, MomentumOf, RangeLike, Clamp, VolatilityOf, RawScore;
  }

  /** Its mirror image is, exactly when the same true ranges are large against the mirrored price, or the
      mirrored closes are volatile. */
  lemma MirrorAgitatedIff(c: RoleConfig, spread: seq<real> -> real, timeframe: Timeframe, bars: seq<Bar>, k: real)
    requires ValidConfig(c) && Enough(c.pipeline, |bars|) && ValidBars(bars) && Above(k, bars)
    ensures ValidBars(ReflectBars(k, bars))
    ensures IsAgitated(StateOf(c, spread, timeframe, ReflectBars(k, bars)).volatility) <==> LivelyMirror(c, spread, bars, k)
  {
    hide StateOf, Atr, Closes, Affine, ValidBars, Enough, Positive, RealizedVolatility, IsAgitated, Above, ReflectBars;
    EnoughIsSome(c.pipeline, |bars|);
    EnoughForAtr(c.pipeline, |bars|);
    ReflectedBarsAreValid(k, bars);
    AgitatedIffLively(c, spread, timeframe, ReflectBars(k, bars));
    AtrReflect(k, bars, c.pipeline.atr);
    ClosesReflect(k, bars);
    LastReflects(Closes(bars), k);
  }

  ghost predicate SomeLively(c: RoleConfig, spread: seq<real> -> real, series: seq<Series>)
    requires ValidConfig(c) && Admissible(series) && LongEnough(c.pipeline, series)
  {
    exists i :: 0 <= i < |series| && LivelyBars(c, spread, series[i].bars)
  }

  ghost predicate SomeLivelyMirror(c: RoleConfig, spread: seq<real> -> real, series: seq<Series>, k: real)
    requires ValidConfig(c) && Admissible(series) && LongEnough(c.pipeline, series)
    requires forall i :: 0 <= i < |series| ==> Above(k, series[i].bars)
  {
    exists i :: 0 <= i < |series| && LivelyMirror(c, spread, series[i].bars, k)
  }

  lemma AgitatedStates(c: RoleConfig, spread: seq<real> -> real, series: seq<Series>)
    requires ValidConfig(c) && Admissible(series) && LongEnough(c.pipeline, series)
    ensures Agitated(StatesOf(c, spread, series)) <==>
            exists i :: 0 <= i < |series| && IsAgitated(StateOf(c, spread, series[i].timeframe, series[i].bars).volatility)
  {
    hide StateOf, Enough, ValidBars;
    var states := StatesOf(c, spread, series);
    assert forall i :: 0 <= i < |series| ==> states[i] == StateOf(c, spread, series[i].timeframe, series[i].bars);
    if i :| 0 <= i < |series| && IsAgitated(StateOf(c, spread, series[i].timeframe, series[i].bars).volatility) {
      assert IsAgitated(states[i].volatility);
    }
    if i :| 0 <= i < |states| && (states[i].volatility.High? || states[i].volatility.Extreme?) {
      assert IsAgitated(StateOf(c, spread, series[i].timeframe, series[i].bars).volatility);
    }
  }

  /** HIGH_VOLATILITY is reported for some series exactly when one of them is lively, and for their mirror
      image exactly when one of them is lively at the mirrored price. It is therefore mirrored exactly
      when these two tests agree. */
  lemma VolatilityMirroredIff(c: RoleConfig, spread: seq<real> -> real, asset: Instrument,
                              required: set<(Instrument, Timeframe)>, series: seq<Series>, k: real)
    requires ValidConfig(c) && Admissible(series) && Ready(c, asset, required, series)
    requires forall i :: 0 <= i < |series| ==> Above(k, series[i].bars)
    ensures Admissible(ReflectAll(k, series))
    ensures var a, a' := Analyzed(c, spread, asset, required, series), Analyzed(c, spread, asset, required, ReflectAll(k, series));
            && a.Judged? && a'.Judged?
            && (HighVolatility in a.reasons <==> SomeLively(c, spread, series))
            && (HighVolatility in a'.reasons <==> SomeLivelyMirror(c, spread, series, k))
            && ((HighVolatility in a'.reasons <==> HighVolatility in a.reasons)
                <==> (SomeLivelyMirror(c, spread, series, k) <==> SomeLively(c, spread, series)))
  {
    hide StateOf, Judge, Analyzed, Agitated, StatesOf, LivelyBars, LivelyMirror, IsAgitated, ValidBars, Above, Keys, Enough;
    var mirror := ReflectAll(k, series);
    ReflectedSeriesAreAdmissible(series, k);
    JudgedIffReady(c, spread, asset, required, series);
    JudgedIffReady(c, spread, asset, required, mirror);
    ReportsAgitation(c, StatesOf(c, spread, series));
    ReportsAgitation(c, StatesOf(c, spread, mirror));
    AgitatedStates(c, spread, series);
    AgitatedStates(c, spread, mirror);
    forall i | 0 <= i < |series|
      ensures IsAgitated(StateOf(c, spread, series[i].timeframe, series[i].bars).volatility) <==> LivelyBars(c, spread, series[i].bars)
      ensures ValidBars(mirror[i].bars) && Enough(c.pipeline, |mirror[i].bars|)
      ensures IsAgitated(StateOf(c, spread, mirror[i].timeframe, mirror[i].bars).volatility) <==> LivelyMirror(c, spread, series[i].bars, k)
    {
      AgitatedIffLively(c, spread, series[i].timeframe, series[i].bars);
      MirrorAgitatedIff(c, spread, series[i].timeframe, series[i].bars, k);
    }
  }

  /** Bars that go nowhere, in a range of four. */
  function Sideways(price: real): (bars: seq<Bar>)
    ensures |bars| == 5
  {
    seq(5, i => Bar(price + 2.0, price - 2.0, price, 1.0))
  }

  lemma SidewaysReflects(price: real, k: real)
    ensures ReflectBars(k, Sideways(price)) == Sideways(k - price)
  {
  }

  lemma SidewaysIsValid(price: real, k: real)
    requires 2.0 < price
    ensures ValidBars(Sideways(price)) && (price + 2.0 < k ==> Above(k, Sideways(price)))
  {
  }

  lemma AtrShare(p: Pipeline, spread: seq<real> -> real, bars: seq<Bar>)
    requires ValidPipeline(p) && Enough(p, |bars|) && ValidBars(bars)
    ensures bars[|bars| - 1].close > 0.0
    ensures FeaturesOf(p, spread, bars).atrPercent == Atr(bars, p.atr) / bars[|bars| - 1].close
  {
    hide Atr, Ema, Rsi, Histogram, Return, VolumeRatio, Ratios, Closes, ValidBars, Positive;
    ClosesPositive(bars);
    LastClose(bars);
  }

  lemma LastClose(bars: seq<Bar>)
    requires bars != [] && ValidBars(bars)
    ensures Closes(bars)[|bars| - 1] == bars[|bars| - 1].close > 0.0
  {
    assert ValidBar(bars[|bars| - 1]);
  }

  lemma SidewaysAtr(price: real)
    ensures Atr(Sideways(price), 2) == 4.0
  {
    var bars := Sideways(price);
    forall i | 0 <= i < 5 ensures TrueRanges(bars)[i] == 4.0 {
      if i > 0 { TrueRangeAt(bars, i); }
    }
    hide TrueRanges, Wilder, Sideways;
    WilderRange(TrueRanges(bars), 2, 4.0, 4.0);
  }

  lemma SidewaysVolatility(c: RoleConfig, price: real)
    requires ValidConfig(c) && c.pipeline == PIPELINE && 2.0 < price && ValidBars(Sideways(price))
    ensures StateOf(c, NO_SPREAD, H1, Sideways(price)).volatility == VolatilityOf(c, 4.0 / price, 0.0)
  {
    var bars := Sideways(price);
    assert bars[4].close == price;
    NoSpread(PIPELINE, bars);
    hide Prior, SwingOf, Sideways, ValidBars, VolatilityOf, TrendOf, MomentumOf, RangeLike, Atr, Clamp, RawScore, FeaturesOf;
    SidewaysAtr(price);
    AtrShare(PIPELINE, NO_SPREAD, bars);
  }

  lemma NoSpread(p: Pipeline, bars: seq<Bar>)
    requires ValidPipeline(p) && Enough(p, |bars|) && ValidBars(bars)
    ensures FeaturesOf(p, NO_SPREAD, bars).realized == 0.0
  {
    hide Atr, Ema, Rsi, Histogram, Return, VolumeRatio, Ratios;
  }

  lemma ReportsAgitation(c: RoleConfig, states: seq<FrameState>)
    requires ValidConfig(c) && states != []
    ensures Judge(c, states).Judged? && (HighVolatility in Judge(c, states).reasons <==> Agitated(states))
  {
    hide WeightedScore, Positives, Negatives, Agitated, NeutralConfidence, DirectionalConfidence;
  }

  lemma SidewaysReasons(c: RoleConfig, price: real)
    requires ValidConfig(c) && c.pipeline == PIPELINE && 2.0 < price && ValidBars(Sideways(price))
    ensures var a, v := Analyzed(c, NO_SPREAD, 0, REQUIRED, Hourly(Sideways(price))), VolatilityOf(c, 4.0 / price, 0.0);
            a.Judged? && (HighVolatility in a.reasons <==> v.High? || v.Extreme?)
  {
    hide StateOf, Judge, Sideways, ValidBars, Analyzed, VolatilityOf;
    var state := StateOf(c, NO_SPREAD, H1, Sideways(price));
    SidewaysVolatility(c, price);
    HourlyIsJudged(c, NO_SPREAD, Sideways(price));
    ReportsAgitation(c, [state]);
    assert [state][0] == state;
  }

  lemma LevelsDiffer()
    ensures var c := Config(55.0, 45.0);
            ValidConfig(c) && VolatilityOf(c, 4.0 / 10.0, 0.0).High? && VolatilityOf(c, 4.0 / 100.0, 0.0).Low?
  {
  }

  /** Volatility is relative to the price level: the same bars report HIGH_VOLATILITY around a price of
      10 and not around its mirror image 100, although everything else is mirrored. */
  lemma VolatilityIsNotMirrored()
    ensures var c, bars, k := Config(55.0, 45.0), Sideways(10.0), 110.0;
            && ValidConfig(c) && Admissible(Hourly(bars)) && Above(k, bars)
            && ReflectsOn(c, NO_SPREAD, 0, REQUIRED, Hourly(bars), k)
            && var a, a' := Analyzed(c, NO_SPREAD, 0, REQUIRED, Hourly(bars)), Analyzed(c, NO_SPREAD, 0, REQUIRED, ReflectAll(k, Hourly(bars)));
            && a.Judged? && a'.Judged? && HighVolatility in a.reasons && HighVolatility !in a'.reasons
  {
    var c, bars, k := Config(55.0, 45.0), Sideways(10.0), 110.0;
    hide Sideways, ValidBars, Above, Analyzed, ValidConfig, ReflectAll, ReflectBars, VolatilityOf, MirrorsAnalysis;
    LevelsDiffer();
    SidewaysIsValid(10.0, k);
    SidewaysIsValid(100.0, k);
    SidewaysReflects(10.0, k);
    HourlyReflects(bars, k);
    assert forall i :: 0 <= i < |Hourly(bars)| ==> Hourly(bars)[i].bars == bars;
    AnalysisReflects(c, NO_SPREAD, 0, REQUIRED, Hourly(bars), k);
    SidewaysReasons(c, 10.0);
    SidewaysReasons(c, 100.0);
  }
}
