/** What the analysis says about a market that only rises, or only falls: from the bars to the verdict. */
module Trends {
  import opened RealArithmetic
  import opened Indicators
  import opened IndicatorLaws
  import opened Technical
  import opened Reflection
  import opened Unanimity

  /** Every close is above all earlier highs. */
  ghost predicate Rising(bars: seq<Bar>) {
    forall i, j :: 0 <= i < j < |bars| ==> bars[i].high < bars[j].close
  }

  /** Every close is below all earlier lows. */
  ghost predicate Falling(bars: seq<Bar>) {
    forall i, j :: 0 <= i < j < |bars| ==> bars[j].close < bars[i].low
  }

  ghost predicate Increasing(cs: seq<real>) {
    forall i, j :: 0 <= i < j < |cs| ==> cs[i] < cs[j]
  }

  // ---------- moving averages lag behind ----------

  /** How far the moving average lags behind the latest value. */
  function Lag(cs: seq<real>, period: nat): real
    requires cs != []
  {
    Last(cs) - Ema(cs, period)
  }

  lemma LagStep(v: real, e: real, m: real)
    ensures v - EmaStep(v, e, m) == Times(v - e, 1.0 - m)
  {
    DistributeLeft(v - e, 1.0, m);
  }

  /** The lag shrinks by the multiplier after it has grown by the rise. */
  lemma NextLag(cs: seq<real>, period: nat)
    requires |cs| > 1
    ensures var n := |cs| - 1;
            Lag(cs, period) == Times(Lag(cs[..n], period) + (cs[n] - cs[n - 1]), 1.0 - Multiplier(period))
  {
    hide EmaStep, Multiplier, Times;
    var n := |cs| - 1;
    LagStep(cs[n], Ema(cs[..n], period), Multiplier(period));
  }

  lemma ShrinkOrder(x: real, y: real, p: real, q: real)
    requires 0.0 < x <= y && 0.0 < p < q
    ensures 0.0 < Times(x, p) < Times(y, q)
  {
    MulLess(0.0, x, p);
    MulLess(p, q, x);
    MulLe(x, y, q);
  }

  lemma ReciprocalOrder(f: real, s: real)
    requires 2.0 < f < s
    ensures 0.0 < 2.0 / s < 2.0 / f < 1.0
  {
    var x, y := 2.0 / f, 2.0 / s;
    assert Times(x, f) == 2.0 && Times(y, s) == 2.0;
    PositiveQuotient(2.0, s);
    MulLess(f, s, y);
    assert Times(y, f) < Times(y, s);
    hide Times;
    if x <= y { TimesLe(x, y, f); }
    if 1.0 <= x { TimesLe(1.0, x, f); TimesOne(f); }
  }

  lemma TimesLe(x: real, y: real, p: real)
    requires x <= y && 0.0 <= p
    ensures Times(x, p) <= Times(y, p)
  {
    MulLe(x, y, p);
  }

  lemma TimesOne(p: real)
    ensures Times(1.0, p) == p
  {
  }

  lemma MultiplierOrder(fast: nat, slow: nat)
    requires 2 <= fast < slow
    ensures 0.0 < 1.0 - Multiplier(fast) < 1.0 - Multiplier(slow)
  {
    ReciprocalOrder(fast as real + 1.0, slow as real + 1.0);
  }

  /** While prices rise, the slower average lags further behind. */
  lemma {:induction false} SlowLagsMore(cs: seq<real>, fast: nat, slow: nat)
    requires cs != [] && Increasing(cs) && 2 <= fast < slow
    ensures 0.0 <= Lag(cs, fast) <= Lag(cs, slow)
    ensures |cs| > 1 ==> 0.0 < Lag(cs, fast) < Lag(cs, slow)
  {
    if |cs| > 1 {
      hide Lag, Multiplier, Times;
      var n := |cs| - 1;
      var rise := cs[n] - cs[n - 1];
      SlowLagsMore(cs[..n], fast, slow);
      NextLag(cs, fast);
      NextLag(cs, slow);
      MultiplierOrder(fast, slow);
      ShrinkOrder(Lag(cs[..n], fast) + rise, Lag(cs[..n], slow) + rise, 1.0 - Multiplier(fast), 1.0 - Multiplier(slow));
    }
  }

  // ---------- only gains ----------

  lemma {:induction false} SumPositive(xs: seq<real>)
    requires xs != [] && Positive(xs)
    ensures 0.0 < Sum(xs)
  {
    if |xs| > 1 {
      SumPositive(xs[..|xs| - 1]);
    } else {
      assert xs[..0] == [];
    }
  }

  lemma {:induction false} WilderPositive(xs: seq<real>, period: nat)
    requires 1 <= period <= |xs| && Positive(xs)
    ensures 0.0 < Wilder(xs, period)
  {
    if |xs| == period {
      SumPositive(xs);
      PositiveQuotient(Sum(xs), period as real);
      hide Sum;
    } else {
      var n := |xs| - 1;
      WilderPositive(xs[..n], period);
      StepPositive(Wilder(xs[..n], period), xs[n], period);
      hide WilderStep, Sum;
    }
  }

  lemma PositiveQuotient(x: real, y: real)
    requires 0.0 < x && 0.0 < y
    ensures 0.0 < x / y
  {
    var z := x / y;
    assert z * y == x;
    if z <= 0.0 { MulLe(z, 0.0, y); }
  }

  lemma StepPositive(average: real, x: real, period: nat)
    requires 1 <= period && 0.0 < average && 0.0 < x
    ensures 0.0 < WilderStep(average, x, period)
  {
    MulLe(0.0, (period - 1) as real, average);
    PositiveQuotient(average * (period - 1) as real + x, period as real);
  }

  /** Prices that only rise have an RSI of 100. */
  lemma RsiOfRise(cs: seq<real>, period: nat)
    requires 1 <= period < |cs| && Increasing(cs)
    ensures Rsi(cs, period) == 100.0
  {
    var gains, losses := Gains(Changes(cs)), Losses(Changes(cs));
    assert forall i :: 0 <= i < |gains| ==> gains[i] == cs[i + 1] - cs[i];
    assert Positive(gains);
    assert forall i :: 0 <= i < |losses| ==> 0.0 <= losses[i] <= 0.0;
    hide Wilder, Gains, Losses, Changes, Positive, Increasing;
    WilderPositive(gains, period);
    WilderRange(losses, period, 0.0, 0.0);
    assert AverageGain(cs, period) > 0.0 && AverageLoss(cs, period) == 0.0;
  }

  // ---------- features ----------

  predicate PointsUp(f: Features) {
    f.close > f.fast > f.slow && f.rsi == 100.0 && f.lastReturn > 0.0
  }

  predicate PointsDown(f: Features) {
    f.close < f.fast < f.slow && f.rsi == 0.0 && f.lastReturn < 0.0
  }

  lemma ClosesIncrease(bars: seq<Bar>)
    requires Rising(bars) && ValidBars(bars)
    ensures Increasing(Closes(bars))
  {
    forall i, j | 0 <= i < j < |bars| ensures bars[i].close < bars[j].close {
      assert ValidBar(bars[i]);
    }
  }

  lemma ReturnOfRise(cs: seq<real>, lookback: nat)
    requires 1 <= lookback < |cs| && Positive(cs) && Increasing(cs)
    ensures Return(cs, lookback) > 0.0
  {
    ReturnSign(cs[|cs| - 1], cs[|cs| - 1 - lookback]);
  }

  lemma RisePointsUp(p: Pipeline, spread: seq<real> -> real, bars: seq<Bar>)
    requires ValidPipeline(p) && Enough(p, |bars|) && ValidBars(bars) && Rising(bars)
    ensures PointsUp(FeaturesOf(p, spread, bars))
  {
    hide FeaturesOf, Ema, Rsi, Histogram, Return, Atr, VolumeRatio, Closes, ValidBars, Positive, Rising, Increasing;
    var cs := Closes(bars);
    ClosesIncrease(bars);
    FeatureFields(p, spread, bars);
    SlowLagsMore(cs, p.emaFast, p.emaSlow);
    RsiOfRise(cs, p.rsi);
    ReturnOfRise(cs, p.lookback);
  }

  lemma {:induction false} MaxHighBelow(bars: seq<Bar>, x: real)
    requires bars != [] && forall i :: 0 <= i < |bars| ==> bars[i].high < x
    ensures MaxHigh(bars) < x
  {
    if |bars| > 1 {
      MaxHighBelow(bars[..|bars| - 1], x);
    }
  }

  lemma SwingOfRise(bars: seq<Bar>, lookback: nat)
    requires |bars| > 1 && Rising(bars) && 1 <= lookback
    ensures SwingOf(bars[|bars| - 1].close, Prior(bars, lookback)) == 1.0
  {
    var prior, n := Prior(bars, lookback), |bars| - 1;
    forall i | 0 <= i < |prior| ensures prior[i].high < bars[n].close {
      assert prior[i] == bars[n - |prior| + i];
    }
    MaxHighBelow(prior, bars[n].close);
    hide MaxHigh, MinLow, Rising;
  }

  // ---------- a falling market is a rising one upside down ----------

  lemma {:induction false} HighsAreBounded(bars: seq<Bar>) returns (k: real)
    ensures Above(k, bars)
  {
    if bars == [] {
      k := 0.0;
    } else {
      var n := |bars| - 1;
      var rest := HighsAreBounded(bars[..n]);
      k := Max(rest, bars[n].high + 1.0);
      forall i | 0 <= i < |bars| ensures bars[i].high < k {
        assert i < n ==> bars[..n][i].high < rest;
      }
    }
  }

  lemma FallReflects(bars: seq<Bar>, k: real)
    requires Falling(bars)
    ensures Rising(ReflectBars(k, bars))
  {
  }

  lemma FallPointsDown(p: Pipeline, spread: seq<real> -> real, bars: seq<Bar>)
    requires ValidPipeline(p) && Enough(p, |bars|) && ValidBars(bars) && Falling(bars)
    ensures PointsDown(FeaturesOf(p, spread, bars))
  {
    hide FeaturesOf, ValidBars, Falling, Rising, Above, ReflectBars, ValidPipeline, Enough;
    var k := HighsAreBounded(bars);
    FallReflects(bars, k);
    FeaturesReflect(p, spread, bars, k);
    RisePointsUp(p, spread, ReflectBars(k, bars));
  }

  lemma SwingOfFall(bars: seq<Bar>, lookback: nat)
    requires |bars| > 1 && ValidBars(bars) && Falling(bars) && 1 <= lookback
    ensures SwingOf(bars[|bars| - 1].close, Prior(bars, lookback)) == -1.0
  {
    hide ValidBars, Falling, Rising, Above, ReflectBars, Prior, SwingOf;
    var k := HighsAreBounded(bars);
    FallReflects(bars, k);
    LastBarReflects(k, bars);
    SwingReflect(bars, lookback, k);
    SwingOfRise(ReflectBars(k, bars), lookback);
  }

  // ---------- one timeframe ----------

  /** A rising timeframe is a strong uptrend that scores 0.7, or 1.0 when the MACD agrees. */
  lemma RisingState(c: RoleConfig, spread: seq<real> -> real, timeframe: Timeframe, bars: seq<Bar>)
    requires ValidConfig(c) && Enough(c.pipeline, |bars|) && ValidBars(bars) && Rising(bars)
    ensures var s, f := StateOf(c, spread, timeframe, bars), FeaturesOf(c.pipeline, spread, bars);
            s.timeframe == timeframe && s.trend.StrongUp? && s.score == (if f.histogram > 0.0 then 1.0 else 0.7)
  {
    var f := FeaturesOf(c.pipeline, spread, bars);
    assert |bars| > 1;
    hide FeaturesOf, Prior, SwingOf, ValidBars, Rising, Enough, VolatilityOf, VolumeOf;
    RisePointsUp(c.pipeline, spread, bars);
    SwingOfRise(bars, c.swingLookback);
    hide ValidPipeline;
    ScoreOfRise(c, timeframe, f);
    hide StateFrom, PointsUp;
  }

  lemma ScoreOfRise(c: RoleConfig, timeframe: Timeframe, f: Features)
    requires ValidConfig(c) && PointsUp(f)
    ensures var s := StateFrom(c, timeframe, f, 1.0);
            s.timeframe == timeframe && s.trend.StrongUp? && s.score == (if f.histogram > 0.0 then 1.0 else 0.7)
  {
    hide VolatilityOf, VolumeOf, RangeLike;
  }

  lemma ScoreOfFall(c: RoleConfig, timeframe: Timeframe, f: Features)
    requires ValidConfig(c) && PointsDown(f)
    ensures var s := StateFrom(c, timeframe, f, -1.0);
            s.timeframe == timeframe && s.trend.StrongDown? && s.score == (if f.histogram < 0.0 then -1.0 else -0.7)
  {
    hide VolatilityOf, VolumeOf, RangeLike;
  }

  lemma FallingState(c: RoleConfig, spread: seq<real> -> real, timeframe: Timeframe, bars: seq<Bar>)
    requires ValidConfig(c) && Enough(c.pipeline, |bars|) && ValidBars(bars) && Falling(bars)
    ensures var s, f := StateOf(c, spread, timeframe, bars), FeaturesOf(c.pipeline, spread, bars);
            s.timeframe == timeframe && s.trend.StrongDown? && s.score == (if f.histogram < 0.0 then -1.0 else -0.7)
  {
    var f := FeaturesOf(c.pipeline, spread, bars);
    assert |bars| > 1;
    hide FeaturesOf, Prior, SwingOf, ValidBars, Falling, Enough, VolatilityOf, VolumeOf;
    FallPointsDown(c.pipeline, spread, bars);
    SwingOfFall(bars, c.swingLookback);
    hide ValidPipeline;
    ScoreOfFall(c, timeframe, f);
    hide StateFrom, PointsDown;
  }

  // ---------- the verdict ----------

  /** The series are exactly those required of the asset, and long enough. */
  ghost predicate Ready(c: RoleConfig, asset: Instrument, required: set<(Instrument, Timeframe)>, series: seq<Series>) {
    && series != [] && !ForeignSeries(asset, series)
    && Keys(series) == required && |Keys(series)| == |series| && LongEnough(c.pipeline, series)
  }

  /** An analysis reaches a verdict exactly when its input is ready. */
  lemma JudgedIffReady(c: RoleConfig, spread: seq<real> -> real, asset: Instrument, required: set<(Instrument, Timeframe)>, series: seq<Series>)
    requires ValidConfig(c) && Admissible(series)
    ensures Analyzed(c, spread, asset, required, series).Judged? <==> Ready(c, asset, required, series)
    ensures Ready(c, asset, required, series) ==>
              Analyzed(c, spread, asset, required, series) == Judge(c, StatesOf(c, spread, series))
  {
    hide StatesOf, Keys, ForeignSeries, LongEnough, Verdict, WeightedScore, Positives, Negatives, Agitated, ValidConfig, Admissible;
  }

  /** All timeframes score at least 0.7: LONG, and with certainty when 0.7 clears both thresholds. */
  lemma HighScoresAreLong(c: RoleConfig, states: seq<FrameState>)
    requires ValidConfig(c) && states != [] && AtLeast(states, 0.7) && c.neutralThreshold <= 0.7
    ensures Judge(c, states).bias.Long?
    ensures c.neutralThreshold < 0.7 && c.strongThreshold <= 0.7 ==> Judge(c, states).confidence == 1.0
  {
    hide WeightedScore, Positives, Negatives, Agitated, NeutralConfidence, DirectionalConfidence;
    ScoreAbove(c, states, 0.7);
    CountsMeaning(states, c.neutralThreshold);
    var score := WeightedScore(c, states);
    if c.neutralThreshold < 0.7 && c.strongThreshold <= 0.7 {
      AllCounted(states, c.neutralThreshold);
      FullConfidence(c, score, |states|);
    }
  }

  lemma {:induction false} AllCounted(states: seq<FrameState>, threshold: real)
    requires forall i :: 0 <= i < |states| ==> threshold < states[i].score
    ensures Positives(states, threshold) == |states|
  {
    if states != [] {
      AllCounted(states[..|states| - 1], threshold);
    }
  }

  lemma FullConfidence(c: RoleConfig, score: real, count: nat)
    requires ValidConfig(c) && c.strongThreshold <= Abs(score) && count != 0
    ensures DirectionalConfidence(c, score, count, count) == 1.0
  {
    RatioOrder(Abs(score), c.strongThreshold);
    DivUnique(count as real, count as real, 1.0);
    if Abs(score) == c.strongThreshold {
      DivUnique(Abs(score), c.strongThreshold, 1.0);
    }
  }

  lemma {:induction false} NegatedCounts(states: seq<FrameState>, threshold: real)
    ensures Positives(Negated(states), threshold) == Negatives(states, threshold)
    ensures Negatives(Negated(states), threshold) == Positives(states, threshold)
  {
    if states != [] {
      var n := |states| - 1;
      NegatedCounts(states[..n], threshold);
      assert Negated(states)[..n] == Negated(states[..n]);
      assert Opposite(states[n], Negated(states)[n]);
    }
  }

  /** All timeframes score at most -0.7: SHORT, by the same rule upside down. */
  lemma LowScoresAreShort(c: RoleConfig, states: seq<FrameState>)
    requires ValidConfig(c) && states != [] && AtMost(states, -0.7) && c.neutralThreshold <= 0.7
    ensures Judge(c, states).bias.Short?
    ensures c.neutralThreshold < 0.7 && c.strongThreshold <= 0.7 ==> Judge(c, states).confidence == 1.0
  {
    hide WeightedScore, Positives, Negatives, Agitated, Negated, Verdict, AtLeast, AtMost;
    var ss := Negated(states);
    NegatedBounds(states, -0.7);
    HighScoresAreLong(c, ss);
    NegatedScore(c, states);
    NegatedCounts(states, c.neutralThreshold);
    VerdictMirrors(c, WeightedScore(c, ss), Positives(ss, c.neutralThreshold), Negatives(ss, c.neutralThreshold), |ss|,
                   Agitated(ss), Agitated(states));
  }

  /** A market that only rises, in every timeframe, is LONG; one that only falls is SHORT. */
  lemma MonotoneMarketIsJudged(c: RoleConfig, spread: seq<real> -> real, asset: Instrument,
                               required: set<(Instrument, Timeframe)>, series: seq<Series>)
    requires ValidConfig(c) && Admissible(series) && Ready(c, asset, required, series) && c.neutralThreshold <= 0.7
    ensures var a := Analyzed(c, spread, asset, required, series);
            var rising := forall i :: 0 <= i < |series| ==> Rising(series[i].bars);
            var falling := forall i :: 0 <= i < |series| ==> Falling(series[i].bars);
            && a.Judged?
            && (rising ==> a.bias.Long?) && (falling ==> a.bias.Short?)
            && ((rising || falling) && c.neutralThreshold < 0.7 && c.strongThreshold <= 0.7 ==> a.confidence == 1.0)
  {
    hide StateOf, Judge, Rising, Falling, Keys, ForeignSeries, Enough;
    JudgedIffReady(c, spread, asset, required, series);
    var states := StatesOf(c, spread, series);
    if forall i :: 0 <= i < |series| ==> Rising(series[i].bars) {
      forall i | 0 <= i < |states| ensures 0.7 <= states[i].score {
        RisingState(c, spread, series[i].timeframe, series[i].bars);
      }
      HighScoresAreLong(c, states);
    }
    if forall i :: 0 <= i < |series| ==> Falling(series[i].bars) {
      forall i | 0 <= i < |states| ensures states[i].score <= -0.7 {
        FallingState(c, spread, series[i].timeframe, series[i].bars);
      }
      LowScoresAreShort(c, states);
    }
  }

  // ---------- conflict ----------

  lemma OppositeScoresConflict(c: RoleConfig, states: seq<FrameState>, i: nat, j: nat)
    requires ValidConfig(c) && i < |states| && j < |states|
    requires c.neutralThreshold < states[i].score && states[j].score < -c.neutralThreshold
    ensures var a := Judge(c, states); a.Judged? && a.bias.Neutral? && TimeframeConflict in a.reasons && NoClearEdge in a.reasons
    ensures Judge(c, states).confidence == NeutralConfidence(c, WeightedScore(c, states))
  {
    CountsMeaning(states, c.neutralThreshold);
    hide WeightedScore, Positives, Negatives, Agitated, NeutralConfidence, DirectionalConfidence;
  }

  /** One timeframe that only rises and one that only falls: NEUTRAL because of a conflict, whatever the
      other timeframes do and however the weights are set. */
  lemma MixedMarketConflicts(c: RoleConfig, spread: seq<real> -> real, asset: Instrument,
                             required: set<(Instrument, Timeframe)>, series: seq<Series>, i: nat, j: nat)
    requires ValidConfig(c) && Admissible(series) && Ready(c, asset, required, series) && c.neutralThreshold < 0.7
    requires i < |series| && j < |series| && Rising(series[i].bars) && Falling(series[j].bars)
    ensures var a := Analyzed(c, spread, asset, required, series);
            a.Judged? && a.bias.Neutral? && TimeframeConflict in a.reasons && NoClearEdge in a.reasons
  {
    hide StateOf, Judge, Rising, Falling, Keys, ForeignSeries, Enough;
    JudgedIffReady(c, spread, asset, required, series);
    RisingState(c, spread, series[i].timeframe, series[i].bars);
    FallingState(c, spread, series[j].timeframe, series[j].bars);
    OppositeScoresConflict(c, StatesOf(c, spread, series), i, j);
  }

  function Climb(n: nat): (bars: seq<Bar>)
    ensures |bars| == n
  {
    seq(n, i => var price := i as real + 1.0; Bar(price, price, price, 1.0))
  }

  function Slide(n: nat): (bars: seq<Bar>)
    ensures |bars| == n
  {
    seq(n, i => var price := n as real - i as real; Bar(price, price, price, 1.0))
  }

  lemma ClimbAndSlide(n: nat)
    ensures ValidBars(Climb(n)) && Rising(Climb(n))
    ensures ValidBars(Slide(n)) && Falling(Slide(n))
  {
  }

  lemma SumsOfTwo(c: RoleConfig, s: FrameState, t: FrameState, threshold: real)
    ensures WeightedSum(c, [s, t]) == s.score * WeightOf(c, s.timeframe) + t.score * WeightOf(c, t.timeframe)
    ensures TotalWeight(c, [s, t]) == WeightOf(c, s.timeframe) + WeightOf(c, t.timeframe)
    ensures s.score < -threshold < threshold < t.score ==> Positives([s, t], threshold) == 1 && Negatives([s, t], threshold) == 1
  {
    hide WeightOf;
    assert [s, t][..1] == [s] && [s][..0] == [];
    assert WeightedSum(c, [s]) == s.score * WeightOf(c, s.timeframe) && TotalWeight(c, [s]) == WeightOf(c, s.timeframe);
    if s.score < -threshold < threshold < t.score {
      assert Positives([s], threshold) == 0 && Negatives([s], threshold) == 1;
    }
  }

  /** A short timeframe that falls against a long one that rises. */
  function Clash(n: nat): seq<Series> {
    [Series(0, M15, Slide(n)), Series(0, H1, Climb(n))]
  }

  lemma ClashIsReady(c: RoleConfig, n: nat)
    requires Enough(c.pipeline, n) && n > 0
    ensures Admissible(Clash(n)) && Ready(c, 0, {(0, M15), (0, H1)}, Clash(n))
  {
    ClimbAndSlide(n);
    hide Climb, Slide, ValidBars, Rising, Falling;
    var series := Clash(n);
    assert series[0].timeframe == M15 && series[1].timeframe == H1;
    assert Keys(series) == {(0 as nat, M15), (0 as nat, H1)};
  }

  /** In such a clash the weighted score is beyond the threshold, and yet the confidence is 0: the inner
      clamp of the neutral confidence does change a value. */
  lemma ConflictClampsToZero(c: RoleConfig, spread: seq<real> -> real, n: nat)
    requires ValidConfig(c) && c.weights == map[M15 := 1.0, H1 := 4.0] && c.neutralThreshold == 0.18 && Enough(c.pipeline, n)
    ensures Admissible(Clash(n)) && LongEnough(c.pipeline, Clash(n))
    ensures c.neutralThreshold < WeightedScore(c, StatesOf(c, spread, Clash(n)))
    ensures var a := Analyzed(c, spread, 0, {(0, M15), (0, H1)}, Clash(n));
            a.Judged? && a.bias.Neutral? && a.confidence == 0.0
  {
    hide StateOf, Judge, StatesOf, Clash, Enough, WeightedScore, NeutralConfidence, Keys, ForeignSeries, Admissible, Analyzed;
    EnoughIsSome(c.pipeline, n);
    ClashIsReady(c, n);
    JudgedIffReady(c, spread, 0, {(0, M15), (0, H1)}, Clash(n));
    ClashStates(c, spread, n);
    var states := StatesOf(c, spread, Clash(n));
    ClashScore(c, states[0], states[1]);
    OppositeScoresConflict(c, states, 1, 0);
    NoConfidenceBeyond(c, WeightedScore(c, states));
  }

  lemma ClashStates(c: RoleConfig, spread: seq<real> -> real, n: nat)
    requires ValidConfig(c) && Enough(c.pipeline, n) && n > 0 && Admissible(Clash(n)) && LongEnough(c.pipeline, Clash(n))
    ensures var states := StatesOf(c, spread, Clash(n));
            && states == [states[0], states[1]] && states[0].timeframe == M15 && states[1].timeframe == H1
            && -1.0 <= states[0].score <= -0.7 && 0.7 <= states[1].score <= 1.0
  {
    hide StateOf, Rising, Falling, Enough, Climb, Slide, ValidBars;
    ClimbAndSlide(n);
    FallingState(c, spread, M15, Slide(n));
    RisingState(c, spread, H1, Climb(n));
  }

  lemma NoConfidenceBeyond(c: RoleConfig, score: real)
    requires ValidConfig(c) && c.neutralThreshold < Abs(score)
    ensures NeutralConfidence(c, score) == 0.0
  {
    RatioOrder(Abs(score), c.neutralThreshold);
  }

  lemma ClashScore(c: RoleConfig, s: FrameState, t: FrameState)
    requires ValidConfig(c) && c.weights == map[M15 := 1.0, H1 := 4.0] && s.timeframe == M15 && t.timeframe == H1
    requires -1.0 <= s.score <= -0.7 && 0.7 <= t.score <= 1.0
    ensures 0.18 < WeightedScore(c, [s, t])
  {
    assert WeightOf(c, M15) == 1.0 && WeightOf(c, H1) == 4.0;
    SumsOfTwo(c, s, t, 0.18);
    hide WeightedSum, TotalWeight, WeightOf;
  }

  /** One timeframe that only climbs: when the strong threshold is below 0.7, the cap on the strength
      does change a value, and the confidence is 1. */
  lemma ClimbIsCapped(c: RoleConfig, spread: seq<real> -> real, n: nat)
    requires ValidConfig(c) && Enough(c.pipeline, n) && c.neutralThreshold < 0.7 && c.strongThreshold < 0.7
    ensures var series := [Series(0, H1, Climb(n))];
            && Admissible(series) && LongEnough(c.pipeline, series)
            && var score, a := WeightedScore(c, StatesOf(c, spread, series)), Analyzed(c, spread, 0, {(0, H1)}, series);
            && Min(1.0, Abs(score) / c.strongThreshold) != Abs(score) / c.strongThreshold
            && a.Judged? && a.bias.Long? && a.confidence == 1.0
  {
    hide StateOf, Judge, Rising, Falling, Enough, Climb, ValidBars, Analyzed, WeightedScore;
    var series := [Series(0, H1, Climb(n))];
    EnoughIsSome(c.pipeline, n);
    ClimbAndSlide(n);
    assert series[0].timeframe == H1 && series[0].instrument == 0;
    assert Keys(series) == {(0 as nat, H1)};
    hide Keys;
    MonotoneMarketIsJudged(c, spread, 0, {(0, H1)}, series);
    RisingState(c, spread, H1, Climb(n));
    var states := StatesOf(c, spread, series);
    assert AtLeast(states, 0.7);
    ScoreAbove(c, states, 0.7);
    RatioOrder(Abs(WeightedScore(c, states)), c.strongThreshold);
  }
}
