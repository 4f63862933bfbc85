/** What the state of one timeframe says about its bars. */
module Timeframes {
  import opened RealArithmetic
  import opened Indicators
  import opened Technical

  // ---------- indicators ----------

  /** One step of the exponential average leaves the share (period - 1) / (period + 1) of the gap. */
  lemma EmaMoves(value: real, previous: real, period: nat)
    requires 1 <= period
    ensures (value - EmaStep(value, previous, Multiplier(period))) * (period + 1) as real
         == (value - previous) * (period - 1) as real
  {
    var p, gap := period as real, value - previous;
    var m := Multiplier(period);
    assert m * (p + 1.0) == 2.0;
    assert value - EmaStep(value, previous, m) == gap * (1.0 - m);
    Assoc(gap, 1.0 - m, p + 1.0);
    Distribute(1.0, -m, p + 1.0);
  }

  /** One smoothing step goes the `period`-th part of the way to the new value. */
  lemma WilderMoves(average: real, x: real, period: nat)
    requires 1 <= period
    ensures WilderStep(average, x, period) == average + (x - average) / period as real
  {
    var p := period as real;
    var q := (x - average) / p;
    assert q * p == x - average;
    assert (average + q) * p == average * p + (x - average);
    assert average * (period - 1) as real == average * p - average;
    DivUnique(average * (period - 1) as real + x, p, average + q);
  }

  /** The true range spans the bar and the previous close. */
  lemma TrueRangeSpans(b: Bar, previousClose: real)
    requires b.low <= b.high
    ensures TrueRange(b, previousClose) == Max(b.high, previousClose) - Min(b.low, previousClose)
  {
  }

  /** The RSI before its clamp is the share of the gains in the whole movement, and 50 without any. */
  lemma StrengthIsShare(gain: real, loss: real)
    requires 0.0 <= gain && 0.0 <= loss
    ensures if gain + loss == 0.0 then Strength(gain, loss) == 50.0
            else Strength(gain, loss) * (gain + loss) == 100.0 * gain
  {
    if loss != 0.0 && gain != 0.0 {
      ReciprocalOfRatio(gain, loss);
      assert (loss / (gain + loss)) * (gain + loss) == loss;
    }
  }

  /** The return is the gain relative to the earlier price. */
  lemma ReturnMeaning(cs: seq<real>, lookback: nat)
    requires lookback < |cs| && Positive(cs)
    ensures var earlier, now := cs[|cs| - 1 - lookback], cs[|cs| - 1];
            && earlier * (1.0 + Return(cs, lookback)) == now
            && (SignOf(Return(cs, lookback)) == 1.0 <==> earlier < now)
            && (SignOf(Return(cs, lookback)) == -1.0 <==> now < earlier)
  {
    var earlier, now := cs[|cs| - 1 - lookback], cs[|cs| - 1];
    var q := now / earlier;
    assert Times(q, earlier) == now && Times(1.0, earlier) == earlier;
    if 1.0 < q { MulLess(1.0, q, earlier); }
    if q < 1.0 { MulLess(q, 1.0, earlier); }
  }

  lemma {:induction false} MaxHighMeaning(bars: seq<Bar>, x: real)
    requires bars != []
    ensures MaxHigh(bars) < x <==> forall i :: 0 <= i < |bars| ==> bars[i].high < x
  {
    var n := |bars| - 1;
    if n != 0 {
      MaxHighMeaning(bars[..n], x);
      assert forall i :: 0 <= i < n ==> bars[..n][i] == bars[i];
    }
  }

  lemma {:induction false} MinLowMeaning(bars: seq<Bar>, x: real)
    requires bars != []
    ensures x < MinLow(bars) <==> forall i :: 0 <= i < |bars| ==> x < bars[i].low
  {
    var n := |bars| - 1;
    if n != 0 {
      MinLowMeaning(bars[..n], x);
      assert forall i :: 0 <= i < n ==> bars[..n][i] == bars[i];
    }
  }

  /** Is bar `i` one of the last `lookback` bars before the final one? */
  predicate Recent(bars: seq<Bar>, lookback: nat, i: nat) {
    i < |bars| - 1 <= i + lookback
  }

  /** The price breaks out when it leaves the range of every recent bar, and there is a recent bar. */
  lemma SwingMeaning(bars: seq<Bar>, lookback: nat, x: real)
    requires bars != []
    ensures var swing, some := SwingOf(x, Prior(bars, lookback)), 1 < |bars| && 1 <= lookback;
            && (swing == 1.0 <==> some && forall i: nat :: Recent(bars, lookback, i) ==> bars[i].high < x)
            && (swing == -1.0 <==>
                  && some && (forall i: nat :: Recent(bars, lookback, i) ==> x < bars[i].low)
                  && !(forall i: nat :: Recent(bars, lookback, i) ==> bars[i].high < x))
            && swing in {1.0, 0.0, -1.0}
  {
    var prior := Prior(bars, lookback);
    var lost := |bars| - 1 - |prior|;
    if prior != [] {
      MaxHighMeaning(prior, x);
      MinLowMeaning(prior, x);
    }
    forall i: nat | Recent(bars, lookback, i) ensures 0 <= i - lost < |prior| && prior[i - lost] == bars[i] {}
    forall j | 0 <= j < |prior| ensures Recent(bars, lookback, j + lost) && prior[j] == bars[j + lost] {}
    hide MaxHigh, MinLow;
  }

  // ---------- volatility and volume ----------

  /** The four volatility states, from the ATR as a share of the price and the realized volatility. */
  lemma VolatilityMeaning(c: RoleConfig, atrPercent: real, realized: real)
    requires ValidConfig(c)
    ensures var v := VolatilityOf(c, atrPercent, realized);
            && (v.Extreme? <==> c.extremeAtr <= atrPercent || c.extremeVolatility <= realized)
            && (v.High? <==> !v.Extreme? && (c.highAtr <= atrPercent || c.highVolatility <= realized))
            && (v.Low? <==> 3.0 * atrPercent < c.highAtr && realized < c.highVolatility)
  {
  }

  /** The volume is rising when the latest mean exceeds the longer mean by more than a tenth, falling when it
      is more than a tenth below, and steady otherwise and without any volume. */
  lemma VolumeMeaning(bars: seq<Bar>, short: nat, long: nat)
    requires 1 <= short < long <= |bars| && forall i :: 0 <= i < |bars| ==> 0.0 <= bars[i].volume
    ensures var vs := Volumes(bars);
            var recent, base := Mean(vs[|vs| - short..]), Mean(vs[|vs| - long..]);
            var v := VolumeOf(VolumeRatio(bars, short, long));
            && 0.0 <= base
            && (v.Rising? <==> 0.0 < base && 1.10 * base < recent)
            && (v.Falling? <==> 0.0 < base && recent < 0.90 * base)
  {
    var vs := Volumes(bars);
    var recent, base := vs[|vs| - short..], vs[|vs| - long..];
    SumNonNegative(base);
    Quotient(Sum(base), |base| as real);
    hide Sum;
    if Mean(base) > 0.0 {
      RatioAgainst(Mean(recent), Mean(base), 1.10);
      RatioAgainst(Mean(recent), Mean(base), 0.90);
    }
  }

  lemma RatioAgainst(x: real, y: real, z: real)
    requires 0.0 < y
    ensures x / y > z <==> z * y < x
    ensures x / y < z <==> x < z * y
  {
    var q := x / y;
    assert Times(q, y) == x && Times(z, y) == z * y;
    if q < z { MulLess(q, z, y); }
    if z < q { MulLess(z, q, y); }
  }

  // ---------- state ----------

  predicate Ranging(c: RoleConfig, f: Features, swing: real) {
    f.fast - f.atr * c.rangeRatio < f.slow < f.fast + f.atr * c.rangeRatio && swing == 0.0
  }

  /** The trend points away from both averages, strongly when they are ordered the same way. A timeframe
      that ranges, or whose price lies between the averages, has none. */
  lemma TrendMeaning(c: RoleConfig, timeframe: Timeframe, f: Features, swing: real)
    ensures var s, ranging := StateFrom(c, timeframe, f, swing), Ranging(c, f, swing);
            && (s.trend.StrongUp? <==> !ranging && f.slow < f.fast < f.close)
            && (s.trend.Up? <==> !ranging && f.fast <= f.slow < f.close)
            && (s.trend.StrongDown? <==> !ranging && f.close < f.fast < f.slow)
            && (s.trend.Down? <==> !ranging && f.close < f.slow <= f.fast)
            && (s.trend.Flat? <==> ranging || f.fast <= f.close <= f.slow || f.slow <= f.close <= f.fast)
            && (s.momentum.Bullish? <==> c.rsiBullish <= f.rsi && 0.0 < f.histogram)
            && (s.momentum.Bearish? <==> !s.momentum.Bullish? && f.rsi <= c.rsiBearish && f.histogram < 0.0)
  {
    hide RawScore, VolatilityOf, VolumeOf, Clamp;
  }

  predicate IsSign(x: real) {
    x == 1.0 || x == 0.0 || x == -1.0
  }

  /** A timeframe scores 1 exactly when trend, momentum, breakout and last return all point up, and -1 exactly
      when they all point down. */
  lemma FullScoreIff(c: RoleConfig, timeframe: Timeframe, f: Features, swing: real)
    requires IsSign(swing)
    ensures var s := StateFrom(c, timeframe, f, swing);
            && -1.0 <= s.score <= 1.0
            && (s.score == 1.0 <==> s.trend.StrongUp? && s.momentum.Bullish? && swing == 1.0 && 0.0 < f.lastReturn)
            && (s.score == -1.0 <==> s.trend.StrongDown? && s.momentum.Bearish? && swing == -1.0 && f.lastReturn < 0.0)
  {
    hide VolatilityOf, VolumeOf, RangeLike;
  }

  /** What a signal adds to the score of a timeframe that does not range, the other signals being equal: a
      breakout 0.15, a positive last return 0.10, bullish momentum 0.30. Their opposites take as much away. */
  lemma SignalsAdd(c: RoleConfig, timeframe: Timeframe, f: Features, g: Features, swing: real, other: real)
    requires !RangeLike(c, f) && !RangeLike(c, g) && IsSign(swing) && IsSign(other)
    requires f.close == g.close && f.fast == g.fast && f.slow == g.slow
    ensures var s, t := StateFrom(c, timeframe, f, swing), StateFrom(c, timeframe, g, other);
            s.score - t.score == 0.15 * (swing - other) + 0.10 * (SignOf(f.lastReturn) - SignOf(g.lastReturn))
                                 + 0.30 * (Direction(s.momentum) - Direction(t.momentum))
  {
    ScoreOfState(c, timeframe, f, swing);
    ScoreOfState(c, timeframe, g, other);
    hide VolatilityOf, VolumeOf, RangeLike, StateFrom;
  }

  /** Up, level or down, as a number. */
  function Direction(m: Momentum): real {
    match m
    case Bullish => 1.0
    case Level => 0.0
    case Bearish => -1.0
  }

  /** The score of a timeframe that does not range needs no clamp. */
  lemma ScoreOfState(c: RoleConfig, timeframe: Timeframe, f: Features, swing: real)
    requires !RangeLike(c, f) && IsSign(swing)
    ensures var s := StateFrom(c, timeframe, f, swing);
            s.score == RawScore(TrendOf(f.close, f.fast, f.slow).1, Direction(s.momentum), swing, SignOf(f.lastReturn))
  {
    hide VolatilityOf, VolumeOf, RangeLike;
  }

  /** The trend adds 0.45, or 0.27 when the averages are not yet ordered, to a timeframe that does not range. */
  lemma TrendAdds(c: RoleConfig, timeframe: Timeframe, f: Features, flat: Features, swing: real)
    requires !RangeLike(c, f) && !RangeLike(c, flat) && IsSign(swing)
    requires StateFrom(c, timeframe, flat, swing).trend.Flat? && SignOf(f.lastReturn) == SignOf(flat.lastReturn)
    requires StateFrom(c, timeframe, f, swing).momentum == StateFrom(c, timeframe, flat, swing).momentum
    ensures var s, t := StateFrom(c, timeframe, f, swing), StateFrom(c, timeframe, flat, swing);
            s.score - t.score == match s.trend
                                 case StrongUp => 0.45
                                 case Up => 0.27
                                 case Flat => 0.0
                                 case Down => -0.27
                                 case StrongDown => -0.45
  {
    hide VolatilityOf, VolumeOf, RangeLike;
  }

  /** Ranging quarters the score that the same features would have with a narrower range. */
  lemma RangingQuarters(c: RoleConfig, narrow: RoleConfig, timeframe: Timeframe, f: Features)
    requires narrow == c.(rangeRatio := narrow.rangeRatio) && RangeLike(c, f) && !RangeLike(narrow, f)
    ensures 4.0 * StateFrom(c, timeframe, f, 0.0).score == StateFrom(narrow, timeframe, f, 0.0).score
  {
    hide VolatilityOf, VolumeOf, RangeLike;
  }
}
