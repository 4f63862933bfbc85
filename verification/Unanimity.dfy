/** What a verdict says about its timeframes, and which of the clamps can change a value. */
module Unanimity {
  import opened RealArithmetic
  import opened Indicators
  import opened IndicatorLaws
  import opened Technical

  ghost predicate AtLeast(states: seq<FrameState>, lo: real) {
    forall i :: 0 <= i < |states| ==> lo <= states[i].score
  }

  ghost predicate AtMost(states: seq<FrameState>, hi: real) {
    forall i :: 0 <= i < |states| ==> states[i].score <= hi
  }

  lemma WeightPositive(c: RoleConfig, t: Timeframe)
    requires ValidConfig(c)
    ensures 0.0 < WeightOf(c, t)
  {
  }

  lemma TimesZero(x: real)
    ensures Times(x, 0.0) == 0.0
  {
  }

  /** One more weighted score at or above a bound. */
  lemma OneMoreAbove(c: RoleConfig, lo: real, s: FrameState, sum: real, total: real)
    requires ValidConfig(c) && lo <= s.score && Times(lo, total) <= sum
    ensures Times(lo, total + WeightOf(c, s.timeframe)) <= sum + Contribution(c, s)
    ensures lo < s.score || Times(lo, total) < sum ==> Times(lo, total + WeightOf(c, s.timeframe)) < sum + Contribution(c, s)
  {
    var w := WeightOf(c, s.timeframe);
    WeightPositive(c, s.timeframe);
    DistributeLeft(lo, total, w);
    assert Times(lo, total + w) == Times(lo, total) + Times(lo, w);
    if lo < s.score { MulLess(lo, s.score, w); }
    assert Contribution(c, s) == Times(s.score, w);
    hide Times, Contribution, WeightOf;
  }

  /** A lower bound of the scores bounds their weighted sum. */
  lemma {:induction false} WeightedSumAbove(c: RoleConfig, states: seq<FrameState>, lo: real)
    requires ValidConfig(c) && AtLeast(states, lo)
    ensures Times(lo, TotalWeight(c, states)) <= WeightedSum(c, states)
  {
    hide Times, WeightOf, Contribution, ValidConfig;
    TimesZero(lo);
    if states != [] {
      var n := |states| - 1;
      WeightedSumAbove(c, states[..n], lo);
      OneMoreAbove(c, lo, states[n], WeightedSum(c, states[..n]), TotalWeight(c, states[..n]));
    }
  }

  /** Strictly, when one score is above the bound. */
  lemma {:induction false} WeightedSumExceeds(c: RoleConfig, states: seq<FrameState>, lo: real, i: nat)
    requires ValidConfig(c) && AtLeast(states, lo) && i < |states| && lo < states[i].score
    ensures Times(lo, TotalWeight(c, states)) < WeightedSum(c, states)
  {
    hide Times, WeightOf, Contribution, ValidConfig;
    var n := |states| - 1;
    WeightedSumAbove(c, states[..n], lo);
    if i < n {
      WeightedSumExceeds(c, states[..n], lo, i);
    }
    OneMoreAbove(c, lo, states[n], WeightedSum(c, states[..n]), TotalWeight(c, states[..n]));
  }

  predicate Opposite(s: FrameState, t: FrameState) {
    t.timeframe == s.timeframe && t.score == -s.score
  }

  function Negated(states: seq<FrameState>): (ts: seq<FrameState>)
    ensures |ts| == |states| && forall i :: 0 <= i < |states| ==> Opposite(states[i], ts[i])
  {
    seq(|states|, i requires 0 <= i < |states| => states[i].(score := -states[i].score))
  }

  lemma {:induction false} NegatedSums(c: RoleConfig, states: seq<FrameState>)
    ensures WeightedSum(c, Negated(states)) == -WeightedSum(c, states)
    ensures TotalWeight(c, Negated(states)) == TotalWeight(c, states)
  {
    if states != [] {
      var n := |states| - 1;
      NegatedSums(c, states[..n]);
      assert Negated(states)[..n] == Negated(states[..n]);
      assert Opposite(states[n], Negated(states)[n]);
      NegativeProduct(states[n].score, WeightOf(c, states[n].timeframe));
      hide WeightOf;
    }
  }

  lemma NegatedScore(c: RoleConfig, states: seq<FrameState>)
    requires ValidConfig(c) && states != []
    ensures WeightedScore(c, Negated(states)) == -WeightedScore(c, states)
  {
    hide Negated, WeightedSum, TotalWeight;
    NegatedSums(c, states);
    TotalWeightPositive(c, states);
    NegativeQuotient(WeightedSum(c, states), TotalWeight(c, states));
    hide ValidConfig;
  }

  lemma NegatedBounds(states: seq<FrameState>, hi: real)
    requires AtMost(states, hi)
    ensures AtLeast(Negated(states), -hi)
  {
    hide Negated;
    forall i | 0 <= i < |states| ensures -hi <= Negated(states)[i].score {
      assert Opposite(states[i], Negated(states)[i]);
    }
  }

  lemma QuotientAbove(sum: real, total: real, lo: real)
    requires 0.0 < total && Times(lo, total) <= sum
    ensures lo <= sum / total
    ensures Times(lo, total) < sum ==> lo < sum / total
  {
    var z := sum / total;
    assert Times(z, total) == sum;
    TimesOrder(lo, z, total);
  }

  lemma ScoreAbove(c: RoleConfig, states: seq<FrameState>, lo: real)
    requires ValidConfig(c) && states != [] && AtLeast(states, lo)
    ensures lo <= WeightedScore(c, states)
    ensures forall i :: 0 <= i < |states| && lo < states[i].score ==> lo < WeightedScore(c, states)
  {
    hide WeightedSum, TotalWeight, Times, AtLeast;
    TotalWeightPositive(c, states);
    WeightedSumAbove(c, states, lo);
    QuotientAbove(WeightedSum(c, states), TotalWeight(c, states), lo);
    forall i | 0 <= i < |states| && lo < states[i].score ensures lo < WeightedScore(c, states) {
      WeightedSumExceeds(c, states, lo, i);
    }
  }

  lemma ScoreBelow(c: RoleConfig, states: seq<FrameState>, hi: real)
    requires ValidConfig(c) && states != [] && AtMost(states, hi)
    ensures WeightedScore(c, states) <= hi
    ensures forall i :: 0 <= i < |states| && states[i].score < hi ==> WeightedScore(c, states) < hi
  {
    hide Negated, WeightedScore, AtLeast, AtMost, ValidConfig;
    var ts := Negated(states);
    NegatedBounds(states, hi);
    ScoreAbove(c, ts, -hi);
    NegatedScore(c, states);
    forall i | 0 <= i < |states| && states[i].score < hi ensures WeightedScore(c, states) < hi {
      assert Opposite(states[i], ts[i]);
    }
  }

  /** The weighted score lies between the extreme scores, and touches one of them only when all
      scores are equal to it. */
  lemma WeightedScoreRange(c: RoleConfig, states: seq<FrameState>, lo: real, hi: real)
    requires ValidConfig(c) && states != [] && AtLeast(states, lo) && AtMost(states, hi)
    ensures lo <= WeightedScore(c, states) <= hi
    ensures WeightedScore(c, states) == lo || WeightedScore(c, states) == hi ==>
              forall i :: 0 <= i < |states| ==> states[i].score == WeightedScore(c, states)
  {
    ScoreAbove(c, states, lo);
    ScoreBelow(c, states, hi);
    hide WeightedScore, ValidConfig;
  }

  // ---------- counting ----------

  lemma {:induction false} CountsMeaning(states: seq<FrameState>, threshold: real)
    ensures Positives(states, threshold) <= |states| && Negatives(states, threshold) <= |states|
    ensures Positives(states, threshold) == 0 <==> forall i :: 0 <= i < |states| ==> states[i].score <= threshold
    ensures Negatives(states, threshold) == 0 <==> forall i :: 0 <= i < |states| ==> -threshold <= states[i].score
  {
    if states != [] {
      CountsMeaning(states[..|states| - 1], threshold);
    }
  }

  /** LONG means that no timeframe scores below the negated threshold, SHORT that none scores above
      the threshold: when the counts do not exclude it, the weighted average does. */
  lemma DirectionIsUnanimous(c: RoleConfig, states: seq<FrameState>)
    requires ValidConfig(c) && states != []
    ensures Judge(c, states).bias.Long? ==> forall i :: 0 <= i < |states| ==> -c.neutralThreshold <= states[i].score
    ensures Judge(c, states).bias.Short? ==> forall i :: 0 <= i < |states| ==> states[i].score <= c.neutralThreshold
  {
    var t := c.neutralThreshold;
    CountsMeaning(states, t);
    hide Positives, Negatives, WeightedScore, NeutralConfidence, DirectionalConfidence, Agitated;
    if Positives(states, t) == 0 {
      assert AtMost(states, t);
      ScoreBelow(c, states, t);
    }
    if Negatives(states, t) == 0 {
      ScoreAbove(c, states, -t);
    }
  }

  /** Exactly when the analysis is undecided. */
  lemma NeutralIffWeakOrConflict(c: RoleConfig, states: seq<FrameState>)
    requires ValidConfig(c) && states != []
    ensures Judge(c, states).bias.Neutral? <==>
            || Abs(WeightedScore(c, states)) < c.neutralThreshold
            || ((exists i :: 0 <= i < |states| && c.neutralThreshold < states[i].score) &&
                (exists i :: 0 <= i < |states| && states[i].score < -c.neutralThreshold))
  {
    CountsMeaning(states, c.neutralThreshold);
    hide Positives, Negatives, WeightedScore, NeutralConfidence, DirectionalConfidence, Agitated;
  }

  // ---------- clamps ----------

  /** The score before its clamp. */
  function Unclamped(c: RoleConfig, f: Features, swing: real): real {
    var raw := RawScore(TrendOf(f.close, f.fast, f.slow).1, MomentumOf(c, f.rsi, f.histogram).1, swing, SignOf(f.lastReturn));
    if RangeLike(c, f) && swing == 0.0 then raw * 0.25 else raw
  }

  /** The clamp of a timeframe's score never changes it. */
  lemma ScoreIsUnclamped(c: RoleConfig, timeframe: Timeframe, f: Features, close: real, prior: seq<Bar>)
    ensures var swing := SwingOf(close, prior);
            StateFrom(c, timeframe, f, swing).score == Unclamped(c, f, swing)
    ensures -1.0 <= StateFrom(c, timeframe, f, SwingOf(close, prior)).score <= 1.0
  {
    var swing := SwingOf(close, prior);
    var t, m, r := TrendOf(f.close, f.fast, f.slow).1, MomentumOf(c, f.rsi, f.histogram).1, SignOf(f.lastReturn);
    assert -1.0 <= swing <= 1.0 && -1.0 <= t <= 1.0 && -1.0 <= m <= 1.0 && -1.0 <= r <= 1.0;
    hide SwingOf, TrendOf, MomentumOf, SignOf, RangeLike, VolatilityOf, VolumeOf;
    assert -1.0 <= RawScore(t, m, swing, r) <= 1.0;
    hide RawScore;
  }

  lemma RatioOrder(x: real, y: real)
    requires 0.0 < y
    ensures x / y <= 1.0 <==> x <= y
    ensures 0.0 <= x ==> 0.0 <= x / y
  {
    var z := x / y;
    assert z * y == x;
    if z <= 1.0 { MulLe(z, 1.0, y); } else { MulLess(1.0, z, y); }
    if z < 0.0 { MulLess(z, 0.0, y); }
  }

  /** The inner `max` of a neutral confidence changes the value exactly when a conflict hides a score
      beyond the threshold; the outer `min` never does. */
  lemma NeutralClamps(c: RoleConfig, score: real)
    requires ValidConfig(c)
    ensures var distance := 1.0 - Abs(score) / c.neutralThreshold;
            && (Max(0.0, distance) != distance <==> c.neutralThreshold < Abs(score))
            && NeutralConfidence(c, score) == Max(0.0, distance) * 0.60
    ensures 0.0 <= NeutralConfidence(c, score) <= 0.60
  {
    RatioOrder(Abs(score), c.neutralThreshold);
  }

  /** The cap of the strength changes the value exactly beyond the strong threshold; the outer `min`
      never does. */
  lemma DirectionalClamps(c: RoleConfig, score: real, matching: nat, count: nat)
    requires ValidConfig(c) && matching <= count && count != 0
    ensures var strength := Abs(score) / c.strongThreshold;
            && (Min(1.0, strength) != strength <==> c.strongThreshold < Abs(score))
            && DirectionalConfidence(c, score, matching, count) == Min(1.0, strength) * 0.65 + matching as real / count as real * 0.35
    ensures 0.0 <= DirectionalConfidence(c, score, matching, count) <= 1.0
  {
    RatioOrder(Abs(score), c.strongThreshold);
    RatioOrder(matching as real, count as real);
  }

  /** Every verdict has a confidence between 0 and 1, an undecided one at most 0.6. */
  lemma ConfidenceRange(c: RoleConfig, states: seq<FrameState>)
    requires ValidConfig(c) && states != []
    ensures 0.0 <= Judge(c, states).confidence <= 1.0
    ensures Judge(c, states).bias.Neutral? ==> Judge(c, states).confidence <= 0.60
  {
    var score := WeightedScore(c, states);
    CountsMeaning(states, c.neutralThreshold);
    NeutralClamps(c, score);
    DirectionalClamps(c, score, Positives(states, c.neutralThreshold), |states|);
    DirectionalClamps(c, score, Negatives(states, c.neutralThreshold), |states|);
    hide Positives, Negatives, WeightedScore, NeutralConfidence, DirectionalConfidence, Agitated;
  }

  // ---------- features ----------

  ghost predicate PricesWithin(bars: seq<Bar>, lo: real, hi: real) {
    forall i :: 0 <= i < |bars| ==> lo <= bars[i].close <= hi
  }

  /** The averages stay within the closes, the ATR within the true ranges, the RSI within 0 and 100. */
  lemma FeatureRanges(p: Pipeline, spread: seq<real> -> real, bars: seq<Bar>, lo: real, hi: real, low: real, high: real)
    requires ValidPipeline(p) && Enough(p, |bars|) && ValidBars(bars) && PricesWithin(bars, lo, hi)
    requires forall i :: 0 <= i < |bars| ==> low <= TrueRanges(bars)[i] <= high
    ensures var f := FeaturesOf(p, spread, bars);
            lo <= f.fast <= hi && lo <= f.slow <= hi && low <= f.atr <= high && 0.0 <= f.rsi <= 100.0
  {
    var cs := Closes(bars);
    assert forall i :: 0 <= i < |cs| ==> lo <= cs[i] <= hi;
    hide FeaturesOf, EmaValues, Rsi, Histogram, Wilder, TrueRanges, Return, VolumeRatio, Closes, ValidBars, PricesWithin, Positive;
    FeatureFields(p, spread, bars);
    EmaRange(cs, p.emaFast, lo, hi);
    EmaRange(cs, p.emaSlow, lo, hi);
    RsiUnclamped(cs, p.rsi);
    WilderRange(TrueRanges(bars), p.atr, low, high);
  }
}
