/** What a judgement says, told from the scores: bias, confidence and reasons, number by number. */
module Judgements {
  import opened RealArithmetic
  import opened Indicators
  import opened Technical
  import opened Unanimity
  import opened Trends

  /** The timeframes that score above `x`. */
  function Above(states: seq<FrameState>, x: real): set<nat> {
    set i: nat | i < |states| && states[i].score > x
  }

  /** The timeframes that score below `x`. */
  function Below(states: seq<FrameState>, x: real): set<nat> {
    set i: nat | i < |states| && states[i].score < x
  }

  lemma CountsAreCardinalities(states: seq<FrameState>, threshold: real)
    ensures Positives(states, threshold) == |Above(states, threshold)|
    ensures Negatives(states, threshold) == |Below(states, -threshold)|
  {
    PositivesAreAbove(states, threshold);
    NegativesAreBelow(states, threshold);
  }

  lemma {:induction false} PositivesAreAbove(states: seq<FrameState>, threshold: real)
    ensures Positives(states, threshold) == |Above(states, threshold)|
  {
    if states != [] {
      var n := |states| - 1;
      PositivesAreAbove(states[..n], threshold);
      assert Above(states, threshold) == Above(states[..n], threshold) + (if states[n].score > threshold then {n} else {});
    }
  }

  lemma {:induction false} NegativesAreBelow(states: seq<FrameState>, threshold: real)
    ensures Negatives(states, threshold) == |Below(states, -threshold)|
  {
    if states != [] {
      var n := |states| - 1;
      NegativesAreBelow(states[..n], threshold);
      assert Below(states, -threshold) == Below(states[..n], -threshold) + (if states[n].score < -threshold then {n} else {});
    }
  }

  /** The share that `x` has of a bound, at most the whole. */
  function CappedShare(x: real, bound: real): real
    requires bound != 0.0
  {
    if bound <= x then 1.0 else x / bound
  }

  lemma ShareIsCapped(x: real, bound: real)
    requires 0.0 < bound
    ensures Min(1.0, x / bound) == CappedShare(x, bound)
    ensures Max(0.0, 1.0 - x / bound) == 1.0 - CappedShare(x, bound)
  {
    RatioOrder(x, bound);
    if x == bound {
      DivUnique(x, bound, 1.0);
    }
  }

  /** The confidence in a direction: 65 hundredths for the size of the weighted score against the strong
      threshold, 35 for the share of the timeframes that agree. Without a direction: 60 hundredths for the
      distance from the threshold. */
  ghost predicate ConfidenceMeans(c: RoleConfig, a: Analysis)
    requires ValidConfig(c) && a.Judged? && a.states != []
  {
    var score, t, n := WeightedScore(c, a.states), c.neutralThreshold, |a.states| as real;
    match a.bias
    case Long => a.confidence == 0.65 * CappedShare(score, c.strongThreshold) + 0.35 * (|Above(a.states, t)| as real / n)
    case Short => a.confidence == 0.65 * CappedShare(-score, c.strongThreshold) + 0.35 * (|Below(a.states, -t)| as real / n)
    case Neutral => a.confidence == 0.60 * (1.0 - CappedShare(Abs(score), t))
  }

  /** The bias, the confidence and the reasons of a judgement, from the weighted score and the number of
      timeframes on each side of the threshold. */
  lemma JudgementMeaning(c: RoleConfig, states: seq<FrameState>)
    requires ValidConfig(c) && states != []
    ensures var a, score, t := Judge(c, states), WeightedScore(c, states), c.neutralThreshold;
            var up, down := Above(states, t), Below(states, -t);
            var conflict := up != {} && down != {};
            var agitated := exists i :: 0 <= i < |states| && (states[i].volatility.High? || states[i].volatility.Extreme?);
            && a.Judged? && a.states == states
            && (a.bias.Long? <==> t <= score && !conflict)
            && (a.bias.Short? <==> score <= -t && !conflict)
            && ConfidenceMeans(c, a)
            && (TimeframeConflict in a.reasons <==> conflict)
            && (HighVolatility in a.reasons <==> agitated)
            && (NoClearEdge in a.reasons <==> a.bias.Neutral?)
  {
    var score, t := WeightedScore(c, states), c.neutralThreshold;
    CountsMeaning(states, t);
    CountsAreCardinalities(states, t);
    assert Agitated(states) <==> exists i :: 0 <= i < |states| && (states[i].volatility.High? || states[i].volatility.Extreme?);
    hide WeightedScore, Positives, Negatives, Agitated, NeutralConfidence, DirectionalConfidence, CappedShare, Above, Below, Verdict;
    assert Above(states, t) == {} <==> |Above(states, t)| == 0;
    assert Below(states, -t) == {} <==> |Below(states, -t)| == 0;
    VerdictMeaning(c, score, |Above(states, t)|, |Below(states, -t)|, |states|, Agitated(states));
    JudgeIsVerdict(c, states);
  }

  lemma JudgeIsVerdict(c: RoleConfig, states: seq<FrameState>)
    requires ValidConfig(c) && states != []
    ensures var v := Verdict(c, WeightedScore(c, states), Positives(states, c.neutralThreshold), Negatives(states, c.neutralThreshold),
                             |states|, Agitated(states));
            Judge(c, states) == Judged(v.0, v.1, v.2, states)
  {
    hide WeightedScore, Positives, Negatives, Agitated, Verdict;
  }

  lemma VerdictMeaning(c: RoleConfig, score: real, up: nat, down: nat, n: nat, agitated: bool)
    requires ValidConfig(c) && up <= n && down <= n && n != 0
    ensures var v, t, conflict := Verdict(c, score, up, down, n, agitated), c.neutralThreshold, up != 0 && down != 0;
            && (v.0.Long? <==> t <= score && !conflict)
            && (v.0.Short? <==> score <= -t && !conflict)
            && (v.0.Long? ==> v.1 == 0.65 * CappedShare(score, c.strongThreshold) + 0.35 * (up as real / n as real))
            && (v.0.Short? ==> v.1 == 0.65 * CappedShare(-score, c.strongThreshold) + 0.35 * (down as real / n as real))
            && (v.0.Neutral? ==> v.1 == 0.60 * (1.0 - CappedShare(Abs(score), t)))
            && (TimeframeConflict in v.2 <==> conflict)
            && (HighVolatility in v.2 <==> agitated)
            && (NoClearEdge in v.2 <==> v.0.Neutral?)
  {
    DirectionalClamps(c, score, up, n);
    DirectionalClamps(c, score, down, n);
    NeutralClamps(c, score);
    ShareIsCapped(Abs(score), c.strongThreshold);
    ShareIsCapped(Abs(score), c.neutralThreshold);
    hide NeutralConfidence, DirectionalConfidence, CappedShare, Min, Max, ValidPipeline;
  }

  /** The same of every analysis that reaches a verdict. */
  lemma AnalysisMeaning(c: RoleConfig, spread: seq<real> -> real, asset: Instrument,
                        required: set<(Instrument, Timeframe)>, series: seq<Series>)
    requires ValidConfig(c) && Admissible(series)
    ensures var a := Analyzed(c, spread, asset, required, series); a.Judged? ==> a.states != [] && ConfidenceMeans(c, a)
  {
    hide Judge, StatesOf, ConfidenceMeans, Keys, ForeignSeries, Analyzed, Enough, ValidPipeline;
    JudgedIffReady(c, spread, asset, required, series);
    if Analyzed(c, spread, asset, required, series).Judged? {
      JudgementMeaning(c, StatesOf(c, spread, series));
    }
  }

  /** At the same weighted score, one more timeframe that agrees with the direction adds 0.35 / n. */
  lemma OneMoreAgrees(c: RoleConfig, ss: seq<FrameState>, ss': seq<FrameState>)
    requires ValidConfig(c) && ss != [] && |ss'| == |ss| && WeightedScore(c, ss') == WeightedScore(c, ss)
    ensures var a, a', t, n := Judge(c, ss), Judge(c, ss'), c.neutralThreshold, |ss| as real;
            && (a.bias.Long? && a'.bias.Long? && |Above(ss', t)| == |Above(ss, t)| + 1 ==> a'.confidence == a.confidence + 0.35 / n)
            && (a.bias.Short? && a'.bias.Short? && |Below(ss', -t)| == |Below(ss, -t)| + 1 ==> a'.confidence == a.confidence + 0.35 / n)
  {
    JudgementMeaning(c, ss);
    JudgementMeaning(c, ss');
    hide Judge, WeightedScore, CappedShare, Above, Below;
    OneMoreShare(|Above(ss, c.neutralThreshold)| as real, |ss| as real);
    OneMoreShare(|Below(ss, -c.neutralThreshold)| as real, |ss| as real);
  }

  lemma OneMoreShare(k: real, n: real)
    requires 0.0 < n
    ensures 0.35 * ((k + 1.0) / n) == 0.35 * (k / n) + 0.35 / n
  {
    var x, y := k / n, 1.0 / n;
    assert x * n == k && y * n == 1.0;
    Distribute(x, y, n);
    DivUnique(k + 1.0, n, x + y);
    DivUnique(0.35, n, 0.35 * y);
  }

  // ---------- weights ----------

  /** A timeframe without a configured weight counts with weight 1. */
  lemma WeightMeaning(c: RoleConfig, t: Timeframe)
    ensures t in c.weights ==> WeightOf(c, t) == c.weights[t]
    ensures t !in c.weights ==> WeightOf(c, t) == 1.0
  {
  }

  /** Adding a timeframe moves the weighted mean: the old mean counts with the old total weight. */
  lemma MeanWithOneMore(c: RoleConfig, states: seq<FrameState>, s: FrameState)
    requires ValidConfig(c) && states != []
    ensures TotalWeight(c, states + [s]) == TotalWeight(c, states) + WeightOf(c, s.timeframe)
    ensures WeightedScore(c, states + [s]) * TotalWeight(c, states + [s]) ==
            WeightedScore(c, states) * TotalWeight(c, states) + s.score * WeightOf(c, s.timeframe)
  {
    hide WeightOf;
    TotalWeightPositive(c, states);
    TotalWeightPositive(c, states + [s]);
    assert (states + [s])[..|states|] == states;
    assert WeightedSum(c, states + [s]) == WeightedSum(c, states) + s.score * WeightOf(c, s.timeframe);
    QuotientBack(WeightedSum(c, states), TotalWeight(c, states));
    QuotientBack(WeightedSum(c, states + [s]), TotalWeight(c, states + [s]));
  }

  lemma QuotientBack(x: real, y: real)
    requires y != 0.0
    ensures x / y * y == x
  {
  }

  lemma ScoreOfOne(c: RoleConfig, s: FrameState)
    requires ValidConfig(c)
    ensures WeightedScore(c, [s]) == s.score
  {
    WeightedScoreRange(c, [s], s.score, s.score);
  }

  // ---------- history ----------

  /** The number of bars that the features need. */
  function BarsNeeded(p: Pipeline): nat {
    var most := [p.emaFast, p.emaSlow, p.rsi + 1, p.macdSlow + p.macdSignal, p.atr + 1, p.lookback + 1, p.volatility + 1, p.volumeLong];
    Largest(most)
  }

  function Largest(xs: seq<nat>): nat {
    if xs == [] then 0 else
      var rest := Largest(xs[1..]);
      if rest <= xs[0] then xs[0] else rest
  }

  lemma {:induction false} LargestBounds(xs: seq<nat>, n: nat)
    ensures Largest(xs) <= n <==> forall i :: 0 <= i < |xs| ==> xs[i] <= n
  {
    if xs != [] {
      LargestBounds(xs[1..], n);
      assert forall i :: 1 <= i < |xs| ==> xs[i] == xs[1..][i - 1];
      if Largest(xs) <= n {
        forall i | 0 <= i < |xs| ensures xs[i] <= n {
          assert i > 0 ==> xs[1..][i - 1] <= n;
        }
      }
    }
  }

  lemma EnoughIff(p: Pipeline, n: nat)
    ensures Enough(p, n) <==> BarsNeeded(p) <= n
  {
    var most := [p.emaFast, p.emaSlow, p.rsi + 1, p.macdSlow + p.macdSignal, p.atr + 1, p.lookback + 1, p.volatility + 1, p.volumeLong];
    LargestBounds(most, n);
    hide Largest;
    if BarsNeeded(p) <= n {
      assert most[0] <= n && most[1] <= n && most[2] <= n && most[3] <= n && most[4] <= n && most[5] <= n && most[6] <= n && most[7] <= n;
    }
  }

  /** Which abstention: a foreign series or a short history is a failure, wrong, repeated or missing series
      are an insufficient history; the foreign series is noticed first. */
  lemma AbstentionMeaning(c: RoleConfig, spread: seq<real> -> real, asset: Instrument,
                          required: set<(Instrument, Timeframe)>, series: seq<Series>)
    requires ValidConfig(c) && Admissible(series)
    ensures var a := Analyzed(c, spread, asset, required, series);
            var foreign := exists i :: 0 <= i < |series| && series[i].instrument != asset;
            var exact := Keys(series) == required && |Keys(series)| == |series|;
            var short := exists i :: 0 <= i < |series| && |series[i].bars| < BarsNeeded(c.pipeline);
            && (a == Abstained(FeatureFailure) <==> foreign || (exact && short))
            && (a == Abstained(InsufficientHistory) <==> !foreign && (!exact || series == []))
  {
    forall i | 0 <= i < |series| ensures Enough(c.pipeline, |series[i].bars|) <==> BarsNeeded(c.pipeline) <= |series[i].bars| {
      EnoughIff(c.pipeline, |series[i].bars|);
    }
    hide StatesOf, Keys, Verdict, WeightedScore, Positives, Negatives, Agitated, ValidConfig, Admissible, Enough, BarsNeeded;
  }

  // ---------- an example ----------

  const DEFAULT_WEIGHTS: map<Timeframe, real> := map[D1 := 0.35, H4 := 0.30, H1 := 0.20, M15 := 0.15]

  lemma MeanOfFour(c: RoleConfig, a: FrameState, b: FrameState, d: FrameState, e: FrameState)
    requires ValidConfig(c) && c.weights == DEFAULT_WEIGHTS
    requires a.timeframe == D1 && b.timeframe == H4 && d.timeframe == H1 && e.timeframe == M15
    ensures WeightedScore(c, [a, b, d, e]) == a.score * 0.35 + b.score * 0.30 + d.score * 0.20 + e.score * 0.15
  {
    assert WeightOf(c, D1) == 0.35 && WeightOf(c, H4) == 0.30 && WeightOf(c, H1) == 0.20 && WeightOf(c, M15) == 0.15;
    assert [a][..0] == [] && [a, b][..1] == [a] && [a, b, d][..2] == [a, b] && [a, b, d, e][..3] == [a, b, d];
    assert WeightedSum(c, [a]) == a.score * 0.35 && TotalWeight(c, [a]) == 0.35;
    assert WeightedSum(c, [a, b]) == a.score * 0.35 + b.score * 0.30 && TotalWeight(c, [a, b]) == 0.65;
    assert WeightedSum(c, [a, b, d]) == a.score * 0.35 + b.score * 0.30 + d.score * 0.20 && TotalWeight(c, [a, b, d]) == 0.85;
    assert TotalWeight(c, [a, b, d, e]) == 1.0;
  }

  /** With the default weights and thresholds, two timeframes at 0.7 and two at 0.1 are LONG with a
      confidence of 0.665: half of the timeframes agree. */
  lemma HalfAgreementExample(c: RoleConfig, a: FrameState, b: FrameState, d: FrameState, e: FrameState)
    requires ValidConfig(c) && c.weights == DEFAULT_WEIGHTS && c.neutralThreshold == 0.18 && c.strongThreshold == 0.65
    requires a.timeframe == D1 && b.timeframe == H4 && d.timeframe == H1 && e.timeframe == M15
    requires a.score == 0.7 && b.score == 0.7 && d.score == 0.1 && e.score == 0.1
    ensures var j := Judge(c, [a, b, d, e]); j.Judged? && j.bias.Long? && j.confidence == 0.665
  {
    var states := [a, b, d, e];
    assert Above(states, 0.18) == {0, 1};
    assert Below(states, -0.18) == {};
    hide Judge, WeightedScore, Above, Below;
    MeanOfFour(c, a, b, d, e);
    JudgementMeaning(c, states);
    DivUnique(0.49, 0.65, 0.49 / 0.65);
  }
}
