/** The session metrics and the additive anxiety rule table that both
    `DataProcessing.get_comprehensive_analysis` and
    `AdvancedAnxietyDetector.get_comprehensive_assessment` apply. */
module Scoring {
  import opened Numerics

  /** Per-minute rates, ratios and averages the rule table reads. */
  datatype Metrics = Metrics(
    blinkRate: real,
    avgBlinkDuration: real,
    blinkVariance: real,
    saccadeRate: real,
    centerRatio: real,
    edgeRatio: real,
    avgVelocity: real)

  /** The indicator messages, one tag per message. */
  datatype Indicator =
    | HighBlinkRate
    | VeryLowBlinkRate
    | RapidBlinking
    | ProlongedBlinks
    | IrregularBlinking
    | ExcessiveEyeMovements
    | StrongCenterAvoidance
    | ModerateCenterAvoidance
    | HighEdgeFixation
    | RapidScanning

  datatype Severity = High | Moderate | Mild | NoSignificant

  const AnxietyBlinkRate: real := 30.0
  const LowBlinkRate: real := 8.0
  const ShortBlinkDuration: real := 0.1
  const LongBlinkDuration: real := 0.5
  const IrregularVariance: real := 0.2
  const AnxietySaccadeRate: real := 6.0
  const StrongAvoidanceRatio: real := 0.2
  const ModerateAvoidanceRatio: real := 0.4
  const EdgeFixationRatio: real := 0.3
  const ScanningVelocity: real := 150.0
  /** The `max_score` the analysis reports. */
  const MaxScore: nat := 15

  // ----------------------------------------------------------- metrics

  /** `count / minutes if minutes > 0 else 0`. */
  function Rate(count: nat, minutes: real): (r: real)
    ensures 0.0 <= r
    ensures minutes <= 0.0 ==> r == 0.0
    ensures 0.0 < minutes ==> r * minutes == count as real
  {
    if minutes > 0.0 then count as real / minutes else 0.0
  }

  /** `count / max(1, total)`. */
  function Ratio(count: nat, total: nat): (r: real)
    ensures 0.0 <= r
    ensures count <= total ==> r <= 1.0
    ensures 0 < total ==> r * total as real == count as real
    ensures total == 0 ==> r == count as real
  {
    var d := if total < 1 then 1 else total;
    assert count <= total ==> count as real / d as real <= 1.0 by {
      if count <= total {
        DivideWithin(count as real, d as real, 0.0, 1.0);
      }
    }
    count as real / d as real
  }

  /** `np.mean(xs) if xs else 0`. */
  function MeanOrZero(xs: seq<real>): real
  {
    if |xs| > 0 then Mean(xs) else 0.0
  }

  lemma MeanOrZeroNonNegative(xs: seq<real>)
    requires forall i :: 0 <= i < |xs| ==> 0.0 <= xs[i]
    ensures 0.0 <= MeanOrZero(xs)
  {
    if |xs| > 0 {
      NonNegativeSum(xs);
    }
  }

  /** `np.var` of the successive differences of the blink durations, or 0
      with fewer than two durations. */
  function BlinkVariance(durations: seq<real>): (v: real)
    ensures 0.0 <= v
    ensures |durations| <= 1 ==> v == 0.0
  {
    if |durations| > 1 then
      VarianceNonNegative(Differences(durations));
      Variance(Differences(durations))
    else 0.0
  }

  /** The metrics of a session of `minutes` minutes. */
  function SessionMetrics(
    minutes: real, blinkCount: nat, saccadeCount: nat, totalPositions: nat,
    centerCount: nat, edgeCount: nat, velocities: seq<real>, blinkDurations: seq<real>): Metrics
  {
    Metrics(
      Rate(blinkCount, minutes),
      MeanOrZero(blinkDurations),
      BlinkVariance(blinkDurations),
      Rate(saccadeCount, minutes),
      Ratio(centerCount, totalPositions),
      Ratio(edgeCount, totalPositions),
      MeanOrZero(velocities))
  }

  /** Metrics as a well-kept session produces them: rates, averages and the
      variance non-negative, ratios fractions. */
  predicate WellFormed(m: Metrics)
  {
    && 0.0 <= m.blinkRate && 0.0 <= m.avgBlinkDuration && 0.0 <= m.blinkVariance
    && 0.0 <= m.saccadeRate && 0.0 <= m.avgVelocity
    && 0.0 <= m.centerRatio <= 1.0 && 0.0 <= m.edgeRatio <= 1.0
  }

  lemma SessionMetricsWellFormed(
    minutes: real, blinkCount: nat, saccadeCount: nat, totalPositions: nat,
    centerCount: nat, edgeCount: nat, velocities: seq<real>, blinkDurations: seq<real>)
    requires centerCount <= totalPositions && edgeCount <= totalPositions
    requires forall i :: 0 <= i < |velocities| ==> 0.0 <= velocities[i]
    requires forall i :: 0 <= i < |blinkDurations| ==> 0.0 <= blinkDurations[i]
    ensures WellFormed(SessionMetrics(minutes, blinkCount, saccadeCount, totalPositions,
                                      centerCount, edgeCount, velocities, blinkDurations))
  {
    MeanOrZeroNonNegative(velocities);
    MeanOrZeroNonNegative(blinkDurations);
  }

  // -------------------------------------------------------- rule table

  function Points(i: Indicator): nat
  {
    match i
    case HighBlinkRate => 3
    case VeryLowBlinkRate => 1
    case RapidBlinking => 2
    case ProlongedBlinks => 1
    case IrregularBlinking => 1
    case ExcessiveEyeMovements => 2
    case StrongCenterAvoidance => 3
    case ModerateCenterAvoidance => 2
    case HighEdgeFixation => 2
    case RapidScanning => 1
  }

  function TotalPoints(xs: seq<Indicator>): nat
  {
    if |xs| == 0 then 0 else TotalPoints(xs[..|xs| - 1]) + Points(xs[|xs| - 1])
  }

  lemma {:induction false} TotalPointsAppend(a: seq<Indicator>, b: seq<Indicator>)
    ensures TotalPoints(a + b) == TotalPoints(a) + TotalPoints(b)
    decreases |b|
  {
    if |b| > 0 {
      var n := |b| - 1;
      assert (a + b)[..|a + b| - 1] == a + b[..n];
      assert (a + b)[|a + b| - 1] == b[n];
      TotalPointsAppend(a, b[..n]);
      assert TotalPoints(b) == TotalPoints(b[..n]) + Points(b[n]);
    } else {
      assert a + b == a;
    }
  }

  /** The seven rules, in the order the source checks them: blink rate,
      blink duration, blink irregularity, saccade rate, centre avoidance,
      edge fixation, scanning velocity. */
  const RuleCount: nat := 7

  /** The indicator rule `k` appends (at most one: tiered rules are
      `if`/`elif` chains). */
  function RuleIndicators(m: Metrics, k: nat): seq<Indicator>
  {
    match k
    case 0 =>
      if m.blinkRate > AnxietyBlinkRate then [HighBlinkRate]
      else if m.blinkRate < LowBlinkRate then [VeryLowBlinkRate]
      else []
    case 1 =>
      if m.avgBlinkDuration > 0.0 then
        if m.avgBlinkDuration < ShortBlinkDuration then [RapidBlinking]
        else if m.avgBlinkDuration > LongBlinkDuration then [ProlongedBlinks]
        else []
      else []
    case 2 => if m.blinkVariance > IrregularVariance then [IrregularBlinking] else []
    case 3 => if m.saccadeRate > AnxietySaccadeRate then [ExcessiveEyeMovements] else []
    case 4 =>
      if m.centerRatio < StrongAvoidanceRatio then [StrongCenterAvoidance]
      else if m.centerRatio < ModerateAvoidanceRatio then [ModerateCenterAvoidance]
      else []
    case 5 => if m.edgeRatio > EdgeFixationRatio then [HighEdgeFixation] else []
    case _ => if m.avgVelocity > ScanningVelocity then [RapidScanning] else []
  }

  /** What rule `k` adds to `anxiety_score`. */
  function RulePoints(m: Metrics, k: nat): nat
  {
    match k
    case 0 => if m.blinkRate > AnxietyBlinkRate then 3 else if m.blinkRate < LowBlinkRate then 1 else 0
    case 1 =>
      if m.avgBlinkDuration > 0.0 then
        if m.avgBlinkDuration < ShortBlinkDuration then 2 else if m.avgBlinkDuration > LongBlinkDuration then 1 else 0
      else 0
    case 2 => if m.blinkVariance > IrregularVariance then 1 else 0
    case 3 => if m.saccadeRate > AnxietySaccadeRate then 2 else 0
    case 4 => if m.centerRatio < StrongAvoidanceRatio then 3 else if m.centerRatio < ModerateAvoidanceRatio then 2 else 0
    case 5 => if m.edgeRatio > EdgeFixationRatio then 2 else 0
    case _ => if m.avgVelocity > ScanningVelocity then 1 else 0
  }

  /** The most rule `k` can add: its highest tier. */
  function RuleMaximum(k: nat): nat
  {
    match k
    case 0 => 3
    case 1 => 2
    case 2 => 1
    case 3 => 2
    case 4 => 3
    case 5 => 2
    case _ => 1
  }

  /** The rule that can raise an indicator. */
  function RuleOf(t: Indicator): nat
  {
    match t
    case HighBlinkRate => 0
    case VeryLowBlinkRate => 0
    case RapidBlinking => 1
    case ProlongedBlinks => 1
    case IrregularBlinking => 2
    case ExcessiveEyeMovements => 3
    case StrongCenterAvoidance => 4
    case ModerateCenterAvoidance => 4
    case HighEdgeFixation => 5
    case RapidScanning => 6
  }

  /** One rule: it raises at most one indicator, and its points are that
      indicator's points and at most its highest tier. */
  lemma RuleFacts(m: Metrics, k: nat)
    requires k < RuleCount
    ensures |RuleIndicators(m, k)| <= 1
    ensures RulePoints(m, k) == TotalPoints(RuleIndicators(m, k)) <= RuleMaximum(k)
  {
  }

  /** A rule's points are the points of the indicator it raises. */
  lemma RulePointsMatch(m: Metrics, k: nat)
    ensures RulePoints(m, k) == TotalPoints(RuleIndicators(m, k))
  {
  }

  /** A rule raises only indicators of its own. */
  lemma RuleOwns(m: Metrics, k: nat, t: Indicator)
    requires k < RuleCount
    ensures t in RuleIndicators(m, k) ==> RuleOf(t) == k
  {
  }

  /** The indicators raised by the first `k` rules, in order. */
  function IndicatorsUpTo(m: Metrics, k: nat): seq<Indicator>
  {
    if k == 0 then [] else IndicatorsUpTo(m, k - 1) + RuleIndicators(m, k - 1)
  }

  /** The score accumulated by the first `k` rules. */
  function ScoreUpTo(m: Metrics, k: nat): nat
  {
    if k == 0 then 0 else ScoreUpTo(m, k - 1) + RulePoints(m, k - 1)
  }

  function MaximumUpTo(k: nat): nat
  {
    if k == 0 then 0 else MaximumUpTo(k - 1) + RuleMaximum(k - 1)
  }

  /** The indicator list of `get_comprehensive_analysis`. */
  function Indicators(m: Metrics): seq<Indicator>
  {
    IndicatorsUpTo(m, RuleCount)
  }

  /** The `anxiety_score` of `get_comprehensive_analysis`. */
  function Score(m: Metrics): nat
  {
    ScoreUpTo(m, RuleCount)
  }

  /** The first `k` rules score the points of the indicators they raise. */
  lemma {:induction false} UpToScore(m: Metrics, k: nat)
    requires k <= RuleCount
    ensures ScoreUpTo(m, k) == TotalPoints(IndicatorsUpTo(m, k))
  {
    if k > 0 {
      var before, here := IndicatorsUpTo(m, k - 1), RuleIndicators(m, k - 1);
      UpToScore(m, k - 1);
      RulePointsMatch(m, k - 1);
      TotalPointsAppend(before, here);
      assert IndicatorsUpTo(m, k) == before + here;
      assert ScoreUpTo(m, k) == ScoreUpTo(m, k - 1) + RulePoints(m, k - 1);
    }
  }

  /** The first `k` rules raise at most one indicator each and score at
      most their highest tiers. */
  lemma {:induction false} UpToBounds(m: Metrics, k: nat)
    requires k <= RuleCount
    ensures ScoreUpTo(m, k) <= MaximumUpTo(k)
    ensures |IndicatorsUpTo(m, k)| <= k
  {
    if k > 0 {
      UpToBounds(m, k - 1);
      RuleFacts(m, k - 1);
    }
  }

  /** The first `k` rules raise exactly the indicators whose own rule is
      among them and raises it. */
  lemma {:induction false} UpToMembership(m: Metrics, k: nat, t: Indicator)
    requires k <= RuleCount
    ensures t in IndicatorsUpTo(m, k) <==> RuleOf(t) < k && t in RuleIndicators(m, RuleOf(t))
  {
    if k > 0 {
      UpToMembership(m, k - 1, t);
      RuleOwns(m, k - 1, t);
      assert t in IndicatorsUpTo(m, k) <==> t in IndicatorsUpTo(m, k - 1) || t in RuleIndicators(m, k - 1);
    }
  }

  /** The score is the sum of the points of the reported indicators, and it
      never reaches the reported maximum: the largest attainable score is
      14. */
  lemma ScoreMatchesIndicators(m: Metrics)
    ensures Score(m) == TotalPoints(Indicators(m))
    ensures Score(m) <= 14 < MaxScore
    ensures |Indicators(m)| <= RuleCount
  {
    UpToScore(m, RuleCount);
    UpToBounds(m, RuleCount);
    assert MaximumUpTo(RuleCount) == 14;
  }

  /** An indicator is reported exactly when its own rule raises it. */
  lemma InIndicators(m: Metrics, t: Indicator)
    ensures t in Indicators(m) <==> t in RuleIndicators(m, RuleOf(t))
  {
    UpToMembership(m, RuleCount, t);
  }

  /** Each blink indicator is raised exactly when its rule's condition
      holds, so the tiers of one rule exclude each other. */
  lemma BlinkIndicatorConditions(m: Metrics)
    ensures HighBlinkRate in Indicators(m) <==> m.blinkRate > AnxietyBlinkRate
    ensures VeryLowBlinkRate in Indicators(m) <==> m.blinkRate < LowBlinkRate
    ensures RapidBlinking in Indicators(m) <==> 0.0 < m.avgBlinkDuration < ShortBlinkDuration
    ensures ProlongedBlinks in Indicators(m) <==> m.avgBlinkDuration > LongBlinkDuration
    ensures IrregularBlinking in Indicators(m) <==> m.blinkVariance > IrregularVariance
  {
    InIndicators(m, HighBlinkRate);
    InIndicators(m, VeryLowBlinkRate);
    InIndicators(m, RapidBlinking);
    InIndicators(m, ProlongedBlinks);
    InIndicators(m, IrregularBlinking);
  }

  /** Each gaze indicator is raised exactly when its rule's condition holds. */
  lemma GazeIndicatorConditions(m: Metrics)
    ensures ExcessiveEyeMovements in Indicators(m) <==> m.saccadeRate > AnxietySaccadeRate
    ensures StrongCenterAvoidance in Indicators(m) <==> m.centerRatio < StrongAvoidanceRatio
    ensures ModerateCenterAvoidance in Indicators(m) <==> StrongAvoidanceRatio <= m.centerRatio < ModerateAvoidanceRatio
    ensures HighEdgeFixation in Indicators(m) <==> m.edgeRatio > EdgeFixationRatio
    ensures RapidScanning in Indicators(m) <==> m.avgVelocity > ScanningVelocity
  {
    InIndicators(m, ExcessiveEyeMovements);
    InIndicators(m, StrongCenterAvoidance);
    InIndicators(m, ModerateCenterAvoidance);
    InIndicators(m, HighEdgeFixation);
    InIndicators(m, RapidScanning);
  }

  /** The bound 14 is reached. */
  lemma ScoreReachesFourteen()
    ensures Score(Metrics(31.0, 0.05, 0.3, 7.0, 0.1, 0.4, 200.0)) == 14
  {
  }

  /** The assessment tiers: 8 and above, 5 and above, 2 and above. */
  function SeverityOf(score: nat): Severity
  {
    if score >= 8 then High
    else if score >= 5 then Moderate
    else if score >= 2 then Mild
    else NoSignificant
  }

  function Rank(s: Severity): nat
  {
    match s
    case NoSignificant => 0
    case Mild => 1
    case Moderate => 2
    case High => 3
  }

  /** A higher score never gives a milder assessment, and each tier starts
      at its threshold. */
  lemma SeverityMonotone(a: nat, b: nat)
    requires a <= b
    ensures Rank(SeverityOf(a)) <= Rank(SeverityOf(b))
    ensures SeverityOf(a) == High <==> a >= 8
    ensures SeverityOf(a) == NoSignificant <==> a < 2
  {
  }

  /** What both analysers report besides their own extra fields. */
  datatype Assessment = Assessment(
    severity: Severity,
    score: nat,
    maxScore: nat,
    sessionDuration: real,
    blinkCount: nat,
    metrics: Metrics,
    indicators: seq<Indicator>)

  /** The scored assessment of a session's metrics. */
  function Assess(minutes: real, blinkCount: nat, m: Metrics): (a: Assessment)
    ensures a.score <= 14 < a.maxScore
    ensures a.score == TotalPoints(a.indicators)
    ensures a.severity == SeverityOf(a.score)
  {
    ScoreMatchesIndicators(m);
    Assessment(SeverityOf(Score(m)), Score(m), MaxScore, minutes, blinkCount, m, Indicators(m))
  }
}
