/** `SocialAnxietyDetector`: the simpler analyser of the social-anxiety
    tracker. It counts debounced blinks, stores gaze positions, counts the
    ones far from the centre of an assumed 1920x1080 screen, and scores the
    session out of 6. */
module SocialDetection {
  import opened Numerics
  import opened CalibrationModel
  import opened Signals
  import opened Scoring

  const SocialCenterX: int := 960
  const SocialCenterY: int := 540
  /** A blinking frame within 0.3 s of the last counted blink is the same
      blink. */
  const BlinkDebounce: real := 0.3
  const HighBlinkRateThreshold: real := 30.0
  const GazeAvoidanceThreshold: real := 0.7
  const RapidMovementThreshold: real := 100.0
  /** The movements are taken over the last 10 positions. */
  const MovementWindow: nat := 10
  /** The denominator the score is shown against. */
  const SocialMaxScore: nat := 6

  // ------------------------------------------------------------- blinks

  /** Successive counted blinks are more than 0.3 s apart. */
  ghost predicate Debounced(ts: seq<real>)
  {
    forall i :: 0 < i < |ts| ==> ts[i] - ts[i - 1] > BlinkDebounce
  }

  /** Whether a frame at `now` counts a new blink. */
  predicate Registers(ts: seq<real>, now: real, blinking: bool)
  {
    blinking && (|ts| == 0 || now - ts[|ts| - 1] > BlinkDebounce)
  }

  /** The blink timestamps after one frame. */
  function RegisterBlink(ts: seq<real>, now: real, blinking: bool): seq<real>
  {
    if Registers(ts, now, blinking) then ts + [now] else ts
  }

  /** One frame keeps the timestamps debounced, adds at most one, and adds
      exactly `now` when it counts. */
  lemma RegisterBlinkDebounced(ts: seq<real>, now: real, blinking: bool)
    requires Debounced(ts)
    ensures Debounced(RegisterBlink(ts, now, blinking))
    ensures Registers(ts, now, blinking) ==> RegisterBlink(ts, now, blinking) == ts + [now]
    ensures !Registers(ts, now, blinking) ==> RegisterBlink(ts, now, blinking) == ts
    ensures !blinking ==> RegisterBlink(ts, now, blinking) == ts
  {
  }

  /** The blink timestamps after a run of frames. */
  function BlinkTimestampsRun(ts: seq<real>, frames: seq<BlinkFrame>): seq<real>
    decreases |frames|
  {
    if |frames| == 0 then ts
    else
      var last := frames[|frames| - 1];
      RegisterBlink(BlinkTimestampsRun(ts, frames[..|frames| - 1]), last.time, last.blinking)
  }

  /** Any run of frames keeps the timestamps debounced and counts at most
      one blink per frame. */
  lemma {:induction false} BlinkTimestampsRunDebounced(ts: seq<real>, frames: seq<BlinkFrame>)
    requires Debounced(ts)
    ensures Debounced(BlinkTimestampsRun(ts, frames))
    ensures |ts| <= |BlinkTimestampsRun(ts, frames)| <= |ts| + |frames|
    decreases |frames|
  {
    if |frames| > 0 {
      var last := frames[|frames| - 1];
      BlinkTimestampsRunDebounced(ts, frames[..|frames| - 1]);
      RegisterBlinkDebounced(BlinkTimestampsRun(ts, frames[..|frames| - 1]), last.time, last.blinking);
    }
  }

  /** `n` debounced blinks span more than `0.3 * (n - 1)` seconds, so a
      blink held over many frames is counted at most once per 0.3 s. */
  lemma {:induction false} DebouncedSpan(ts: seq<real>)
    requires Debounced(ts) && |ts| > 0
    ensures ts[|ts| - 1] - ts[0] >= (|ts| - 1) as real * BlinkDebounce
  {
    if |ts| > 1 {
      var init := ts[..|ts| - 1];
      assert Debounced(init) by {
        forall i | 0 < i < |init|
          ensures init[i] - init[i - 1] > BlinkDebounce
        {
          assert init[i] == ts[i] && init[i - 1] == ts[i - 1];
        }
      }
      DebouncedSpan(init);
      assert ts[|ts| - 1] - ts[|ts| - 2] > BlinkDebounce;
    }
  }

  // ------------------------------------------------------------ movements

  /** The rapid-movement test: with more than 10 positions, the mean
      distance between successive positions among the last 10 exceeds 100
      pixels. */
  ghost predicate RapidMovement(root: real -> real, ps: seq<ScreenPoint>)
  {
    |ps| > MovementWindow && MeanOrZero(Movements(root, ps[|ps| - MovementWindow..])) > RapidMovementThreshold
  }

  /** Successive points of `window` are at most 100 pixels apart. */
  predicate SteadyWindow(window: seq<ScreenPoint>)
  {
    forall i :: 0 <= i < |window| - 1 ==>
      SquaredDistance(window[i + 1], window[i]) <= 100 * 100
  }

  /** Successive points of `window` are more than 100 pixels apart. */
  predicate JumpyWindow(window: seq<ScreenPoint>)
  {
    forall i :: 0 <= i < |window| - 1 ==>
      SquaredDistance(window[i + 1], window[i]) > 100 * 100
  }

  /** Steps of at most 100 pixels never trigger the rapid-movement test. */
  lemma SteadyIsNotRapid(root: real -> real, ps: seq<ScreenPoint>)
    requires IsSqrt(root)
    requires |ps| > MovementWindow && SteadyWindow(ps[|ps| - MovementWindow..])
    ensures !RapidMovement(root, ps)
  {
    var window := ps[|ps| - MovementWindow..];
    var ms := Movements(root, window);
    forall i | 0 <= i < |ms|
      ensures 0.0 <= ms[i] <= RapidMovementThreshold
    {
      var d2 := SquaredDistance(window[i + 1], window[i]) as real;
      SqrtNonNegative(root, d2);
      SqrtAtMost(root, d2, RapidMovementThreshold);
    }
    MeanWithin(ms, 0.0, RapidMovementThreshold);
  }

  /** Steps all longer than 100 pixels always trigger it. */
  lemma JumpyIsRapid(root: real -> real, ps: seq<ScreenPoint>)
    requires IsSqrt(root)
    requires |ps| > MovementWindow && JumpyWindow(ps[|ps| - MovementWindow..])
    ensures RapidMovement(root, ps)
  {
    var window := ps[|ps| - MovementWindow..];
    var ms := Movements(root, window);
    forall i | 0 <= i < |ms|
      ensures RapidMovementThreshold < ms[i]
    {
      var d2 := SquaredDistance(window[i + 1], window[i]) as real;
      SqrtAtMost(root, d2, RapidMovementThreshold);
    }
    MeanAbove(ms, RapidMovementThreshold);
  }

  // -------------------------------------------------------------- scoring

  /** The indicator messages of `detect_anxiety_indicators`. */
  datatype SocialIndicator = FrequentBlinking | GazeAvoidance | RapidEyeMovements

  function SocialPoints(k: SocialIndicator): nat
  {
    match k
    case FrequentBlinking => 2
    case GazeAvoidance => 3
    case RapidEyeMovements => 1
  }

  function SocialScore(xs: seq<SocialIndicator>): nat
  {
    if |xs| == 0 then 0 else SocialScore(xs[..|xs| - 1]) + SocialPoints(xs[|xs| - 1])
  }

  /** Appends `k` when its rule fired. */
  function AddIf(xs: seq<SocialIndicator>, fired: bool, k: SocialIndicator): seq<SocialIndicator>
  {
    if fired then xs + [k] else xs
  }

  /** Appending a fired indicator adds its points. */
  lemma AddIfScore(xs: seq<SocialIndicator>, fired: bool, k: SocialIndicator)
    ensures SocialScore(AddIf(xs, fired, k)) == SocialScore(xs) + if fired then SocialPoints(k) else 0
  {
    if fired {
      assert (xs + [k])[..|xs|] == xs;
    }
  }

  /** Appending a fired indicator makes it present and leaves the others
      as they were. */
  lemma AddIfHas(xs: seq<SocialIndicator>, fired: bool, k: SocialIndicator, j: SocialIndicator)
    ensures j in AddIf(xs, fired, k) <==> j in xs || (fired && j == k)
  {
  }

  /** The indicators, in the order the rules are applied. */
  function SocialIndicators(blinkRate: real, avoidance: real, rapid: bool): seq<SocialIndicator>
  {
    var afterBlink := AddIf([], blinkRate > HighBlinkRateThreshold, FrequentBlinking);
    var afterGaze := AddIf(afterBlink, avoidance > GazeAvoidanceThreshold, GazeAvoidance);
    AddIf(afterGaze, rapid, RapidEyeMovements)
  }

  /** `_get_anxiety_assessment`: 5 and above, 3 and above, 1 and above. */
  function SocialSeverityOf(score: nat): Severity
  {
    if score >= 5 then High
    else if score >= 3 then Moderate
    else if score >= 1 then Mild
    else NoSignificant
  }

  /** Each indicator is present exactly when its rule fires. */
  lemma SocialIndicatorsPresent(blinkRate: real, avoidance: real, rapid: bool)
    ensures FrequentBlinking in SocialIndicators(blinkRate, avoidance, rapid) <==> blinkRate > HighBlinkRateThreshold
    ensures GazeAvoidance in SocialIndicators(blinkRate, avoidance, rapid) <==> avoidance > GazeAvoidanceThreshold
    ensures RapidEyeMovements in SocialIndicators(blinkRate, avoidance, rapid) <==> rapid
  {
    var afterBlink := AddIf([], blinkRate > HighBlinkRateThreshold, FrequentBlinking);
    var afterGaze := AddIf(afterBlink, avoidance > GazeAvoidanceThreshold, GazeAvoidance);
    AddIfHas(afterBlink, avoidance > GazeAvoidanceThreshold, GazeAvoidance, FrequentBlinking);
    AddIfHas(afterGaze, rapid, RapidEyeMovements, FrequentBlinking);
    AddIfHas(afterGaze, rapid, RapidEyeMovements, GazeAvoidance);
  }

  /** The score adds 2, 3 and 1 for the rules that fired, so it never
      exceeds 6. */
  lemma SocialIndicatorConditions(blinkRate: real, avoidance: real, rapid: bool)
    ensures SocialScore(SocialIndicators(blinkRate, avoidance, rapid))
      == (if blinkRate > HighBlinkRateThreshold then 2 else 0)
       + (if avoidance > GazeAvoidanceThreshold then 3 else 0)
       + (if rapid then 1 else 0)
    ensures SocialScore(SocialIndicators(blinkRate, avoidance, rapid)) <= SocialMaxScore
  {
    var afterBlink := AddIf([], blinkRate > HighBlinkRateThreshold, FrequentBlinking);
    var afterGaze := AddIf(afterBlink, avoidance > GazeAvoidanceThreshold, GazeAvoidance);
    AddIfScore([], blinkRate > HighBlinkRateThreshold, FrequentBlinking);
    AddIfScore(afterBlink, avoidance > GazeAvoidanceThreshold, GazeAvoidance);
    AddIfScore(afterGaze, rapid, RapidEyeMovements);
  }

  /** The tiers for each combination of fired rules. */
  lemma SeverityOfPoints(blink: bool, gaze: bool, rapid: bool)
    ensures var s := SocialSeverityOf((if blink then 2 else 0) + (if gaze then 3 else 0) + (if rapid then 1 else 0));
      && (s == High <==> gaze && blink)
      && (s == NoSignificant <==> !blink && !gaze && !rapid)
      && (s == Mild <==> !gaze && (blink <==> !rapid))
  {
  }

  /** The tiers in terms of the rules: a high assessment needs both gaze
      avoidance and a high blink rate, a mild one exactly one of the blink
      and movement rules without gaze avoidance, and none is reported only
      when no rule fires. */
  lemma SocialSeverityRules(blinkRate: real, avoidance: real, rapid: bool)
    ensures var s := SocialSeverityOf(SocialScore(SocialIndicators(blinkRate, avoidance, rapid)));
      && (s == High <==> avoidance > GazeAvoidanceThreshold && blinkRate > HighBlinkRateThreshold)
      && (s == NoSignificant <==> !(blinkRate > HighBlinkRateThreshold) && !(avoidance > GazeAvoidanceThreshold) && !rapid)
      && (s == Mild <==> !(avoidance > GazeAvoidanceThreshold) && (blinkRate > HighBlinkRateThreshold <==> !rapid))
  {
    SocialIndicatorConditions(blinkRate, avoidance, rapid);
    SeverityOfPoints(blinkRate > HighBlinkRateThreshold, avoidance > GazeAvoidanceThreshold, rapid);
  }

  /** A higher score never gives a milder assessment. */
  lemma SocialSeverityMonotone(a: nat, b: nat)
    requires a <= b
    ensures Rank(SocialSeverityOf(a)) <= Rank(SocialSeverityOf(b))
  {
  }

  /** The dictionary `detect_anxiety_indicators` returns. */
  datatype SocialReport = SocialReport(
    score: nat,
    indicators: seq<SocialIndicator>,
    blinkRate: real,
    gazeAvoidance: real,
    assessment: Severity)

  // ------------------------------------------------------------- detector

  class SocialAnxietyDetector {
    var blinkCount: nat
    var blinkTimestamps: seq<real>
    /** `(position, timestamp)` of every frame that carried a gaze. */
    var gazePositions: seq<TimedPoint>
    var avoidanceCount: nat
    var sessionStart: real

    /** The blink count is the number of debounced timestamps, and the
        avoidance count counts the stored positions far from the centre. */
    ghost predicate Valid()
      reads this
    {
      && blinkCount == |blinkTimestamps|
      && Debounced(blinkTimestamps)
      && avoidanceCount == CountIf(Positions(gazePositions), AvoidanceZone(SocialCenterX, SocialCenterY))
    }

    /** A detector whose session starts at `now`. */
    constructor(now: real)
      ensures blinkCount == 0 && blinkTimestamps == [] && gazePositions == []
      ensures avoidanceCount == 0 && sessionStart == now
      ensures Valid()
    {
      blinkCount, blinkTimestamps := 0, [];
      gazePositions, avoidanceCount := [], 0;
      sessionStart := now;
    }

    /** The blink section of `analyze_frame`: count a blink unless one
        was counted within the last 0.3 s. */
    method CountBlink(blinkingNow: bool, now: real)
      requires blinkCount == |blinkTimestamps| && Debounced(blinkTimestamps)
      modifies this
      ensures blinkTimestamps == RegisterBlink(old(blinkTimestamps), now, blinkingNow)
      ensures blinkCount == |blinkTimestamps| && Debounced(blinkTimestamps)
      ensures blinkCount == old(blinkCount) + if Registers(old(blinkTimestamps), now, blinkingNow) then 1 else 0
      ensures gazePositions == old(gazePositions) && avoidanceCount == old(avoidanceCount)
      ensures sessionStart == old(sessionStart)
    {
      RegisterBlinkDebounced(blinkTimestamps, now, blinkingNow);
      if blinkingNow {
        if |blinkTimestamps| == 0 || now - blinkTimestamps[|blinkTimestamps| - 1] > BlinkDebounce {
          blinkCount := blinkCount + 1;
          blinkTimestamps := blinkTimestamps + [now];
        }
      }
    }

    /** The gaze section of `analyze_frame`: store the position and count
        it when it is further than 400 pixels from (960, 540). */
    method RecordGaze(p: ScreenPoint, now: real, root: real -> real)
      requires IsSqrt(root)
      requires avoidanceCount == CountIf(Positions(gazePositions), AvoidanceZone(SocialCenterX, SocialCenterY))
      modifies this
      ensures gazePositions == old(gazePositions) + [TimedPoint(p, now)]
      ensures avoidanceCount == old(avoidanceCount) + if Avoiding(p, SocialCenterX, SocialCenterY) then 1 else 0
      ensures avoidanceCount == CountIf(Positions(gazePositions), AvoidanceZone(SocialCenterX, SocialCenterY))
      ensures blinkCount == old(blinkCount) && blinkTimestamps == old(blinkTimestamps)
      ensures sessionStart == old(sessionStart)
    {
      ghost var before := Positions(gazePositions);
      gazePositions := gazePositions + [TimedPoint(p, now)];
      assert Positions(gazePositions) == before + [p];
      CountIfAppend(before, p, AvoidanceZone(SocialCenterX, SocialCenterY));
      var distanceFromCenter := root(SquaredDistance(p, ScreenPoint(SocialCenterX, SocialCenterY)) as real);
      AvoidingIffDistance(root, p, SocialCenterX, SocialCenterY);
      if distanceFromCenter > AvoidanceRadius as real {
        avoidanceCount := avoidanceCount + 1;
      }
    }

    /** `analyze_frame` at time `now`. */
    method AnalyzeFrame(blinkingNow: bool, gaze: Option<ScreenPoint>, now: real, root: real -> real)
      requires Valid() && IsSqrt(root)
      modifies this
      ensures Valid()
      ensures blinkTimestamps == RegisterBlink(old(blinkTimestamps), now, blinkingNow)
      ensures blinkCount == old(blinkCount) + if Registers(old(blinkTimestamps), now, blinkingNow) then 1 else 0
      ensures gaze.None? ==> gazePositions == old(gazePositions) && avoidanceCount == old(avoidanceCount)
      ensures gaze.Some? ==> gazePositions == old(gazePositions) + [TimedPoint(gaze.value, now)]
      ensures gaze.Some? ==>
        avoidanceCount == old(avoidanceCount) + if Avoiding(gaze.value, SocialCenterX, SocialCenterY) then 1 else 0
      ensures sessionStart == old(sessionStart)
    {
      CountBlink(blinkingNow, now);
      if gaze.Some? {
        RecordGaze(gaze.value, now, root);
      }
    }

    /** `get_blink_rate`: counted blinks per minute of session, or 0 when
        no time has passed. */
    function GetBlinkRate(now: real): (r: real)
      reads this
      ensures 0.0 <= r
      ensures now <= sessionStart ==> r == 0.0
      ensures sessionStart < now ==> r * ((now - sessionStart) / 60.0) == blinkCount as real
    {
      Rate(blinkCount, (now - sessionStart) / 60.0)
    }

    /** `get_gaze_avoidance_ratio`: the share of stored positions that were
        far from the centre, or 0 with none. */
    function GetGazeAvoidanceRatio(): (r: real)
      reads this
      ensures 0.0 <= r
      ensures |gazePositions| == 0 ==> r == 0.0
      ensures 0 < |gazePositions| ==> r * |gazePositions| as real == avoidanceCount as real
      ensures Valid() ==> r <= 1.0
    {
      if |gazePositions| == 0 then 0.0 else Ratio(avoidanceCount, |gazePositions|)
    }

    /** The movement section of `detect_anxiety_indicators`: the distances
        between successive positions among the last 10. */
    method RecentMovements(root: real -> real) returns (movements: seq<real>)
      requires |gazePositions| > MovementWindow
      ensures movements == Movements(root, Positions(gazePositions)[|gazePositions| - MovementWindow..])
    {
      var recent := gazePositions[|gazePositions| - MovementWindow..];
      ghost var window := Positions(recent);
      movements := [];
      for i := 1 to |recent|
        invariant |movements| == i - 1
        invariant forall j :: 0 <= j < i - 1 ==>
          movements[j] == root(SquaredDistance(window[j + 1], window[j]) as real)
      {
        var prevPos := recent[i - 1].pos;
        var currPos := recent[i].pos;
        var movement := root(SquaredDistance(currPos, prevPos) as real);
        movements := movements + [movement];
      }
      assert window == Positions(gazePositions)[|gazePositions| - MovementWindow..];
    }

    /** The rapid-movement section of `detect_anxiety_indicators`. */
    method DetectRapidMovement(root: real -> real) returns (rapid: bool)
      ensures rapid == RapidMovement(root, Positions(gazePositions))
    {
      rapid := false;
      if |gazePositions| > MovementWindow {
        var movements := RecentMovements(root);
        var avgMovement := if |movements| > 0 then Mean(movements) else 0.0;
        if avgMovement > RapidMovementThreshold {
          rapid := true;
        }
      }
    }

    /** `detect_anxiety_indicators` at time `now`. */
    method DetectAnxietyIndicators(now: real, root: real -> real) returns (report: SocialReport)
      ensures report.blinkRate == GetBlinkRate(now)
      ensures report.gazeAvoidance == GetGazeAvoidanceRatio()
      ensures report.indicators == SocialIndicators(report.blinkRate, report.gazeAvoidance,
                                                    RapidMovement(root, Positions(gazePositions)))
      ensures report.score == SocialScore(report.indicators) <= SocialMaxScore
      ensures report.assessment == SocialSeverityOf(report.score)
    {
      var blinkRate := GetBlinkRate(now);
      var avoidanceRatio := GetGazeAvoidanceRatio();
      var indicators: seq<SocialIndicator> := [];
      var score: nat := 0;
      if blinkRate > HighBlinkRateThreshold {
        indicators := indicators + [FrequentBlinking];
        score := score + 2;
      }
      assert indicators == AddIf([], blinkRate > HighBlinkRateThreshold, FrequentBlinking);
      ghost var afterBlink := indicators;
      if avoidanceRatio > GazeAvoidanceThreshold {
        indicators := indicators + [GazeAvoidance];
        score := score + 3;
      }
      assert indicators == AddIf(afterBlink, avoidanceRatio > GazeAvoidanceThreshold, GazeAvoidance);
      ghost var afterGaze := indicators;
      var rapid := DetectRapidMovement(root);
      if rapid {
        indicators := indicators + [RapidEyeMovements];
        score := score + 1;
      }
      assert indicators == AddIf(afterGaze, rapid, RapidEyeMovements);
      SocialIndicatorConditions(blinkRate, avoidanceRatio, rapid);
      report := SocialReport(score, indicators, blinkRate, avoidanceRatio, SocialSeverityOf(score));
    }
  }
}
