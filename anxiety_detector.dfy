/** `AdvancedAnxietyDetector`: the per-frame analyser of the all-in-one
    tracker. It records raw (unsmoothed) gaze positions against a fixed
    1920x1080 screen, tracks blinks, velocities, saccades and zone counters,
    and scores the session with the shared rule table. */
module AnxietyDetection {
  import opened Numerics
  import opened CalibrationModel
  import opened Signals
  import opened Scoring

  /** The screen the detector assumes. */
  const AssumedWidth: int := 1920
  const AssumedHeight: int := 1080
  const AssumedCenterX: int := 960
  const AssumedCenterY: int := 540
  /** `max_history`: the recent-gaze list is cut back to 10 entries. */
  const MaxHistory: nat := 10

  class AdvancedAnxietyDetector {
    /** `is_currently_blinking`, `blink_start_time`, `blink_durations`,
        `blink_count` and `last_blink_time`. */
    var blink: BlinkState
    /** `(position, timestamp)` of every frame that carried a gaze. */
    var gazePositions: seq<TimedPoint>
    var gazeVelocities: seq<real>
    var saccadeCount: nat
    var sessionStart: real
    var frameCount: nat
    var centerGazeCount: nat
    var edgeGazeCount: nat
    var recentGazes: seq<TimedPoint>

    /** The counters count what their zone tests select in the stored
        positions, and the recent list holds the last 10 of them. */
    ghost predicate Valid()
      reads this
    {
      && BlinkConsistent(blink)
      && saccadeCount == CountIf(gazeVelocities, IsSaccade)
      && (forall i :: 0 <= i < |gazeVelocities| ==> 0.0 <= gazeVelocities[i])
      && |gazeVelocities| <= |gazePositions|
      && centerGazeCount == CountIf(Positions(gazePositions), CenterZone(AssumedCenterX, AssumedCenterY))
      && edgeGazeCount == CountIf(Positions(gazePositions), EdgeZone(AssumedWidth, AssumedHeight))
      && recentGazes == LastN(gazePositions, MaxHistory)
    }

    /** A detector whose session starts at `now`. */
    constructor(now: real)
      ensures blink == InitialBlink && gazePositions == [] && gazeVelocities == [] && saccadeCount == 0
      ensures sessionStart == now && frameCount == 0 && centerGazeCount == 0 && edgeGazeCount == 0
      ensures recentGazes == []
      ensures Valid()
    {
      blink := InitialBlink;
      gazePositions, gazeVelocities, saccadeCount := [], [], 0;
      sessionStart, frameCount := now, 0;
      centerGazeCount, edgeGazeCount := 0, 0;
      recentGazes := [];
    }

    /** The blink section of `analyze_frame`: a blink starts on the rising
        edge and, on the falling edge, its duration is recorded when the
        start time is truthy. */
    method TrackBlink(now: real, blinkingNow: bool)
      requires Valid()
      modifies this
      ensures blink == BlinkStep(old(blink), now, blinkingNow)
      ensures Valid()
      ensures gazePositions == old(gazePositions) && gazeVelocities == old(gazeVelocities)
      ensures saccadeCount == old(saccadeCount) && recentGazes == old(recentGazes)
      ensures centerGazeCount == old(centerGazeCount) && edgeGazeCount == old(edgeGazeCount)
      ensures frameCount == old(frameCount) && sessionStart == old(sessionStart)
    {
      BlinkTransitions(blink, now, blinkingNow);
      if blinkingNow && !blink.isBlinking {
        blink := blink.(startTime := Some(now), isBlinking := true);
      } else if !blinkingNow && blink.isBlinking {
        if Truthy(blink.startTime) {
          var duration := now - blink.startTime.value;
          blink := blink.(durations := blink.durations + [duration], count := blink.count + 1, lastBlinkTime := Some(now));
        }
        blink := blink.(isBlinking := false, startTime := None);
      }
    }

    /** The velocity section of `analyze_frame`: from the latest recent
        gaze to `p`, when time has passed, with a saccade counted above 300
        pixels per second. */
    method RecordVelocity(p: ScreenPoint, t: real, root: real -> real)
      requires IsSqrt(root)
      requires saccadeCount == CountIf(gazeVelocities, IsSaccade)
      requires forall i :: 0 <= i < |gazeVelocities| ==> 0.0 <= gazeVelocities[i]
      modifies this
      ensures gazeVelocities == old(gazeVelocities) + VelocitySample(root, recentGazes, p, t)
      ensures saccadeCount == CountIf(gazeVelocities, IsSaccade)
      ensures forall i :: 0 <= i < |gazeVelocities| ==> 0.0 <= gazeVelocities[i]
      ensures blink == old(blink) && gazePositions == old(gazePositions) && recentGazes == old(recentGazes)
      ensures centerGazeCount == old(centerGazeCount) && edgeGazeCount == old(edgeGazeCount)
      ensures frameCount == old(frameCount) && sessionStart == old(sessionStart)
    {
      VelocitySampleNonNegative(root, recentGazes, p, t);
      if |recentGazes| > 0 {
        var prev := recentGazes[|recentGazes| - 1];
        var distance := root(SquaredDistance(p, prev.pos) as real);
        var timeDiff := t - prev.time;
        if timeDiff > 0.0 {
          var velocity := distance / timeDiff;
          CountIfAppend(gazeVelocities, velocity, IsSaccade);
          gazeVelocities := gazeVelocities + [velocity];
          if velocity > SaccadeVelocityThreshold {
            saccadeCount := saccadeCount + 1;
          }
        }
      }
    }

    /** The zone section of `analyze_frame` on the newest stored position:
        centre within 200 pixels of (960, 540), edge within 100 pixels of a
        side of the assumed screen. */
    method CountZones(p: ScreenPoint, root: real -> real)
      requires IsSqrt(root)
      requires |gazePositions| > 0 && gazePositions[|gazePositions| - 1].pos == p
      requires var before := Positions(gazePositions[..|gazePositions| - 1]);
        && centerGazeCount == CountIf(before, CenterZone(AssumedCenterX, AssumedCenterY))
        && edgeGazeCount == CountIf(before, EdgeZone(AssumedWidth, AssumedHeight))
      modifies this
      ensures centerGazeCount == old(centerGazeCount) + if InCenterZone(p, AssumedCenterX, AssumedCenterY) then 1 else 0
      ensures edgeGazeCount == old(edgeGazeCount) + if InEdgeZone(p, AssumedWidth, AssumedHeight) then 1 else 0
      ensures centerGazeCount == CountIf(Positions(gazePositions), CenterZone(AssumedCenterX, AssumedCenterY))
      ensures edgeGazeCount == CountIf(Positions(gazePositions), EdgeZone(AssumedWidth, AssumedHeight))
      ensures blink == old(blink) && gazePositions == old(gazePositions) && gazeVelocities == old(gazeVelocities)
      ensures saccadeCount == old(saccadeCount) && recentGazes == old(recentGazes)
      ensures frameCount == old(frameCount) && sessionStart == old(sessionStart)
    {
      ghost var before := Positions(gazePositions[..|gazePositions| - 1]);
      assert Positions(gazePositions) == before + [p];
      CountIfAppend(before, p, CenterZone(AssumedCenterX, AssumedCenterY));
      CountIfAppend(before, p, EdgeZone(AssumedWidth, AssumedHeight));
      var centerDistance := root(SquaredDistance(p, ScreenPoint(AssumedCenterX, AssumedCenterY)) as real);
      CenterZoneIffDistance(root, p, AssumedCenterX, AssumedCenterY);
      if centerDistance <= CenterZoneRadius as real {
        centerGazeCount := centerGazeCount + 1;
      }
      if || p.x <= EdgeZoneMargin || p.x >= AssumedWidth - EdgeZoneMargin
         || p.y <= EdgeZoneMargin || p.y >= AssumedHeight - EdgeZoneMargin {
        edgeGazeCount := edgeGazeCount + 1;
      }
    }

    /** The gaze half of `analyze_frame`: store the position, add its
        velocity, keep the last 10 recent gazes, and update the zones. */
    method AnalyzeGaze(p: ScreenPoint, now: real, root: real -> real)
      requires Valid() && IsSqrt(root)
      modifies this
      ensures Valid()
      ensures gazePositions == old(gazePositions) + [TimedPoint(p, now)]
      ensures gazeVelocities == old(gazeVelocities) + VelocitySample(root, old(recentGazes), p, now)
      ensures blink == old(blink) && frameCount == old(frameCount) && sessionStart == old(sessionStart)
    {
      var tp := TimedPoint(p, now);
      ghost var oldPositions := gazePositions;
      gazePositions := gazePositions + [tp];
      RecordVelocity(p, now, root);
      LastNPush(oldPositions, tp, MaxHistory);
      recentGazes := recentGazes + [tp];
      if |recentGazes| > MaxHistory {
        recentGazes := recentGazes[1..];
      }
      assert recentGazes == Push(LastN(oldPositions, MaxHistory), tp, MaxHistory);
      assert gazePositions[..|gazePositions| - 1] == oldPositions;
      CountZones(p, root);
    }

    /** `analyze_frame` at time `now`: count the frame, step the blink state
        machine, and analyse the gaze position when there is one. */
    method AnalyzeFrame(blinkingNow: bool, gaze: Option<ScreenPoint>, now: real, root: real -> real)
      requires Valid() && IsSqrt(root)
      modifies this
      ensures Valid()
      ensures frameCount == old(frameCount) + 1
      ensures blink == BlinkStep(old(blink), now, blinkingNow)
      ensures gaze.None? ==> gazePositions == old(gazePositions) && gazeVelocities == old(gazeVelocities)
      ensures gaze.Some? ==>
        && gazePositions == old(gazePositions) + [TimedPoint(gaze.value, now)]
        && gazeVelocities == old(gazeVelocities) + VelocitySample(root, old(recentGazes), gaze.value, now)
      ensures sessionStart == old(sessionStart)
    {
      frameCount := frameCount + 1;
      TrackBlink(now, blinkingNow);
      if gaze.Some? {
        AnalyzeGaze(gaze.value, now, root);
      }
    }

    /** A detector kept by its own methods can always be assessed. */
    lemma ValidAllowsAssessment()
      requires Valid()
      ensures blink.count == |blink.durations|
      ensures centerGazeCount <= |gazePositions| && edgeGazeCount <= |gazePositions|
      ensures forall i :: 0 <= i < |gazeVelocities| ==> 0.0 <= gazeVelocities[i]
    {
      assert |Positions(gazePositions)| == |gazePositions|;
    }

    /** `get_comprehensive_assessment` at time `now`. It relies only on
        what `Valid()` guarantees about the counters: one duration per
        blink, zone counts within the number of positions, and
        non-negative velocities. */
    function GetComprehensiveAssessment(now: real): (a: Assessment)
      requires blink.count == |blink.durations|
      requires centerGazeCount <= |gazePositions| && edgeGazeCount <= |gazePositions|
      requires forall i :: 0 <= i < |gazeVelocities| ==> 0.0 <= gazeVelocities[i]
      reads this
      ensures a.score <= 14 < a.maxScore
      ensures a.score == TotalPoints(a.indicators) && a.severity == SeverityOf(a.score)
      ensures a.blinkCount == |blink.durations|
      ensures 0.0 <= a.metrics.centerRatio <= 1.0 && 0.0 <= a.metrics.edgeRatio <= 1.0
      ensures 0.0 <= a.metrics.blinkRate && 0.0 <= a.metrics.saccadeRate
      ensures 0.0 <= a.metrics.avgVelocity && 0.0 <= a.metrics.blinkVariance
      ensures |gazePositions| == 0 ==> StrongCenterAvoidance in a.indicators
    {
      var minutes := (now - sessionStart) / 60.0;
      var m := SessionMetrics(minutes, blink.count, saccadeCount, |gazePositions|,
                              centerGazeCount, edgeGazeCount, gazeVelocities, blink.durations);
      MeanOrZeroNonNegative(gazeVelocities);
      GazeIndicatorConditions(m);
      Assess(minutes, blink.count, m)
    }
  }
}
