/** `DataProcessing`: the session analyser fed once per frame with the blink
    flag and the predicted gaze point. It smooths the gaze, tracks blinks,
    velocities, saccades and zone counters, and scores the session. */
module SessionAnalysis {
  import opened Numerics
  import opened CalibrationModel
  import opened Signals
  import opened Scoring

  /** `deque(maxlen=10)` of recent gazes kept for the velocity. */
  const RecentGazeWindow: nat := 10

  /** The dictionary `get_comprehensive_analysis` returns: the scored
      assessment plus the analyser's extra metrics. */
  datatype Analysis = Analysis(
    assessment: Assessment,
    centerAccuracy: real,
    lookAwayFrequency: real,
    saccadeCount: nat,
    totalPositions: nat)

  class DataProcessing {
    const screenWidth: int
    const screenHeight: int
    /** `screen_width // 2` and `screen_height // 2`. */
    const centerX: int
    const centerY: int

    /** `is_currently_blinking`, `blink_start_time`, `blink_durations`,
        `blink_count` and `last_blink_time`. */
    var blink: BlinkState
    /** `(smoothed position, timestamp)` of every processed gaze. */
    var gazePositions: seq<TimedPoint>
    var gazeVelocities: seq<real>
    var saccadeCount: nat
    var sessionStart: real
    var frameCount: nat
    var centerGazeCount: nat
    var edgeGazeCount: nat
    var recentGazes: seq<TimedPoint>
    var smoothedPositions: seq<ScreenPoint>
    /** Every raw gaze position handed to the smoother since the session
        started. */
    ghost var rawGazes: seq<ScreenPoint>

    /** What the counters and windows hold: the counters count what their
        conditions select in the stored data, and the bounded deques hold
        the most recent entries. */
    ghost predicate Valid()
      reads this
    {
      && BlinkConsistent(blink)
      && saccadeCount == CountIf(gazeVelocities, IsSaccade)
      && (forall i :: 0 <= i < |gazeVelocities| ==> 0.0 <= gazeVelocities[i])
      && |gazeVelocities| <= |gazePositions| == |rawGazes|
      && centerGazeCount == CountIf(Positions(gazePositions), CenterZone(centerX, centerY))
      && edgeGazeCount == CountIf(Positions(gazePositions), EdgeZone(screenWidth, screenHeight))
      && recentGazes == LastN(gazePositions, RecentGazeWindow)
      && smoothedPositions == LastN(rawGazes, SmoothingWindow)
    }

    /** A fresh session started at `now`. */
    ghost predicate Fresh(now: real)
      reads this
    {
      && blink == InitialBlink && gazePositions == [] && gazeVelocities == [] && saccadeCount == 0
      && sessionStart == now && frameCount == 0 && centerGazeCount == 0 && edgeGazeCount == 0
      && recentGazes == [] && smoothedPositions == [] && rawGazes == []
    }

    constructor(width: int, height: int, now: real)
      ensures screenWidth == width && screenHeight == height
      ensures centerX == width / 2 && centerY == height / 2
      ensures Fresh(now) && Valid()
    {
      screenWidth, screenHeight := width, height;
      centerX, centerY := width / 2, height / 2;
      blink := InitialBlink;
      gazePositions, gazeVelocities, saccadeCount := [], [], 0;
      sessionStart, frameCount := now, 0;
      centerGazeCount, edgeGazeCount := 0, 0;
      recentGazes, smoothedPositions := [], [];
      rawGazes := [];
    }

    /** `smooth_gaze_data`: no input leaves the window alone; otherwise the
        input joins the window of the last 5 and the result is the input
        itself while the window is short, else the truncated window mean. */
    method SmoothGazeData(gaze: Option<ScreenPoint>) returns (r: Option<ScreenPoint>)
      requires Valid()
      modifies this
      ensures gaze.None? ==> r.None? && unchanged(this)
      ensures gaze.Some? ==>
        && rawGazes == old(rawGazes) + [gaze.value]
        && smoothedPositions == LastN(rawGazes, SmoothingWindow)
        && r == Some(Smoothed(smoothedPositions, gaze.value))
      ensures gaze.Some? ==> |smoothedPositions| == if |rawGazes| < SmoothingWindow then |rawGazes| else SmoothingWindow
      ensures blink == old(blink) && gazePositions == old(gazePositions) && gazeVelocities == old(gazeVelocities)
      ensures saccadeCount == old(saccadeCount) && recentGazes == old(recentGazes)
      ensures centerGazeCount == old(centerGazeCount) && edgeGazeCount == old(edgeGazeCount)
      ensures frameCount == old(frameCount) && sessionStart == old(sessionStart)
    {
      if gaze.None? {
        return None;
      }
      LastNPush(rawGazes, gaze.value, SmoothingWindow);
      rawGazes := rawGazes + [gaze.value];
      smoothedPositions := Push(smoothedPositions, gaze.value, SmoothingWindow);
      if |smoothedPositions| < MinSmoothingPoints {
        return gaze;
      }
      var avgX := Mean(XsOf(smoothedPositions));
      var avgY := Mean(YsOf(smoothedPositions));
      r := Some(ScreenPoint(Trunc(avgX), Trunc(avgY)));
    }

    /** `process_blink_data`: one step of the blink state machine. */
    method ProcessBlinkData(now: real, blinkingNow: bool)
      requires Valid()
      modifies this
      ensures blink == BlinkStep(old(blink), now, blinkingNow)
      ensures Valid()
      ensures gazePositions == old(gazePositions) && gazeVelocities == old(gazeVelocities)
      ensures saccadeCount == old(saccadeCount) && recentGazes == old(recentGazes)
      ensures smoothedPositions == old(smoothedPositions) && rawGazes == old(rawGazes)
      ensures centerGazeCount == old(centerGazeCount) && edgeGazeCount == old(edgeGazeCount)
      ensures frameCount == old(frameCount) && sessionStart == old(sessionStart)
    {
      BlinkTransitions(blink, now, blinkingNow);
      if blinkingNow && !blink.isBlinking {
        blink := blink.(startTime := Some(now), isBlinking := true);
      } else if !blinkingNow && blink.isBlinking {
        if Truthy(blink.startTime) {
          var duration := now - blink.startTime.value;
          blink := blink.(durations := blink.durations + [duration], count := blink.count + 1, lastBlinkTime := Some(now));
        }
        blink := blink.(isBlinking := false, startTime := None);
      }
    }

    /** `_analyze_gaze_zones` on the newest stored position: bump the centre
        counter when it is within 200 pixels of the screen centre and the
        edge counter when it is within 100 pixels of a side, so that both
        counters again count their zone over all stored positions. */
    method AnalyzeGazeZones(p: ScreenPoint, root: real -> real)
      requires IsSqrt(root)
      requires |gazePositions| > 0 && gazePositions[|gazePositions| - 1].pos == p
      requires var before := Positions(gazePositions[..|gazePositions| - 1]);
        && centerGazeCount == CountIf(before, CenterZone(centerX, centerY))
        && edgeGazeCount == CountIf(before, EdgeZone(screenWidth, screenHeight))
      modifies this
      ensures centerGazeCount == old(centerGazeCount) + if InCenterZone(p, centerX, centerY) then 1 else 0
      ensures edgeGazeCount == old(edgeGazeCount) + if InEdgeZone(p, screenWidth, screenHeight) then 1 else 0
      ensures centerGazeCount == CountIf(Positions(gazePositions), CenterZone(centerX, centerY))
      ensures edgeGazeCount == CountIf(Positions(gazePositions), EdgeZone(screenWidth, screenHeight))
      ensures blink == old(blink) && gazePositions == old(gazePositions) && gazeVelocities == old(gazeVelocities)
      ensures saccadeCount == old(saccadeCount) && recentGazes == old(recentGazes)
      ensures smoothedPositions == old(smoothedPositions) && rawGazes == old(rawGazes)
      ensures frameCount == old(frameCount) && sessionStart == old(sessionStart)
    {
      ghost var before := Positions(gazePositions[..|gazePositions| - 1]);
      assert Positions(gazePositions) == before + [p];
      CountIfAppend(before, p, CenterZone(centerX, centerY));
      CountIfAppend(before, p, EdgeZone(screenWidth, screenHeight));
      var centerDistance := root(SquaredDistance(p, ScreenPoint(centerX, centerY)) as real);
      CenterZoneIffDistance(root, p, centerX, centerY);
      if centerDistance <= CenterZoneRadius as real {
        centerGazeCount := centerGazeCount + 1;
      }
      if || p.x <= EdgeZoneMargin || p.x >= screenWidth - EdgeZoneMargin
         || p.y <= EdgeZoneMargin || p.y >= screenHeight - EdgeZoneMargin {
        edgeGazeCount := edgeGazeCount + 1;
      }
    }

    /** The velocity step of `process_gaze_position`: from the latest recent
        gaze to `p`, when time has passed, with a saccade counted above 300
        pixels per second. */
    method RecordVelocity(p: ScreenPoint, t: real, root: real -> real)
      requires IsSqrt(root)
      requires saccadeCount == CountIf(gazeVelocities, IsSaccade)
      requires forall i :: 0 <= i < |gazeVelocities| ==> 0.0 <= gazeVelocities[i]
      modifies this
      ensures gazeVelocities == old(gazeVelocities) + VelocitySample(root, recentGazes, p, t)
      ensures saccadeCount == CountIf(gazeVelocities, IsSaccade)
      ensures forall i :: 0 <= i < |gazeVelocities| ==> 0.0 <= gazeVelocities[i]
      ensures blink == old(blink) && gazePositions == old(gazePositions) && recentGazes == old(recentGazes)
      ensures smoothedPositions == old(smoothedPositions) && rawGazes == old(rawGazes)
      ensures centerGazeCount == old(centerGazeCount) && edgeGazeCount == old(edgeGazeCount)
      ensures frameCount == old(frameCount) && sessionStart == old(sessionStart)
    {
      VelocitySampleNonNegative(root, recentGazes, p, t);
      if |recentGazes| > 0 {
        var prev := recentGazes[|recentGazes| - 1];
        var distance := root(SquaredDistance(p, prev.pos) as real);
        var timeDiff := t - prev.time;
        if timeDiff > 0.0 {
          var velocity := distance / timeDiff;
          CountIfAppend(gazeVelocities, velocity, IsSaccade);
          gazeVelocities := gazeVelocities + [velocity];
          if velocity > SaccadeVelocityThreshold {
            saccadeCount := saccadeCount + 1;
          }
        }
      }
    }

    /** `process_gaze_position`: store the smoothed position, add its
        velocity from the previous one (and a saccade when it exceeds 300
        pixels per second), and update the zone counters. */
    method ProcessGazePosition(gaze: Option<ScreenPoint>, t: real, root: real -> real)
      requires Valid() && IsSqrt(root)
      modifies this
      ensures Valid()
      ensures gaze.None? ==> unchanged(this)
      ensures gaze.Some? ==>
        var s := Smoothed(LastN(old(rawGazes) + [gaze.value], SmoothingWindow), gaze.value);
        && rawGazes == old(rawGazes) + [gaze.value]
        && gazePositions == old(gazePositions) + [TimedPoint(s, t)]
        && gazeVelocities == old(gazeVelocities) + VelocitySample(root, old(recentGazes), s, t)
      ensures blink == old(blink) && frameCount == old(frameCount) && sessionStart == old(sessionStart)
    {
      if gaze.None? {
        return;
      }
      var smoothed := SmoothGazeData(gaze);
      var s := smoothed.value;
      var tp := TimedPoint(s, t);
      ghost var oldPositions := gazePositions;
      gazePositions := gazePositions + [tp];
      RecordVelocity(s, t, root);
      LastNPush(oldPositions, tp, RecentGazeWindow);
      recentGazes := Push(recentGazes, tp, RecentGazeWindow);
      assert gazePositions[..|gazePositions| - 1] == oldPositions;
      AnalyzeGazeZones(s, root);
    }

    /** `process_frame`: count the frame, step the blink machine, and process
        the gaze position when there is one. */
    method ProcessFrame(blinkingNow: bool, now: real, gaze: Option<ScreenPoint>, root: real -> real)
      requires Valid() && IsSqrt(root)
      modifies this
      ensures Valid()
      ensures frameCount == old(frameCount) + 1
      ensures blink == BlinkStep(old(blink), now, blinkingNow)
      ensures gaze.None? ==>
        && rawGazes == old(rawGazes) && recentGazes == old(recentGazes)
        && gazePositions == old(gazePositions) && gazeVelocities == old(gazeVelocities)
      ensures gaze.Some? ==> rawGazes == old(rawGazes) + [gaze.value]
      ensures gaze.Some? ==>
        var s := Smoothed(LastN(old(rawGazes) + [gaze.value], SmoothingWindow), gaze.value);
        && gazePositions == old(gazePositions) + [TimedPoint(s, now)]
        && gazeVelocities == old(gazeVelocities) + VelocitySample(root, old(recentGazes), s, now)
      ensures sessionStart == old(sessionStart)
    {
      frameCount := frameCount + 1;
      ProcessBlinkData(now, blinkingNow);
      if gaze.Some? {
        ProcessGazePosition(gaze, now, root);
      }
    }

    /** `calculate_center_gaze_accuracy`, as the loop over the stored
        positions computes it. */
    method CalculateCenterGazeAccuracy(root: real -> real) returns (accuracy: real)
      requires IsSqrt(root)
      ensures accuracy == CenterAccuracy(root, Positions(gazePositions), centerX, centerY)
      ensures 0.0 <= accuracy <= 1.0
    {
      ghost var ps := Positions(gazePositions);
      CenterAccuracyWithin(root, ps, centerX, centerY);
      if |gazePositions| == 0 {
        return 0.0;
      }
      var centerPositions: seq<real> := [];
      var i := 0;
      while i < |gazePositions|
        invariant 0 <= i <= |gazePositions|
        invariant centerPositions == CenterDistances(root, ps[..i], centerX, centerY)
      {
        var pos := gazePositions[i].pos;
        var distance := root(SquaredDistance(pos, ScreenPoint(centerX, centerY)) as real);
        CenterZoneIffDistance(root, pos, centerX, centerY);
        assert ps[..i + 1][..i] == ps[..i];
        if distance <= CenterZoneRadius as real {
          centerPositions := centerPositions + [distance];
        }
        i := i + 1;
      }
      assert ps[..i] == ps;
      if |centerPositions| == 0 {
        return 0.0;
      }
      var avgDistance := Mean(centerPositions);
      var maxDistance := CenterZoneRadius as real;
      var acc := (maxDistance - avgDistance) / maxDistance;
      accuracy := if 0.0 > acc then 0.0 else acc;
    }

    /** `calculate_look_away_frequency`, as the loop over the stored
        positions computes it, at time `now`. */
    method CalculateLookAwayFrequency(now: real, root: real -> real) returns (frequency: real)
      requires IsSqrt(root)
      ensures frequency == LookAwayFrequency(Positions(gazePositions), centerX, centerY, (now - sessionStart) / 60.0)
      ensures 0.0 <= frequency
      ensures centerGazeCount == 0 && Valid() ==> frequency == 0.0
    {
      ghost var ps := Positions(gazePositions);
      LookAwayFrequencyBounds(ps, centerX, centerY, (now - sessionStart) / 60.0);
      if |gazePositions| < 2 {
        return 0.0;
      }
      var lookAwayEvents: nat := 0;
      var wasCenter := false;
      var i := 0;
      while i < |gazePositions|
        invariant 0 <= i <= |gazePositions|
        invariant lookAwayEvents == LookAwayEvents(ps[..i], centerX, centerY)
        invariant wasCenter == (i > 0 && InCenterZone(ps[i - 1], centerX, centerY))
      {
        var pos := gazePositions[i].pos;
        var distance := root(SquaredDistance(pos, ScreenPoint(centerX, centerY)) as real);
        CenterZoneIffDistance(root, pos, centerX, centerY);
        var isCenter := distance <= CenterZoneRadius as real;
        assert ps[..i + 1][..i] == ps[..i];
        if wasCenter && !isCenter {
          lookAwayEvents := lookAwayEvents + 1;
        }
        wasCenter := isCenter;
        i := i + 1;
      }
      assert ps[..i] == ps;
      var sessionDuration := (now - sessionStart) / 60.0;
      frequency := lookAwayEvents as real / (if 0.1 > sessionDuration then 0.1 else sessionDuration);
    }

    /** The metrics `get_comprehensive_analysis` computes at time `now`. */
    function CurrentMetrics(now: real): Metrics
      reads this
    {
      SessionMetrics((now - sessionStart) / 60.0, blink.count, saccadeCount, |gazePositions|,
                     centerGazeCount, edgeGazeCount, gazeVelocities, blink.durations)
    }

    /** `get_comprehensive_analysis` at time `now`: the scored assessment of
        the current metrics, with the centre accuracy and the look-away
        frequency. */
    method GetComprehensiveAnalysis(now: real, root: real -> real) returns (a: Analysis)
      requires Valid() && IsSqrt(root)
      ensures a.assessment == Assess((now - sessionStart) / 60.0, blink.count, CurrentMetrics(now))
      ensures a.assessment.score <= 14 < a.assessment.maxScore
      ensures 0.0 <= a.assessment.metrics.centerRatio <= 1.0 && 0.0 <= a.assessment.metrics.edgeRatio <= 1.0
      ensures 0.0 <= a.assessment.metrics.avgVelocity && 0.0 <= a.assessment.metrics.blinkVariance
      ensures a.centerAccuracy == CenterAccuracy(root, Positions(gazePositions), centerX, centerY)
      ensures 0.0 <= a.centerAccuracy <= 1.0
      ensures a.lookAwayFrequency == LookAwayFrequency(Positions(gazePositions), centerX, centerY, (now - sessionStart) / 60.0)
      ensures centerGazeCount == 0 ==> a.centerAccuracy == 0.0 && a.lookAwayFrequency == 0.0
      ensures a.saccadeCount == saccadeCount <= |gazePositions| == a.totalPositions
    {
      var sessionDuration := (now - sessionStart) / 60.0;
      var metrics := CurrentMetrics(now);
      MeanOrZeroNonNegative(gazeVelocities);
      var centerAccuracy := CalculateCenterGazeAccuracy(root);
      var lookAwayFrequency := CalculateLookAwayFrequency(now, root);
      CenterAccuracyWithin(root, Positions(gazePositions), centerX, centerY);
      a := Analysis(Assess(sessionDuration, blink.count, metrics), centerAccuracy, lookAwayFrequency,
                    saccadeCount, |gazePositions|);
    }

    /** `reset_session`: every counter and buffer emptied, the session
        restarted at `now`. */
    method ResetSession(now: real)
      modifies this
      ensures Fresh(now) && Valid()
    {
      blink := InitialBlink;
      gazePositions, gazeVelocities, saccadeCount := [], [], 0;
      sessionStart, frameCount := now, 0;
      centerGazeCount, edgeGazeCount := 0, 0;
      recentGazes, smoothedPositions := [], [];
      rawGazes := [];
    }
  }
}
