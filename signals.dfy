/** The per-frame signals the session analysers derive from the detector and
    the predicted gaze: the blink state machine, gaze velocity and saccades,
    the centre, edge and avoidance zones, the moving-average smoother, and the
    read-only folds over the stored positions (look-away events, centre
    accuracy, movements). */
module Signals {
  import opened Numerics
  import opened CalibrationModel

  /** A stored gaze sample: `(position, timestamp)`. */
  datatype TimedPoint = TimedPoint(pos: ScreenPoint, time: real)

  function Positions(tps: seq<TimedPoint>): seq<ScreenPoint>
  {
    seq(|tps|, i requires 0 <= i < |tps| => tps[i].pos)
  }

  // ---------------------------------------------------------------- blinks

  /** The blink fields: `is_currently_blinking`, `blink_start_time`,
      `blink_durations`, `blink_count`, `last_blink_time`. */
  datatype BlinkState = BlinkState(
    isBlinking: bool, startTime: Option<real>, durations: seq<real>, count: nat, lastBlinkTime: Option<real>)

  const InitialBlink: BlinkState := BlinkState(false, None, [], 0, None)

  /** Python's truth value of an optional float: present and not `0.0`. */
  predicate Truthy(t: Option<real>)
  {
    t.Some? && t.value != 0.0
  }

  /** The relations every reachable blink state keeps: one duration per
      counted blink, a start time exactly while blinking, and a last blink
      time exactly once a blink was counted. */
  predicate BlinkConsistent(b: BlinkState)
  {
    && b.count == |b.durations|
    && (b.isBlinking <==> b.startTime.Some?)
    && (b.count > 0 <==> b.lastBlinkTime.Some?)
  }

  /** One frame of the Open/Blinking machine: a rising edge records the start
      and enters Blinking; a falling edge records `now - start` when the start
      time is truthy, and always returns to Open with no start time. */
  function BlinkStep(b: BlinkState, now: real, blinkingNow: bool): BlinkState
  {
    if blinkingNow && !b.isBlinking then
      b.(startTime := Some(now), isBlinking := true)
    else if !blinkingNow && b.isBlinking then
      var counted :=
        if Truthy(b.startTime) then
          b.(durations := b.durations + [now - b.startTime.value], count := b.count + 1, lastBlinkTime := Some(now))
        else b;
      counted.(isBlinking := false, startTime := None)
    else b
  }

  /** What one frame does to the blink state, edge by edge. */
  lemma BlinkTransitions(b: BlinkState, now: real, blinkingNow: bool)
    requires BlinkConsistent(b)
    ensures var r := BlinkStep(b, now, blinkingNow);
      && BlinkConsistent(r)
      && r.isBlinking == blinkingNow
      && (blinkingNow && !b.isBlinking ==> r.startTime == Some(now) && r.durations == b.durations)
      && (!blinkingNow ==> r.startTime.None?)
      && (r.durations == if !blinkingNow && b.isBlinking && Truthy(b.startTime)
                         then b.durations + [now - b.startTime.value] else b.durations)
  {
  }

  /** One frame of input to the blink machine. */
  datatype BlinkFrame = BlinkFrame(time: real, blinking: bool)

  /** The blink state after a run of frames. */
  function BlinkRun(b: BlinkState, frames: seq<BlinkFrame>): BlinkState
    decreases |frames|
  {
    if |frames| == 0 then b else BlinkRun(BlinkStep(b, frames[0].time, frames[0].blinking), frames[1..])
  }

  lemma {:induction false} BlinkRunConsistent(b: BlinkState, frames: seq<BlinkFrame>)
    requires BlinkConsistent(b)
    ensures BlinkConsistent(BlinkRun(b, frames))
    decreases |frames|
  {
    if |frames| > 0 {
      BlinkTransitions(b, frames[0].time, frames[0].blinking);
      BlinkRunConsistent(BlinkStep(b, frames[0].time, frames[0].blinking), frames[1..]);
    }
  }

  predicate NonDecreasingTimes(frames: seq<BlinkFrame>)
  {
    forall i, j :: 0 <= i <= j < |frames| ==> frames[i].time <= frames[j].time
  }

  predicate NonNegativeDurations(b: BlinkState)
  {
    forall i :: 0 <= i < |b.durations| ==> 0.0 <= b.durations[i]
  }

  /** With non-decreasing timestamps, every recorded blink duration is
      non-negative. */
  lemma {:induction false} BlinkDurationsNonNegative(b: BlinkState, frames: seq<BlinkFrame>)
    requires NonNegativeDurations(b)
    requires NonDecreasingTimes(frames)
    requires |frames| > 0 && b.startTime.Some? ==> b.startTime.value <= frames[0].time
    ensures NonNegativeDurations(BlinkRun(b, frames))
    decreases |frames|
  {
    if |frames| > 0 {
      var next := BlinkStep(b, frames[0].time, frames[0].blinking);
      assert NonNegativeDurations(next);
      var rest := frames[1..];
      assert NonDecreasingTimes(rest);
      if |rest| > 0 && next.startTime.Some? {
        assert frames[0].time <= frames[1].time;
      }
      BlinkDurationsNonNegative(next, rest);
    }
  }

  /** A press held over two frames and released counts one blink of the
      held time; a blink that starts at time `0.0` is never counted. */
  lemma BlinkExamples()
    ensures var r := BlinkRun(InitialBlink,
              [BlinkFrame(0.5, false), BlinkFrame(1.0, true), BlinkFrame(1.2, true), BlinkFrame(1.5, false)]);
      r.count == 1 && r.durations == [0.5] && !r.isBlinking && r.lastBlinkTime == Some(1.5)
    ensures var r := BlinkRun(InitialBlink, [BlinkFrame(0.0, true), BlinkFrame(0.2, false)]);
      r.count == 0 && r.durations == [] && !r.isBlinking && r.startTime.None?
  {
  }

  // ------------------------------------------------------- distances, zones

  function SquaredDistance(a: ScreenPoint, b: ScreenPoint): (d: int)
    ensures 0 <= d
  {
    var dx, dy := a.x - b.x, a.y - b.y;
    SquareNonNegative(dx);
    SquareNonNegative(dy);
    dx * dx + dy * dy
  }

  lemma SquareNonNegative(n: int)
    ensures 0 <= n * n
  {
    if n < 0 {
      assert n * n == (-n) * (-n);
    }
  }

  /** `velocity > 300` pixels per second for a movement of squared length
      `d2` over `dt > 0` seconds. */
  const SaccadeVelocityThreshold: real := 300.0

  predicate IsSaccade(v: real)
  {
    v > SaccadeVelocityThreshold
  }

  /** The velocity a new position adds: none without a previous position or
      when no time has passed since it, else distance over elapsed time. */
  function VelocitySample(root: real -> real, recent: seq<TimedPoint>, p: ScreenPoint, t: real): (vs: seq<real>)
    ensures |vs| <= 1
  {
    if |recent| == 0 then []
    else
      var prev := recent[|recent| - 1];
      var dt := t - prev.time;
      if dt > 0.0 then [root(SquaredDistance(p, prev.pos) as real) / dt] else []
  }

  lemma VelocitySampleNonNegative(root: real -> real, recent: seq<TimedPoint>, p: ScreenPoint, t: real)
    requires IsSqrt(root)
    ensures forall i :: 0 <= i < |VelocitySample(root, recent, p, t)| ==> 0.0 <= VelocitySample(root, recent, p, t)[i]
  {
    if |recent| > 0 {
      var prev := recent[|recent| - 1];
      var d := root(SquaredDistance(p, prev.pos) as real);
      var dt := t - prev.time;
      if dt > 0.0 {
        SqrtNonNegative(root, SquaredDistance(p, prev.pos) as real);
        assert 0.0 <= d / dt;
      }
    }
  }

  /** `np.sqrt(d2) / dt > 300` is the same test as `d2 > (300 * dt)^2`. */
  lemma SaccadeIffSquared(root: real -> real, d2: real, dt: real)
    requires IsSqrt(root) && 0.0 <= d2 && 0.0 < dt
    ensures root(d2) / dt > SaccadeVelocityThreshold
      <==> d2 > (SaccadeVelocityThreshold * dt) * (SaccadeVelocityThreshold * dt)
  {
    var limit := SaccadeVelocityThreshold * dt;
    SqrtAtMost(root, d2, limit);
    var v := root(d2) / dt;
    assert v * dt == root(d2);
    var gap := v - SaccadeVelocityThreshold;
    assert root(d2) - limit == gap * dt;
    assert gap > 0.0 <==> gap * dt > 0.0;
  }

  const CenterZoneRadius: int := 200
  const EdgeZoneMargin: int := 100
  const AvoidanceRadius: int := 400

  /** Within the centre-zone radius of `(cx, cy)`, on squared distances. */
  predicate InCenterZone(p: ScreenPoint, cx: int, cy: int)
  {
    SquaredDistance(p, ScreenPoint(cx, cy)) <= CenterZoneRadius * CenterZoneRadius
  }

  /** `np.sqrt(d2) <= 200` is the same test as `d2 <= 200^2`. */
  lemma CenterZoneIffDistance(root: real -> real, p: ScreenPoint, cx: int, cy: int)
    requires IsSqrt(root)
    ensures InCenterZone(p, cx, cy) <==> root(SquaredDistance(p, ScreenPoint(cx, cy)) as real) <= CenterZoneRadius as real
  {
    SqrtAtMost(root, SquaredDistance(p, ScreenPoint(cx, cy)) as real, CenterZoneRadius as real);
  }

  /** The centre-zone test as the counters apply it. */
  function CenterZone(cx: int, cy: int): ScreenPoint -> bool
  {
    p => InCenterZone(p, cx, cy)
  }

  /** Within the edge margin of any side of a `width` x `height` screen. */
  predicate InEdgeZone(p: ScreenPoint, width: int, height: int)
  {
    || p.x <= EdgeZoneMargin || p.x >= width - EdgeZoneMargin
    || p.y <= EdgeZoneMargin || p.y >= height - EdgeZoneMargin
  }

  /** The edge-zone test as the counters apply it. */
  function EdgeZone(width: int, height: int): ScreenPoint -> bool
  {
    p => InEdgeZone(p, width, height)
  }

  /** A coordinate offset whose square is within the centre radius squared
      is itself within the radius. */
  lemma OffsetWithinRadius(n: int)
    requires n * n <= CenterZoneRadius * CenterZoneRadius
    ensures -CenterZoneRadius <= n <= CenterZoneRadius
  {
  }

  /** On a screen larger than 600 pixels both ways, no position around the
      screen centre is in both the centre zone and the edge zone. */
  lemma ZonesDisjoint(p: ScreenPoint, width: int, height: int)
    requires width > 601 && height > 601
    ensures !(InCenterZone(p, width / 2, height / 2) && InEdgeZone(p, width, height))
  {
    if InCenterZone(p, width / 2, height / 2) {
      var dx, dy := p.x - width / 2, p.y - height / 2;
      SquareNonNegative(dx);
      SquareNonNegative(dy);
      OffsetWithinRadius(dx);
      OffsetWithinRadius(dy);
    }
  }

  /** Further than 400 pixels from `(cx, cy)`, on squared distances. */
  predicate Avoiding(p: ScreenPoint, cx: int, cy: int)
  {
    SquaredDistance(p, ScreenPoint(cx, cy)) > AvoidanceRadius * AvoidanceRadius
  }

  /** The avoidance test as a predicate on points, for counting. */
  function AvoidanceZone(cx: int, cy: int): ScreenPoint -> bool
  {
    p => Avoiding(p, cx, cy)
  }

  lemma AvoidingIffDistance(root: real -> real, p: ScreenPoint, cx: int, cy: int)
    requires IsSqrt(root)
    ensures Avoiding(p, cx, cy) <==> root(SquaredDistance(p, ScreenPoint(cx, cy)) as real) > AvoidanceRadius as real
  {
    SqrtAtMost(root, SquaredDistance(p, ScreenPoint(cx, cy)) as real, AvoidanceRadius as real);
  }

  // ------------------------------------------------------------- smoothing

  const SmoothingWindow: nat := 5
  const MinSmoothingPoints: nat := 3

  function XsOf(ps: seq<ScreenPoint>): (xs: seq<real>)
    ensures |xs| == |ps| && forall i :: 0 <= i < |ps| ==> xs[i] == ps[i].x as real
  {
    seq(|ps|, i requires 0 <= i < |ps| => ps[i].x as real)
  }

  function YsOf(ps: seq<ScreenPoint>): (ys: seq<real>)
    ensures |ys| == |ps| && forall i :: 0 <= i < |ps| ==> ys[i] == ps[i].y as real
  {
    seq(|ps|, i requires 0 <= i < |ps| => ps[i].y as real)
  }

  /** The smoother's output once `p` is in the window: `p` itself while the
      window holds fewer than 3 points, else the truncated mean. */
  function Smoothed(window: seq<ScreenPoint>, p: ScreenPoint): ScreenPoint
  {
    if |window| < MinSmoothingPoints then p
    else ScreenPoint(Trunc(Mean(XsOf(window))), Trunc(Mean(YsOf(window))))
  }

  /** The smoothed point stays inside any box that holds the window and the
      new point. */
  lemma SmoothedWithin(window: seq<ScreenPoint>, p: ScreenPoint, loX: int, hiX: int, loY: int, hiY: int)
    requires forall q :: q in window ==> loX <= q.x <= hiX && loY <= q.y <= hiY
    requires loX <= p.x <= hiX && loY <= p.y <= hiY
    ensures var s := Smoothed(window, p); loX <= s.x <= hiX && loY <= s.y <= hiY
  {
    if |window| >= MinSmoothingPoints {
      var xs, ys := XsOf(window), YsOf(window);
      forall i | 0 <= i < |window| ensures loX as real <= xs[i] <= hiX as real && loY as real <= ys[i] <= hiY as real {
        assert window[i] in window;
      }
      MeanWithin(xs, loX as real, hiX as real);
      MeanWithin(ys, loY as real, hiY as real);
      TruncWithin(Mean(xs), loX, hiX);
      TruncWithin(Mean(ys), loY, hiY);
    }
  }

  /** A steady gaze is a fixed point of the smoother. */
  lemma SmoothedSteady(window: seq<ScreenPoint>, p: ScreenPoint)
    requires forall q :: q in window ==> q == p
    ensures Smoothed(window, p) == p
  {
    SmoothedWithin(window, p, p.x, p.x, p.y, p.y);
  }

  // ------------------------------------------------- folds over positions

  /** Centre-to-outside transitions between consecutive positions. */
  function LookAwayEvents(ps: seq<ScreenPoint>, cx: int, cy: int): nat
  {
    if |ps| < 2 then 0
    else
      var n := |ps|;
      LookAwayEvents(ps[..n - 1], cx, cy)
        + if InCenterZone(ps[n - 2], cx, cy) && !InCenterZone(ps[n - 1], cx, cy) then 1 else 0
  }

  /** Every look-away event leaves a centre position behind, so there are no
      more events than centre positions (one fewer when the last position is
      itself in the centre). */
  lemma {:induction false} LookAwayAtMostCenter(ps: seq<ScreenPoint>, cx: int, cy: int)
    ensures LookAwayEvents(ps, cx, cy) + (if |ps| > 0 && InCenterZone(ps[|ps| - 1], cx, cy) then 1 else 0)
      <= CountIf(ps, CenterZone(cx, cy))
  {
    if |ps| > 0 {
      var n := |ps|;
      LookAwayAtMostCenter(ps[..n - 1], cx, cy);
    }
  }

  /** `calculate_look_away_frequency`: 0 with fewer than two positions,
      else events per minute over at least a tenth of a minute. */
  function LookAwayFrequency(ps: seq<ScreenPoint>, cx: int, cy: int, minutes: real): real
  {
    if |ps| < 2 then 0.0
    else LookAwayEvents(ps, cx, cy) as real / (if 0.1 > minutes then 0.1 else minutes)
  }

  /** The frequency is never negative, and a session that never looked at
      the centre has none. */
  lemma LookAwayFrequencyBounds(ps: seq<ScreenPoint>, cx: int, cy: int, minutes: real)
    ensures 0.0 <= LookAwayFrequency(ps, cx, cy, minutes)
    ensures CountIf(ps, CenterZone(cx, cy)) == 0 ==> LookAwayFrequency(ps, cx, cy, minutes) == 0.0
  {
    LookAwayAtMostCenter(ps, cx, cy);
  }

  /** The distances, in order, of the positions inside the centre zone. */
  function CenterDistances(root: real -> real, ps: seq<ScreenPoint>, cx: int, cy: int): seq<real>
  {
    if |ps| == 0 then []
    else
      var n := |ps|;
      CenterDistances(root, ps[..n - 1], cx, cy)
        + if InCenterZone(ps[n - 1], cx, cy) then [root(SquaredDistance(ps[n - 1], ScreenPoint(cx, cy)) as real)] else []
  }

  lemma {:induction false} CenterDistancesCount(root: real -> real, ps: seq<ScreenPoint>, cx: int, cy: int)
    ensures |CenterDistances(root, ps, cx, cy)| == CountIf(ps, CenterZone(cx, cy))
  {
    if |ps| > 0 {
      CenterDistancesCount(root, ps[..|ps| - 1], cx, cy);
    }
  }

  lemma CenterDistanceWithin(root: real -> real, p: ScreenPoint, cx: int, cy: int)
    requires IsSqrt(root) && InCenterZone(p, cx, cy)
    ensures 0.0 <= root(SquaredDistance(p, ScreenPoint(cx, cy)) as real) <= CenterZoneRadius as real
  {
    SqrtNonNegative(root, SquaredDistance(p, ScreenPoint(cx, cy)) as real);
    CenterZoneIffDistance(root, p, cx, cy);
  }

  predicate WithinRadius(ds: seq<real>)
  {
    forall i :: 0 <= i < |ds| ==> 0.0 <= ds[i] <= CenterZoneRadius as real
  }

  lemma {:induction false} CenterDistancesWithin(root: real -> real, ps: seq<ScreenPoint>, cx: int, cy: int)
    requires IsSqrt(root)
    ensures WithinRadius(CenterDistances(root, ps, cx, cy))
  {
    if |ps| > 0 {
      var n := |ps|;
      CenterDistancesWithin(root, ps[..n - 1], cx, cy);
      var prefix := CenterDistances(root, ps[..n - 1], cx, cy);
      var d := root(SquaredDistance(ps[n - 1], ScreenPoint(cx, cy)) as real);
      var tail := if InCenterZone(ps[n - 1], cx, cy) then [d] else [];
      if InCenterZone(ps[n - 1], cx, cy) {
        CenterDistanceWithin(root, ps[n - 1], cx, cy);
      }
      assert WithinRadius(tail);
      assert CenterDistances(root, ps, cx, cy) == prefix + tail;
    }
  }

  /** `calculate_center_gaze_accuracy`: 0 without positions or without
      centre positions, else `max(0, (200 - mean distance) / 200)`. */
  function CenterAccuracy(root: real -> real, ps: seq<ScreenPoint>, cx: int, cy: int): real
  {
    var ds := CenterDistances(root, ps, cx, cy);
    if |ps| == 0 || |ds| == 0 then 0.0
    else
      var accuracy := (CenterZoneRadius as real - Mean(ds)) / CenterZoneRadius as real;
      if 0.0 > accuracy then 0.0 else accuracy
  }

  /** The accuracy is a fraction, and it is 0 when no position is in the
      centre zone. */
  lemma CenterAccuracyWithin(root: real -> real, ps: seq<ScreenPoint>, cx: int, cy: int)
    requires IsSqrt(root)
    ensures 0.0 <= CenterAccuracy(root, ps, cx, cy) <= 1.0
    ensures CountIf(ps, CenterZone(cx, cy)) == 0 ==> CenterAccuracy(root, ps, cx, cy) == 0.0
  {
    var ds := CenterDistances(root, ps, cx, cy);
    CenterDistancesCount(root, ps, cx, cy);
    if |ds| > 0 {
      CenterDistancesWithin(root, ps, cx, cy);
      assert WithinRadius(ds);
      MeanWithin(ds, 0.0, CenterZoneRadius as real);
    }
  }

  /** Lengths of the moves between consecutive positions. */
  function Movements(root: real -> real, ps: seq<ScreenPoint>): (ms: seq<real>)
    ensures |ms| == if |ps| == 0 then 0 else |ps| - 1
    ensures forall i :: 0 <= i < |ms| ==> ms[i] == root(SquaredDistance(ps[i + 1], ps[i]) as real)
  {
    if |ps| == 0 then []
    else seq(|ps| - 1, i requires 0 <= i < |ps| - 1 => root(SquaredDistance(ps[i + 1], ps[i]) as real))
  }

  /** A non-zero integer has a positive square. */
  lemma SquarePositive(n: int)
    requires n != 0
    ensures 0 < n * n
  {
    if n < 0 {
      assert n * n == (-n) * (-n);
    }
  }

  /** Two pixels are at squared distance 0 exactly when they coincide. */
  lemma SquaredDistanceZero(a: ScreenPoint, b: ScreenPoint)
    ensures SquaredDistance(a, b) == 0 <==> a == b
  {
    var dx, dy := a.x - b.x, a.y - b.y;
    SquareNonNegative(dx);
    SquareNonNegative(dy);
    if dx != 0 {
      SquarePositive(dx);
    }
    if dy != 0 {
      SquarePositive(dy);
    }
  }

  /** Under `np.sqrt` every movement is a non-negative length, and it is
      zero exactly when the gaze stayed on the same pixel. */
  lemma MovementsFacts(root: real -> real, ps: seq<ScreenPoint>)
    requires IsSqrt(root)
    ensures forall i :: 0 <= i < |Movements(root, ps)| ==>
      0.0 <= Movements(root, ps)[i] && (Movements(root, ps)[i] == 0.0 <==> ps[i + 1] == ps[i])
  {
    var ms := Movements(root, ps);
    forall i | 0 <= i < |ms|
      ensures 0.0 <= ms[i] && (ms[i] == 0.0 <==> ps[i + 1] == ps[i])
    {
      var d2 := SquaredDistance(ps[i + 1], ps[i]);
      SqrtNonNegative(root, d2 as real);
      SqrtAtMost(root, d2 as real, 0.0);
      SquaredDistanceZero(ps[i + 1], ps[i]);
    }
  }
}
