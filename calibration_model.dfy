/** The value side of calibration: the raw samples gathered at one target,
    median-based outlier filtering, averaging into one correspondence entry,
    the five targets, and the record a calibration is saved as. */
module CalibrationModel {
  import opened Numerics
  import opened Sorting

  /** One raw sample: the mean of the two pupil positions and the two gaze ratios. */
  datatype Sample = Sample(x: real, y: real, h: real, v: real)

  /** One correspondence `(pupil_x, pupil_y, screen_x, screen_y, h_ratio, v_ratio)`. */
  datatype Entry = Entry(pupilX: real, pupilY: real, screenX: int, screenY: int, h: real, v: real)

  datatype ScreenPoint = ScreenPoint(x: int, y: int)

  /** The persisted calibration: resolution, correspondence table, save time. */
  datatype CalibrationRecord = CalibrationRecord(
    screenWidth: int, screenHeight: int, points: seq<Entry>, timestamp: real)

  /** Distance from the median, in pixels, at which a sample is dropped. */
  const OutlierThreshold: real := 20.0
  /** Inward margin of the four corner targets. */
  const TargetMargin: int := 150
  /** Batches below this size are not filtered at all. */
  const MinFilterSize: nat := 3
  /** Targets that must succeed for a calibration to be kept. */
  const MinSuccessfulPoints: int := 4

  /** The five targets: the centre, then top-left, top-right, bottom-left and
      bottom-right, each `TargetMargin` in from the edges. */
  function CalibrationTargets(width: int, height: int): seq<ScreenPoint>
  {
    [ ScreenPoint(width / 2, height / 2),
      ScreenPoint(TargetMargin, TargetMargin),
      ScreenPoint(width - TargetMargin, TargetMargin),
      ScreenPoint(TargetMargin, height - TargetMargin),
      ScreenPoint(width - TargetMargin, height - TargetMargin) ]
  }

  /** On a screen at least twice the margin wide and high, there are five
      targets, all of them at least the margin inside the screen, the first one
      the centre. */
  lemma TargetsOnScreen(width: int, height: int)
    requires width >= 2 * TargetMargin && height >= 2 * TargetMargin
    ensures var ts := CalibrationTargets(width, height);
      && |ts| == 5
      && (forall t :: t in ts ==>
            TargetMargin <= t.x <= width - TargetMargin && TargetMargin <= t.y <= height - TargetMargin)
      && 2 * ts[0].x <= width < 2 * ts[0].x + 2 && 2 * ts[0].y <= height < 2 * ts[0].y + 2
  {
  }

  function XCoords(ss: seq<Sample>): (xs: seq<real>)
    ensures |xs| == |ss| && forall i :: 0 <= i < |ss| ==> xs[i] == ss[i].x
  {
    seq(|ss|, i requires 0 <= i < |ss| => ss[i].x)
  }

  function YCoords(ss: seq<Sample>): (ys: seq<real>)
    ensures |ys| == |ss| && forall i :: 0 <= i < |ss| ==> ys[i] == ss[i].y
  {
    seq(|ss|, i requires 0 <= i < |ss| => ss[i].y)
  }

  function HRatios(ss: seq<Sample>): (hs: seq<real>)
    ensures |hs| == |ss| && forall i :: 0 <= i < |ss| ==> hs[i] == ss[i].h
  {
    seq(|ss|, i requires 0 <= i < |ss| => ss[i].h)
  }

  function VRatios(ss: seq<Sample>): (vs: seq<real>)
    ensures |vs| == |ss| && forall i :: 0 <= i < |ss| ==> vs[i] == ss[i].v
  {
    seq(|ss|, i requires 0 <= i < |ss| => ss[i].v)
  }

  /** A sample lies strictly within the outlier threshold of `(mx, my)` on both axes. */
  predicate NearMedian(s: Sample, mx: real, my: real)
  {
    -OutlierThreshold < s.x - mx < OutlierThreshold && -OutlierThreshold < s.y - my < OutlierThreshold
  }

  /** The samples near `(mx, my)`, in their original order. */
  function Kept(ss: seq<Sample>, mx: real, my: real): (r: seq<Sample>)
    ensures |r| <= |ss|
    ensures forall s :: s in r ==> s in ss && NearMedian(s, mx, my)
  {
    if |ss| == 0 then []
    else
      var last := ss[|ss| - 1];
      Kept(ss[..|ss| - 1], mx, my) + (if NearMedian(last, mx, my) then [last] else [])
  }

  /** Nothing near the median is dropped. */
  lemma {:induction false} KeptComplete(ss: seq<Sample>, mx: real, my: real)
    ensures forall s :: s in ss && NearMedian(s, mx, my) ==> s in Kept(ss, mx, my)
  {
    if |ss| > 0 {
      KeptComplete(ss[..|ss| - 1], mx, my);
      assert ss == ss[..|ss| - 1] + [ss[|ss| - 1]];
    }
  }

  /** Filtering distributes over concatenation, so it keeps the samples' order. */
  lemma {:induction false} KeptOrder(a: seq<Sample>, b: seq<Sample>, mx: real, my: real)
    ensures Kept(a + b, mx, my) == Kept(a, mx, my) + Kept(b, mx, my)
  {
    if |b| == 0 {
      assert a + b == a;
    } else {
      assert (a + b)[..|a + b| - 1] == a + b[..|b| - 1];
      KeptOrder(a, b[..|b| - 1], mx, my);
    }
  }

  /** The coordinate-wise medians of a batch. */
  function MedianX(ss: seq<Sample>): real
    requires |ss| > 0
  {
    Median(XCoords(ss))
  }

  function MedianY(ss: seq<Sample>): real
    requires |ss| > 0
  {
    Median(YCoords(ss))
  }

  /** `filter_outliers`: small batches pass through; otherwise keep, in order,
      the samples strictly within the threshold of the coordinate-wise median. */
  method FilterOutliers(samples: seq<Sample>) returns (filtered: seq<Sample>)
    ensures |samples| < MinFilterSize ==> filtered == samples
    ensures |samples| >= MinFilterSize ==> filtered == Kept(samples, MedianX(samples), MedianY(samples))
  {
    if |samples| < MinFilterSize {
      return samples;
    }
    var medianX := Median(XCoords(samples));
    var medianY := Median(YCoords(samples));
    filtered := [];
    for i := 0 to |samples|
      invariant filtered == Kept(samples[..i], medianX, medianY)
    {
      var s := samples[i];
      assert samples[..i + 1][..i] == samples[..i];
      if -OutlierThreshold < s.x - medianX < OutlierThreshold && -OutlierThreshold < s.y - medianY < OutlierThreshold {
        filtered := filtered + [s];
      }
    }
    assert samples[..|samples|] == samples;
  }

  /** The entry for one target: field-wise means of the kept samples. */
  function AverageEntry(kept: seq<Sample>, screenX: int, screenY: int): Entry
    requires |kept| > 0
  {
    Entry(Mean(XCoords(kept)), Mean(YCoords(kept)), screenX, screenY,
          Mean(HRatios(kept)), Mean(VRatios(kept)))
  }

  /** The averaged pupil position of samples that are all near `(mx, my)` is
      itself strictly within the threshold of `(mx, my)`. */
  lemma AverageNearMedian(kept: seq<Sample>, mx: real, my: real, screenX: int, screenY: int)
    requires |kept| > 0
    requires forall s :: s in kept ==> NearMedian(s, mx, my)
    ensures var e := AverageEntry(kept, screenX, screenY);
      -OutlierThreshold < e.pupilX - mx < OutlierThreshold
      && -OutlierThreshold < e.pupilY - my < OutlierThreshold
  {
    var xs, ys := XCoords(kept), YCoords(kept);
    forall i | 0 <= i < |kept| ensures mx - OutlierThreshold < xs[i] < mx + OutlierThreshold
      && my - OutlierThreshold < ys[i] < my + OutlierThreshold
    {
      assert kept[i] in kept;
    }
    MeanStrictlyWithin(xs, mx - OutlierThreshold, mx + OutlierThreshold);
    MeanStrictlyWithin(ys, my - OutlierThreshold, my + OutlierThreshold);
  }

  /** The entry averaged from the samples that survived filtering, if any. */
  function EntryOf(kept: seq<Sample>, screenX: int, screenY: int): Option<Entry>
  {
    if |kept| == 0 then None else Some(AverageEntry(kept, screenX, screenY))
  }

  /** What processing one target's batch yields: nothing when the batch has
      fewer than `minSamples` samples, else the entry averaged from the
      samples near the medians, if any are. */
  function BatchEntry(samples: seq<Sample>, minSamples: nat, screenX: int, screenY: int): Option<Entry>
    requires MinFilterSize <= minSamples
  {
    if |samples| < minSamples then None
    else EntryOf(Kept(samples, MedianX(samples), MedianY(samples)), screenX, screenY)
  }

  /** A batch yields nothing exactly when it is too small or filtering leaves
      nothing; otherwise its entry is at the target and its pupil position
      strictly within the outlier threshold of the batch medians. */
  lemma BatchEntrySpec(samples: seq<Sample>, minSamples: nat, screenX: int, screenY: int)
    requires MinFilterSize <= minSamples
    ensures var r := BatchEntry(samples, minSamples, screenX, screenY);
      && (r.None? <==> |samples| < minSamples || |Kept(samples, MedianX(samples), MedianY(samples))| == 0)
      && (r.Some? ==>
            && r.value.screenX == screenX && r.value.screenY == screenY
            && -OutlierThreshold < r.value.pupilX - MedianX(samples) < OutlierThreshold
            && -OutlierThreshold < r.value.pupilY - MedianY(samples) < OutlierThreshold)
  {
    if |samples| >= minSamples {
      var mx, my := MedianX(samples), MedianY(samples);
      var kept := Kept(samples, mx, my);
      if |kept| > 0 {
        AverageNearMedian(kept, mx, my, screenX, screenY);
      }
    }
  }

  /** A batch whose samples all coincide is kept whole and averages to that sample. */
  lemma {:induction false} SteadyBatch(s: Sample, n: nat, minSamples: nat, screenX: int, screenY: int)
    requires MinFilterSize <= minSamples <= n
    ensures var samples := seq(n, _ => s);
      BatchEntry(samples, minSamples, screenX, screenY)
        == Some(Entry(s.x, s.y, screenX, screenY, s.h, s.v))
  {
    var samples := seq(n, _ => s);
    assert MedianX(samples) == s.x by {
      ConstantMedian(XCoords(samples), s.x);
    }
    assert MedianY(samples) == s.y by {
      ConstantMedian(YCoords(samples), s.y);
    }
    KeptComplete(samples, s.x, s.y);
    assert samples[0] in samples;
    var kept := Kept(samples, s.x, s.y);
    assert |kept| > 0;
    forall i | 0 <= i < |kept| ensures kept[i] == s {
      assert kept[i] in kept;
    }
    ConstantMean(XCoords(kept), s.x);
    ConstantMean(YCoords(kept), s.y);
    ConstantMean(HRatios(kept), s.h);
    ConstantMean(VRatios(kept), s.v);
  }

  /** What each target's batch yields, target by target. */
  function Outcomes(batches: seq<seq<Sample>>, targets: seq<ScreenPoint>, minSamples: nat): (os: seq<Option<Entry>>)
    requires |batches| == |targets| && MinFilterSize <= minSamples
    ensures |os| == |batches|
    ensures forall i :: 0 <= i < |os| ==> os[i] == BatchEntry(batches[i], minSamples, targets[i].x, targets[i].y)
  {
    seq(|batches|, i requires 0 <= i < |batches| => BatchEntry(batches[i], minSamples, targets[i].x, targets[i].y))
  }

  /** The present values, in order. */
  function Somes<T>(os: seq<Option<T>>): (vs: seq<T>)
    ensures |vs| <= |os|
  {
    if |os| == 0 then []
    else Somes(os[..|os| - 1]) + if os[|os| - 1].Some? then [os[|os| - 1].value] else []
  }

  lemma SomesStep<T>(os: seq<Option<T>>, i: nat)
    requires i < |os|
    ensures Somes(os[..i + 1]) == Somes(os[..i]) + if os[i].Some? then [os[i].value] else []
  {
    assert os[..i + 1][..i] == os[..i];
  }

  /** Every value kept was present, and nothing is kept when nothing was. */
  lemma {:induction false} SomesFrom<T>(os: seq<Option<T>>)
    ensures forall v :: v in Somes(os) ==> Some(v) in os
    ensures (forall i :: 0 <= i < |os| ==> os[i].None?) ==> Somes(os) == []
  {
    if |os| > 0 {
      var init := os[..|os| - 1];
      SomesFrom(init);
      assert forall o :: o in init ==> o in os;
    }
  }

  /** The entries a run over several targets appends: one per batch that
      yields an entry, in target order. */
  function BatchEntries(batches: seq<seq<Sample>>, targets: seq<ScreenPoint>, minSamples: nat): seq<Entry>
    requires |batches| == |targets| && MinFilterSize <= minSamples
  {
    Somes(Outcomes(batches, targets, minSamples))
  }

  /** At most one entry per target, and every appended entry carries the
      screen point of one of the targets. */
  lemma BatchEntriesOnTargets(batches: seq<seq<Sample>>, targets: seq<ScreenPoint>, minSamples: nat)
    requires |batches| == |targets| && MinFilterSize <= minSamples
    ensures |BatchEntries(batches, targets, minSamples)| <= |targets|
    ensures forall e :: e in BatchEntries(batches, targets, minSamples) ==> ScreenPoint(e.screenX, e.screenY) in targets
  {
    var os := Outcomes(batches, targets, minSamples);
    SomesFrom(os);
    forall e | e in BatchEntries(batches, targets, minSamples) ensures ScreenPoint(e.screenX, e.screenY) in targets {
      var i :| 0 <= i < |os| && os[i] == Some(e);
      BatchEntrySpec(batches[i], minSamples, targets[i].x, targets[i].y);
    }
  }

  /** A run whose batches are all too small appends nothing. */
  lemma SmallBatchesAddNothing(batches: seq<seq<Sample>>, targets: seq<ScreenPoint>, minSamples: nat)
    requires |batches| == |targets| && MinFilterSize <= minSamples
    requires forall i :: 0 <= i < |batches| ==> |batches[i]| < minSamples
    ensures BatchEntries(batches, targets, minSamples) == []
  {
    SomesFrom(Outcomes(batches, targets, minSamples));
  }

  /** The resolution check guarding a load. */
  predicate ResolutionMatches(r: CalibrationRecord, width: int, height: int)
  {
    r.screenWidth == width && r.screenHeight == height
  }

  /** What a load makes of a stored record (`None` when there is no readable
      file): its points when the resolution is the current one, else nothing. */
  function Loaded(stored: Option<CalibrationRecord>, width: int, height: int): (r: Option<seq<Entry>>)
    ensures r.Some? <==> stored.Some? && stored.value.screenWidth == width && stored.value.screenHeight == height
    ensures r.Some? ==> r.value == stored.value.points
  {
    if stored.Some? && ResolutionMatches(stored.value, width, height) then Some(stored.value.points) else None
  }

  /** A record saved at one resolution loads back to the same points at that
      resolution and to nothing at any other. */
  lemma SaveLoadRoundTrip(width: int, height: int, points: seq<Entry>, timestamp: real, width': int, height': int)
    ensures var stored := Some(CalibrationRecord(width, height, points, timestamp));
      Loaded(stored, width', height') == if width' == width && height' == height then Some(points) else None
  {
  }

  lemma ConstantMedian(xs: seq<real>, c: real)
    requires |xs| > 0 && forall i :: 0 <= i < |xs| ==> xs[i] == c
    ensures Median(xs) == c
  {
    var t := Sort(xs, RealLe);
    forall i | 0 <= i < |t| ensures t[i] == c {
      assert t[i] in multiset(xs);
    }
  }

  lemma ConstantMean(xs: seq<real>, c: real)
    requires |xs| > 0 && forall i :: 0 <= i < |xs| ==> xs[i] == c
    ensures Mean(xs) == c
  {
    MeanWithin(xs, c, c);
  }
}
