/** Gaze prediction from the correspondence table: a k-nearest-neighbour,
    inverse-distance-weighted average of the calibrated screen points, under
    the combined distance "pupil distance + 100 x ratio distance", truncated to
    whole pixels and clamped to the screen. */
module Prediction {
  import opened Numerics
  import opened Sorting
  import opened CalibrationModel

  /** One pupil position reported by the detector. */
  datatype Pupil = Pupil(x: real, y: real)

  /** A table entry seen from the query: `(combined_dist, screen_x, screen_y)`. */
  datatype Neighbour = Neighbour(dist: real, screenX: int, screenY: int)

  datatype Axis = X | Y

  /** Scale applied to the ratio distance before it is added to the pupil distance. */
  const RatioScale: real := 100.0
  /** At most this many nearest entries are averaged. */
  const NeighbourCount: nat := 4
  /** Fewer table entries than this and no prediction is made. */
  const MinEntries: nat := 3

  function Square(a: real): (s: real)
    ensures 0.0 <= s
  {
    a * a
  }

  /** What an entry is compared with: the mean of the two pupils and the two ratios. */
  datatype Query = Query(x: real, y: real, h: real, v: real)

  function QueryOf(left: Pupil, right: Pupil, h: real, v: real): Query
  {
    Query((left.x + right.x) / 2.0, (left.y + right.y) / 2.0, h, v)
  }

  /** `spatial_dist + ratio_dist * 100` between the query and one entry. */
  function CombinedDistance(root: real -> real, q: Query, e: Entry): (d: real)
    ensures IsSqrt(root) ==> 0.0 <= d
  {
    var spatial := Square(q.x - e.pupilX) + Square(q.y - e.pupilY);
    var ratio := Square(q.h - e.h) + Square(q.v - e.v);
    assert IsSqrt(root) ==> 0.0 <= root(spatial) && 0.0 <= root(ratio) by {
      if IsSqrt(root) {
        SqrtNonNegative(root, spatial);
        SqrtNonNegative(root, ratio);
      }
    }
    root(spatial) + root(ratio) * RatioScale
  }

  function DistanceTo(root: real -> real, q: Query): Entry -> real
  {
    e => CombinedDistance(root, q, e)
  }

  /** One neighbour per table entry, in table order, under the distance `dist`. */
  function Distances(dist: Entry -> real, entries: seq<Entry>): (ds: seq<Neighbour>)
    ensures |ds| == |entries|
    ensures forall i :: 0 <= i < |entries| ==>
      ds[i] == Neighbour(dist(entries[i]), entries[i].screenX, entries[i].screenY)
  {
    seq(|entries|, i requires 0 <= i < |entries| => Neighbour(dist(entries[i]), entries[i].screenX, entries[i].screenY))
  }

  /** Python's order on the tuples `(dist, screen_x, screen_y)`: lexicographic. */
  predicate NeighbourLe(a: Neighbour, b: Neighbour)
  {
    a.dist < b.dist
    || (a.dist == b.dist && (a.screenX < b.screenX || (a.screenX == b.screenX && a.screenY <= b.screenY)))
  }

  lemma NeighbourLeTotal()
    ensures Total(NeighbourLe)
  {
  }

  /** `min(4, n)`. */
  function NeighbourLimit(n: nat): nat
  {
    if NeighbourCount < n then NeighbourCount else n
  }

  /** `distances.sort()` followed by `distances[:min(4, len(distances))]`. */
  function Nearest(ds: seq<Neighbour>): seq<Neighbour>
  {
    Sort(ds, NeighbourLe)[..NeighbourLimit(|ds|)]
  }

  lemma {:induction false} SortedByDistance(t: seq<Neighbour>, i: int, j: int)
    requires Sorted(t, NeighbourLe) && 0 <= i <= j < |t|
    ensures t[i].dist <= t[j].dist
  {
    if i < j {
      SortedByDistance(t, i, j - 1);
      assert NeighbourLe(t[j - 1], t[j]);
    }
  }

  /** In a list sorted by `NeighbourLe`, nothing after position `k` is
      nearer than anything before it. */
  lemma SortedPrefixClosest(t: seq<Neighbour>, k: nat, a: Neighbour, b: Neighbour)
    requires Sorted(t, NeighbourLe) && k <= |t|
    requires a in t[..k] && b in t[k..]
    ensures a.dist <= b.dist
  {
    var i :| 0 <= i < k && t[..k][i] == a;
    var j :| 0 <= j < |t| - k && t[k..][j] == b;
    SortedByDistance(t, i, k + j);
  }

  /** The neighbours kept are `min(4, n)` of the table's, and none that was
      left out is nearer than any that was kept. */
  lemma NearestAreClosest(ds: seq<Neighbour>)
    ensures var ns := Nearest(ds);
      && |ns| == NeighbourLimit(|ds|)
      && multiset(ns) <= multiset(ds)
      && forall a, b :: a in ns && b in multiset(ds) - multiset(ns) ==> a.dist <= b.dist
  {
    var t := Sort(ds, NeighbourLe);
    NeighbourLeTotal();
    SortSorted(ds, NeighbourLe);
    var k := NeighbourLimit(|ds|);
    var ns, rest := t[..k], t[k..];
    assert t == ns + rest;
    assert multiset(ds) - multiset(ns) == multiset(rest);
    forall a, b | a in ns && b in multiset(ds) - multiset(ns) ensures a.dist <= b.dist {
      assert b in rest;
      SortedPrefixClosest(t, k, a, b);
    }
  }

  predicate NonNegativeDistances(ns: seq<Neighbour>)
  {
    forall i :: 0 <= i < |ns| ==> 0.0 <= ns[i].dist
  }

  /** `1 / (dist + 1)`: positive, and at most 1 (reached at distance 0). */
  function Weight(d: real): (w: real)
    requires 0.0 <= d
    ensures 0.0 < w <= 1.0
    ensures d == 0.0 <==> w == 1.0
  {
    1.0 / (d + 1.0)
  }

  function Coordinate(n: Neighbour, axis: Axis): int
  {
    match axis
    case X => n.screenX
    case Y => n.screenY
  }

  /** The weight of each neighbour, in order. */
  function Weights(ns: seq<Neighbour>): (ws: seq<real>)
    requires NonNegativeDistances(ns)
    ensures |ws| == |ns| && forall i :: 0 <= i < |ns| ==> ws[i] == Weight(ns[i].dist)
  {
    seq(|ns|, i requires 0 <= i < |ns| && NonNegativeDistances(ns) => Weight(ns[i].dist))
  }

  /** One screen coordinate of each neighbour, in order. */
  function Coordinates(ns: seq<Neighbour>, axis: Axis): (cs: seq<real>)
    ensures |cs| == |ns| && forall i :: 0 <= i < |ns| ==> cs[i] == Coordinate(ns[i], axis) as real
  {
    seq(|ns|, i requires 0 <= i < |ns| => Coordinate(ns[i], axis) as real)
  }

  /** `total_weight` after the loop over the neighbours. */
  function TotalWeight(ns: seq<Neighbour>): real
    requires NonNegativeDistances(ns)
  {
    Sum(Weights(ns))
  }

  /** `weighted_x` (or `weighted_y`) after the loop over the neighbours. */
  function WeightedSum(ns: seq<Neighbour>, axis: Axis): real
    requires NonNegativeDistances(ns)
  {
    Dot(Coordinates(ns, axis), Weights(ns))
  }

  /** Some neighbour gives a positive total weight. */
  lemma TotalWeightPositive(ns: seq<Neighbour>)
    requires |ns| > 0 && NonNegativeDistances(ns)
    ensures 0.0 < TotalWeight(ns)
  {
    PositiveSum(Weights(ns));
  }

  /** The weighted sum of coordinates at least `lo` is at least `lo` times
      the total weight. */
  lemma WeightedSumAbove(ns: seq<Neighbour>, axis: Axis, lo: real)
    requires NonNegativeDistances(ns)
    requires forall i :: 0 <= i < |ns| ==> lo <= Coordinate(ns[i], axis) as real
    ensures lo * TotalWeight(ns) <= WeightedSum(ns, axis)
  {
    DotAbove(Coordinates(ns, axis), Weights(ns), lo);
  }

  /** The weighted sum of coordinates at most `hi` is at most `hi` times
      the total weight. */
  lemma WeightedSumBelow(ns: seq<Neighbour>, axis: Axis, hi: real)
    requires NonNegativeDistances(ns)
    requires forall i :: 0 <= i < |ns| ==> Coordinate(ns[i], axis) as real <= hi
    ensures WeightedSum(ns, axis) <= hi * TotalWeight(ns)
  {
    DotBelow(Coordinates(ns, axis), Weights(ns), hi);
  }

  /** The weighted average of the neighbours' screen coordinates lies between
      their smallest and their largest coordinate. */
  lemma NeighbourAverageWithin(ns: seq<Neighbour>, axis: Axis, lo: int, hi: int)
    requires |ns| > 0 && NonNegativeDistances(ns)
    requires forall i :: 0 <= i < |ns| ==> lo <= Coordinate(ns[i], axis) <= hi
    ensures 0.0 < TotalWeight(ns)
    ensures lo as real <= WeightedSum(ns, axis) / TotalWeight(ns) <= hi as real
  {
    TotalWeightPositive(ns);
    WeightedSumAbove(ns, axis, lo as real);
    WeightedSumBelow(ns, axis, hi as real);
    DivideWithin(WeightedSum(ns, axis), TotalWeight(ns), lo as real, hi as real);
  }

  /** The neighbours of the query: distances to every entry, nearest `min(4, n)`. */
  function NeighboursOf(dist: Entry -> real, entries: seq<Entry>): seq<Neighbour>
  {
    Nearest(Distances(dist, entries))
  }

  /** Any property every table neighbour has, the nearest ones have. */
  lemma NearestKeeps(ds: seq<Neighbour>, p: Neighbour -> bool)
    requires forall i :: 0 <= i < |ds| ==> p(ds[i])
    ensures forall i :: 0 <= i < |Nearest(ds)| ==> p(Nearest(ds)[i])
  {
    var ns := Nearest(ds);
    NearestAreClosest(ds);
    forall i | 0 <= i < |ns| ensures p(ns[i]) {
      assert ns[i] in multiset(ns);
      assert ns[i] in ds;
    }
  }

  /** The query's neighbours are `min(4, n)` many, all at a non-negative distance. */
  lemma NeighboursFromTable(dist: Entry -> real, entries: seq<Entry>)
    requires forall e :: 0.0 <= dist(e)
    ensures var ns := NeighboursOf(dist, entries);
      |ns| == NeighbourLimit(|entries|) && NonNegativeDistances(ns)
  {
    var ds := Distances(dist, entries);
    NearestAreClosest(ds);
    NearestKeeps(ds, (n: Neighbour) => 0.0 <= n.dist);
  }

  /** The query's neighbours carry screen points of the table. */
  lemma NeighboursWithin(dist: Entry -> real, entries: seq<Entry>, loX: int, hiX: int, loY: int, hiY: int)
    requires forall e :: e in entries ==> loX <= e.screenX <= hiX && loY <= e.screenY <= hiY
    ensures var ns := NeighboursOf(dist, entries);
      forall i :: 0 <= i < |ns| ==> loX <= ns[i].screenX <= hiX && loY <= ns[i].screenY <= hiY
  {
    var ds := Distances(dist, entries);
    forall i | 0 <= i < |ds| ensures loX <= ds[i].screenX <= hiX && loY <= ds[i].screenY <= hiY {
      assert entries[i] in entries;
    }
    NearestKeeps(ds, (n: Neighbour) => loX <= n.screenX <= hiX && loY <= n.screenY <= hiY);
  }

  /** Under `np.sqrt` the combined distance is never negative. */
  lemma DistanceToNonNegative(root: real -> real, q: Query)
    requires IsSqrt(root)
    ensures forall e :: 0.0 <= DistanceTo(root, q)(e)
  {
    forall e ensures 0.0 <= DistanceTo(root, q)(e) {
      assert DistanceTo(root, q)(e) == CombinedDistance(root, q, e);
    }
  }

  /** `predict_gaze_position` as a value: nothing without a calibration, without
      both pupils, without both ratios or with fewer than 3 entries; otherwise
      the weighted average of the nearest entries' screen points, truncated to
      whole pixels and clamped to `[0, width] x [0, height]`. */
  function Predict(calibrated: bool, entries: seq<Entry>, width: int, height: int,
                   left: Option<Pupil>, right: Option<Pupil>, hRatio: Option<real>, vRatio: Option<real>,
                   root: real -> real): Option<ScreenPoint>
    requires IsSqrt(root)
  {
    if !calibrated || left.None? || right.None? then None
    else if hRatio.None? || vRatio.None? || |entries| < MinEntries then None
    else
      var dist := DistanceTo(root, QueryOf(left.value, right.value, hRatio.value, vRatio.value));
      DistanceToNonNegative(root, QueryOf(left.value, right.value, hRatio.value, vRatio.value));
      var ns := NeighboursOf(dist, entries);
      NeighboursFromTable(dist, entries);
      var total := TotalWeight(ns);
      if total > 0.0 then
        Some(ScreenPoint(Clamp(Trunc(WeightedSum(ns, X) / total), width),
                         Clamp(Trunc(WeightedSum(ns, Y) / total), height)))
      else None
  }

  /** A prediction is missing exactly when the calibration is missing, a
      pupil or a ratio is missing, or the table has fewer than 3 entries. */
  lemma PredictAbsentIff(calibrated: bool, entries: seq<Entry>, width: int, height: int,
                         left: Option<Pupil>, right: Option<Pupil>, hRatio: Option<real>, vRatio: Option<real>,
                         root: real -> real)
    requires IsSqrt(root)
    ensures Predict(calibrated, entries, width, height, left, right, hRatio, vRatio, root).None?
      <==> !calibrated || left.None? || right.None? || hRatio.None? || vRatio.None? || |entries| < MinEntries
  {
    if calibrated && left.Some? && right.Some? && hRatio.Some? && vRatio.Some? && |entries| >= MinEntries {
      var q := QueryOf(left.value, right.value, hRatio.value, vRatio.value);
      DistanceToNonNegative(root, q);
      NeighboursFromTable(DistanceTo(root, q), entries);
      TotalWeightPositive(NeighboursOf(DistanceTo(root, q), entries));
    }
  }

  /** Every prediction lies on the screen. */
  lemma PredictOnScreen(calibrated: bool, entries: seq<Entry>, width: int, height: int,
                        left: Option<Pupil>, right: Option<Pupil>, hRatio: Option<real>, vRatio: Option<real>,
                        root: real -> real)
    requires IsSqrt(root) && 0 <= width && 0 <= height
    ensures var r := Predict(calibrated, entries, width, height, left, right, hRatio, vRatio, root);
      r.Some? ==> 0 <= r.value.x <= width && 0 <= r.value.y <= height
  {
  }

  /** When every entry's screen point lies in `[loX, hiX] x [loY, hiY]`, so does
      the prediction, up to the clamp to the screen. */
  lemma PredictWithinTable(calibrated: bool, entries: seq<Entry>, width: int, height: int,
                           left: Option<Pupil>, right: Option<Pupil>, hRatio: Option<real>, vRatio: Option<real>,
                           root: real -> real, loX: int, hiX: int, loY: int, hiY: int)
    requires IsSqrt(root)
    requires forall e :: e in entries ==> loX <= e.screenX <= hiX && loY <= e.screenY <= hiY
    ensures var r := Predict(calibrated, entries, width, height, left, right, hRatio, vRatio, root);
      r.Some? ==>
        Clamp(loX, width) <= r.value.x <= Clamp(hiX, width) && Clamp(loY, height) <= r.value.y <= Clamp(hiY, height)
  {
    if calibrated && left.Some? && right.Some? && hRatio.Some? && vRatio.Some? && |entries| >= MinEntries {
      var q := QueryOf(left.value, right.value, hRatio.value, vRatio.value);
      var dist := DistanceTo(root, q);
      DistanceToNonNegative(root, q);
      var ns := NeighboursOf(dist, entries);
      NeighboursFromTable(dist, entries);
      NeighboursWithin(dist, entries, loX, hiX, loY, hiY);
      NeighbourAverageWithin(ns, X, loX, hiX);
      NeighbourAverageWithin(ns, Y, loY, hiY);
      var total := TotalWeight(ns);
      var ax, ay := WeightedSum(ns, X) / total, WeightedSum(ns, Y) / total;
      TruncWithin(ax, loX, hiX);
      TruncWithin(ay, loY, hiY);
      ClampMonotone(loX, Trunc(ax), width);
      ClampMonotone(Trunc(ax), hiX, width);
      ClampMonotone(loY, Trunc(ay), height);
      ClampMonotone(Trunc(ay), hiY, height);
    }
  }

  /** A table whose entries all name one on-screen point predicts that point. */
  lemma PredictSingleTarget(calibrated: bool, entries: seq<Entry>, width: int, height: int,
                            left: Option<Pupil>, right: Option<Pupil>, hRatio: Option<real>, vRatio: Option<real>,
                            root: real -> real, target: ScreenPoint)
    requires IsSqrt(root)
    requires 0 <= target.x <= width && 0 <= target.y <= height
    requires forall e :: e in entries ==> e.screenX == target.x && e.screenY == target.y
    ensures var r := Predict(calibrated, entries, width, height, left, right, hRatio, vRatio, root);
      r.Some? ==> r.value == target
  {
    PredictWithinTable(calibrated, entries, width, height, left, right, hRatio, vRatio, root,
                       target.x, target.x, target.y, target.y);
  }

  /** The loop of `predict_gaze_position` that pairs every entry with its
      combined distance from the query. */
  method DistanceList(root: real -> real, q: Query, entries: seq<Entry>) returns (distances: seq<Neighbour>)
    ensures distances == Distances(DistanceTo(root, q), entries)
  {
    distances := [];
    for i := 0 to |entries|
      invariant |distances| == i
      invariant forall j :: 0 <= j < i ==>
        distances[j] == Neighbour(CombinedDistance(root, q, entries[j]), entries[j].screenX, entries[j].screenY)
    {
      var e := entries[i];
      var spatial := root(Square(q.x - e.pupilX) + Square(q.y - e.pupilY));
      var ratio := root(Square(q.h - e.h) + Square(q.v - e.v));
      distances := distances + [Neighbour(spatial + ratio * RatioScale, e.screenX, e.screenY)];
    }
  }

  /** Extending the neighbours by one adds its weight to the total and its
      weighted coordinate to the sum. */
  lemma AccumulateStep(ns: seq<Neighbour>, i: nat, axis: Axis)
    requires NonNegativeDistances(ns) && i < |ns|
    ensures NonNegativeDistances(ns[..i]) && NonNegativeDistances(ns[..i + 1])
    ensures TotalWeight(ns[..i + 1]) == TotalWeight(ns[..i]) + Weight(ns[i].dist)
    ensures WeightedSum(ns[..i + 1], axis) == WeightedSum(ns[..i], axis) + (Coordinate(ns[i], axis) as real) * Weight(ns[i].dist)
  {
    var prefix, next := ns[..i], ns[..i + 1];
    assert next[..i] == prefix;
    assert Weights(next)[..i] == Weights(prefix);
    assert Coordinates(next, axis)[..i] == Coordinates(prefix, axis);
  }

  /** The loop of `predict_gaze_position` that accumulates the total weight
      and the two weighted coordinate sums of the nearest neighbours. */
  method AccumulateWeights(closest: seq<Neighbour>) returns (totalWeight: real, weightedX: real, weightedY: real)
    requires NonNegativeDistances(closest)
    ensures totalWeight == TotalWeight(closest)
    ensures weightedX == WeightedSum(closest, X) && weightedY == WeightedSum(closest, Y)
  {
    totalWeight, weightedX, weightedY := 0.0, 0.0, 0.0;
    for i := 0 to |closest|
      invariant NonNegativeDistances(closest[..i])
      invariant totalWeight == TotalWeight(closest[..i])
      invariant weightedX == WeightedSum(closest[..i], X)
      invariant weightedY == WeightedSum(closest[..i], Y)
    {
      AccumulateStep(closest, i, X);
      AccumulateStep(closest, i, Y);
      var n := closest[i];
      var weight := 1.0 / (n.dist + 1.0);
      weightedX := weightedX + (n.screenX as real) * weight;
      weightedY := weightedY + (n.screenY as real) * weight;
      totalWeight := totalWeight + weight;
    }
    assert closest[..|closest|] == closest;
  }

  /** `predict_gaze_position`: the checks, the distance list, the sort, the
      weights, the truncation and the clamp. */
  method PredictGaze(calibrated: bool, entries: seq<Entry>, width: int, height: int,
                     left: Option<Pupil>, right: Option<Pupil>, hRatio: Option<real>, vRatio: Option<real>,
                     root: real -> real) returns (r: Option<ScreenPoint>)
    requires IsSqrt(root)
    ensures r == Predict(calibrated, entries, width, height, left, right, hRatio, vRatio, root)
  {
    if !calibrated || left.None? || right.None? {
      return None;
    }
    if hRatio.None? || vRatio.None? || |entries| < MinEntries {
      return None;
    }
    var q := QueryOf(left.value, right.value, hRatio.value, vRatio.value);
    DistanceToNonNegative(root, q);
    var distances := DistanceList(root, q, entries);
    var sorted := Sort(distances, NeighbourLe);
    var closest := sorted[..NeighbourLimit(|sorted|)];
    NeighboursFromTable(DistanceTo(root, q), entries);
    var totalWeight, weightedX, weightedY := AccumulateWeights(closest);

    if totalWeight > 0.0 {
      var predX := Trunc(weightedX / totalWeight);
      var predY := Trunc(weightedY / totalWeight);
      predX := if predX < width then predX else width;
      predX := if 0 > predX then 0 else predX;
      predY := if predY < height then predY else height;
      predY := if 0 > predY then 0 else predY;
      return Some(ScreenPoint(predX, predY));
    }
    return None;
  }
}
