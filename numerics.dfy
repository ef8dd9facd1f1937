/** Numeric building blocks shared by the calibration model and the session
    analysers: Python's `int()` on a float, the `max(0, min(hi, v))` clamp,
    `sum`, `np.mean` and `np.var` over exact reals, `np.sqrt` as a parameter,
    counting, and the window kept by a bounded deque. */
module Numerics {

  datatype Option<T> = None | Some(value: T)

  /** Python's `int()` applied to a float: truncation toward zero. */
  function Trunc(r: real): (n: int)
    ensures 0.0 <= r ==> n as real <= r < n as real + 1.0
    ensures r < 0.0 ==> n as real - 1.0 < r <= n as real
  {
    if 0.0 <= r then r.Floor else -((-r).Floor)
  }

  /** Truncation never leaves an integer interval that contains its argument. */
  lemma TruncWithin(r: real, lo: int, hi: int)
    requires lo as real <= r <= hi as real
    ensures lo <= Trunc(r) <= hi
  {
  }

  /** `max(0, min(hi, v))`, the bounds check applied to a predicted coordinate. */
  function Clamp(v: int, hi: int): (c: int)
    ensures 0 <= hi ==> 0 <= c <= hi
    ensures 0 <= v <= hi ==> c == v
    ensures v < 0 ==> c == 0
    ensures 0 <= hi < v ==> c == hi
  {
    var m := if hi < v then hi else v;
    if m < 0 then 0 else m
  }

  /** Clamping is monotone, so it keeps the order of two coordinates. */
  lemma ClampMonotone(a: int, b: int, hi: int)
    requires a <= b
    ensures Clamp(a, hi) <= Clamp(b, hi)
  {
  }

  /** `root(x)` is the non-negative square root of `x`, when `x` has one. */
  ghost predicate SqrtAt(root: real -> real, x: real)
  {
    0.0 <= x ==> 0.0 <= root(x) && root(x) * root(x) == x
  }

  /** `root` behaves as `np.sqrt` on the non-negative reals. */
  ghost predicate IsSqrt(root: real -> real)
  {
    forall x :: SqrtAt(root, x)
  }

  /** The square root of a non-negative value is non-negative. */
  lemma SqrtNonNegative(root: real -> real, x: real)
    requires IsSqrt(root) && 0.0 <= x
    ensures 0.0 <= root(x)
  {
    assert SqrtAt(root, x);
  }

  /** A threshold test on a square root is the same test on the square:
      `sqrt(x) <= t` iff `x <= t * t`. */
  lemma {:induction false} SqrtAtMost(root: real -> real, x: real, t: real)
    requires IsSqrt(root) && 0.0 <= x && 0.0 <= t
    ensures root(x) <= t <==> x <= t * t
  {
    assert SqrtAt(root, x);
    var r := root(x);
    assert 0.0 <= r && r * r == x;
    var tt, tr, rr := t * t, t * r, r * r;
    if r <= t {
      assert rr <= tr <= tt;
    } else {
      assert tt <= tr < rr;
    }
  }

  /** Python's `sum` over a list of floats, accumulated from the front. */
  function Sum(xs: seq<real>): real
  {
    if |xs| == 0 then 0.0 else Sum(xs[..|xs| - 1]) + xs[|xs| - 1]
  }

  /** `np.mean` of a non-empty list. */
  function Mean(xs: seq<real>): real
    requires |xs| > 0
  {
    Sum(xs) / (|xs| as real)
  }

  lemma {:induction false} SumWithin(xs: seq<real>, lo: real, hi: real)
    requires forall i :: 0 <= i < |xs| ==> lo <= xs[i] <= hi
    ensures (|xs| as real) * lo <= Sum(xs) <= (|xs| as real) * hi
  {
    if |xs| > 0 {
      SumWithin(xs[..|xs| - 1], lo, hi);
    }
  }

  lemma {:induction false} SumStrictlyWithin(xs: seq<real>, lo: real, hi: real)
    requires |xs| > 0
    requires forall i :: 0 <= i < |xs| ==> lo < xs[i] < hi
    ensures (|xs| as real) * lo < Sum(xs) < (|xs| as real) * hi
  {
    if |xs| > 1 {
      SumStrictlyWithin(xs[..|xs| - 1], lo, hi);
    }
  }

  /** The mean of values in `[lo, hi]` lies in `[lo, hi]`. */
  lemma MeanWithin(xs: seq<real>, lo: real, hi: real)
    requires |xs| > 0
    requires forall i :: 0 <= i < |xs| ==> lo <= xs[i] <= hi
    ensures lo <= Mean(xs) <= hi
  {
    SumWithin(xs, lo, hi);
    var n := |xs| as real;
    assert n * lo <= Sum(xs) <= n * hi;
    assert Sum(xs) / n >= lo by {
      assert Sum(xs) >= lo * n;
    }
    assert Sum(xs) / n <= hi by {
      assert Sum(xs) <= hi * n;
    }
  }

  /** The mean of values in the open interval `(lo, hi)` lies in it. */
  lemma MeanStrictlyWithin(xs: seq<real>, lo: real, hi: real)
    requires |xs| > 0
    requires forall i :: 0 <= i < |xs| ==> lo < xs[i] < hi
    ensures lo < Mean(xs) < hi
  {
    SumStrictlyWithin(xs, lo, hi);
    var n := |xs| as real;
    assert Sum(xs) / n > lo by {
      assert Sum(xs) > lo * n;
    }
    assert Sum(xs) / n < hi by {
      assert Sum(xs) < hi * n;
    }
  }

  lemma {:induction false} SumAbove(xs: seq<real>, lo: real)
    requires |xs| > 0
    requires forall i :: 0 <= i < |xs| ==> lo < xs[i]
    ensures (|xs| as real) * lo < Sum(xs)
  {
    if |xs| > 1 {
      SumAbove(xs[..|xs| - 1], lo);
    }
  }

  /** The mean of values all above `lo` is above `lo`. */
  lemma MeanAbove(xs: seq<real>, lo: real)
    requires |xs| > 0
    requires forall i :: 0 <= i < |xs| ==> lo < xs[i]
    ensures lo < Mean(xs)
  {
    SumAbove(xs, lo);
    var n := |xs| as real;
    assert Sum(xs) / n > lo by {
      assert Sum(xs) > lo * n;
    }
  }

  /** Sum of values each at least 0, one of them positive, is positive. */
  lemma {:induction false} PositiveSum(xs: seq<real>)
    requires |xs| > 0 && forall i :: 0 <= i < |xs| ==> 0.0 < xs[i]
    ensures 0.0 < Sum(xs)
  {
    if |xs| > 1 {
      PositiveSum(xs[..|xs| - 1]);
    }
  }

  /** `sum(c * w for c, w in zip(cs, ws))`, accumulated from the front. */
  function Dot(cs: seq<real>, ws: seq<real>): real
    requires |cs| == |ws|
  {
    if |cs| == 0 then 0.0 else Dot(cs[..|cs| - 1], ws[..|ws| - 1]) + cs[|cs| - 1] * ws[|ws| - 1]
  }

  lemma ScaleMonotone(a: real, b: real, w: real)
    requires a <= b && 0.0 <= w
    ensures a * w <= b * w
  {
    assert (b - a) * w >= 0.0;
  }

  /** One more weighted term keeps a weighted sum above its lower bound. */
  lemma StepAbove(lo: real, c: real, w: real, t: real, s: real, total: real, dot: real)
    requires lo * t <= s && lo <= c && 0.0 <= w
    requires total == t + w && dot == s + c * w
    ensures lo * total <= dot
  {
    ScaleMonotone(lo, c, w);
    assert lo * (t + w) == lo * t + lo * w;
  }

  /** One more weighted term keeps a weighted sum below its upper bound. */
  lemma StepBelow(hi: real, c: real, w: real, t: real, s: real, total: real, dot: real)
    requires s <= hi * t && c <= hi && 0.0 <= w
    requires total == t + w && dot == s + c * w
    ensures dot <= hi * total
  {
    ScaleMonotone(c, hi, w);
    assert hi * (t + w) == hi * t + hi * w;
  }

  /** A non-negatively weighted sum of values at least `lo` is at least
      `lo` times the total weight. */
  lemma {:induction false} DotAbove(cs: seq<real>, ws: seq<real>, lo: real)
    requires |cs| == |ws|
    requires forall i :: 0 <= i < |ws| ==> 0.0 <= ws[i]
    requires forall i :: 0 <= i < |cs| ==> lo <= cs[i]
    ensures lo * Sum(ws) <= Dot(cs, ws)
  {
    if |cs| == 0 {
      assert lo * 0.0 == 0.0;
    } else {
      var n := |cs| - 1;
      DotAbove(cs[..n], ws[..n], lo);
      StepAbove(lo, cs[n], ws[n], Sum(ws[..n]), Dot(cs[..n], ws[..n]), Sum(ws), Dot(cs, ws));
    }
  }

  /** A non-negatively weighted sum of values at most `hi` is at most `hi`
      times the total weight. */
  lemma {:induction false} DotBelow(cs: seq<real>, ws: seq<real>, hi: real)
    requires |cs| == |ws|
    requires forall i :: 0 <= i < |ws| ==> 0.0 <= ws[i]
    requires forall i :: 0 <= i < |cs| ==> cs[i] <= hi
    ensures Dot(cs, ws) <= hi * Sum(ws)
  {
    if |cs| == 0 {
      assert hi * 0.0 == 0.0;
    } else {
      var n := |cs| - 1;
      DotBelow(cs[..n], ws[..n], hi);
      StepBelow(hi, cs[n], ws[n], Sum(ws[..n]), Dot(cs[..n], ws[..n]), Sum(ws), Dot(cs, ws));
    }
  }

  /** `lo * t <= s <= hi * t` with `t > 0` puts `s / t` in `[lo, hi]`. */
  lemma DivideWithin(s: real, t: real, lo: real, hi: real)
    requires 0.0 < t && lo * t <= s <= hi * t
    ensures lo <= s / t <= hi
  {
    var q := s / t;
    assert (q - lo) * t == s - lo * t;
    assert (hi - q) * t == hi * t - s;
  }

  /** The list of squared deviations from `m`. */
  function SquaredDeviations(xs: seq<real>, m: real): (ds: seq<real>)
    ensures |ds| == |xs|
    ensures forall i :: 0 <= i < |xs| ==> ds[i] == (xs[i] - m) * (xs[i] - m)
  {
    seq(|xs|, i requires 0 <= i < |xs| => (xs[i] - m) * (xs[i] - m))
  }

  /** `np.var` of a non-empty list: the population variance. */
  function Variance(xs: seq<real>): real
    requires |xs| > 0
  {
    Mean(SquaredDeviations(xs, Mean(xs)))
  }

  lemma VarianceNonNegative(xs: seq<real>)
    requires |xs| > 0
    ensures 0.0 <= Variance(xs)
  {
    var ds := SquaredDeviations(xs, Mean(xs));
    forall i | 0 <= i < |ds| ensures 0.0 <= ds[i] {
      var d := xs[i] - Mean(xs);
      assert ds[i] == d * d;
    }
    NonNegativeSum(ds);
  }

  lemma {:induction false} NonNegativeSum(xs: seq<real>)
    requires forall i :: 0 <= i < |xs| ==> 0.0 <= xs[i]
    ensures 0.0 <= Sum(xs)
  {
    if |xs| > 0 {
      NonNegativeSum(xs[..|xs| - 1]);
    }
  }

  /** Successive differences `xs[i] - xs[i-1]` for `i` in `1 .. |xs|-1`. */
  function Differences(xs: seq<real>): (ds: seq<real>)
    ensures |ds| == if |xs| <= 1 then 0 else |xs| - 1
    ensures forall i :: 0 <= i < |ds| ==> ds[i] == xs[i + 1] - xs[i]
  {
    if |xs| <= 1 then [] else seq(|xs| - 1, i requires 0 <= i < |xs| - 1 => xs[i + 1] - xs[i])
  }

  /** How many elements of `s` satisfy `p` (a counter bumped once per element). */
  function CountIf<T>(s: seq<T>, p: T -> bool): (c: nat)
    ensures c <= |s|
  {
    if |s| == 0 then 0
    else CountIf(s[..|s| - 1], p) + (if p(s[|s| - 1]) then 1 else 0)
  }

  /** Nothing to count counts nothing. */
  lemma {:induction false} CountIfNone<T>(s: seq<T>, p: T -> bool)
    requires forall i :: 0 <= i < |s| ==> !p(s[i])
    ensures CountIf(s, p) == 0
  {
    if |s| > 0 {
      CountIfNone(s[..|s| - 1], p);
    }
  }

  lemma CountIfAppend<T>(s: seq<T>, x: T, p: T -> bool)
    ensures CountIf(s + [x], p) == CountIf(s, p) + (if p(x) then 1 else 0)
  {
    assert (s + [x])[..|s|] == s;
  }

  /** Two counters over conditions that never hold together count no more
      than the elements. */
  lemma {:induction false} CountDisjoint<T>(s: seq<T>, p: T -> bool, q: T -> bool)
    requires forall i :: 0 <= i < |s| ==> !(p(s[i]) && q(s[i]))
    ensures CountIf(s, p) + CountIf(s, q) <= |s|
  {
    if |s| > 0 {
      CountDisjoint(s[..|s| - 1], p, q);
    }
  }

  /** What a `deque(maxlen = n)` holds after every element of `s` was appended:
      the last `n` of them. */
  function LastN<T>(s: seq<T>, n: nat): seq<T>
  {
    if |s| <= n then s else s[|s| - n..]
  }

  /** `deque.append` on a deque of at most `n` elements: the new element
      joins at the back and, when the deque is full, the oldest one is
      dropped. */
  function Push<T>(w: seq<T>, x: T, n: nat): (r: seq<T>)
    ensures |w| <= n && 0 < n ==> |r| <= n
    ensures 0 < n ==> 0 < |r| && r[|r| - 1] == x
  {
    if |w| + 1 > n then (w + [x])[1..] else w + [x]
  }

  /** Pushing every element of `s` in turn onto a deque of at most `n`
      leaves the last `n` of them. */
  lemma LastNPush<T>(s: seq<T>, x: T, n: nat)
    requires n > 0
    ensures LastN(s + [x], n) == Push(LastN(s, n), x, n)
  {
    LastNAppend(s, x, n);
  }

  /** Appending to a bounded window and dropping its oldest element when it
      overflows (the deque's own rule, and `append` then `pop(0)`) keeps the
      window equal to the last `n` elements of everything appended. */
  lemma LastNAppend<T>(s: seq<T>, x: T, n: nat)
    requires n > 0
    ensures var w := LastN(s, n) + [x];
            LastN(s + [x], n) == if |w| > n then w[1..] else w
  {
    var w := LastN(s, n) + [x];
    if |s| + 1 <= n {
      assert LastN(s + [x], n) == s + [x] == w;
    } else if |s| <= n {
      assert |s| == n && w == s + [x];
      assert LastN(s + [x], n) == (s + [x])[1..] == w[1..];
    } else {
      assert w == s[|s| - n..] + [x];
      assert LastN(s + [x], n) == (s + [x])[|s| + 1 - n..] == w[1..];
    }
  }
}
