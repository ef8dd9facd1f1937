/** Sorting as Python's `list.sort()` and `np.median` use it: an insertion sort
    under a total comparison, and the median of a sorted copy. */
module Sorting {

  /** `le` compares every pair of values one way or the other. */
  ghost predicate Total<T(!new)>(le: (T, T) -> bool)
  {
    forall a, b :: le(a, b) || le(b, a)
  }

  /** Each element is `le` its successor. */
  ghost predicate Sorted<T>(s: seq<T>, le: (T, T) -> bool)
  {
    forall i :: 0 < i < |s| ==> le(s[i - 1], s[i])
  }

  /** Insert `x` before the first element it is `le`. */
  function Insert<T>(x: T, s: seq<T>, le: (T, T) -> bool): (r: seq<T>)
    ensures multiset(r) == multiset(s) + multiset{x}
    ensures |r| == |s| + 1
  {
    if |s| == 0 then [x]
    else if le(x, s[0]) then [x] + s
    else
      assert s == [s[0]] + s[1..];
      [s[0]] + Insert(x, s[1..], le)
  }

  function Sort<T>(s: seq<T>, le: (T, T) -> bool): (r: seq<T>)
    ensures multiset(r) == multiset(s)
    ensures |r| == |s|
  {
    if |s| == 0 then []
    else
      assert s == [s[0]] + s[1..];
      Insert(s[0], Sort(s[1..], le), le)
  }

  lemma {:induction false} InsertSorted<T(!new)>(x: T, s: seq<T>, le: (T, T) -> bool)
    requires Total(le) && Sorted(s, le)
    ensures Sorted(Insert(x, s, le), le)
    ensures |s| > 0 ==> var r := Insert(x, s, le); r[0] == x || r[0] == s[0]
  {
    if |s| > 0 && !le(x, s[0]) {
      assert le(s[0], x);
      InsertSorted(x, s[1..], le);
      var tail := Insert(x, s[1..], le);
      assert |s| > 1 ==> tail[0] == x || tail[0] == s[1];
      assert Insert(x, s, le) == [s[0]] + tail;
    }
  }

  /** The result of `Sort` is ordered by `le`. */
  lemma {:induction false} SortSorted<T(!new)>(s: seq<T>, le: (T, T) -> bool)
    requires Total(le)
    ensures Sorted(Sort(s, le), le)
  {
    if |s| > 0 {
      SortSorted(s[1..], le);
      InsertSorted(s[0], Sort(s[1..], le), le);
    }
  }

  function RealLe(a: real, b: real): bool { a <= b }

  /** `np.median`: the middle element of the sorted values, or the mean of the
      two middle ones when their number is even. */
  function Median(xs: seq<real>): real
    requires |xs| > 0
  {
    var t := Sort(xs, RealLe);
    var n := |t|;
    if n % 2 == 1 then t[n / 2] else (t[n / 2 - 1] + t[n / 2]) / 2.0
  }

  lemma {:induction false} SortedRealsOrdered(t: seq<real>, i: int, j: int)
    requires Sorted(t, RealLe) && 0 <= i <= j < |t|
    ensures t[i] <= t[j]
  {
    if i < j {
      SortedRealsOrdered(t, i, j - 1);
      assert RealLe(t[j - 1], t[j]);
    }
  }

  /** The median lies between the smallest and the largest sample: some
      sample is at most the median and some sample is at least it. */
  lemma MedianBetweenSamples(xs: seq<real>)
    requires |xs| > 0
    ensures exists i :: 0 <= i < |xs| && xs[i] <= Median(xs)
    ensures exists j :: 0 <= j < |xs| && Median(xs) <= xs[j]
  {
    var t := Sort(xs, RealLe);
    SortSorted(xs, RealLe);
    var n := |t|;
    SortedRealsOrdered(t, 0, n / 2);
    SortedRealsOrdered(t, n / 2, n - 1);
    if n % 2 == 0 {
      SortedRealsOrdered(t, 0, n / 2 - 1);
      SortedRealsOrdered(t, n / 2 - 1, n - 1);
    }
    assert t[0] <= Median(xs) <= t[n - 1];
    assert t[0] in multiset(xs) && t[n - 1] in multiset(xs);
    var i :| 0 <= i < |xs| && xs[i] == t[0];
    var j :| 0 <= j < |xs| && xs[j] == t[n - 1];
  }
}
