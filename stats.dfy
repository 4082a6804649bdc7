/**
 * The statistics a rolling sample window reports (include/RingBuffer.h):
 * minimum, maximum, average and nearest-rank percentile of a sequence of
 * samples. Samples are exact reals; a percentile p is the fraction num/den.
 */
module Stats {

  predicate Sorted(s: seq<real>) {
    forall i, j :: 0 <= i < j < |s| ==> s[i] <= s[j]
  }

  /** Inserts x into a sorted sequence, keeping it sorted. */
  function Insert(x: real, s: seq<real>): (r: seq<real>)
    requires Sorted(s)
    ensures Sorted(r)
    ensures multiset(r) == multiset(s) + multiset{x}
    ensures |r| == |s| + 1
  {
    if s == [] then [x]
    else if x <= s[0] then
      SortedCons(x, s);
      [x] + s
    else
      var rest := Insert(x, s[1..]);
      assert s == [s[0]] + s[1..];
      assert forall k :: 0 <= k < |rest| ==> s[0] <= rest[k] by {
        forall k | 0 <= k < |rest|
          ensures s[0] <= rest[k]
        {
          assert rest[k] in multiset(s[1..]) + multiset{x};
          if rest[k] != x {
            assert rest[k] in s[1..];
          }
        }
      }
      SortedCons(s[0], rest);
      [s[0]] + rest
  }

  /** A head no larger than any element of a sorted tail keeps it sorted. */
  lemma SortedCons(h: real, t: seq<real>)
    requires Sorted(t)
    requires forall k :: 0 <= k < |t| ==> h <= t[k]
    ensures Sorted([h] + t)
  {
    var r := [h] + t;
    forall i, j | 0 <= i < j < |r|
      ensures r[i] <= r[j]
    {
      if i > 0 {
        assert r[i] == t[i - 1] && r[j] == t[j - 1];
      }
    }
  }

  /** The sorted copy of the samples: a sorted permutation (the result of `std::sort`). */
  function Sort(s: seq<real>): (r: seq<real>)
    ensures Sorted(r)
    ensures multiset(r) == multiset(s)
    ensures |r| == |s|
  {
    if s == [] then []
    else
      assert s == [s[0]] + s[1..];
      Insert(s[0], Sort(s[1..]))
  }

  /** A sorted permutation is unique, so any sorting algorithm yields Sort(s). */
  lemma {:induction false} SortedUnique(a: seq<real>, b: seq<real>)
    requires Sorted(a) && Sorted(b)
    requires multiset(a) == multiset(b)
    ensures a == b
  {
    if a != [] {
      assert |b| == |a| by {
        assert |multiset(a)| == |a| && |multiset(b)| == |b|;
      }
      assert a[0] in multiset(b);
      assert b[0] in multiset(a);
      assert a[0] == b[0];
      assert a == [a[0]] + a[1..];
      assert b == [b[0]] + b[1..];
      assert multiset(a[1..]) == multiset(a) - multiset{a[0]};
      assert multiset(b[1..]) == multiset(b) - multiset{b[0]};
      SortedUnique(a[1..], b[1..]);
    }
  }

  /** Sequences holding the same samples sort to the same sequence. */
  lemma SortPermutation(s: seq<real>, t: seq<real>)
    requires multiset(s) == multiset(t)
    ensures Sort(s) == Sort(t)
  {
    SortedUnique(Sort(s), Sort(t));
  }

  /** The smallest sample, or 0 when there is none (`min()`). */
  function Min(s: seq<real>): (r: real)
    ensures s == [] ==> r == 0.0
    ensures s != [] ==> r in s && forall i :: 0 <= i < |s| ==> r <= s[i]
  {
    if s == [] then 0.0
    else if |s| == 1 then s[0]
    else
      var m := Min(s[1..]);
      assert forall i :: 1 <= i < |s| ==> s[i] == s[1..][i - 1];
      if s[0] <= m then s[0] else m
  }

  /** The largest sample, or 0 when there is none (`max()`). */
  function Max(s: seq<real>): (r: real)
    ensures s == [] ==> r == 0.0
    ensures s != [] ==> r in s && forall i :: 0 <= i < |s| ==> s[i] <= r
  {
    if s == [] then 0.0
    else if |s| == 1 then s[0]
    else
      var m := Max(s[1..]);
      assert forall i :: 1 <= i < |s| ==> s[i] == s[1..][i - 1];
      if m <= s[0] then s[0] else m
  }

  /** Left-to-right sum from 0, as `std::accumulate` computes it. */
  function Sum(s: seq<real>): real {
    if s == [] then 0.0 else Sum(s[..|s| - 1]) + s[|s| - 1]
  }

  /** The mean of the samples, or 0 when there is none (`average()`). */
  function Average(s: seq<real>): (r: real)
    ensures s == [] ==> r == 0.0
    ensures s != [] ==> r * (|s| as real) == Sum(s)
  {
    if s == [] then 0.0 else Sum(s) / (|s| as real)
  }

  /** Every sample lies in [lo, hi], so the sum lies in [n*lo, n*hi]. */
  lemma {:induction false} SumBounds(s: seq<real>, lo: real, hi: real)
    requires forall i :: 0 <= i < |s| ==> lo <= s[i] <= hi
    ensures (|s| as real) * lo <= Sum(s) <= (|s| as real) * hi
  {
    if s != [] {
      var init := s[..|s| - 1];
      assert forall i :: 0 <= i < |init| ==> init[i] == s[i];
      SumBounds(init, lo, hi);
      var m := |init| as real;
      assert (|s| as real) * lo == m * lo + lo;
      assert (|s| as real) * hi == m * hi + hi;
    }
  }

  /** The average lies between the smallest and the largest sample. */
  lemma AverageBetween(s: seq<real>)
    requires s != []
    ensures Min(s) <= Average(s) <= Max(s)
  {
    AverageWithin(s, Min(s), Max(s));
  }

  /** Samples within [lo, hi] have their average within [lo, hi]. */
  lemma AverageWithin(s: seq<real>, lo: real, hi: real)
    requires s != []
    requires forall i :: 0 <= i < |s| ==> lo <= s[i] <= hi
    ensures lo <= Average(s) <= hi
  {
    SumBounds(s, lo, hi);
    MeanBetween(Sum(s), Average(s), |s| as real, lo, hi);
  }

  /** A mean a = sum / n of a sum within [n*lo, n*hi] lies within [lo, hi]. */
  lemma MeanBetween(sum: real, a: real, n: real, lo: real, hi: real)
    requires n > 0.0 && a * n == sum
    requires n * lo <= sum <= n * hi
    ensures lo <= a <= hi
  {
    assert n * (a - lo) >= 0.0;
    assert n * (hi - a) >= 0.0;
  }

  /** ceil(a / d) for d > 0. */
  function CeilDiv(a: int, d: int): (c: int)
    requires d > 0
    ensures c * d >= a
    ensures (c - 1) * d < a
  {
    var q := (a + d - 1) / d;
    assert q * d + (a + d - 1) % d == a + d - 1;
    q
  }

  /**
   * The 0-based nearest-rank index for 0 < num/den < 1 among n sorted
   * samples: ceil(p * n) - 1, clamped to n - 1.
   */
  function NearestRank(num: int, den: int, n: nat): (idx: nat)
    requires 0 < num < den && n >= 1
    ensures idx < n
  {
    var c := CeilDiv(num * n, den);
    assert c >= 1 by {
      assert num * n >= 1;
    }
    var i := c - 1;
    if i >= n then n - 1 else i
  }

  /**
   * The nearest-rank percentile p = num/den of the samples (`percentile(p)`):
   * the smallest sample for p <= 0, the largest for p >= 1, 0 when empty.
   */
  function Percentile(s: seq<real>, num: int, den: int): (r: real)
    requires den > 0
    ensures s == [] ==> r == 0.0
    ensures s != [] ==> r in s
  {
    if s == [] then 0.0
    else
      var sorted := Sort(s);
      var idx := RankIndex(num, den, |s|);
      assert sorted[idx] in multiset(s);
      sorted[idx]
  }

  /** The index `percentile(p)` reads in the sorted copy of n >= 1 samples. */
  function RankIndex(num: int, den: int, n: nat): (idx: nat)
    requires den > 0 && n >= 1
    ensures idx < n
    ensures num <= 0 ==> idx == 0
    ensures num >= den ==> idx == n - 1
  {
    if num <= 0 then 0
    else if num >= den then n - 1
    else NearestRank(num, den, n)
  }

  /** A larger fraction never reads an earlier rank. */
  lemma RankIndexMonotone(num1: int, den1: int, num2: int, den2: int, n: nat)
    requires den1 > 0 && den2 > 0 && n >= 1
    requires num1 * den2 <= num2 * den1
    ensures RankIndex(num1, den1, n) <= RankIndex(num2, den2, n)
  {
    if num1 > 0 && num2 < den2 {
      assert num2 > 0 by {
        assert num1 * den2 > 0;
      }
      assert num1 < den1 by {
        assert num2 * den1 < den2 * den1;
      }
      CeilMonotone(num1, den1, num2, den2, n);
    }
  }

  /** The ends of any sorted permutation of s are the extremes of s. */
  lemma SortedEnds(t: seq<real>, s: seq<real>)
    requires Sorted(t) && multiset(t) == multiset(s) && s != []
    ensures |t| == |s|
    ensures t[0] == Min(s) && t[|t| - 1] == Max(s)
  {
    assert |t| == |multiset(t)| == |s|;
    var lo, hi := Min(s), Max(s);
    assert t[0] in multiset(s) && t[|t| - 1] in multiset(s);
    assert lo in multiset(t) && hi in multiset(t);
    var i :| 0 <= i < |t| && t[i] == lo;
    var j :| 0 <= j < |t| && t[j] == hi;
    assert t[0] <= t[i] && t[j] <= t[|t| - 1];
  }

  /** percentile(p) for p <= 0 is min(), for p >= 1 it is max(). */
  lemma PercentileExtremes(s: seq<real>, num: int, den: int)
    requires den > 0
    ensures num <= 0 ==> Percentile(s, num, den) == Min(s)
    ensures num >= den ==> Percentile(s, num, den) == Max(s)
  {
    if s != [] { SortedEnds(Sort(s), s); }
  }

  /** Every percentile lies between min() and max(). */
  lemma PercentileBetween(s: seq<real>, num: int, den: int)
    requires den > 0
    ensures Min(s) <= Percentile(s, num, den) <= Max(s)
  {
  }

  /** The ceiling is monotone in the fraction: num1/den1 <= num2/den2. */
  lemma CeilMonotone(num1: int, den1: int, num2: int, den2: int, n: nat)
    requires den1 > 0 && den2 > 0
    requires num1 * den2 <= num2 * den1
    ensures CeilDiv(num1 * n, den1) <= CeilDiv(num2 * n, den2)
  {
    var c1 := CeilDiv(num1 * n, den1);
    var c2 := CeilDiv(num2 * n, den2);
    // den2 * (c2 * den1) >= den1 * (num2 * n) >= den2 * (num1 * n)
    MulLeft(num2 * n, c2 * den2, den1);
    MulLeft(num1 * den2, num2 * den1, n);
    assert den1 * (c2 * den2) == den2 * (c2 * den1);
    assert den1 * (num2 * n) == (num2 * den1) * n;
    assert (num1 * den2) * n == den2 * (num1 * n);
    CancelLeft(num1 * n, c2 * den1, den2);
    // (c1 - 1) * den1 < num1 * n <= c2 * den1
    CancelLeft(c1 - 1, c2, den1);
  }

  lemma MulLeft(a: int, b: int, k: int)
    requires k >= 0 && a <= b
    ensures k * a <= k * b
  {
  }

  lemma CancelLeft(a: int, b: int, k: int)
    requires k > 0 && a * k <= b * k
    ensures a <= b
  {
  }

  /** percentile(p) is non-decreasing in p. */
  lemma PercentileMonotone(s: seq<real>, num1: int, den1: int, num2: int, den2: int)
    requires den1 > 0 && den2 > 0
    requires num1 * den2 <= num2 * den1
    ensures Percentile(s, num1, den1) <= Percentile(s, num2, den2)
  {
    if s != [] {
      var sorted := Sort(s);
      var i1, i2 := RankIndex(num1, den1, |s|), RankIndex(num2, den2, |s|);
      RankIndexMonotone(num1, den1, num2, den2, |s|);
      assert Percentile(s, num1, den1) == sorted[i1];
      assert Percentile(s, num2, den2) == sorted[i2];
      assert sorted[i1] <= sorted[i2];
    }
  }

  /** Two sequences summing the same samples in different orders have the same sum. */
  lemma {:induction false} SumPermutation(s: seq<real>, t: seq<real>)
    requires multiset(s) == multiset(t)
    ensures Sum(s) == Sum(t)
    decreases |s|
  {
    if s != [] {
      var x := s[|s| - 1];
      assert s == s[..|s| - 1] + [x];
      assert x in multiset(t);
      var k :| 0 <= k < |t| && t[k] == x;
      var t' := t[..k] + t[k + 1..];
      assert t == t[..k] + [x] + t[k + 1..];
      assert multiset(t) == multiset(t[..k]) + multiset{x} + multiset(t[k + 1..]);
      assert multiset(t') == multiset(t) - multiset{x};
      assert multiset(s[..|s| - 1]) == multiset(s) - multiset{x};
      SumPermutation(s[..|s| - 1], t');
      SumRemove(t, k);
    } else {
      assert |t| == |multiset(t)|;
    }
  }

  /** Removing the element at k takes it off the sum. */
  lemma {:induction false} SumRemove(t: seq<real>, k: nat)
    requires k < |t|
    ensures Sum(t) == Sum(t[..k] + t[k + 1..]) + t[k]
    decreases |t|
  {
    var last := |t| - 1;
    if k < last {
      var init := t[..last];
      SumRemove(init, k);
      assert init[..k] + init[k + 1..] == (t[..k] + t[k + 1..])[..last - 1];
      assert (t[..k] + t[k + 1..])[last - 1] == t[last];
    } else {
      assert t[..k] + t[k + 1..] == t[..last];
    }
  }

  /**
   * All four statistics depend only on which samples are held, not on the
   * order they are stored in.
   */
  lemma StatsPermutation(s: seq<real>, t: seq<real>, num: int, den: int)
    requires multiset(s) == multiset(t)
    requires den > 0
    ensures Min(s) == Min(t) && Max(s) == Max(t)
    ensures Average(s) == Average(t)
    ensures Percentile(s, num, den) == Percentile(t, num, den)
  {
    assert |s| == |multiset(s)| == |t|;
    if s != [] {
      assert Min(s) in multiset(t) && Min(t) in multiset(s);
      assert Max(s) in multiset(t) && Max(t) in multiset(s);
    }
    SumPermutation(s, t);
    SortPermutation(s, t);
  }
}
