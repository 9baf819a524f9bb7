/** The numeric reductions the analysis applies to a series: sum, mean, extrema,
    population variance, and numpy's median and linearly interpolated percentile
    over a sorted copy. Square roots come from the numeric library, which is
    outside this model: every root is taken through a `sqrt` parameter, and the
    facts that depend on it assume only that it is the square root on the
    non-negative reals. */
module Stats {
  import opened Wrappers

  // ---------------- square roots ----------------

  /** `sqrt` is the non-negative square root on the non-negative reals. */
  ghost predicate IsSqrt(sqrt: real -> real)
  {
    forall x :: 0.0 <= x ==> 0.0 <= sqrt(x) && sqrt(x) * sqrt(x) == x
  }

  /** Squaring is strictly increasing on the non-negative reals. */
  lemma SquareLess(a: real, b: real)
    requires 0.0 <= a < b
    ensures a * a < b * b
  {
    calc {
      a * a;
    <=
      { assert a * a <= a * b; }
      a * b;
    <
      { assert (b - a) * b > 0.0; }
      b * b;
    }
  }

  lemma SquareMonotone(a: real, b: real)
    requires 0.0 <= a && 0.0 <= b
    ensures a < b <==> a * a < b * b
  {
    if a < b {
      SquareLess(a, b);
    } else if b < a {
      SquareLess(b, a);
    }
  }

  lemma SqrtOfSquare(sqrt: real -> real, x: real)
    requires IsSqrt(sqrt) && 0.0 <= x
    ensures sqrt(x * x) == x
  {
    var r := sqrt(x * x);
    assert 0.0 <= r && r * r == x * x;
    SquareMonotone(r, x);
    SquareMonotone(x, r);
  }

  /** Comparing a root with a non-negative constant is comparing the radicand
      with the constant's square. */
  lemma SqrtCompare(sqrt: real -> real, x: real, c: real)
    requires IsSqrt(sqrt) && 0.0 <= x && 0.0 <= c
    ensures sqrt(x) < c <==> x < c * c
    ensures sqrt(x) > c <==> x > c * c
  {
    var r := sqrt(x);
    assert 0.0 <= r && r * r == x;
    SquareMonotone(r, c);
    SquareMonotone(c, r);
  }

  lemma SqrtZero(sqrt: real -> real)
    requires IsSqrt(sqrt)
    ensures sqrt(0.0) == 0.0
  {
    SqrtOfSquare(sqrt, 0.0);
  }

  // ---------------- sums and means ----------------

  function Sum(s: seq<real>): real
  {
    if s == [] then 0.0 else Sum(s[..|s| - 1]) + s[|s| - 1]
  }

  function Mean(s: seq<real>): real
    requires |s| > 0
  {
    Sum(s) / (|s| as real)
  }

  /** A sum of samples that all lie in [lo, hi] lies in [n lo, n hi]. */
  lemma {:induction false} SumBounds(s: seq<real>, lo: real, hi: real)
    requires forall i :: 0 <= i < |s| ==> lo <= s[i] <= hi
    ensures (|s| as real) * lo <= Sum(s) <= (|s| as real) * hi
  {
    if s != [] {
      var p := s[..|s| - 1];
      SumBounds(p, lo, hi);
      assert (|s| as real) * lo == (|p| as real) * lo + lo;
      assert (|s| as real) * hi == (|p| as real) * hi + hi;
    }
  }

  lemma MeanBounds(s: seq<real>, lo: real, hi: real)
    requires |s| > 0
    requires forall i :: 0 <= i < |s| ==> lo <= s[i] <= hi
    ensures lo <= Mean(s) <= hi
  {
    SumBounds(s, lo, hi);
    var n := |s| as real;
    assert Mean(s) * n == Sum(s);
  }

  /** The mean of a constant series is that constant. */
  lemma MeanOfConstant(s: seq<real>, c: real)
    requires |s| > 0
    requires forall i :: 0 <= i < |s| ==> s[i] == c
    ensures Mean(s) == c
  {
    MeanBounds(s, c, c);
  }

  // ---------------- extrema ----------------

  function Min(s: seq<real>): (m: real)
    requires |s| > 0
    ensures m in s
    ensures forall i :: 0 <= i < |s| ==> m <= s[i]
  {
    if |s| == 1 then s[0]
    else
      var p := s[..|s| - 1];
      var r := Min(p);
      assert forall i :: 0 <= i < |p| ==> p[i] == s[i];
      if s[|s| - 1] < r then s[|s| - 1] else r
  }

  function Max(s: seq<real>): (m: real)
    requires |s| > 0
    ensures m in s
    ensures forall i :: 0 <= i < |s| ==> s[i] <= m
  {
    if |s| == 1 then s[0]
    else
      var p := s[..|s| - 1];
      var r := Max(p);
      assert forall i :: 0 <= i < |p| ==> p[i] == s[i];
      if s[|s| - 1] > r then s[|s| - 1] else r
  }

  /** The mean lies between the smallest and the largest sample. */
  lemma MeanBetweenExtrema(s: seq<real>)
    requires |s| > 0
    ensures Min(s) <= Mean(s) <= Max(s)
  {
    MeanBounds(s, Min(s), Max(s));
  }

  function Abs(x: real): real
  {
    if x < 0.0 then -x else x
  }

  /** The absolute value of every sample. */
  function Magnitudes(s: seq<real>): (r: seq<real>)
    ensures |r| == |s|
    ensures forall i :: 0 <= i < |s| ==> r[i] == Abs(s[i])
  {
    seq(|s|, i requires 0 <= i < |s| => Abs(s[i]))
  }

  /** The square of every sample. */
  function Squares(s: seq<real>): (r: seq<real>)
    ensures |r| == |s|
    ensures forall i :: 0 <= i < |s| ==> r[i] == s[i] * s[i]
  {
    seq(|s|, i requires 0 <= i < |s| => s[i] * s[i])
  }

  /** Squared Euclidean norm of every sample of three axis series:
      x² + y² + z², never negative. */
  function SquaredNorms(x: seq<real>, y: seq<real>, z: seq<real>): (e: seq<real>)
    requires |x| == |y| == |z|
    ensures |e| == |x|
    ensures forall i :: 0 <= i < |x| ==> e[i] == x[i] * x[i] + y[i] * y[i] + z[i] * z[i]
    ensures forall i :: 0 <= i < |e| ==> 0.0 <= e[i]
  {
    seq(|x|, i requires 0 <= i < |x| =>
      assert 0.0 <= x[i] * x[i] && 0.0 <= y[i] * y[i] && 0.0 <= z[i] * z[i];
      x[i] * x[i] + y[i] * y[i] + z[i] * z[i])
  }

  // ---------------- variance ----------------

  /** Squared deviation of every sample from `c`. */
  function Deviations(s: seq<real>, c: real): (r: seq<real>)
    ensures |r| == |s|
    ensures forall i :: 0 <= i < |s| ==> r[i] == (s[i] - c) * (s[i] - c)
  {
    seq(|s|, i requires 0 <= i < |s| => (s[i] - c) * (s[i] - c))
  }

  /** Population variance (numpy's `var`, ddof = 0). */
  function Var(s: seq<real>): real
    requires |s| > 0
  {
    Mean(Deviations(s, Mean(s)))
  }

  /** Population standard deviation (numpy's `std`) through the given root. */
  function Std(s: seq<real>, sqrt: real -> real): real
    requires |s| > 0
  {
    sqrt(Var(s))
  }

  lemma VarNonNegative(s: seq<real>)
    requires |s| > 0
    ensures 0.0 <= Var(s)
  {
    var d := Deviations(s, Mean(s));
    forall i | 0 <= i < |d|
      ensures 0.0 <= d[i]
    {
      var e := s[i] - Mean(s);
      assert d[i] == e * e;
    }
    MeanBounds(d, 0.0, Max(d));
  }

  /** A constant series has no spread. */
  lemma VarOfConstant(s: seq<real>, c: real)
    requires |s| > 0
    requires forall i :: 0 <= i < |s| ==> s[i] == c
    ensures Var(s) == 0.0
  {
    MeanOfConstant(s, c);
    MeanOfConstant(Deviations(s, c), 0.0);
  }

  lemma StdNonNegative(s: seq<real>, sqrt: real -> real)
    requires |s| > 0 && IsSqrt(sqrt)
    ensures 0.0 <= Std(s, sqrt)
  {
    VarNonNegative(s);
  }

  /** The same fact for any `sqrt`, conditional on it being the root; usable
      where `IsSqrt` cannot be branched on. */
  lemma StdNonNegativeWhenRoot(s: seq<real>, sqrt: real -> real)
    requires |s| > 0
    ensures IsSqrt(sqrt) ==> 0.0 <= Std(s, sqrt)
  {
    if IsSqrt(sqrt) {
      StdNonNegative(s, sqrt);
    }
  }

  /** A constant series has no spread, for any `sqrt` that is the root. */
  lemma StdOfConstantWhenRoot(s: seq<real>, sqrt: real -> real)
    requires |s| > 0
    ensures IsSqrt(sqrt) && (forall i :: 0 <= i < |s| ==> s[i] == s[0]) ==> Std(s, sqrt) == 0.0
  {
    if IsSqrt(sqrt) && (forall i :: 0 <= i < |s| ==> s[i] == s[0]) {
      VarOfConstant(s, s[0]);
      SqrtZero(sqrt);
    }
  }

  /** Population standard deviation of `s`, unavailable when it is empty. */
  function StdOrNone(s: seq<real>, sqrt: real -> real): (r: Option<real>)
    ensures r.Some? <==> |s| > 0
    ensures r.Some? ==> r.value == Std(s, sqrt)
    ensures r.Some? && IsSqrt(sqrt) ==> 0.0 <= r.value
    ensures r.Some? && IsSqrt(sqrt) && (forall i :: 0 <= i < |s| ==> s[i] == s[0]) ==> r.value == 0.0
  {
    if |s| == 0 then None
    else
      StdNonNegativeWhenRoot(s, sqrt);
      StdOfConstantWhenRoot(s, sqrt);
      Some(Std(s, sqrt))
  }

  // ---------------- order statistics ----------------

  ghost predicate Sorted(s: seq<real>)
  {
    forall i, j :: 0 <= i < j < |s| ==> s[i] <= s[j]
  }

  /** Prefixing a sorted sequence with a lower bound of it keeps it sorted. */
  lemma SortedCons(a: real, t: seq<real>)
    requires Sorted(t)
    requires forall k :: 0 <= k < |t| ==> a <= t[k]
    ensures Sorted([a] + t)
  {
    var r := [a] + t;
    forall i, j | 0 <= i < j < |r|
      ensures r[i] <= r[j]
    {
      assert r[j] == t[j - 1];
      if i > 0 {
        assert r[i] == t[i - 1];
      }
    }
  }

  /** Insert `x` into a sorted sequence, keeping it sorted. */
  function Insert(x: real, s: seq<real>): (r: seq<real>)
    requires Sorted(s)
    ensures Sorted(r)
    ensures multiset(r) == multiset(s) + multiset{x}
    ensures |r| == |s| + 1
  {
    if s == [] then [x]
    else if x <= s[0] then
      SortedCons(x, s);
      [x] + s
    else
      var rest := s[1..];
      assert s == [s[0]] + rest;
      var t := Insert(x, rest);
      assert forall k :: 0 <= k < |t| ==> t[k] in multiset(rest) + multiset{x} by {
        forall k | 0 <= k < |t|
          ensures t[k] in multiset(rest) + multiset{x}
        {
          assert t[k] in multiset(t);
        }
      }
      assert forall k :: 0 <= k < |rest| ==> s[0] <= rest[k] by {
        forall k | 0 <= k < |rest|
          ensures s[0] <= rest[k]
        {
          assert rest[k] == s[k + 1];
        }
      }
      SortedCons(s[0], t);
      [s[0]] + t
  }

  /** The samples in ascending order (numpy sorts before taking a median or a
      percentile). */
  function Sort(s: seq<real>): (r: seq<real>)
    ensures Sorted(r)
    ensures multiset(r) == multiset(s)
    ensures |r| == |s|
  {
    if s == [] then []
    else
      assert s == [s[0]] + s[1..];
      Insert(s[0], Sort(s[1..]))
  }

  /** Every element of the sorted copy is a sample, so it lies between the
      extrema. */
  lemma SortBetweenExtrema(s: seq<real>)
    requires |s| > 0
    ensures forall k :: 0 <= k < |s| ==> Min(s) <= Sort(s)[k] <= Max(s)
  {
    var t := Sort(s);
    forall k | 0 <= k < |t|
      ensures Min(s) <= t[k] <= Max(s)
    {
      assert t[k] in multiset(t);
      assert t[k] in s;
    }
  }

  /** The median of an already sorted sequence. */
  function Middle(t: seq<real>): real
    requires |t| > 0
  {
    var n := |t|;
    if n % 2 == 1 then t[n / 2] else (t[n / 2 - 1] + t[n / 2]) / 2.0
  }

  /** numpy's `median`: the middle sample of the sorted copy, or the mean of the
      two middle samples when the length is even. */
  function Median(s: seq<real>): real
    requires |s| > 0
  {
    Middle(Sort(s))
  }

  /** Where numpy's linear method reads the sorted copy for the q-th
      percentile of n samples: the fractional index q (n - 1) / 100, split
      into its whole part and its fraction. */
  function Rank(q: nat, n: nat): (r: (nat, real))
    requires q <= 100 && n > 0
    ensures r.0 < n
    ensures 0.0 <= r.1 < 1.0
  {
    var pos := q * (n - 1);
    RankBound(q, n - 1);
    ((pos / 100), ((pos % 100) as real) / 100.0)
  }

  lemma RankBound(q: nat, m: nat)
    requires q <= 100
    ensures (q * m) / 100 <= m
  {
    var pos := q * m;
    assert (100 - q) * m >= 0;
    assert (100 - q) * m == 100 * m - pos;
    assert pos == 100 * (pos / 100) + pos % 100;
  }

  /** The whole part and the fraction Rank returns add up to the fractional
      index q (n - 1) / 100. */
  lemma RankIsFractionalIndex(q: nat, n: nat)
    requires q <= 100 && n > 0
    ensures var r := Rank(q, n);
            (r.0 as real) + r.1 == (q as real) * ((n - 1) as real) / 100.0
  {
    var m := n - 1;
    var pos := q * m;
    var lo, rest := pos / 100, pos % 100;
    assert pos == 100 * lo + rest;
    assert (pos as real) == (q as real) * (m as real);
    assert (lo as real) + (rest as real) / 100.0 == (pos as real) / 100.0;
  }

  /** The q-th percentile of an already sorted sequence, numpy's linear
      method: read at the fractional index q (n - 1) / 100, interpolating
      between the two neighbouring samples. */
  function Interpolate(t: seq<real>, q: nat): real
    requires |t| > 0 && q <= 100
  {
    var r := Rank(q, |t|);
    if r.0 + 1 < |t| then Lerp(t[r.0], t[r.0 + 1], r.1) else t[r.0]
  }

  /** numpy's `percentile(s, q)` with its default linear method, read on the
      sorted copy. */
  function Percentile(s: seq<real>, q: nat): real
    requires |s| > 0 && q <= 100
  {
    Interpolate(Sort(s), q)
  }

  /** Where the 50th percentile reads: the middle index for an odd length,
      halfway between the two middle indices for an even one. */
  lemma Rank50(n: nat)
    requires n > 0
    ensures n % 2 == 1 ==> Rank(50, n) == (n / 2, 0.0)
    ensures n % 2 == 0 ==> Rank(50, n) == (n / 2 - 1, 0.5)
  {
    var k := n / 2;
    if n % 2 == 1 {
      assert 50 * (n - 1) == 100 * k;
    } else {
      assert 50 * (n - 1) == 100 * (k - 1) + 50;
    }
  }

  /** On a sorted sequence the middle is the 50th percentile. */
  lemma MiddleIsInterpolate50(t: seq<real>)
    requires |t| > 0
    ensures Middle(t) == Interpolate(t, 50)
  {
    Rank50(|t|);
  }

  /** The median is the 50th percentile. */
  lemma MedianIsPercentile50(s: seq<real>)
    requires |s| > 0
    ensures Median(s) == Percentile(s, 50)
  {
    MiddleIsInterpolate50(Sort(s));
  }

  /** The point a fraction `f` of the way from `a` to `b`. */
  function Lerp(a: real, b: real, f: real): real
  {
    a + f * (b - a)
  }

  lemma ScaleBetween(f: real, d: real)
    requires 0.0 <= f <= 1.0 && 0.0 <= d
    ensures 0.0 <= f * d <= d
  {
    calc {
      0.0;
    ==
      0.0 * d;
    <=
      f * d;
    <=
      1.0 * d;
    ==
      d;
    }
  }

  lemma LerpRising(a: real, b: real, f: real)
    requires 0.0 <= f <= 1.0 && a <= b
    ensures a <= Lerp(a, b, f) <= b
  {
    ScaleBetween(f, b - a);
    var p := f * (b - a);
    assert p <= b - a;
    assert a + p <= b;
  }

  lemma LerpFalling(a: real, b: real, f: real)
    requires 0.0 <= f <= 1.0 && b < a
    ensures b <= Lerp(a, b, f) <= a
  {
    ScaleBetween(f, a - b);
    var p := f * (a - b);
    assert f * (b - a) == -p;
    assert p <= a - b;
  }

  /** Interpolating between two points of [lo, hi] stays in [lo, hi]. */
  lemma LerpBetween(a: real, b: real, f: real, lo: real, hi: real)
    requires lo <= a <= hi && lo <= b <= hi && 0.0 <= f <= 1.0
    ensures lo <= Lerp(a, b, f) <= hi
  {
    if a <= b {
      LerpRising(a, b, f);
    } else {
      LerpFalling(a, b, f);
    }
  }

  /** Interpolating a sequence whose samples lie in [lo, hi] stays in [lo, hi]. */
  lemma InterpolateBetween(t: seq<real>, q: nat, lo: real, hi: real)
    requires |t| > 0 && q <= 100
    requires forall k :: 0 <= k < |t| ==> lo <= t[k] <= hi
    ensures lo <= Interpolate(t, q) <= hi
  {
    var r := Rank(q, |t|);
    if r.0 + 1 < |t| {
      LerpBetween(t[r.0], t[r.0 + 1], r.1, lo, hi);
    }
  }

  /** Every percentile lies between the smallest and the largest sample. */
  lemma PercentileBetweenExtrema(s: seq<real>, q: nat)
    requires |s| > 0 && q <= 100
    ensures Min(s) <= Percentile(s, q) <= Max(s)
  {
    SortBetweenExtrema(s);
    InterpolateBetween(Sort(s), q, Min(s), Max(s));
  }

  lemma MedianBetweenExtrema(s: seq<real>)
    requires |s| > 0
    ensures Min(s) <= Median(s) <= Max(s)
  {
    MedianIsPercentile50(s);
    PercentileBetweenExtrema(s, 50);
  }

  /** The median of a constant series is that constant. */
  lemma MedianOfConstant(s: seq<real>, c: real)
    requires |s| > 0
    requires forall i :: 0 <= i < |s| ==> s[i] == c
    ensures Median(s) == c
  {
    MedianBetweenExtrema(s);
  }
}
