/**
 * Descriptive statistics over exact reals: the aggregates pandas computes
 * with `mean`, `std` (sample, N-1 denominator), `min` and `max`.
 * The standard deviation is carried as its square, the sample variance,
 * so that no square root has to be defined.
 */
module Stats {
  import opened Wrappers

  /** Sum of a sequence, folded from the last element. */
  function Sum(s: seq<real>): real
  {
    if s == [] then 0.0 else Sum(s[..|s| - 1]) + s[|s| - 1]
  }

  /** Arithmetic mean. */
  function Mean(s: seq<real>): real
    requires |s| > 0
  {
    Sum(s) / (|s| as real)
  }

  /**
   * Product of two reals. Products of deviations go through this function so
   * that sign facts about them (MulPositive, SquareNonnegative) can be stated
   * once and reused without the solver's nonlinear arithmetic.
   */
  function Mul(x: real, y: real): real
  {
    x * y
  }

  /** Sum over i of (a[i] - ca) * (b[i] - cb): a co-deviation about two centres. */
  function CoDev(a: seq<real>, b: seq<real>, ca: real, cb: real): real
    requires |a| == |b|
  {
    if a == [] then 0.0
    else CoDev(a[..|a| - 1], b[..|b| - 1], ca, cb) + Mul(a[|a| - 1] - ca, b[|b| - 1] - cb)
  }

  /**
   * Sample variance with the N-1 denominator. Like pandas' `std`, it is
   * undefined (NaN there, None here) for fewer than two values.
   */
  function SampleVariance(s: seq<real>): (v: Option<real>)
    ensures v.Some? <==> |s| >= 2
    ensures v.Some? ==> v.value >= 0.0
  {
    if |s| < 2 then None
    else
      SqDevNonnegative(s, Mean(s));
      Some(CoDev(s, s, Mean(s), Mean(s)) / ((|s| - 1) as real))
  }

  /** Smallest element. */
  function Min(s: seq<real>): (m: real)
    requires |s| > 0
    ensures forall i :: 0 <= i < |s| ==> m <= s[i]
    ensures m in s
  {
    if |s| == 1 then s[0]
    else
      var m' := Min(s[..|s| - 1]);
      if s[|s| - 1] < m' then s[|s| - 1] else m'
  }

  /** Largest element. */
  function Max(s: seq<real>): (m: real)
    requires |s| > 0
    ensures forall i :: 0 <= i < |s| ==> s[i] <= m
    ensures m in s
  {
    if |s| == 1 then s[0]
    else
      var m' := Max(s[..|s| - 1]);
      if s[|s| - 1] > m' then s[|s| - 1] else m'
  }

  // ---------------------------------------------------------------------
  // Real arithmetic steps the solver does not find alone

  lemma MulPositive(x: real, y: real)
    requires x > 0.0 && y > 0.0
    ensures Mul(x, y) > 0.0
  {
  }

  lemma MulNegate(x: real, y: real)
    ensures Mul(-x, -y) == Mul(x, y)
  {
  }

  /** A square is positive away from zero. */
  lemma SquarePositive(d: real)
    requires d != 0.0
    ensures Mul(d, d) > 0.0
  {
    if d > 0.0 {
      MulPositive(d, d);
    } else {
      MulPositive(-d, -d);
      MulNegate(d, d);
    }
  }

  /** A square is never negative. */
  lemma SquareNonnegative(d: real)
    ensures Mul(d, d) >= 0.0
  {
    if d != 0.0 {
      SquarePositive(d);
    }
  }

  lemma MulScale(d: real, k: real, e: real)
    ensures Mul(d, k * e) == k * Mul(d, e)
  {
  }

  lemma Distribute(k: real, x: real, y: real)
    ensures k * (x + y) == k * x + k * y
  {
  }

  /** n * x <= y with n > 0 gives x <= y / n. */
  lemma DivLowerBound(x: real, y: real, n: real)
    requires n > 0.0 && n * x <= y
    ensures x <= y / n
  {
    var q := y / n;
    assert n * q == y;
    assert n * (q - x) >= 0.0;
    if q < x {
      assert n * (x - q) > 0.0;
    }
  }

  /** y <= n * x with n > 0 gives y / n <= x. */
  lemma DivUpperBound(x: real, y: real, n: real)
    requires n > 0.0 && y <= n * x
    ensures y / n <= x
  {
    var q := y / n;
    assert n * q == y;
    if q > x {
      assert n * (q - x) > 0.0;
    }
  }

  // ---------------------------------------------------------------------
  // Sums

  /** Sum can also be unfolded from the first element. */
  lemma {:induction false} SumCons(s: seq<real>)
    requires |s| > 0
    ensures Sum(s) == s[0] + Sum(s[1..])
  {
    if |s| > 1 {
      SumCons(s[..|s| - 1]);
      assert s[..|s| - 1][1..] == s[1..][..|s| - 2];
    }
  }

  /** Appending one element to a slice adds it to the sum. */
  lemma SumSnoc(s: seq<real>, lo: nat, hi: nat)
    requires lo <= hi < |s|
    ensures Sum(s[lo..hi + 1]) == Sum(s[lo..hi]) + s[hi]
  {
    assert s[lo..hi + 1][..hi - lo] == s[lo..hi];
  }

  /** Dropping the first element of a slice subtracts it from the sum. */
  lemma SumDropFirst(s: seq<real>, lo: nat, hi: nat)
    requires lo < hi <= |s|
    ensures Sum(s[lo + 1..hi]) == Sum(s[lo..hi]) - s[lo]
  {
    SumCons(s[lo..hi]);
    assert s[lo..hi][1..] == s[lo + 1..hi];
  }

  /** Every element at least c: the sum is at least |s| * c. */
  lemma {:induction false} SumAtLeast(s: seq<real>, c: real)
    requires forall i :: 0 <= i < |s| ==> c <= s[i]
    ensures (|s| as real) * c <= Sum(s)
  {
    if s != [] {
      SumAtLeast(s[..|s| - 1], c);
      assert (|s| as real) * c == ((|s| - 1) as real) * c + c;
    }
  }

  /** Every element at most c: the sum is at most |s| * c. */
  lemma {:induction false} SumAtMost(s: seq<real>, c: real)
    requires forall i :: 0 <= i < |s| ==> s[i] <= c
    ensures Sum(s) <= (|s| as real) * c
  {
    if s != [] {
      SumAtMost(s[..|s| - 1], c);
      assert (|s| as real) * c == ((|s| - 1) as real) * c + c;
    }
  }

  /** Elementwise p[i] == a + b * x[i] gives Sum(p) == |x| * a + b * Sum(x). */
  lemma {:induction false} SumAffine(x: seq<real>, p: seq<real>, a: real, b: real)
    requires |p| == |x|
    requires forall i :: 0 <= i < |x| ==> p[i] == a + b * x[i]
    ensures Sum(p) == (|x| as real) * a + b * Sum(x)
  {
    if x != [] {
      var n := |x|;
      SumAffine(x[..n - 1], p[..n - 1], a, b);
      assert (n as real) * a == ((n - 1) as real) * a + a;
      assert b * Sum(x) == b * Sum(x[..n - 1]) + b * x[n - 1];
    }
  }

  /** The mean of a constant sequence is that constant. */
  lemma MeanConstant(s: seq<real>, c: real)
    requires |s| > 0
    requires forall i :: 0 <= i < |s| ==> s[i] == c
    ensures Mean(s) == c
  {
    MeanAtLeast(s, c);
    MeanAtMost(s, c);
  }

  /** The mean lies between the smallest and the largest element. */
  /** A lower bound of every element bounds the mean. */
  lemma MeanAtLeast(s: seq<real>, c: real)
    requires |s| > 0
    requires forall i :: 0 <= i < |s| ==> c <= s[i]
    ensures c <= Mean(s)
  {
    SumAtLeast(s, c);
    DivLowerBound(c, Sum(s), |s| as real);
  }

  /** An upper bound of every element bounds the mean. */
  lemma MeanAtMost(s: seq<real>, c: real)
    requires |s| > 0
    requires forall i :: 0 <= i < |s| ==> s[i] <= c
    ensures Mean(s) <= c
  {
    SumAtMost(s, c);
    DivUpperBound(c, Sum(s), |s| as real);
  }

  /** The mean lies between the smallest and the largest element. */
  lemma MeanBetweenMinMax(s: seq<real>)
    requires |s| > 0
    ensures Min(s) <= Mean(s) <= Max(s)
  {
    MeanAtLeast(s, Min(s));
    MeanAtMost(s, Max(s));
  }

  // ---------------------------------------------------------------------
  // Co-deviations

  /** Every b[i] deviates from cb by k times a[i]'s deviation from ca. */
  predicate DeviatesBy(a: seq<real>, b: seq<real>, ca: real, cb: real, k: real)
    requires |a| == |b|
  {
    forall i :: 0 <= i < |a| ==> b[i] - cb == k * (a[i] - ca)
  }

  /** DeviatesBy holds of the prefixes and of the last pair. */
  lemma DeviatesByInit(a: seq<real>, b: seq<real>, ca: real, cb: real, k: real)
    requires |a| == |b| && a != []
    requires DeviatesBy(a, b, ca, cb, k)
    ensures DeviatesBy(a[..|a| - 1], b[..|b| - 1], ca, cb, k)
    ensures b[|b| - 1] - cb == k * (a[|a| - 1] - ca)
  {
    var n := |a|;
    var a', b' := a[..n - 1], b[..n - 1];
    forall i | 0 <= i < n - 1
      ensures b'[i] - cb == k * (a'[i] - ca)
    {
      assert b'[i] == b[i] && a'[i] == a[i];
    }
  }

  /** One step of CoDevScale: s1 == k s2 and e == k d give s1 + d e == k (s2 + d d). */
  lemma ScaleStep(s1: real, s2: real, d: real, e: real, k: real)
    requires s1 == k * s2 && e == k * d
    ensures s1 + Mul(d, e) == k * (s2 + Mul(d, d))
  {
    MulScale(d, k, d);
    Distribute(k, s2, Mul(d, d));
  }

  /** If b deviates from cb by k times a's deviation from ca, CoDev(a, b) is k times a's square deviation. */
  lemma {:induction false} CoDevScale(a: seq<real>, b: seq<real>, ca: real, cb: real, k: real)
    requires |a| == |b|
    requires DeviatesBy(a, b, ca, cb, k)
    ensures CoDev(a, b, ca, cb) == k * CoDev(a, a, ca, ca)
  {
    if a != [] {
      var n := |a|;
      var a', b' := a[..n - 1], b[..n - 1];
      DeviatesByInit(a, b, ca, cb, k);
      CoDevScale(a', b', ca, cb, k);
      ScaleStep(CoDev(a', b', ca, cb), CoDev(a', a', ca, ca), a[n - 1] - ca, b[n - 1] - cb, k);
    }
  }

  /** A centre every element of b sits on makes the co-deviation vanish. */
  lemma {:induction false} CoDevConstantRight(a: seq<real>, b: seq<real>, ca: real, cb: real)
    requires |a| == |b|
    requires forall i :: 0 <= i < |b| ==> b[i] == cb
    ensures CoDev(a, b, ca, cb) == 0.0
  {
    if a != [] {
      CoDevConstantRight(a[..|a| - 1], b[..|b| - 1], ca, cb);
    }
  }

  /** The same for the left argument. */
  lemma {:induction false} CoDevConstantLeft(a: seq<real>, b: seq<real>, ca: real, cb: real)
    requires |a| == |b|
    requires forall i :: 0 <= i < |a| ==> a[i] == ca
    ensures CoDev(a, b, ca, cb) == 0.0
  {
    if a != [] {
      CoDevConstantLeft(a[..|a| - 1], b[..|b| - 1], ca, cb);
    }
  }

  /** A sum of squared deviations is never negative. */
  lemma {:induction false} SqDevNonnegative(s: seq<real>, c: real)
    ensures CoDev(s, s, c, c) >= 0.0
  {
    if s != [] {
      SqDevNonnegative(s[..|s| - 1], c);
      SquareNonnegative(s[|s| - 1] - c);
    }
  }

  /** A sum of squared deviations is zero only when every element is the centre. */
  lemma {:induction false} SqDevZero(s: seq<real>, c: real)
    requires CoDev(s, s, c, c) == 0.0
    ensures forall i :: 0 <= i < |s| ==> s[i] == c
  {
    if s != [] {
      var n := |s|;
      var init := s[..n - 1];
      var d := s[n - 1] - c;
      SqDevNonnegative(init, c);
      SquareNonnegative(d);
      if d != 0.0 {
        SquarePositive(d);
      }
      SqDevZero(init, c);
      forall i | 0 <= i < n
        ensures s[i] == c
      {
        if i < n - 1 {
          assert init[i] == s[i];
        }
      }
    }
  }

  /** A constant sequence of two or more values has sample variance zero. */
  lemma VarianceConstant(s: seq<real>, c: real)
    requires |s| >= 2
    requires forall i :: 0 <= i < |s| ==> s[i] == c
    ensures SampleVariance(s) == Some(0.0)
  {
    MeanConstant(s, c);
    CoDevConstantRight(s, s, c, c);
  }

  /** Min and Max of a constant sequence are that constant. */
  lemma MinMaxConstant(s: seq<real>, c: real)
    requires |s| > 0
    requires forall i :: 0 <= i < |s| ==> s[i] == c
    ensures Min(s) == c && Max(s) == c
  {
  }
}
