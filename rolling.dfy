/**
 * The trailing rolling statistics of functions.py (window 30) and the
 * `dropna` that follows them.
 */
module Rolling {
  import opened Wrappers
  import opened Stats
  import opened Observations

  /** `rolling(window=30)`, with pandas' default `min_periods` equal to the window. */
  const Window: nat := 30

  /**
   * A row after the rolling loop: the input row plus the `rolling_mean`
   * and `rolling_std` columns. The standard deviation is carried as its
   * square, the sample variance; None is pandas' NaN.
   */
  datatype Rolled = Rolled(obs: Obs, rollingMean: Option<real>, rollingVar: Option<real>)

  /** The window ending at position i: the Window values t[i-29..i]. */
  function WindowAt(t: seq<real>, i: nat): (w: seq<real>)
    requires Window - 1 <= i < |t|
    ensures |w| == Window
  {
    t[i + 1 - Window..i + 1]
  }

  /** `rolling(window=30).mean()` at position i, in input order. */
  function RollingMean(t: seq<real>, i: nat): (m: Option<real>)
    requires i < |t|
    ensures m.Some? <==> i + 1 >= Window
  {
    if i + 1 >= Window then Some(Mean(WindowAt(t, i))) else None
  }

  /** A rolling mean lies between the smallest and the largest temperature of its window. */
  lemma RollingMeanInWindow(t: seq<real>, i: nat)
    requires Window - 1 <= i < |t|
    ensures Min(WindowAt(t, i)) <= RollingMean(t, i).value <= Max(WindowAt(t, i))
  {
    MeanBetweenMinMax(WindowAt(t, i));
  }

  /** `rolling(window=30).std()` at position i, as a variance. */
  function RollingVar(t: seq<real>, i: nat): (v: Option<real>)
    requires i < |t|
    ensures v.Some? <==> i + 1 >= Window
    ensures v.Some? ==> v.value >= 0.0
  {
    if i + 1 >= Window then SampleVariance(WindowAt(t, i)) else None
  }

  /** The table after the loop of functions.py: every row with its two rolling columns. */
  function WithRolling(rows: seq<Obs>): (r: seq<Rolled>)
    ensures |r| == |rows|
  {
    var t := Temps(rows);
    seq(|rows|, i requires 0 <= i < |rows| =>
      Rolled(rows[i], RollingMean(t, i), RollingVar(t, i)))
  }

  /** First position of the running window before position i is added. */
  function RunStart(i: nat): nat
  {
    if i >= Window then i - Window else 0
  }

  /**
   * The loop of functions.py that writes `rolling_mean` and `rolling_std`
   * into the frame. The mean keeps a running sum over the trailing window:
   * each step adds the new temperature and, once the window is full,
   * removes the one that falls out.
   */
  method AddRollingColumns(rows: seq<Obs>) returns (out: seq<Rolled>)
    ensures out == WithRolling(rows)
  {
    var n := |rows|;
    var t := Temps(rows);
    var means := new Option<real>[n](_ => None);
    var vars := new Option<real>[n](_ => None);
    var sum := 0.0;
    var i := 0;
    while i < n
      invariant 0 <= i <= n
      invariant sum == Sum(t[RunStart(i)..i])
      invariant forall j :: 0 <= j < i ==> means[j] == RollingMean(t, j) && vars[j] == RollingVar(t, j)
    {
      RunningSumStep(t, i);
      sum := sum + t[i];
      if i >= Window {
        sum := sum - t[i - Window];
      }
      if i + 1 >= Window {
        var mean, variance := WindowMoments(t, i, sum);
        means[i] := Some(mean);
        vars[i] := Some(variance);
      } else {
        means[i] := None;
        vars[i] := None;
      }
      i := i + 1;
    }
    out := seq(n, j requires 0 <= j < n reads means, vars => Rolled(rows[j], means[j], vars[j]));
  }

  /**
   * The body of the loop once the window is full: the mean from the
   * running sum, and the sample variance from a second pass over the window.
   */
  method WindowMoments(t: seq<real>, i: nat, sum: real) returns (mean: real, variance: real)
    requires Window - 1 <= i < |t|
    requires sum == Sum(t[RunStart(i + 1)..i + 1])
    ensures RollingMean(t, i) == Some(mean)
    ensures RollingVar(t, i) == Some(variance)
  {
    mean := sum / (Window as real);
    var sq := SquaredDeviation(t, i + 1 - Window, i + 1, mean);
    WindowStatistics(t, i, sum, sq);
    variance := sq / ((Window - 1) as real);
  }

  /** Moving from position i to i + 1 adds t[i] and, once the window is full, drops t[i - Window]. */
  lemma RunningSumStep(t: seq<real>, i: nat)
    requires i < |t|
    ensures Sum(t[RunStart(i + 1)..i + 1])
         == Sum(t[RunStart(i)..i]) + t[i] - (if i >= Window then t[i - Window] else 0.0)
  {
    SumSnoc(t, RunStart(i), i);
    if i >= Window {
      SumDropFirst(t, i - Window, i + 1);
    }
  }

  /** The running sum and the squared deviation about sum / Window give the rolling statistics at i. */
  lemma WindowStatistics(t: seq<real>, i: nat, sum: real, sq: real)
    requires Window - 1 <= i < |t|
    requires sum == Sum(t[RunStart(i + 1)..i + 1])
    requires sq == CoDev(t[i + 1 - Window..i + 1], t[i + 1 - Window..i + 1], sum / (Window as real), sum / (Window as real))
    ensures RollingMean(t, i) == Some(sum / (Window as real))
    ensures RollingVar(t, i) == Some(sq / ((Window - 1) as real))
  {
    assert RunStart(i + 1) == i + 1 - Window;
  }

  /** Sum of squared deviations of t[lo..hi] from c. */
  method SquaredDeviation(t: seq<real>, lo: nat, hi: nat, c: real) returns (acc: real)
    requires lo <= hi <= |t|
    ensures acc == CoDev(t[lo..hi], t[lo..hi], c, c)
  {
    acc := 0.0;
    var j := lo;
    while j < hi
      invariant lo <= j <= hi
      invariant acc == CoDev(t[lo..j], t[lo..j], c, c)
    {
      assert t[lo..j + 1][..j - lo] == t[lo..j];
      acc := acc + Mul(t[j] - c, t[j] - c);
      j := j + 1;
    }
  }

  // ---------------------------------------------------------------------
  // dropna

  /** A row with no missing value. */
  predicate Complete(r: Rolled)
  {
    r.rollingMean.Some? && r.rollingVar.Some?
  }

  /** `data.dropna()`: keep the complete rows, in order. */
  function DropNa(rows: seq<Rolled>): (r: seq<Rolled>)
    ensures |r| <= |rows|
    ensures forall x :: x in r <==> x in rows && Complete(x)
  {
    if rows == [] then []
    else (if Complete(rows[0]) then [rows[0]] else []) + DropNa(rows[1..])
  }

  /** dropna distributes over concatenation, so it keeps the order of the rows. */
  lemma {:induction false} DropNaAppend(a: seq<Rolled>, b: seq<Rolled>)
    ensures DropNa(a + b) == DropNa(a) + DropNa(b)
  {
    if a != [] {
      assert (a + b)[1..] == a[1..] + b;
      DropNaAppend(a[1..], b);
    } else {
      assert a + b == b;
    }
  }

  /** A table without missing values is left unchanged. */
  lemma {:induction false} DropNaComplete(rows: seq<Rolled>)
    requires forall i :: 0 <= i < |rows| ==> Complete(rows[i])
    ensures DropNa(rows) == rows
  {
    if rows != [] {
      DropNaComplete(rows[1..]);
    }
  }

  /** A table whose every row misses a value becomes empty. */
  lemma {:induction false} DropNaIncomplete(rows: seq<Rolled>)
    requires forall i :: 0 <= i < |rows| ==> !Complete(rows[i])
    ensures DropNa(rows) == []
  {
    if rows != [] {
      DropNaIncomplete(rows[1..]);
    }
  }

  /** The second and third `dropna()` of functions.py remove nothing. */
  lemma DropNaIdempotent(rows: seq<Rolled>)
    ensures DropNa(DropNa(rows)) == DropNa(rows)
  {
    var r := DropNa(rows);
    forall i | 0 <= i < |r|
      ensures Complete(r[i])
    {
      assert r[i] in r;
    }
    DropNaComplete(r);
  }

  /** Rows before position 29 miss their rolling values; rows from there on have both. */
  lemma WithRollingComplete(rows: seq<Obs>, i: nat)
    requires i < |rows|
    ensures Complete(WithRolling(rows)[i]) <==> i >= Window - 1
  {
  }

  /** The number of leading rows whose window is not yet full. */
  function Warmup(n: nat): (k: nat)
    ensures k <= n && k < Window
  {
    if n < Window - 1 then n else Window - 1
  }

  /**
   * After the rolling loop, dropna removes exactly the rows before
   * position 29 and keeps the rest in their order.
   */
  lemma DropNaAfterRolling(rows: seq<Obs>)
    ensures DropNa(WithRolling(rows)) == WithRolling(rows)[Warmup(|rows|)..]
  {
    var all := WithRolling(rows);
    var k := Warmup(|rows|);
    assert all == all[..k] + all[k..];
    DropNaAppend(all[..k], all[k..]);
    forall i | 0 <= i < k
      ensures !Complete(all[..k][i])
    {
      WithRollingComplete(rows, i);
    }
    DropNaIncomplete(all[..k]);
    forall i | 0 <= i < |all| - k
      ensures Complete(all[k..][i])
    {
      WithRollingComplete(rows, k + i);
    }
    DropNaComplete(all[k..]);
  }

  /** Hence max(0, n - 29) rows survive. */
  lemma DropNaAfterRollingCount(rows: seq<Obs>)
    ensures |DropNa(WithRolling(rows))| == if |rows| < Window then 0 else |rows| - (Window - 1)
  {
    DropNaAfterRolling(rows);
  }
}
