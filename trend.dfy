/**
 * The trend line of functions.py: `LinearRegression().fit(X, y)` with one
 * predictor (the integer timestamp) and an intercept, then `predict(X)`
 * and `coef_[0]`. Ordinary least squares in closed form over exact reals.
 */
module Trend {
  import opened Wrappers
  import opened Stats

  /** A fitted line: `coef_[0]` and `intercept_`. */
  datatype Line = Line(slope: real, intercept: real)

  /** What `fit` raises: a table with no rows ("Found array with 0 sample(s)"). */
  datatype FitError = NoSamples

  /**
   * Least squares fit of ys against xs. The slope is the co-deviation of
   * xs and ys over the square deviation of xs; when every x is the same
   * that ratio is undefined, and the minimum-norm least-squares solution
   * sklearn's solver returns is slope 0 with the mean of ys as intercept.
   */
  function Fit(xs: seq<real>, ys: seq<real>): (r: Result<Line, FitError>)
    requires |xs| == |ys|
    ensures r.Err? <==> xs == []
  {
    if xs == [] then Err(NoSamples)
    else
      var mx, my := Mean(xs), Mean(ys);
      var sxx := CoDev(xs, xs, mx, mx);
      var slope := if sxx == 0.0 then 0.0 else CoDev(xs, ys, mx, my) / sxx;
      Ok(Line(slope, my - slope * mx))
  }

  /** `reg.predict(X)`: the line's value at every x. */
  function Predict(line: Line, xs: seq<real>): (p: seq<real>)
    ensures |p| == |xs|
  {
    seq(|xs|, i requires 0 <= i < |xs| => line.intercept + line.slope * xs[i])
  }

  // ---------------------------------------------------------------------
  // Real arithmetic over the summary quantities

  lemma DivCancel(x: real, y: real)
    requires y != 0.0
    ensures (x / y) * y == x
  {
  }

  lemma CancelFactor(s: real, b: real, y: real, z: real)
    requires y != 0.0 && s * y == z && z == b * y
    ensures s == b
  {
    assert (s - b) * y == 0.0;
  }

  /** The mean of a + b x is a + b times the mean of x. */
  lemma AffineMean(n: real, a: real, b: real, sx: real, sy: real)
    requires n > 0.0 && sy == n * a + b * sx
    ensures sy / n == a + b * (sx / n)
  {
    var mx := sx / n;
    assert sx == n * mx;
    assert sy == n * (a + b * mx);
  }

  /** A line through (mx, my), with mx and my the means of totals sx and sy over n points, totals sy. */
  lemma FittedTotal(n: real, a: real, b: real, mx: real, my: real, sx: real, sy: real, sp: real)
    requires n > 0.0
    requires mx == sx / n && my == sy / n
    requires a == my - b * mx
    requires sp == n * a + b * sx
    ensures sp == sy
  {
    assert sx == n * mx;
    assert sy == n * my;
    assert n * (my - b * mx) == n * my - b * (n * mx);
  }

  // ---------------------------------------------------------------------
  // Properties of the fit

  /** The line passes through the point of means (mean x, mean y). */
  predicate Centred(line: Line, xs: seq<real>, ys: seq<real>)
    requires |xs| == |ys| && xs != []
  {
    line.intercept == Mean(ys) - line.slope * Mean(xs)
  }

  /** The slope times the square deviation of xs is the co-deviation of xs and ys. */
  predicate Balanced(line: Line, xs: seq<real>, ys: seq<real>)
    requires |xs| == |ys| && xs != []
  {
    line.slope * CoDev(xs, xs, Mean(xs), Mean(xs)) == CoDev(xs, ys, Mean(xs), Mean(ys))
  }

  /**
   * The normal equations of least squares: the line's values have the
   * same total as ys and the same co-deviation with xs, that is, the
   * residuals are orthogonal to the constant and to xs.
   */
  predicate NormalEquations(line: Line, xs: seq<real>, ys: seq<real>)
    requires |xs| == |ys| && xs != []
  {
    var p := Predict(line, xs);
    && Sum(p) == Sum(ys)
    && CoDev(xs, p, Mean(xs), Mean(ys)) == CoDev(xs, ys, Mean(xs), Mean(ys))
  }

  /** Every y is a + b x. */
  predicate OnLine(xs: seq<real>, ys: seq<real>, a: real, b: real)
    requires |xs| == |ys|
  {
    forall i :: 0 <= i < |xs| ==> ys[i] == a + b * xs[i]
  }

  /** The fitted line passes through the point of means. */
  lemma {:induction false} FitCentred(xs: seq<real>, ys: seq<real>)
    requires |xs| == |ys| && xs != []
    ensures Centred(Fit(xs, ys).value, xs, ys)
  {
  }

  /** With some spread in xs the slope is Sxy / Sxx. */
  lemma {:induction false} FitSlopeRatio(xs: seq<real>, ys: seq<real>)
    requires |xs| == |ys| && xs != []
    requires CoDev(xs, xs, Mean(xs), Mean(xs)) != 0.0
    ensures Fit(xs, ys).value.slope ==
      CoDev(xs, ys, Mean(xs), Mean(ys)) / CoDev(xs, xs, Mean(xs), Mean(xs))
  {
  }

  /** With no spread in xs the slope is 0. */
  lemma {:induction false} FitSlopeFlat(xs: seq<real>, ys: seq<real>)
    requires |xs| == |ys| && xs != []
    requires CoDev(xs, xs, Mean(xs), Mean(xs)) == 0.0
    ensures Fit(xs, ys).value.slope == 0.0
  {
  }

  /** Two different xs make the square deviation of xs nonzero. */
  lemma {:induction false} SpreadNonzero(xs: seq<real>, i: nat, j: nat)
    requires i < |xs| && j < |xs| && xs[i] != xs[j]
    ensures CoDev(xs, xs, Mean(xs), Mean(xs)) != 0.0
  {
    if CoDev(xs, xs, Mean(xs), Mean(xs)) == 0.0 {
      SqDevZero(xs, Mean(xs));
    }
  }

  /** The values of any line sum to n times its intercept plus its slope times the sum of xs. */
  lemma {:induction false} PredictTotal(line: Line, xs: seq<real>)
    ensures Sum(Predict(line, xs)) == (|xs| as real) * line.intercept + line.slope * Sum(xs)
  {
    SumAffine(xs, Predict(line, xs), line.intercept, line.slope);
  }

  /** A line through (mx, my) deviates from my by its slope times x's deviation from mx. */
  lemma {:induction false} PredictDeviation(line: Line, xs: seq<real>, mx: real, my: real)
    requires line.intercept == my - line.slope * mx
    ensures DeviatesBy(xs, Predict(line, xs), mx, my, line.slope)
  {
  }

  /** Hence its co-deviation with xs about (mx, my) is its slope times xs' square deviation. */
  lemma {:induction false} PredictCoDev(line: Line, xs: seq<real>, mx: real, my: real)
    requires line.intercept == my - line.slope * mx
    ensures CoDev(xs, Predict(line, xs), mx, my) == line.slope * CoDev(xs, xs, mx, mx)
  {
    PredictDeviation(line, xs, mx, my);
    CoDevScale(xs, Predict(line, xs), mx, my, line.slope);
  }

  /** A line through the means has values with the same total as ys. */
  lemma {:induction false} LineTotal(line: Line, xs: seq<real>, ys: seq<real>)
    requires |xs| == |ys| && xs != []
    requires Centred(line, xs, ys)
    ensures Sum(Predict(line, xs)) == Sum(ys)
  {
    PredictTotal(line, xs);
    FittedTotal(|xs| as real, line.intercept, line.slope, Mean(xs), Mean(ys),
      Sum(xs), Sum(ys), Sum(Predict(line, xs)));
  }

  /** A centred, balanced line has the same co-deviation with xs as ys. */
  lemma {:induction false} LineCoDev(line: Line, xs: seq<real>, ys: seq<real>)
    requires |xs| == |ys| && xs != []
    requires Centred(line, xs, ys) && Balanced(line, xs, ys)
    ensures CoDev(xs, Predict(line, xs), Mean(xs), Mean(ys)) == CoDev(xs, ys, Mean(xs), Mean(ys))
  {
    PredictCoDev(line, xs, Mean(xs), Mean(ys));
  }

  /** Any centred, balanced line satisfies the normal equations. */
  lemma {:induction false} LineNormalEquations(line: Line, xs: seq<real>, ys: seq<real>)
    requires |xs| == |ys| && xs != []
    requires Centred(line, xs, ys) && Balanced(line, xs, ys)
    ensures NormalEquations(line, xs, ys)
  {
    LineTotal(line, xs, ys);
    LineCoDev(line, xs, ys);
  }

  /** With spread in xs the fitted line is balanced. */
  lemma {:induction false} FitBalancedSpread(xs: seq<real>, ys: seq<real>)
    requires |xs| == |ys| && xs != []
    requires CoDev(xs, xs, Mean(xs), Mean(xs)) != 0.0
    ensures Balanced(Fit(xs, ys).value, xs, ys)
  {
    FitSlopeRatio(xs, ys);
    DivCancel(CoDev(xs, ys, Mean(xs), Mean(ys)), CoDev(xs, xs, Mean(xs), Mean(xs)));
  }

  /** Without spread in xs, Sxy is 0 as well: every x is the mean. */
  lemma {:induction false} FlatCoDev(xs: seq<real>, ys: seq<real>)
    requires |xs| == |ys| && xs != []
    requires CoDev(xs, xs, Mean(xs), Mean(xs)) == 0.0
    ensures CoDev(xs, ys, Mean(xs), Mean(ys)) == 0.0
  {
    SqDevZero(xs, Mean(xs));
    CoDevConstantLeft(xs, ys, Mean(xs), Mean(ys));
  }

  /** The fitted line is balanced, also when Sxx is 0 and the slope is set to 0. */
  lemma {:induction false} FitBalanced(xs: seq<real>, ys: seq<real>)
    requires |xs| == |ys| && xs != []
    ensures Balanced(Fit(xs, ys).value, xs, ys)
  {
    if CoDev(xs, xs, Mean(xs), Mean(xs)) == 0.0 {
      FitSlopeFlat(xs, ys);
      FlatCoDev(xs, ys);
    } else {
      FitBalancedSpread(xs, ys);
    }
  }

  /**
   * The fit satisfies the normal equations of least squares, the
   * conditions that characterise the line sklearn's solver returns.
   */
  lemma {:induction false} FitNormalEquations(xs: seq<real>, ys: seq<real>)
    requires |xs| == |ys| && xs != []
    ensures NormalEquations(Fit(xs, ys).value, xs, ys)
  {
    FitCentred(xs, ys);
    FitBalanced(xs, ys);
    LineNormalEquations(Fit(xs, ys).value, xs, ys);
  }

  /** Constant ys: slope 0, and every fitted value is that constant. */
  lemma {:induction false} FitConstant(xs: seq<real>, ys: seq<real>, c: real)
    requires |xs| == |ys| && xs != []
    requires forall i :: 0 <= i < |ys| ==> ys[i] == c
    ensures Fit(xs, ys).value.slope == 0.0
    ensures forall i :: 0 <= i < |xs| ==> Predict(Fit(xs, ys).value, xs)[i] == c
  {
    MeanConstant(ys, c);
    CoDevConstantRight(xs, ys, Mean(xs), c);
  }

  /** All xs equal (a single timestamp): slope 0 and every fitted value is the mean of ys. */
  lemma {:induction false} FitSingleTimestamp(xs: seq<real>, ys: seq<real>)
    requires |xs| == |ys| && xs != []
    requires forall i :: 0 <= i < |xs| ==> xs[i] == xs[0]
    ensures Fit(xs, ys).value.slope == 0.0
    ensures forall i :: 0 <= i < |xs| ==> Predict(Fit(xs, ys).value, xs)[i] == Mean(ys)
  {
    MeanConstant(xs, xs[0]);
    CoDevConstantLeft(xs, xs, Mean(xs), Mean(xs));
  }

  /** Points on a line a + b x have mean a + b times the mean of x. */
  lemma {:induction false} OnLineMean(xs: seq<real>, ys: seq<real>, a: real, b: real)
    requires |xs| == |ys| && xs != []
    requires OnLine(xs, ys, a, b)
    ensures Mean(ys) == a + b * Mean(xs)
  {
    SumAffine(xs, ys, a, b);
    AffineMean(|xs| as real, a, b, Sum(xs), Sum(ys));
  }

  /** Points on a line of slope b deviate from their mean by b times x's deviation. */
  lemma {:induction false} OnLineDeviation(xs: seq<real>, ys: seq<real>, a: real, b: real)
    requires |xs| == |ys| && xs != []
    requires OnLine(xs, ys, a, b)
    ensures DeviatesBy(xs, ys, Mean(xs), Mean(ys), b)
  {
    OnLineMean(xs, ys, a, b);
  }

  /** Points on a line of slope b have co-deviation b times Sxx. */
  lemma {:induction false} OnLineCoDev(xs: seq<real>, ys: seq<real>, a: real, b: real)
    requires |xs| == |ys| && xs != []
    requires OnLine(xs, ys, a, b)
    ensures CoDev(xs, ys, Mean(xs), Mean(ys)) == b * CoDev(xs, xs, Mean(xs), Mean(xs))
  {
    OnLineDeviation(xs, ys, a, b);
    CoDevScale(xs, ys, Mean(xs), Mean(ys), b);
  }

  /** A balanced line, where Sxy is b times a nonzero Sxx, has slope b. */
  lemma {:induction false} BalancedSlope(line: Line, xs: seq<real>, ys: seq<real>, b: real)
    requires |xs| == |ys| && xs != []
    requires Balanced(line, xs, ys)
    requires CoDev(xs, xs, Mean(xs), Mean(xs)) != 0.0
    requires CoDev(xs, ys, Mean(xs), Mean(ys)) == b * CoDev(xs, xs, Mean(xs), Mean(xs))
    ensures line.slope == b
  {
    CancelFactor(line.slope, b, CoDev(xs, xs, Mean(xs), Mean(xs)), CoDev(xs, ys, Mean(xs), Mean(ys)));
  }

  /** Points on a line with spread in xs: the fit recovers the line's slope. */
  lemma {:induction false} FitOnLineSlope(xs: seq<real>, ys: seq<real>, a: real, b: real)
    requires |xs| == |ys| && xs != []
    requires OnLine(xs, ys, a, b)
    requires CoDev(xs, xs, Mean(xs), Mean(xs)) != 0.0
    ensures Fit(xs, ys).value.slope == b
  {
    FitBalanced(xs, ys);
    OnLineCoDev(xs, ys, a, b);
    BalancedSlope(Fit(xs, ys).value, xs, ys, b);
  }

  /** Points on a line with spread in xs: the fit recovers the line's intercept. */
  lemma {:induction false} FitOnLineIntercept(xs: seq<real>, ys: seq<real>, a: real, b: real)
    requires |xs| == |ys| && xs != []
    requires OnLine(xs, ys, a, b)
    requires CoDev(xs, xs, Mean(xs), Mean(xs)) != 0.0
    ensures Fit(xs, ys).value.intercept == a
  {
    FitOnLineSlope(xs, ys, a, b);
    FitCentred(xs, ys);
    OnLineMean(xs, ys, a, b);
  }

  /** The values of the line a + b x at xs are the points on it. */
  lemma {:induction false} PredictOnLine(xs: seq<real>, ys: seq<real>, a: real, b: real)
    requires |xs| == |ys|
    requires OnLine(xs, ys, a, b)
    ensures Predict(Line(b, a), xs) == ys
  {
    var p := Predict(Line(b, a), xs);
    forall i | 0 <= i < |xs|
      ensures p[i] == ys[i]
    {
    }
  }

  /** Points on a line without spread in xs: the fitted values, all the mean, are the points. */
  lemma {:induction false} FitOnLineFlat(xs: seq<real>, ys: seq<real>, a: real, b: real)
    requires |xs| == |ys| && xs != []
    requires OnLine(xs, ys, a, b)
    requires CoDev(xs, xs, Mean(xs), Mean(xs)) == 0.0
    ensures Predict(Fit(xs, ys).value, xs) == ys
  {
    var line := Fit(xs, ys).value;
    var p := Predict(line, xs);
    SqDevZero(xs, Mean(xs));
    FitSlopeFlat(xs, ys);
    FitCentred(xs, ys);
    OnLineMean(xs, ys, a, b);
    assert line.intercept == Mean(ys);
    forall i | 0 <= i < |xs|
      ensures p[i] == ys[i]
    {
      assert xs[i] == Mean(xs);
      assert p[i] == line.intercept + 0.0 * xs[i];
    }
  }

  /**
   * Points exactly on a line a + b x: the fitted values are the points
   * themselves, and two different xs make the fit recover a and b.
   */
  lemma {:induction false} FitOnLine(xs: seq<real>, ys: seq<real>, a: real, b: real)
    requires |xs| == |ys| && xs != []
    requires OnLine(xs, ys, a, b)
    ensures Predict(Fit(xs, ys).value, xs) == ys
  {
    if CoDev(xs, xs, Mean(xs), Mean(xs)) == 0.0 {
      FitOnLineFlat(xs, ys, a, b);
    } else {
      FitOnLineSlope(xs, ys, a, b);
      FitOnLineIntercept(xs, ys, a, b);
      PredictOnLine(xs, ys, a, b);
    }
  }

  /** Two different xs and points on a line: the fit is exactly that line. */
  lemma {:induction false} FitRecoversLine(xs: seq<real>, ys: seq<real>, a: real, b: real, i: nat, j: nat)
    requires |xs| == |ys| && i < |xs| && j < |xs| && xs[i] != xs[j]
    requires OnLine(xs, ys, a, b)
    ensures Fit(xs, ys) == Ok(Line(b, a))
  {
    SpreadNonzero(xs, i, j);
    FitOnLineSlope(xs, ys, a, b);
    FitOnLineIntercept(xs, ys, a, b);
  }
}
