/**
 * `get_temperature_data(city, data)` of functions.py (lines 8-50): the
 * city filter, the rolling loop, the row drop, the trend fit, the season
 * profile, the join, the anomaly column and the city profile, in that
 * order, with the two ways the function can raise.
 */
module Pipeline {
  import opened Wrappers
  import opened Stats
  import opened Observations
  import opened Rolling
  import opened Trend
  import opened Profile
  import opened Join

  /**
   * What the function raises. With no row of the city the rolling loop
   * never runs, so the `rolling_mean` column does not exist and selecting
   * it raises KeyError (line 28). With rows but fewer than Window of them
   * every row is dropped and `fit` raises ValueError on zero samples
   * (line 30).
   */
  datatype PipelineError = MissingRollingColumn | NoSamplesToFit

  /** The four returned values: the table, `trend_line_coef`, `seasons_profile` and `city_profile`. */
  datatype Analysis = Analysis(data: seq<Flagged>, trendCoef: real, seasons: seq<SeasonRow>, cities: seq<CityRow>)

  /** `X`: the integer timestamps of the rows, as reals. */
  function Xs(rows: seq<Rolled>): (xs: seq<real>)
    ensures |xs| == |rows|
  {
    seq(|rows|, i requires 0 <= i < |rows| => rows[i].obs.ts as real)
  }

  /** `y`: the rolling means of rows that all have one. */
  function Ys(rows: seq<Rolled>): (ys: seq<real>)
    requires forall i :: 0 <= i < |rows| ==> Complete(rows[i])
    ensures |ys| == |rows|
  {
    seq(|rows|, i requires 0 <= i < |rows| && Complete(rows[i]) => rows[i].rollingMean.value)
  }

  /** `data['trend_line_points'] = reg.predict(X)`: the predictions, row by row. */
  function WithTrend(rows: seq<Rolled>, points: seq<real>): (out: seq<Trended>)
    requires |points| == |rows|
    ensures |out| == |rows|
  {
    seq(|rows|, i requires 0 <= i < |rows| => Trended(rows[i], points[i]))
  }

  /** The input rows underneath the table. */
  function Observed(rows: seq<Trended>): (o: seq<Obs>)
    ensures |o| == |rows|
  {
    seq(|rows|, i requires 0 <= i < |rows| => ObsOf(rows[i]))
  }

  /** The input rows underneath the returned table. */
  function FlaggedObs(rows: seq<Flagged>): (o: seq<Obs>)
    ensures |o| == |rows|
  {
    seq(|rows|, i requires 0 <= i < |rows| => ObsOf(rows[i].merged.row))
  }

  /** Lines 31-48, from the table after the row drop and the fitted line. */
  function Finish(city: string, data: seq<Rolled>, points: seq<real>, line: Line): Analysis
    requires |points| == |data|
  {
    var trended := WithTrend(data, points);
    var seasons := SeasonProfile(Observed(trended), city);
    var flagged := FlagAnomalies(Merge(trended, seasons));
    Analysis(flagged, line.slope, seasons, CityProfile(FlaggedObs(flagged), city))
  }

  /** Every row left by dropna has both rolling values. */
  lemma DropNaAllComplete(rows: seq<Rolled>)
    ensures forall i :: 0 <= i < |DropNa(rows)| ==> Complete(DropNa(rows)[i])
  {
    var r := DropNa(rows);
    forall i | 0 <= i < |r|
      ensures Complete(r[i])
    {
      assert r[i] in r;
    }
  }

  /** `get_temperature_data(city, table)`. */
  function TemperatureData(city: string, table: seq<Obs>): Result<Analysis, PipelineError>
  {
    var filtered := OfCity(table, city);
    if filtered == [] then Err(MissingRollingColumn)
    else
      var data := DropNa(WithRolling(filtered));
      var again := DropNa(data);
      DropNaAllComplete(data);
      DropNaIdempotent(WithRolling(filtered));
      match Fit(Xs(again), Ys(again))
      case Err(_) => Err(NoSamplesToFit)
      case Ok(line) => Ok(Finish(city, data, Predict(line, Xs(again)), line))
  }

  /**
   * The function step by step, with the rolling loop as the imperative
   * method that fills the two columns.
   */
  method GetTemperatureData(city: string, table: seq<Obs>) returns (r: Result<Analysis, PipelineError>)
    ensures r == TemperatureData(city, table)
  {
    var filtered := OfCity(table, city);
    if filtered == [] {
      return Err(MissingRollingColumn);
    }
    var rolled := AddRollingColumns(filtered);
    var data := DropNa(rolled);
    var again := DropNa(data);
    DropNaAllComplete(data);
    DropNaIdempotent(rolled);
    var fit := Fit(Xs(again), Ys(again));
    if fit.Err? {
      return Err(NoSamplesToFit);
    }
    r := Ok(Finish(city, data, Predict(fit.value, Xs(again)), fit.value));
  }

  // ---------------------------------------------------------------------
  // The stages of a successful call

  /** The rows that survive the row drop: those from position Window - 1 on, all complete. */
  function Kept(filtered: seq<Obs>): (k: seq<Rolled>)
    ensures |k| == |filtered| - Warmup(|filtered|)
    ensures forall i :: 0 <= i < |k| ==> Complete(k[i])
  {
    WithRolling(filtered)[Warmup(|filtered|)..]
  }

  /** The fitted line of the kept rows. */
  function TrendOf(filtered: seq<Obs>): Line
    requires |filtered| >= Window
  {
    Fit(Xs(Kept(filtered)), Ys(Kept(filtered))).value
  }

  /**
   * The outcome of a call: KeyError without rows of the city, ValueError
   * with fewer than Window of them, and otherwise the remaining steps
   * applied to the rows from position Window - 1 on.
   */
  lemma {:induction false} Outcome(city: string, table: seq<Obs>)
    ensures TemperatureData(city, table) == Err(MissingRollingColumn) <==> OfCity(table, city) == []
    ensures TemperatureData(city, table) == Err(NoSamplesToFit) <==> 0 < |OfCity(table, city)| < Window
    ensures |OfCity(table, city)| >= Window ==>
      var f := OfCity(table, city);
      TemperatureData(city, table) == Ok(Finish(city, Kept(f), Predict(TrendOf(f), Xs(Kept(f))), TrendOf(f)))
  {
    var f := OfCity(table, city);
    if f != [] {
      DropNaAfterRolling(f);
      DropNaIdempotent(WithRolling(f));
    }
  }

  /** The input rows underneath rows with rolling columns. */
  function Inputs(rows: seq<Rolled>): (o: seq<Obs>)
    ensures |o| == |rows|
  {
    seq(|rows|, i requires 0 <= i < |rows| => rows[i].obs)
  }

  /** Rows that all belong to the city. */
  predicate AllOfCity(rows: seq<Rolled>, city: string)
  {
    forall i :: 0 <= i < |rows| ==> rows[i].obs.city == city
  }

  /**
   * After the join and the anomaly column: one row per kept row, in order,
   * each with its trend point, the aggregates of its own season's rows and
   * the flag of line 43 on those aggregates.
   */
  lemma FinishRows(city: string, data: seq<Rolled>, points: seq<real>, line: Line)
    requires |points| == |data| && AllOfCity(data, city)
    ensures var out := Finish(city, data, points, line).data;
      |out| == |data|
      && forall i :: 0 <= i < |data| ==>
           out[i].merged.row == Trended(data[i], points[i])
           && OwnSeason(out[i].merged, Inputs(data), city)
           && out[i].anomaly == IsAnomaly(data[i].obs.temp, out[i].merged.profile.mean, out[i].merged.profile.variance)
  {
    var trended := WithTrend(data, points);
    assert Observed(trended) == Inputs(data);
    forall i | 0 <= i < |trended|
      ensures ObsOf(trended[i]) in Inputs(data) && ObsOf(trended[i]).city == city
    {
      assert Inputs(data)[i] == ObsOf(trended[i]);
    }
    MergeOwnProfile(trended, Inputs(data), city);
  }

  /** The returned table, the season profile and the city profile hold only rows of the city. */
  lemma FinishCity(city: string, data: seq<Rolled>, points: seq<real>, line: Line)
    requires |points| == |data| && AllOfCity(data, city)
    ensures var a := Finish(city, data, points, line);
      (forall i :: 0 <= i < |a.data| ==> ObsOf(a.data[i].merged.row).city == city)
      && (forall i :: 0 <= i < |a.seasons| ==> a.seasons[i].city == city)
      && (forall i :: 0 <= i < |a.cities| ==> a.cities[i].city == city)
  {
    FinishRows(city, data, points, line);
    assert Observed(WithTrend(data, points)) == Inputs(data);
    SeasonProfileCity(Inputs(data), city);
  }

  /** The city profile is one row with the aggregates of all rows of the joined table. */
  lemma FinishCityProfile(city: string, data: seq<Rolled>, points: seq<real>, line: Line)
    requires |points| == |data| && AllOfCity(data, city) && data != []
    ensures Finish(city, data, points, line).cities == [CityRow(city, Summarize(Temps(Inputs(data))))]
  {
    FinishRows(city, data, points, line);
    var a := Finish(city, data, points, line);
    assert FlaggedObs(a.data) == Inputs(data);
    forall i | 0 <= i < |Inputs(data)|
      ensures Inputs(data)[i].city == city
    {
    }
    OfCityAll(Inputs(data), city);
  }

  // ---------------------------------------------------------------------
  // What a call returns

  /** The kept rows belong to the city. */
  lemma KeptOfCity(table: seq<Obs>, city: string)
    ensures AllOfCity(Kept(OfCity(table, city)), city)
  {
    var f := OfCity(table, city);
    OfCityCity(table, city);
    forall i | 0 <= i < |Kept(f)|
      ensures Kept(f)[i].obs.city == city
    {
      assert Kept(f)[i].obs == f[i + Warmup(|f|)];
    }
  }

  /**
   * A call with at least Window rows of the city returns the rows from
   * position Window - 1 on, in their order, each with the mean and the
   * sample variance of the Window temperatures that end at it.
   */
  lemma ReturnedRows(city: string, table: seq<Obs>)
    requires |OfCity(table, city)| >= Window
    ensures TemperatureData(city, table).Ok?
    ensures var f, a := OfCity(table, city), TemperatureData(city, table).value;
      |a.data| == |f| - (Window - 1)
      && forall i :: 0 <= i < |a.data| ==>
           a.data[i].merged.row.rolled
           == Rolled(f[i + Window - 1], Some(Mean(WindowAt(Temps(f), i + Window - 1))),
                     SampleVariance(WindowAt(Temps(f), i + Window - 1)))
  {
    var f := OfCity(table, city);
    Outcome(city, table);
    KeptOfCity(table, city);
    KeptRows(f, city, Predict(TrendOf(f), Xs(Kept(f))), TrendOf(f));
  }

  /** The rows of the returned table over the kept rows, whatever the trend points. */
  lemma KeptRows(f: seq<Obs>, city: string, points: seq<real>, line: Line)
    requires |f| >= Window && AllOfCity(Kept(f), city) && |points| == |Kept(f)|
    ensures var a := Finish(city, Kept(f), points, line);
      |a.data| == |f| - (Window - 1)
      && forall i :: 0 <= i < |a.data| ==>
           a.data[i].merged.row.rolled
           == Rolled(f[i + Window - 1], Some(Mean(WindowAt(Temps(f), i + Window - 1))),
                     SampleVariance(WindowAt(Temps(f), i + Window - 1)))
  {
    FinishRows(city, Kept(f), points, line);
  }

  /** Every trend point of the table lies on the line at its row's timestamp. */
  predicate OnTrend(rows: seq<Flagged>, line: Line)
  {
    forall i :: 0 <= i < |rows| ==>
      rows[i].merged.row.trendPoint == line.intercept + line.slope * (rows[i].merged.row.rolled.obs.ts as real)
  }

  /**
   * The returned `trend_line_coef` is the slope of the line fitted to the
   * kept rows, and every trend point lies on that line at its row's
   * timestamp.
   */
  lemma TrendPoints(city: string, table: seq<Obs>)
    requires |OfCity(table, city)| >= Window
    ensures TemperatureData(city, table).Ok?
    ensures var f, a := OfCity(table, city), TemperatureData(city, table).value;
      a.trendCoef == TrendOf(f).slope && OnTrend(a.data, TrendOf(f))
  {
    var f := OfCity(table, city);
    Outcome(city, table);
    KeptOfCity(table, city);
    KeptTrend(f, city, TrendOf(f));
  }

  /** The trend points of the returned table over the kept rows, for any fitted line. */
  lemma KeptTrend(f: seq<Obs>, city: string, line: Line)
    requires AllOfCity(Kept(f), city)
    ensures var a := Finish(city, Kept(f), Predict(line, Xs(Kept(f))), line);
      a.trendCoef == line.slope
      && |a.data| == |Kept(f)|
      && OnTrend(a.data, line)
      && forall i :: 0 <= i < |a.data| ==>
           a.data[i].merged.row.trendPoint == Predict(line, Xs(Kept(f)))[i]
           && a.data[i].merged.row.rolled == Kept(f)[i]
  {
    var a := Finish(city, Kept(f), Predict(line, Xs(Kept(f))), line);
    FinishRows(city, Kept(f), Predict(line, Xs(Kept(f))), line);
    PointsOnLine(a.data, Xs(Kept(f)), line);
  }

  /** Rows whose trend points are the predictions at their timestamps lie on the line. */
  lemma PointsOnLine(rows: seq<Flagged>, xs: seq<real>, line: Line)
    requires |rows| == |xs|
    requires forall i :: 0 <= i < |rows| ==>
      rows[i].merged.row.trendPoint == Predict(line, xs)[i] && xs[i] == rows[i].merged.row.rolled.obs.ts as real
    ensures OnTrend(rows, line)
  {
  }

  /** The fitted line solves the least-squares normal equations for the kept rows. */
  lemma TrendLeastSquares(filtered: seq<Obs>)
    requires |filtered| >= Window
    ensures NormalEquations(TrendOf(filtered), Xs(Kept(filtered)), Ys(Kept(filtered)))
  {
    FitNormalEquations(Xs(Kept(filtered)), Ys(Kept(filtered)));
  }

  /** The regression targets are the rolling means of the kept rows. */
  lemma TargetsAreRollingMeans(filtered: seq<Obs>)
    requires |filtered| >= Window
    ensures forall i :: 0 <= i < |Kept(filtered)| ==>
      Ys(Kept(filtered))[i] == Mean(WindowAt(Temps(filtered), i + Window - 1))
      && Xs(Kept(filtered))[i] == filtered[i + Window - 1].ts as real
  {
  }

  /** When every rolling mean is the same c, the trend is flat: slope 0 and every point c. */
  lemma FlatTrend(city: string, table: seq<Obs>, c: real)
    requires |OfCity(table, city)| >= Window
    requires forall i :: Window - 1 <= i < |OfCity(table, city)| ==> Mean(WindowAt(Temps(OfCity(table, city)), i)) == c
    ensures TemperatureData(city, table).Ok?
    ensures var a := TemperatureData(city, table).value;
      a.trendCoef == 0.0 && forall i :: 0 <= i < |a.data| ==> a.data[i].merged.row.trendPoint == c
  {
    var f := OfCity(table, city);
    TrendOfFlat(f, c);
    Outcome(city, table);
    KeptOfCity(table, city);
    KeptTrend(f, city, TrendOf(f));
  }

  /** Equal rolling means: the fitted line is flat at their value. */
  lemma TrendOfFlat(f: seq<Obs>, c: real)
    requires |f| >= Window
    requires forall i :: Window - 1 <= i < |f| ==> Mean(WindowAt(Temps(f), i)) == c
    ensures TrendOf(f).slope == 0.0
    ensures forall i :: 0 <= i < |Kept(f)| ==> Predict(TrendOf(f), Xs(Kept(f)))[i] == c
  {
    var xs, ys := Xs(Kept(f)), Ys(Kept(f));
    TargetsAreRollingMeans(f);
    forall i | 0 <= i < |ys|
      ensures ys[i] == c
    {
    }
    FitConstant(xs, ys, c);
  }

  /** The rolling mean at every kept position is intercept + slope * timestamp. */
  predicate RollingMeansOnLine(f: seq<Obs>, intercept: real, slope: real)
  {
    forall i :: Window - 1 <= i < |f| ==> Mean(WindowAt(Temps(f), i)) == intercept + slope * (f[i].ts as real)
  }

  /**
   * When the rolling means lie exactly on a line in the timestamp, the
   * trend points are the rolling means.
   */
  lemma ExactTrend(city: string, table: seq<Obs>, intercept: real, slope: real)
    requires |OfCity(table, city)| >= Window
    requires RollingMeansOnLine(OfCity(table, city), intercept, slope)
    ensures TemperatureData(city, table).Ok?
    ensures var a := TemperatureData(city, table).value;
      forall i :: 0 <= i < |a.data| ==>
        Some(a.data[i].merged.row.trendPoint) == a.data[i].merged.row.rolled.rollingMean
  {
    var f := OfCity(table, city);
    KeptOnLine(f, intercept, slope);
    FitOnLine(Xs(Kept(f)), Ys(Kept(f)), intercept, slope);
    Outcome(city, table);
    KeptOfCity(table, city);
    KeptExact(f, city, TrendOf(f));
  }

  /** Rolling means on a line make the regression data lie on that line. */
  /**
   * Rolling means exactly on a line, with two different timestamps among
   * the kept rows: the returned coefficient is the line's slope, so
   * rolling means rising along the timestamps give a positive one.
   */
  lemma ExactTrendSlope(city: string, table: seq<Obs>, intercept: real, slope: real, i: nat, j: nat)
    requires |OfCity(table, city)| >= Window
    requires RollingMeansOnLine(OfCity(table, city), intercept, slope)
    requires Window - 1 <= i < |OfCity(table, city)| && Window - 1 <= j < |OfCity(table, city)|
    requires OfCity(table, city)[i].ts != OfCity(table, city)[j].ts
    ensures TemperatureData(city, table).Ok?
    ensures TemperatureData(city, table).value.trendCoef == slope
  {
    TrendOfLine(OfCity(table, city), intercept, slope, i, j);
    TrendPoints(city, table);
  }

  lemma TrendOfLine(f: seq<Obs>, intercept: real, slope: real, i: nat, j: nat)
    requires |f| >= Window
    requires RollingMeansOnLine(f, intercept, slope)
    requires Window - 1 <= i < |f| && Window - 1 <= j < |f| && f[i].ts != f[j].ts
    ensures TrendOf(f) == Line(slope, intercept)
  {
    KeptOnLine(f, intercept, slope);
    TargetsAreRollingMeans(f);
    FitRecoversLine(Xs(Kept(f)), Ys(Kept(f)), intercept, slope, i - (Window - 1), j - (Window - 1));
  }

  lemma KeptOnLine(f: seq<Obs>, intercept: real, slope: real)
    requires |f| >= Window
    requires RollingMeansOnLine(f, intercept, slope)
    ensures OnLine(Xs(Kept(f)), Ys(Kept(f)), intercept, slope)
  {
    TargetsAreRollingMeans(f);
  }

  /** A line that reproduces every rolling mean gives trend points equal to the rolling means. */
  lemma KeptExact(f: seq<Obs>, city: string, line: Line)
    requires AllOfCity(Kept(f), city)
    requires Predict(line, Xs(Kept(f))) == Ys(Kept(f))
    ensures var a := Finish(city, Kept(f), Predict(line, Xs(Kept(f))), line);
      forall i :: 0 <= i < |a.data| ==>
        Some(a.data[i].merged.row.trendPoint) == a.data[i].merged.row.rolled.rollingMean
  {
    KeptTrend(f, city, line);
  }

  /** The rows underneath the kept rows are the city's rows from position Window - 1 on. */
  lemma KeptInputs(f: seq<Obs>)
    ensures Inputs(Kept(f)) == f[Warmup(|f|)..]
  {
  }

  /**
   * Every row carries the aggregates of the rows of its own season in
   * `kept`, and its flag is the comparison of line 43 of its temperature
   * against them.
   */
  predicate FlaggedAgainstOwnSeason(rows: seq<Flagged>, kept: seq<Obs>, city: string)
  {
    forall i :: 0 <= i < |rows| ==>
      OwnSeason(rows[i].merged, kept, city)
      && rows[i].anomaly
         == IsAnomaly(ObsOf(rows[i].merged.row).temp, rows[i].merged.profile.mean, rows[i].merged.profile.variance)
  }

  /** The returned rows are flagged against the season aggregates of the kept rows. */
  lemma AnomalyFlags(city: string, table: seq<Obs>)
    requires |OfCity(table, city)| >= Window
    ensures TemperatureData(city, table).Ok?
    ensures var f := OfCity(table, city);
      FlaggedAgainstOwnSeason(TemperatureData(city, table).value.data, Inputs(Kept(f)), city)
  {
    var f := OfCity(table, city);
    Outcome(city, table);
    KeptOfCity(table, city);
    KeptFlags(f, city, Predict(TrendOf(f), Xs(Kept(f))), TrendOf(f));
  }

  lemma KeptFlags(f: seq<Obs>, city: string, points: seq<real>, line: Line)
    requires |f| >= Window && AllOfCity(Kept(f), city) && |points| == |Kept(f)|
    ensures FlaggedAgainstOwnSeason(Finish(city, Kept(f), points, line).data, Inputs(Kept(f)), city)
  {
    FinishRows(city, Kept(f), points, line);
  }

  /** No row of another city reaches the returned table or either profile. */
  lemma OnlyTheCity(city: string, table: seq<Obs>)
    ensures TemperatureData(city, table).Ok? ==>
      var a := TemperatureData(city, table).value;
      (forall i :: 0 <= i < |a.data| ==> ObsOf(a.data[i].merged.row).city == city)
      && (forall i :: 0 <= i < |a.seasons| ==> a.seasons[i].city == city)
      && (forall i :: 0 <= i < |a.cities| ==> a.cities[i].city == city)
  {
    var f := OfCity(table, city);
    Outcome(city, table);
    if |f| >= Window {
      KeptOfCity(table, city);
      FinishCity(city, Kept(f), Predict(TrendOf(f), Xs(Kept(f))), TrendOf(f));
    }
  }

  /** The returned season profile is the profile of the kept rows. */
  lemma SeasonsOfCall(city: string, table: seq<Obs>)
    requires |OfCity(table, city)| >= Window
    ensures TemperatureData(city, table).Ok?
    ensures var f := OfCity(table, city);
      TemperatureData(city, table).value.seasons == SeasonProfile(Inputs(Kept(f)), city)
  {
    var f := OfCity(table, city);
    Outcome(city, table);
    KeptSeasons(f, city, Predict(TrendOf(f), Xs(Kept(f))), TrendOf(f));
  }

  lemma KeptSeasons(f: seq<Obs>, city: string, points: seq<real>, line: Line)
    requires |points| == |Kept(f)|
    ensures Finish(city, Kept(f), points, line).seasons == SeasonProfile(Inputs(Kept(f)), city)
  {
    assert Observed(WithTrend(Kept(f), points)) == Inputs(Kept(f));
  }

  /**
   * The returned season profile: at most four rows, in pandas' key order,
   * one per season among the kept rows and no other, each with the
   * aggregates of that season's kept rows.
   */
  lemma ReturnedSeasons(city: string, table: seq<Obs>)
    requires |OfCity(table, city)| >= Window
    ensures TemperatureData(city, table).Ok?
    ensures var kept, p := Inputs(Kept(OfCity(table, city))), TemperatureData(city, table).value.seasons;
      |p| <= 4 && RowsAscending(p) && SeasonsOf(p) == SeasonsIn(kept, city)
      && forall i :: 0 <= i < |p| ==> Describes(p[i], kept, city)
  {
    SeasonsOfCall(city, table);
    SeasonTable(Inputs(Kept(OfCity(table, city))), city);
  }

  /**
   * The returned city profile is a single row with the aggregates of all
   * the rows of the returned table.
   */
  lemma CityProfileOfCall(city: string, table: seq<Obs>)
    requires |OfCity(table, city)| >= Window
    ensures TemperatureData(city, table).Ok?
    ensures var f := OfCity(table, city);
      TemperatureData(city, table).value.cities == [CityRow(city, Summarize(Temps(Inputs(Kept(f)))))]
  {
    var f := OfCity(table, city);
    Outcome(city, table);
    KeptOfCity(table, city);
    FinishCityProfile(city, Kept(f), Predict(TrendOf(f), Xs(Kept(f))), TrendOf(f));
  }

  /** Every temperature of the rows is c. */
  predicate AllTemps(rows: seq<Obs>, c: real)
  {
    forall i :: 0 <= i < |rows| ==> rows[i].temp == c
  }

  /** With a constant temperature every full window has mean c and variance 0. */
  lemma WindowsConstant(f: seq<Obs>, c: real)
    requires AllTemps(f, c)
    ensures forall i :: Window - 1 <= i < |f| ==>
      Mean(WindowAt(Temps(f), i)) == c && SampleVariance(WindowAt(Temps(f), i)) == Some(0.0)
  {
    forall i | Window - 1 <= i < |f|
      ensures Mean(WindowAt(Temps(f), i)) == c && SampleVariance(WindowAt(Temps(f), i)) == Some(0.0)
    {
      var w := WindowAt(Temps(f), i);
      assert forall k :: 0 <= k < |w| ==> w[k] == f[i + 1 - Window + k].temp;
      MeanConstant(w, c);
      VarianceConstant(w, c);
    }
  }

  /** Every row of season s reads c. */
  predicate SeasonReads(rows: seq<Obs>, s: Season, c: real)
  {
    forall i :: 0 <= i < |rows| && rows[i].season == s ==> rows[i].temp == c
  }

  /**
   * Rows flagged against the season aggregates of `kept`, where season s
   * reads c throughout: no row of season s that reads c is flagged.
   */
  lemma NoFlagsInConstantSeason(rows: seq<Flagged>, kept: seq<Obs>, city: string, s: Season, c: real)
    requires FlaggedAgainstOwnSeason(rows, kept, city) && SeasonReads(kept, s, c)
    requires forall i :: 0 <= i < |rows| && ObsOf(rows[i].merged.row).season == s ==> ObsOf(rows[i].merged.row).temp == c
    ensures forall i :: 0 <= i < |rows| && ObsOf(rows[i].merged.row).season == s ==> !rows[i].anomaly
  {
    GroupTempsConstant(kept, city, s, c);
    forall i | 0 <= i < |rows| && ObsOf(rows[i].merged.row).season == s
      ensures !rows[i].anomaly
    {
      SummarizeConstant(Temps(SeasonGroup(kept, city, s)), c);
    }
  }

  /**
   * A city whose every reading is c, over at least a full window: every
   * returned row has rolling mean c and rolling variance 0 (the trend is
   * flat at c by FlatTrend).
   */
  lemma ConstantRolling(city: string, table: seq<Obs>, c: real)
    requires |OfCity(table, city)| >= Window
    requires AllTemps(OfCity(table, city), c)
    ensures TemperatureData(city, table).Ok?
    ensures var a := TemperatureData(city, table).value;
      forall i :: 0 <= i < |a.data| ==>
        a.data[i].merged.row.rolled.rollingMean == Some(c)
        && a.data[i].merged.row.rolled.rollingVar == Some(0.0)
  {
    WindowsConstant(OfCity(table, city), c);
    ReturnedRows(city, table);
  }

  /**
   * A season whose every kept reading is c (a group with standard
   * deviation 0): none of its returned rows is flagged.
   */
  lemma ConstantSeasonNoAnomaly(city: string, table: seq<Obs>, s: Season, c: real)
    requires |OfCity(table, city)| >= Window
    requires SeasonReads(OfCity(table, city)[Window - 1..], s, c)
    ensures TemperatureData(city, table).Ok?
    ensures var a := TemperatureData(city, table).value;
      forall i :: 0 <= i < |a.data| && ObsOf(a.data[i].merged.row).season == s ==> !a.data[i].anomaly
  {
    var f := OfCity(table, city);
    Outcome(city, table);
    KeptOfCity(table, city);
    KeptInputs(f);
    KeptSeasonNoAnomaly(f, city, Predict(TrendOf(f), Xs(Kept(f))), TrendOf(f), s, c);
  }

  lemma KeptSeasonNoAnomaly(f: seq<Obs>, city: string, points: seq<real>, line: Line, s: Season, c: real)
    requires |f| >= Window && AllOfCity(Kept(f), city) && |points| == |Kept(f)|
    requires SeasonReads(Inputs(Kept(f)), s, c)
    ensures var a := Finish(city, Kept(f), points, line);
      forall i :: 0 <= i < |a.data| && ObsOf(a.data[i].merged.row).season == s ==> !a.data[i].anomaly
  {
    KeptFlags(f, city, points, line);
    KeptObs(f, city, points, line);
    NoFlagsInConstantSeason(Finish(city, Kept(f), points, line).data, Inputs(Kept(f)), city, s, c);
  }

  lemma KeptObs(f: seq<Obs>, city: string, points: seq<real>, line: Line)
    requires |f| >= Window && AllOfCity(Kept(f), city) && |points| == |Kept(f)|
    ensures var a := Finish(city, Kept(f), points, line);
      |a.data| == |Inputs(Kept(f))|
      && forall i :: 0 <= i < |a.data| ==> ObsOf(a.data[i].merged.row) == Inputs(Kept(f))[i]
  {
    FinishRows(city, Kept(f), points, line);
  }

  /** A city whose every reading is c: no returned row is flagged. */
  lemma ConstantNoAnomaly(city: string, table: seq<Obs>, c: real)
    requires |OfCity(table, city)| >= Window
    requires AllTemps(OfCity(table, city), c)
    ensures TemperatureData(city, table).Ok?
    ensures var a := TemperatureData(city, table).value;
      forall i :: 0 <= i < |a.data| ==> !a.data[i].anomaly
  {
    var f := OfCity(table, city);
    LaterReads(f, c, Autumn);
    ConstantSeasonNoAnomaly(city, table, Autumn, c);
    LaterReads(f, c, Spring);
    ConstantSeasonNoAnomaly(city, table, Spring, c);
    LaterReads(f, c, Summer);
    ConstantSeasonNoAnomaly(city, table, Summer, c);
    LaterReads(f, c, Winter);
    ConstantSeasonNoAnomaly(city, table, Winter, c);
  }

  lemma LaterReads(f: seq<Obs>, c: real, s: Season)
    requires |f| >= Window && AllTemps(f, c)
    ensures SeasonReads(f[Window - 1..], s, c)
  {
    var later := f[Window - 1..];
    forall k | 0 <= k < |later| && later[k].season == s
      ensures later[k].temp == c
    {
      assert later[k] == f[k + Window - 1];
    }
  }

  /**
   * A city whose every reading is c: the city profile has mean, min and
   * max c, and variance 0 once more than one row is returned.
   */
  lemma ConstantCityProfile(city: string, table: seq<Obs>, c: real)
    requires |OfCity(table, city)| >= Window
    requires AllTemps(OfCity(table, city), c)
    ensures TemperatureData(city, table).Ok?
    ensures TemperatureData(city, table).value.cities
         == [CityRow(city, Aggregate(c, if |OfCity(table, city)| > Window then Some(0.0) else None, c, c))]
  {
    var f := OfCity(table, city);
    Outcome(city, table);
    KeptOfCity(table, city);
    KeptCityConstant(f, city, Predict(TrendOf(f), Xs(Kept(f))), TrendOf(f), c);
  }

  lemma KeptCityConstant(f: seq<Obs>, city: string, points: seq<real>, line: Line, c: real)
    requires |f| >= Window && AllOfCity(Kept(f), city) && |points| == |Kept(f)|
    requires AllTemps(f, c)
    ensures Finish(city, Kept(f), points, line).cities
         == [CityRow(city, Aggregate(c, if |f| > Window then Some(0.0) else None, c, c))]
  {
    var kept := Inputs(Kept(f));
    KeptInputs(f);
    assert AllTemps(kept, c);
    FinishCityProfile(city, Kept(f), points, line);
    SummarizeConstant(Temps(kept), c);
  }
}
