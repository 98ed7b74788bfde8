/**
 * The small pieces of logic the Streamlit page of app.py wraps around the
 * pipeline: the time-period filter applied before it (line 48), the
 * message about the trend's direction (lines 70-75) and the check of a
 * current temperature against the winter profile (lines 104-110).
 */
module Dashboard {
  import opened Wrappers
  import opened Stats
  import opened Observations
  import opened Rolling
  import opened Profile
  import opened Join
  import opened Pipeline

  // ---------------------------------------------------------------------
  // The time-period filter

  /** The rows with lo <= timestamp <= hi, in their order. */
  function InPeriod(table: seq<Obs>, lo: int, hi: int): (r: seq<Obs>)
    ensures |r| <= |table|
  {
    if table == [] then []
    else (if lo <= table[0].ts <= hi then [table[0]] else []) + InPeriod(table[1..], lo, hi)
  }

  /** A row passes the filter exactly when its timestamp lies in the closed period. */
  lemma {:induction false} InPeriodMembers(table: seq<Obs>, lo: int, hi: int, o: Obs)
    ensures o in InPeriod(table, lo, hi) <==> o in table && lo <= o.ts <= hi
  {
    if table != [] {
      InPeriodMembers(table[1..], lo, hi, o);
      assert table == [table[0]] + table[1..];
    }
  }

  /**
   * Filtering by period before the pipeline's city filter gives the same
   * rows, in the same order, as filtering the city's rows by period.
   */
  lemma {:induction false} PeriodThenCity(table: seq<Obs>, lo: int, hi: int, city: string)
    ensures OfCity(InPeriod(table, lo, hi), city) == InPeriod(OfCity(table, city), lo, hi)
  {
    if table != [] {
      PeriodThenCity(table[1..], lo, hi, city);
      var head := if lo <= table[0].ts <= hi then [table[0]] else [];
      OfCityAppend(head, InPeriod(table[1..], lo, hi), city);
      var own := if table[0].city == city then [table[0]] else [];
      InPeriodAppend(own, OfCity(table[1..], city), lo, hi);
    }
  }

  /** The period filter distributes over concatenation. */
  lemma {:induction false} InPeriodAppend(a: seq<Obs>, b: seq<Obs>, lo: int, hi: int)
    ensures InPeriod(a + b, lo, hi) == InPeriod(a, lo, hi) + InPeriod(b, lo, hi)
  {
    if a != [] {
      assert (a + b)[1..] == a[1..] + b;
      InPeriodAppend(a[1..], b, lo, hi);
    } else {
      assert a + b == b;
    }
  }

  // ---------------------------------------------------------------------
  // The trend message

  /** The three messages of lines 70-75. */
  datatype Direction = Upward | Downward | NoChange

  function TrendMessage(coef: real): (d: Direction)
    ensures d == Upward <==> coef > 0.0
    ensures d == Downward <==> coef < 0.0
  {
    if coef > 0.0 then Upward else if coef < 0.0 then Downward else NoChange
  }

  /** A city whose every reading is the same reports no change. */
  lemma ConstantCityNoChange(city: string, table: seq<Obs>, c: real)
    requires |OfCity(table, city)| >= Window
    requires AllTemps(OfCity(table, city), c)
    ensures TemperatureData(city, table).Ok?
    ensures TrendMessage(TemperatureData(city, table).value.trendCoef) == NoChange
  {
    WindowsConstant(OfCity(table, city), c);
    FlatTrend(city, table, c);
  }

  // ---------------------------------------------------------------------
  // The current-temperature check

  /** The aggregates of the first profile row of season s, if there is one. */
  function FirstOf(p: seq<SeasonRow>, s: Season): (r: Option<Aggregate>)
    ensures r.Some? <==> exists i :: 0 <= i < |p| && p[i].season == s
    ensures r.Some? ==> exists i :: 0 <= i < |p| && p[i].season == s && p[i].stats == r.value
  {
    if p == [] then None
    else if p[0].season == s then Some(p[0].stats)
    else
      var r := FirstOf(p[1..], s);
      assert forall i :: 0 <= i < |p[1..]| ==> p[1..][i] == p[i + 1];
      r
  }

  /**
   * `abs(mean_temp - current_temp) / temp_std > 2` for a nonzero standard
   * deviation, carried as its square v: (mean - current)^2 > 4 v. A NaN
   * standard deviation (a one-row group) divides to NaN, which compares
   * false.
   */
  predicate Abnormal(current: real, winter: Aggregate)
  {
    winter.variance.Some?
    && (winter.mean - current) * (winter.mean - current) > 4.0 * winter.variance.value
  }

  /**
   * What lines 104-107 raise: IndexError from `.to_list()[0]` when the
   * profile has no winter row, TypeError from `mean_temp - current_temp`
   * when the fetch returned None, and ZeroDivisionError when the winter
   * standard deviation, a Python float after `.to_list()`, is 0.
   */
  datatype CheckError = NoWinterRow | NoCurrentTemperature | ZeroWinterDeviation

  /**
   * Lines 104-110: the current temperature, None when the fetch failed,
   * against the winter row of the season profile.
   */
  function CurrentCheck(seasons: seq<SeasonRow>, current: Option<real>): (r: Result<bool, CheckError>)
    ensures r == Err(NoWinterRow) <==> forall i :: 0 <= i < |seasons| ==> seasons[i].season != Winter
    ensures r == Err(NoCurrentTemperature) <==> FirstOf(seasons, Winter).Some? && current.None?
    ensures r == Err(ZeroWinterDeviation)
        <==> FirstOf(seasons, Winter).Some? && current.Some? && FirstOf(seasons, Winter).value.variance == Some(0.0)
    ensures r.Ok? ==> r.value == Abnormal(current.value, FirstOf(seasons, Winter).value)
  {
    match FirstOf(seasons, Winter)
    case None => Err(NoWinterRow)
    case Some(w) =>
      if current.None? then Err(NoCurrentTemperature)
      else if w.variance == Some(0.0) then Err(ZeroWinterDeviation)
      else Ok(Abnormal(current.value, w))
  }

  /**
   * For a positive standard deviation sd the test is the division of line
   * 107; a standard deviation of 0 raises instead (CurrentCheck).
   */
  lemma AbnormalMeaning(current: real, winter: Aggregate, sd: real)
    requires sd > 0.0 && winter.variance == Some(sd * sd)
    ensures Abnormal(current, winter) <==> Abs(winter.mean - current) / sd > 2.0
  {
    var d := Abs(winter.mean - current);
    assert d * d == (winter.mean - current) * (winter.mean - current);
    if d > 2.0 * sd {
      SquareBelow(2.0 * sd, d);
    } else {
      SquareAtMost(d, 2.0 * sd);
    }
    if d / sd > 2.0 {
      assert d == (d / sd) * sd;
      assert d > 2.0 * sd;
    } else {
      assert d == (d / sd) * sd;
      assert d <= 2.0 * sd;
    }
  }

  /**
   * The winter row of a season profile, when the rows have a winter
   * reading, carries the aggregates of the winter rows.
   */
  lemma WinterOfProfile(rows: seq<Obs>, city: string)
    ensures FirstOf(SeasonProfile(rows, city), Winter)
         == if SeasonGroup(rows, city, Winter) == [] then None
            else Some(Summarize(Temps(SeasonGroup(rows, city, Winter))))
  {
    var p := SeasonProfile(rows, city);
    SeasonTable(rows, city);
    SeasonOccurs(rows, city, Winter);
    var r := FirstOf(p, Winter);
    if r.Some? {
      var i :| 0 <= i < |p| && p[i].season == Winter && p[i].stats == r.value;
      assert Describes(p[i], rows, city);
    } else {
      assert Winter !in SeasonsOf(p);
    }
  }

  /** The winter rows the check looks at: the kept winter rows of the city. */
  function KeptWinter(city: string, table: seq<Obs>): seq<Obs>
  {
    SeasonGroup(Inputs(Kept(OfCity(table, city))), city, Winter)
  }

  /**
   * The check after the pipeline raises IndexError exactly when no kept row
   * is a winter reading, TypeError when the current temperature is
   * missing, ZeroDivisionError when the kept winter readings have standard
   * deviation 0, and otherwise tests the current temperature against the
   * aggregates of the kept winter rows.
   */
  lemma CheckOfCall(city: string, table: seq<Obs>, current: Option<real>)
    requires |OfCity(table, city)| >= Window
    ensures TemperatureData(city, table).Ok?
    ensures var g := KeptWinter(city, table);
      CurrentCheck(TemperatureData(city, table).value.seasons, current)
      == if g == [] then Err(NoWinterRow)
         else if current.None? then Err(NoCurrentTemperature)
         else if Summarize(Temps(g)).variance == Some(0.0) then Err(ZeroWinterDeviation)
         else Ok(Abnormal(current.value, Summarize(Temps(g))))
  {
    SeasonsOfCall(city, table);
    WinterOfProfile(Inputs(Kept(OfCity(table, city))), city);
  }

  /**
   * Two or more kept winter readings, all equal: the standard deviation is
   * 0 and the check raises ZeroDivisionError for every current reading.
   */
  lemma ConstantWinterRaises(city: string, table: seq<Obs>, c: real, current: real)
    requires |OfCity(table, city)| >= Window
    requires SeasonReads(Inputs(Kept(OfCity(table, city))), Winter, c)
    requires |KeptWinter(city, table)| >= 2
    ensures TemperatureData(city, table).Ok?
    ensures CurrentCheck(TemperatureData(city, table).value.seasons, Some(current)) == Err(ZeroWinterDeviation)
  {
    var g := KeptWinter(city, table);
    CheckOfCall(city, table, Some(current));
    GroupTempsConstant(Inputs(Kept(OfCity(table, city))), city, Winter, c);
    SummarizeConstant(Temps(g), c);
  }
}
