# Temperature analysis of one city, in Dafny

This project models `get_temperature_data(city, data)` (app/functions.py,
lines 8-50), the analysis behind the temperature dashboard. Given a table of
observations `(city, timestamp, temperature, season)` and a city name, it:

1. keeps the rows of that city, in their order (line 16);
2. adds a trailing rolling mean and a rolling sample standard deviation. The
   window is 30 rows and both columns need a full window (lines 19-22);
3. drops the rows with a missing value (line 24);
4. fits an ordinary-least-squares line of rolling mean against integer
   timestamp. It returns the fitted point of each row and the slope
   (lines 27-34);
5. builds the season profile: mean, standard deviation, min and max of the
   temperature per (city, season) (lines 37-39);
6. joins that profile back onto the rows with an inner merge (line 42);
7. flags anomalies with the literal test `|t| > |temp_mean| + 2 * temp_std`
   (line 43);
8. builds the same aggregates over the joined rows as the city profile
   (lines 46-48).

The Dashboard module adds three small pieces of the Streamlit page that wraps
the call (app/app.py):

- the period filter;
- the trend message;
- the check of a current temperature against the winter profile.

Modules, in dependency order:

| module | file | content |
|---|---|---|
| `Wrappers` | wrappers.dfy | `Option` and `Result` |
| `Stats` | stats.dfy | sum, mean, sample variance, min, max, and the algebra used by the proofs |
| `Observations` | observations.dfy | the row record, seasons, the city and season filters |
| `Rolling` | rolling.dfy | the rolling statistics, the imperative rolling loop, `dropna` |
| `Trend` | trend.dfy | the closed-form least-squares fit and `predict` |
| `Profile` | profile.dfy | `groupby(...).agg(...)` for the season and the city profile |
| `Join` | join.dfy | the inner merge and the anomaly column |
| `Pipeline` | pipeline.dfy | the whole function, as a function and as a method, with the end-to-end lemmas |
| `Dashboard` | dashboard.dfy | the app.py helpers |

Modelling choices:

- **Numbers.** Temperatures are exact `real`s and timestamps are `int`. The
  code reads timestamps through `astype('int')`.
- **Standard deviation.** It is carried as its square, the sample variance
  with denominator n - 1, in an `Option<real>`. `None` stands for pandas'
  NaN: fewer than 30 rows in a rolling window, or a one-row group. Every
  comparison against a standard deviation is stated over the variance.
  `Join.AnomalyMeaning` proves the variance form of line 43 equal to the
  source's comparison for any root `sd >= 0` with `sd * sd == v`.
  `Dashboard.AbnormalMeaning` does the same for app/app.py line 107 for any
  root `sd > 0`. At `sd == 0` that line divides a Python float by zero and
  raises, which `Dashboard.CurrentCheck` models as an error.
- **Row order.** The code never sorts, so every step works positionally on
  sequences.
- **The rolling loop.** Lines 20-22 write columns into the frame in place.
  `Rolling.AddRollingColumns` models them as a method that fills two arrays
  in a loop with a running window sum. It is proved equal to the
  definitional `Rolling.WithRolling`. `Pipeline.GetTemperatureData` is the
  whole function written with that method, proved equal to the pure
  `Pipeline.TemperatureData`.
- **The trend fit.** sklearn's least-squares solver is written in closed
  form as `Trend.Fit`:
  - slope = Sxy / Sxx, and intercept = mean(y) - slope * mean(x);
  - when every timestamp is the same (Sxx = 0), slope 0 and intercept
    mean(y). This is the minimum-norm solution the solver returns.

  `Trend.FitNormalEquations` proves the fit satisfies the normal equations
  of least squares in both cases.
- **Season order.** The season profile lists the groups in `groupby`'s
  sorted key order: autumn, spring, summer, winter.
- **Merge order.** The inner merge keeps the left table's row order and
  pairs each row with every profile row of its key, in profile order. This
  is the documented behaviour of pandas 2.2 and later.
- **Where the code and its description differ, the model follows the
  code:**
  - **No row of the city.** The rolling loop never runs. The
    `rolling_mean` column then does not exist, and line 28 raises
    `KeyError`: `Err(MissingRollingColumn)`.
  - **1 to 29 rows.** Every row is dropped, and `fit` raises `ValueError`
    on zero samples at line 30: `Err(NoSamplesToFit)`.
  - **A single distinct timestamp.** This raises nothing; the fit is flat
    at the mean.
- **The anomaly test is kept as written.** It compares absolute values, not
  the distance from the mean. `Join.SmallMagnitudeNeverFlagged` shows that a
  reading no larger in absolute value than the season mean is never flagged,
  however far from the mean it lies. `Join.AnomalyDeviates` shows that every
  flagged reading does lie more than two standard deviations from the mean.
  The page's own check of a current temperature (app/app.py line 107) uses
  the distance form: `Dashboard.Abnormal`.
- **The current-temperature check.** The fetched temperature is an
  `Option<real>`, `None` when the request failed. The check raises in
  three cases, in the order the lines reach them:
  - IndexError when the profile has no winter row (line 104);
  - TypeError when the current temperature is `None` (line 107);
  - ZeroDivisionError when the winter standard deviation is 0 (line 107).

  The last one arises because `.to_list()` yields Python floats, not numpy
  scalars. A NaN winter standard deviation divides to NaN and reports
  "within norm".

## Model

| member | source | states |
|---|---|---|
| Observations.OfCity | app/functions.py:16 | the filter keeps at most the input rows |
| Observations.OfCityMembers | app/functions.py:16 | a row is kept exactly when it is an input row of the city |
| Observations.OfCityCity | app/functions.py:16 | every kept row has the requested city |
| Observations.OfCityAppend | app/functions.py:16 | the filter distributes over concatenation, so it keeps the input order |
| Observations.OfSeason | app/functions.py:37 | the selection of one season's rows, in order and bounded by the input; its membership is given by Observations.OfSeasonMembers |
| Observations.OfSeasonMembers | app/functions.py:37 | a row is in a season's selection exactly when it is an input row of that season |
| Rolling.WithRolling | app/functions.py:19-22 | the table after the loop, one row per input row with its rolling mean and variance; its meaning is given by Rolling.RollingMean, Rolling.RollingVar, Rolling.WithRollingComplete and Rolling.AddRollingColumns |
| Rolling.RollingMean | app/functions.py:21 | the rolling mean at position i is defined exactly when i + 1 >= 30 |
| Rolling.RollingMeanInWindow | app/functions.py:21 | a defined rolling mean lies between the smallest and largest temperature of its window |
| Rolling.RollingVar | app/functions.py:22 | the rolling variance at position i is defined exactly when i + 1 >= 30, and is nonnegative |
| Rolling.AddRollingColumns | app/functions.py:19-22 | the in-place loop writes at each position the mean and sample variance of the 30 temperatures ending there, and nothing before position 29 |
| Rolling.WindowMoments | app/functions.py:21-22 | the running window sum divided by 30, and the squared deviations divided by 29, are the rolling mean and variance |
| Rolling.RunningSumStep | app/functions.py:21 | moving the window one row adds the new temperature and drops the one 30 rows back |
| Rolling.SquaredDeviation | app/functions.py:22 | the loop accumulates the sum of squared deviations of a slice |
| Rolling.DropNa | app/functions.py:24 | a row survives exactly when it is an input row with both rolling values |
| Rolling.DropNaAppend | app/functions.py:24 | dropna distributes over concatenation, so it keeps the row order |
| Rolling.DropNaComplete | app/functions.py:24 | a table without missing values is unchanged |
| Rolling.DropNaIdempotent | app/functions.py:24-28 | dropna applied twice equals dropna once, so the repeated calls on lines 27-28 remove nothing |
| Rolling.WithRollingComplete | app/functions.py:19-24 | a row has both rolling values exactly when its position is at least 29 |
| Rolling.DropNaAfterRolling | app/functions.py:19-24 | after the loop, dropna keeps exactly the rows from position 29 on, in order |
| Rolling.DropNaAfterRollingCount | app/functions.py:19-24 | max(0, n - 29) rows survive |
| Trend.Fit | app/functions.py:29-30 | the fit fails exactly on an empty table |
| Trend.Predict | app/functions.py:31 | one fitted value per row |
| Trend.FitNormalEquations | app/functions.py:29-31 | the fitted values have the same total as the targets and the same co-deviation with the timestamps: the normal equations of least squares |
| Trend.FitConstant | app/functions.py:29-31 | constant targets give slope 0 and every fitted value equal to the constant |
| Trend.FitSingleTimestamp | app/functions.py:29-31 | a single distinct timestamp gives slope 0 and every fitted value equal to the mean target |
| Trend.FitOnLineSlope | app/functions.py:29-34 | targets on a line, with spread in the timestamps: the fit recovers the line's slope |
| Trend.FitOnLineIntercept | app/functions.py:29-30 | targets on a line, with spread in the timestamps: the fit recovers the line's intercept |
| Trend.FitOnLine | app/functions.py:29-31 | targets exactly on a line are reproduced by the fitted values |
| Trend.FitRecoversLine | app/functions.py:29-34 | targets on a line with two different timestamps: the fit is that line |
| Stats.SampleVariance | app/functions.py:22 | the sample variance is defined exactly for two or more values, and is nonnegative |
| Stats.MeanBetweenMinMax | app/functions.py:38-39 | the mean lies between the minimum and the maximum |
| Stats.VarianceConstant | app/functions.py:22 | equal values have sample variance 0 |
| Profile.Summarize | app/functions.py:38-39 | temp_min <= temp_mean <= temp_max; the min and max are values of the group and bound all of it; temp_std is defined exactly for two or more rows |
| Profile.SummarizeConstant | app/functions.py:38-39 | a group reading c throughout has mean, min and max c, and variance 0 when it has two or more rows |
| Profile.SeasonGroupMembers | app/functions.py:37 | a row is in a group exactly when it is an input row of that city and season |
| Profile.GroupRow | app/functions.py:37-39 | a key gives at most one profile row, present exactly when its group is non-empty, describing that group |
| Profile.Groups | app/functions.py:37-39 | one profile row per key of a key list whose group is non-empty, in key order, at most one per key; its meaning is given by Profile.GroupsDescribe, Profile.GroupsAscending and Profile.GroupsSeasons |
| Profile.SeasonProfile | app/functions.py:37-39 | at most four rows for one city |
| Profile.SeasonProfileStats | app/functions.py:37-39 | every profile row has the city and the aggregates of exactly the rows of its season |
| Profile.SeasonProfileCity | app/functions.py:37 | every profile row has the requested city |
| Profile.SeasonProfileSorted | app/functions.py:37 | the profile rows come in ascending key order (autumn, spring, summer, winter) |
| Profile.SeasonProfileKeys | app/functions.py:37 | the profile's seasons are exactly the seasons occurring in the rows |
| Profile.SeasonTable | app/functions.py:37-39 | the whole description of the season profile: at most four rows, ascending keys, exactly the occurring seasons, each row describing its group |
| Profile.SeasonOccurs | app/functions.py:37 | a season's group is non-empty exactly when the season occurs among the city's rows |
| Profile.GroupTempsConstant | app/functions.py:37-39 | when every row of a season reads c, so does every row of its group |
| Profile.CityProfile | app/functions.py:46-48 | one row when the city has rows, none otherwise, with the aggregates of all the city's rows |
| Join.Matches | app/functions.py:42 | the matching profile rows are at most the profile rows |
| Join.Merge | app/functions.py:42 | the inner merge: each left row, in order, paired with every profile row of its key; its meaning is given by Join.MergeUnique and Join.MergeOwnProfile |
| Join.MergeUnique | app/functions.py:42 | when every key matches one profile row, the join keeps row count and order, and each row gains its match's aggregates |
| Join.MatchesNone | app/functions.py:42 | a key absent from the profile matches nothing |
| Join.MatchesAscending | app/functions.py:42 | in a profile of one city in ascending key order, a row's key matches that row alone |
| Join.MergeOwnProfile | app/functions.py:37-42 | joining the season profile of the rows onto those rows keeps count and order, and every row gains the aggregates of exactly its own season |
| Join.IsAnomaly | app/functions.py:43 | the literal flag over the variance, false for a NaN std; its meaning is given by Join.AnomalyMeaning, Join.AnomalyDeviates and Join.SmallMagnitudeNeverFlagged |
| Join.AnomalyMeaning | app/functions.py:43 | the flag computed on the variance equals `|t| > |mean| + 2 sd` for the root sd of the variance |
| Join.AnomalyDeviates | app/functions.py:43 | every flagged reading lies more than two standard deviations from the mean |
| Join.SmallMagnitudeNeverFlagged | app/functions.py:43 | a reading no larger in absolute value than the mean is never flagged |
| Join.FlagAnomalies | app/functions.py:43 | the anomaly column adds one flag per row and changes no row |
| Pipeline.TemperatureData | app/functions.py:8-50 | the whole function on values; its meaning is given by Pipeline.Outcome and the lemmas below |
| Pipeline.Finish | app/functions.py:31-50 | the steps after the fit: trend column, season profile, merge, anomaly column, city profile; its meaning is given by Pipeline.FinishRows, Pipeline.FinishCity and Pipeline.FinishCityProfile |
| Pipeline.FinishRows | app/functions.py:31-43 | one returned row per kept row, in order, with its trend point, its own season's aggregates and the flag of line 43 on them |
| Pipeline.FinishCity | app/functions.py:37-48 | every returned row, season row and city row carries the city |
| Pipeline.FinishCityProfile | app/functions.py:46-48 | a single city row with the aggregates of the kept rows |
| Pipeline.GetTemperatureData | app/functions.py:8-50 | the step-by-step function, with the imperative rolling loop, returns what the definitional model returns |
| Pipeline.Outcome | app/functions.py:16-30 | KeyError exactly when the city has no row, ValueError exactly when it has 1 to 29, and otherwise the analysis of the rows from position 29 on |
| Pipeline.ReturnedRows | app/functions.py:16-24 | the returned table has n - 29 rows; row i is input row i + 29 of the city, with the mean and the sample variance of the 30 readings ending there |
| Pipeline.KeptInputs | app/functions.py:24 | the rows underneath the kept rows are the city's rows from position 29 on |
| Pipeline.TrendPoints | app/functions.py:29-34 | every trend point lies on one line, and the returned coefficient is that line's slope |
| Pipeline.TrendLeastSquares | app/functions.py:27-30 | the trend line satisfies the least-squares normal equations for the kept timestamps and rolling means |
| Pipeline.TargetsAreRollingMeans | app/functions.py:27-28 | the fit's inputs are the kept rows' timestamps and rolling means |
| Pipeline.FlatTrend | app/functions.py:27-34 | equal rolling means give a zero coefficient, and every trend point equals them |
| Pipeline.ExactTrend | app/functions.py:27-31 | rolling means exactly affine in the timestamp are reproduced by the trend points |
| Pipeline.ExactTrendSlope | app/functions.py:29-34 | rolling means exactly affine in the timestamp, with two different kept timestamps: the returned coefficient is the line's slope |
| Pipeline.AnomalyFlags | app/functions.py:37-43 | every returned row carries the aggregates of the kept rows of its own season, and its flag is line 43 applied to them |
| Pipeline.OnlyTheCity | app/functions.py:16-48 | every returned row, season-profile row and city-profile row has the requested city |
| Pipeline.SeasonsOfCall | app/functions.py:37-39 | the returned season profile is the profile of the kept rows |
| Pipeline.ReturnedSeasons | app/functions.py:37-39 | the returned season profile has at most four rows in key order, one per season among the kept rows, each with that season's aggregates |
| Pipeline.CityProfileOfCall | app/functions.py:42-48 | the city profile is one row with the aggregates of all the returned rows |
| Pipeline.WindowsConstant | app/functions.py:21-22 | a constant temperature gives every full window mean c and variance 0 |
| Pipeline.ConstantRolling | app/functions.py:19-24 | a city reading c throughout: every returned row has rolling mean c and rolling variance 0 |
| Pipeline.NoFlagsInConstantSeason | app/functions.py:43 | rows of a season that reads c throughout (standard deviation 0) are not flagged |
| Pipeline.ConstantSeasonNoAnomaly | app/functions.py:37-43 | a season whose kept readings are all c: none of its returned rows is flagged |
| Pipeline.ConstantNoAnomaly | app/functions.py:37-43 | a city reading c throughout: no returned row is flagged |
| Pipeline.ConstantCityProfile | app/functions.py:46-48 | a city reading c throughout: the city profile has mean, min and max c, and variance 0 for more than one returned row |
| Dashboard.InPeriod | app/app.py:48 | the period filter keeps at most the input rows |
| Dashboard.InPeriodMembers | app/app.py:48 | a row passes exactly when its timestamp is within the closed period |
| Dashboard.PeriodThenCity | app/app.py:48 | filtering by period before the city filter gives the same rows in the same order as filtering the city's rows by period |
| Dashboard.TrendMessage | app/app.py:70-75 | upward exactly for a positive coefficient, downward exactly for a negative one, otherwise no change |
| Dashboard.ConstantCityNoChange | app/app.py:70-75 | a city reading the same throughout reports no change |
| Dashboard.FirstOf | app/app.py:104-105 | the first profile row of a season exists exactly when some row has that season, and is one of them |
| Dashboard.CurrentCheck | app/app.py:104-110 | IndexError exactly when the profile has no winter row; TypeError exactly when there is one and the current temperature is missing; ZeroDivisionError exactly when both are present and the winter variance is 0; otherwise the deviation test against the winter row |
| Dashboard.Abnormal | app/app.py:107 | the deviation test `abs(mean - current) / std > 2` over the variance, false for a NaN std; its meaning is given by Dashboard.AbnormalMeaning |
| Dashboard.AbnormalMeaning | app/app.py:107 | for a positive standard deviation the test is `abs(mean - current) / std > 2` |
| Dashboard.WinterOfProfile | app/app.py:104-105 | the winter row of a season profile, when there are winter rows, carries their aggregates |
| Dashboard.CheckOfCall | app/app.py:104-110 | after the pipeline: IndexError exactly when no kept row is a winter reading, then TypeError for a missing current temperature, then ZeroDivisionError when the kept winter readings have variance 0, otherwise the test against the aggregates of the kept winter rows |
| Dashboard.ConstantWinterRaises | app/app.py:104-107 | two or more kept winter readings that are all equal make the check raise ZeroDivisionError for every current reading |

## Left out

- `async_get_current_temperature` (app/functions.py:54-71) and the `asyncio.gather` fan-out in app/app.py:12-21 are network I/O and concurrency. The current temperature enters the model as an `Option<real>` parameter of `Dashboard.CurrentCheck`; a failed fetch is `None`.
- The rest of app/app.py is Streamlit widgets, CSV upload and Plotly charts, so it is user interface, not logic.
- gen_data.py is a random data generator. The pipeline trusts the input's `season` column and never uses that generator's month-to-season table.
- Floating point: every number is an exact real. Rounding, overflow and the order of floating-point summation are not modelled.
- NaN values in the input rows are not modelled. Every input row has a temperature. NaN appears only as the missing rolling values and standard deviations, written `None`.
- The square root is not modelled. Every standard deviation is carried as its variance, and every comparison is stated over the variance. `Join.AnomalyMeaning` and `Dashboard.AbnormalMeaning` relate the two forms.
- Timestamps are integers. The date-to-datetime conversion of the period bounds in app/app.py:48 is not modelled, so `Dashboard.InPeriod` takes integer bounds.
- Grouping by city: the function filters to a single city first, so the `groupby(['city'])` of line 19 has one group and the profiles take the city as a parameter. Tables with several cities in the profile step are not modelled.
- The merge's row order follows pandas 2.2 and later. Older pandas versions grouped the joined rows by key.
- The columns that the returned frames carry beyond the modelled fields (`as_index=False` column layout, column names) are implicit in the records.
- Trend.FitNormalEquations: proves the normal equations of least squares, not the minimality of the squared error that follows from them.
