/**
 * The inner join of the season profile back onto the rows
 * (`pd.merge(..., how='inner', on=['city', 'season'])`, functions.py
 * line 42) and the anomaly column computed on the joined table (line 43).
 */
module Join {
  import opened Wrappers
  import opened Observations
  import opened Rolling
  import opened Profile

  /** A row of the table once `trend_line_points` is assigned (line 31). */
  datatype Trended = Trended(rolled: Rolled, trendPoint: real)

  /** The input row underneath a row of the table. */
  function ObsOf(r: Trended): Obs
  {
    r.rolled.obs
  }

  /** A row of the merged table: the row and the aggregates of the profile row it matched. */
  datatype Merged = Merged(row: Trended, profile: Aggregate)

  /** The profile rows with key (city, s), in profile order. */
  function Matches(right: seq<SeasonRow>, city: string, s: Season): (m: seq<SeasonRow>)
    ensures |m| <= |right|
  {
    if right == [] then []
    else (if right[0].city == city && right[0].season == s then [right[0]] else [])
         + Matches(right[1..], city, s)
  }

  /** One joined row for each matching profile row, in their order. */
  function Pair(row: Trended, m: seq<SeasonRow>): (out: seq<Merged>)
    ensures |out| == |m|
  {
    seq(|m|, k requires 0 <= k < |m| => Merged(row, m[k].stats))
  }

  /**
   * The inner join: every left row, in left order, paired with each
   * profile row of its key. A left row whose key has no profile row is
   * dropped.
   */
  function Merge(left: seq<Trended>, right: seq<SeasonRow>): seq<Merged>
  {
    if left == [] then []
    else Pair(left[0], Matches(right, ObsOf(left[0]).city, ObsOf(left[0]).season))
         + Merge(left[1..], right)
  }

  /** Every left row that matches exactly one profile row. */
  predicate UniqueMatches(left: seq<Trended>, right: seq<SeasonRow>)
  {
    forall i :: 0 <= i < |left| ==> |Matches(right, ObsOf(left[i]).city, ObsOf(left[i]).season)| == 1
  }

  /**
   * When every row's key matches exactly one profile row, the join keeps
   * the row count and the row order, and each row gains the aggregates of
   * its own match.
   */
  lemma {:induction false} MergeUnique(left: seq<Trended>, right: seq<SeasonRow>)
    requires UniqueMatches(left, right)
    ensures |Merge(left, right)| == |left|
    ensures forall i :: 0 <= i < |left| ==>
      Merge(left, right)[i] == Merged(left[i], Matches(right, ObsOf(left[i]).city, ObsOf(left[i]).season)[0].stats)
  {
    if left != [] {
      assert UniqueMatches(left[1..], right) by {
        forall i | 0 <= i < |left[1..]|
          ensures |Matches(right, ObsOf(left[1..][i]).city, ObsOf(left[1..][i]).season)| == 1
        {
          assert left[1..][i] == left[i + 1];
        }
      }
      MergeUnique(left[1..], right);
      var head := Pair(left[0], Matches(right, ObsOf(left[0]).city, ObsOf(left[0]).season));
      var out := head + Merge(left[1..], right);
      forall i | 0 <= i < |left|
        ensures out[i] == Merged(left[i], Matches(right, ObsOf(left[i]).city, ObsOf(left[i]).season)[0].stats)
      {
        if i > 0 {
          assert left[1..][i - 1] == left[i];
        }
      }
    }
  }

  /** No profile row of the key: no match. */
  lemma {:induction false} MatchesNone(right: seq<SeasonRow>, city: string, s: Season)
    requires forall k :: 0 <= k < |right| ==> right[k].season != s
    ensures Matches(right, city, s) == []
  {
    if right != [] {
      MatchesNone(right[1..], city, s);
    }
  }

  /**
   * Profile rows of one city in ascending key order: the key of row k
   * matches row k alone.
   */
  lemma {:induction false} MatchesAscending(right: seq<SeasonRow>, city: string, k: nat)
    requires k < |right|
    requires RowsAscending(right)
    requires forall i :: 0 <= i < |right| ==> right[i].city == city
    ensures Matches(right, city, right[k].season) == [right[k]]
  {
    var s := right[k].season;
    var rest := right[1..];
    assert RowsAscending(rest) by {
      forall i, j | 0 <= i < j < |rest|
        ensures SortRank(rest[i].season) < SortRank(rest[j].season)
      {
        assert rest[i] == right[i + 1] && rest[j] == right[j + 1];
      }
    }
    if k == 0 {
      forall i | 0 <= i < |rest|
        ensures rest[i].season != s
      {
        assert rest[i] == right[i + 1];
      }
      MatchesNone(rest, city, s);
    } else {
      assert right[0].season != s;
      assert rest[k - 1] == right[k];
      MatchesAscending(rest, city, k - 1);
    }
  }

  /** A joined row carrying the aggregates of exactly the rows of its own city and season. */
  predicate OwnSeason(m: Merged, rows: seq<Obs>, city: string)
  {
    SeasonGroup(rows, city, ObsOf(m.row).season) != []
    && m.profile == Summarize(Temps(SeasonGroup(rows, city, ObsOf(m.row).season)))
  }

  /**
   * Joining the season profile of the rows back onto the same rows: every
   * row finds exactly the profile row of its season, so the join keeps the
   * row count and the row order, and each row gains the aggregates of the
   * rows that share its season.
   */
  lemma MergeOwnProfile(left: seq<Trended>, rows: seq<Obs>, city: string)
    requires forall i :: 0 <= i < |left| ==> ObsOf(left[i]) in rows && ObsOf(left[i]).city == city
    ensures |Merge(left, SeasonProfile(rows, city))| == |left|
    ensures forall i :: 0 <= i < |left| ==>
      Merge(left, SeasonProfile(rows, city))[i].row == left[i]
      && OwnSeason(Merge(left, SeasonProfile(rows, city))[i], rows, city)
  {
    var p := SeasonProfile(rows, city);
    SeasonProfileSorted(rows, city);
    SeasonProfileKeys(rows, city);
    forall i | 0 <= i < |left|
      ensures |Matches(p, ObsOf(left[i]).city, ObsOf(left[i]).season)| == 1
      ensures Matches(p, ObsOf(left[i]).city, ObsOf(left[i]).season)[0].season == ObsOf(left[i]).season
      ensures Describes(Matches(p, ObsOf(left[i]).city, ObsOf(left[i]).season)[0], rows, city)
    {
      var o := ObsOf(left[i]);
      assert o.season in SeasonsIn(rows, city);
      var k :| 0 <= k < |p| && p[k].season == o.season;
      forall j | 0 <= j < |p|
        ensures p[j].city == city
      {
        SeasonProfileStats(rows, city, j);
      }
      MatchesAscending(p, city, k);
      SeasonProfileStats(rows, city, k);
    }
    MergeUnique(left, p);
  }

  // ---------------------------------------------------------------------
  // The anomaly column

  /** A row of the returned table: the joined row and its `anomaly` flag. */
  datatype Flagged = Flagged(merged: Merged, anomaly: bool)

  function Abs(x: real): (a: real)
    ensures a >= 0.0 && (a == x || a == -x)
  {
    if x < 0.0 then -x else x
  }

  /**
   * `abs(temperature) > abs(temp_mean) + temp_std * 2` with the standard
   * deviation given as its square v: the difference d of the absolute
   * values must be positive and exceed twice the root of v, that is,
   * d * d > 4 * v. A NaN standard deviation (None) compares false.
   */
  predicate IsAnomaly(t: real, mean: real, variance: Option<real>)
  {
    variance.Some? && Abs(t) - Abs(mean) > 0.0
    && (Abs(t) - Abs(mean)) * (Abs(t) - Abs(mean)) > 4.0 * variance.value
  }

  /**
   * The flag is the literal comparison of line 43 for any standard
   * deviation sd >= 0 whose square is the variance.
   */
  lemma AnomalyMeaning(t: real, mean: real, v: real, sd: real)
    requires sd >= 0.0 && sd * sd == v
    ensures IsAnomaly(t, mean, Some(v)) <==> Abs(t) > Abs(mean) + 2.0 * sd
  {
    var d := Abs(t) - Abs(mean);
    if d > 2.0 * sd {
      SquareBelow(2.0 * sd, d);
    }
    if d > 0.0 && d * d > 4.0 * v {
      if d <= 2.0 * sd {
        SquareAtMost(d, 2.0 * sd);
      }
    }
  }

  /** 0 <= x < y gives x * x < y * y. */
  lemma SquareBelow(x: real, y: real)
    requires 0.0 <= x < y
    ensures x * x < y * y
  {
    var a, b, c := x * x, x * y, y * y;
    assert a <= b;
    assert b < c;
  }

  /** 0 <= x <= y gives x * x <= y * y. */
  lemma SquareAtMost(x: real, y: real)
    requires 0.0 <= x <= y
    ensures x * x <= y * y
  {
    var a, b, c := x * x, x * y, y * y;
    assert a <= b;
    assert b <= c;
  }

  /**
   * Every flagged reading also lies more than two standard deviations from
   * the mean: |t - mean| >= |t| - |mean|.
   */
  lemma AnomalyDeviates(t: real, mean: real, v: real)
    requires IsAnomaly(t, mean, Some(v))
    ensures (t - mean) * (t - mean) > 4.0 * v
  {
    var d := Abs(t) - Abs(mean);
    SquareAtMost(d, Abs(t - mean));
    assert Abs(t - mean) * Abs(t - mean) == (t - mean) * (t - mean);
  }

  /**
   * The converse fails: a reading whose absolute value does not exceed the
   * mean's is never flagged, however far it lies from the mean (a reading
   * of -10 against a mean of 10, say).
   */
  lemma SmallMagnitudeNeverFlagged(t: real, mean: real, variance: Option<real>)
    requires Abs(t) <= Abs(mean)
    ensures !IsAnomaly(t, mean, variance)
  {
  }

  /** `data['anomaly'] = ...`: one flag per joined row, the rows unchanged. */
  function FlagAnomalies(rows: seq<Merged>): (out: seq<Flagged>)
    ensures |out| == |rows|
    ensures forall i :: 0 <= i < |rows| ==> out[i].merged == rows[i]
  {
    seq(|rows|, i requires 0 <= i < |rows| =>
      Flagged(rows[i], IsAnomaly(ObsOf(rows[i].row).temp, rows[i].profile.mean, rows[i].profile.variance)))
  }
}
