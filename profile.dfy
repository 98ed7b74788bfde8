/**
 * The two aggregate tables of functions.py: the season profile
 * (`groupby(['city', 'season']).agg(...)`, lines 37-39) and the city
 * profile (`groupby(['city']).agg(...)`, lines 46-48). Each aggregate row
 * carries the mean, the sample standard deviation (as a variance), the
 * minimum and the maximum of the group's temperatures.
 */
module Profile {
  import opened Wrappers
  import opened Stats
  import opened Observations

  /**
   * The four aggregate columns `temp_mean`, `temp_std`, `temp_min` and
   * `temp_max`. The standard deviation is kept as its square; None is the
   * NaN pandas gives a group of one row (ddof = 1).
   */
  datatype Aggregate = Aggregate(mean: real, variance: Option<real>, min: real, max: real)

  /** The four aggregations of one non-empty group of temperatures. */
  function Summarize(t: seq<real>): (a: Aggregate)
    requires |t| > 0
    ensures a.min <= a.mean <= a.max
    ensures a.variance.Some? <==> |t| >= 2
    ensures a.variance.Some? ==> a.variance.value >= 0.0
    ensures a.min in t && a.max in t
    ensures forall i :: 0 <= i < |t| ==> a.min <= t[i] <= a.max
  {
    MeanBetweenMinMax(t);
    Aggregate(Mean(t), SampleVariance(t), Min(t), Max(t))
  }

  /** A group whose temperatures are all c has mean, minimum and maximum c and no spread. */
  lemma SummarizeConstant(t: seq<real>, c: real)
    requires |t| > 0
    requires forall i :: 0 <= i < |t| ==> t[i] == c
    ensures Summarize(t) == Aggregate(c, if |t| >= 2 then Some(0.0) else None, c, c)
  {
    MeanConstant(t, c);
    MinMaxConstant(t, c);
    if |t| >= 2 {
      VarianceConstant(t, c);
    }
  }

  // ---------------------------------------------------------------------
  // Season profile

  /** One row of `seasons_profile`. */
  datatype SeasonRow = SeasonRow(city: string, season: Season, stats: Aggregate)

  /** The rows of the (city, season) group, in table order. */
  function SeasonGroup(rows: seq<Obs>, city: string, s: Season): seq<Obs>
  {
    OfSeason(OfCity(rows, city), s)
  }

  /** A row is in the (city, season) group exactly when it carries that city and season. */
  lemma SeasonGroupMembers(rows: seq<Obs>, city: string, s: Season, o: Obs)
    ensures o in SeasonGroup(rows, city, s) <==> o in rows && o.city == city && o.season == s
  {
    OfSeasonMembers(OfCity(rows, city), s, o);
    OfCityMembers(rows, city, o);
  }

  /** A profile row of the city that holds the aggregates of exactly its season's rows. */
  predicate Describes(r: SeasonRow, rows: seq<Obs>, city: string)
  {
    r.city == city && SeasonGroup(rows, city, r.season) != []
    && r.stats == Summarize(Temps(SeasonGroup(rows, city, r.season)))
  }

  /** The profile row of one (city, season) key: none when the group is empty. */
  function GroupRow(rows: seq<Obs>, city: string, s: Season): (p: seq<SeasonRow>)
    ensures |p| <= 1
    ensures p != [] <==> SeasonGroup(rows, city, s) != []
    ensures forall i :: 0 <= i < |p| ==> p[i].season == s && Describes(p[i], rows, city)
  {
    var g := SeasonGroup(rows, city, s);
    if g == [] then [] else [SeasonRow(city, s, Summarize(Temps(g)))]
  }

  /** The seasons of some profile rows. */
  function SeasonsOf(p: seq<SeasonRow>): set<Season>
  {
    set i | 0 <= i < |p| :: p[i].season
  }

  /** The seasons that occur among the rows of the city. */
  function SeasonsIn(rows: seq<Obs>, city: string): set<Season>
  {
    set o | o in rows && o.city == city :: o.season
  }

  /** The grouping keys in the order pandas sorts them: "autumn" < "spring" < "summer" < "winter". */
  const SortedSeasons: seq<Season> := [Autumn, Spring, Summer, Winter]

  /** Keys listed in strictly increasing sort order. */
  predicate Ascending(keys: seq<Season>)
  {
    forall i, j :: 0 <= i < j < |keys| ==> SortRank(keys[i]) < SortRank(keys[j])
  }

  /** The profile rows of the given keys, key by key. */
  function Groups(rows: seq<Obs>, city: string, keys: seq<Season>): (p: seq<SeasonRow>)
    ensures |p| <= |keys|
  {
    if keys == [] then [] else GroupRow(rows, city, keys[0]) + Groups(rows, city, keys[1..])
  }

  /**
   * `seasons_profile` for the rows of one city (`groupby(['city',
   * 'season'])` with pandas' default sorting of the keys).
   */
  function SeasonProfile(rows: seq<Obs>, city: string): (p: seq<SeasonRow>)
    ensures |p| <= 4
  {
    Groups(rows, city, SortedSeasons)
  }

  /** Every row of the groups of some keys holds the aggregates of exactly its own season's rows. */
  lemma {:induction false} GroupsDescribe(rows: seq<Obs>, city: string, keys: seq<Season>, i: nat)
    requires i < |Groups(rows, city, keys)|
    ensures Describes(Groups(rows, city, keys)[i], rows, city)
  {
    var g := GroupRow(rows, city, keys[0]);
    if i >= |g| {
      GroupsDescribe(rows, city, keys[1..], i - |g|);
    }
  }

  /** Profile rows in strictly increasing key order: no season twice, sorted as pandas sorts. */
  predicate RowsAscending(p: seq<SeasonRow>)
  {
    forall i, j :: 0 <= i < j < |p| ==> SortRank(p[i].season) < SortRank(p[j].season)
  }

  /** Every row of p sorts after season s. */
  predicate RowsAfter(p: seq<SeasonRow>, s: Season)
  {
    forall i :: 0 <= i < |p| ==> SortRank(s) < SortRank(p[i].season)
  }

  /** Every key sorts after season s. */
  predicate KeysAfter(keys: seq<Season>, s: Season)
  {
    forall i :: 0 <= i < |keys| ==> SortRank(s) < SortRank(keys[i])
  }

  /** Groups of keys that sort after s have rows that sort after s. */
  lemma {:induction false} GroupsAfter(rows: seq<Obs>, city: string, keys: seq<Season>, s: Season)
    requires KeysAfter(keys, s)
    ensures RowsAfter(Groups(rows, city, keys), s)
  {
    if keys != [] {
      var g, rest := GroupRow(rows, city, keys[0]), Groups(rows, city, keys[1..]);
      assert KeysAfter(keys[1..], s) by {
        forall i | 0 <= i < |keys[1..]|
          ensures SortRank(s) < SortRank(keys[1..][i])
        {
          assert keys[1..][i] == keys[i + 1];
        }
      }
      GroupsAfter(rows, city, keys[1..], s);
      RowsAfterAppend(g, rest, s);
    }
  }

  /** Concatenation keeps "every row sorts after s". */
  lemma RowsAfterAppend(a: seq<SeasonRow>, b: seq<SeasonRow>, s: Season)
    requires RowsAfter(a, s) && RowsAfter(b, s)
    ensures RowsAfter(a + b, s)
  {
    var p := a + b;
    forall i | 0 <= i < |p|
      ensures SortRank(s) < SortRank(p[i].season)
    {
      if i < |a| {
        assert p[i] == a[i];
      } else {
        assert p[i] == b[i - |a|];
      }
    }
  }

  /** A row of season s in front of ascending rows that all sort after s keeps them ascending. */
  lemma AscendingCons(g: seq<SeasonRow>, rest: seq<SeasonRow>, s: Season)
    requires |g| <= 1
    requires forall i :: 0 <= i < |g| ==> g[i].season == s
    requires RowsAfter(rest, s) && RowsAscending(rest)
    ensures RowsAscending(g + rest)
  {
    var p := g + rest;
    forall i, j | 0 <= i < j < |p|
      ensures SortRank(p[i].season) < SortRank(p[j].season)
    {
      assert p[j] == rest[j - |g|];
      if i < |g| {
        assert p[i] == g[i];
      } else {
        assert p[i] == rest[i - |g|];
      }
    }
  }

  /** Ascending keys give profile rows in ascending key order. */
  lemma {:induction false} GroupsAscending(rows: seq<Obs>, city: string, keys: seq<Season>)
    requires Ascending(keys)
    ensures RowsAscending(Groups(rows, city, keys))
  {
    if keys != [] {
      var g, rest := GroupRow(rows, city, keys[0]), Groups(rows, city, keys[1..]);
      assert Ascending(keys[1..]) by {
        forall i, j | 0 <= i < j < |keys[1..]|
          ensures SortRank(keys[1..][i]) < SortRank(keys[1..][j])
        {
          assert keys[1..][i] == keys[i + 1] && keys[1..][j] == keys[j + 1];
        }
      }
      assert KeysAfter(keys[1..], keys[0]) by {
        forall i | 0 <= i < |keys[1..]|
          ensures SortRank(keys[0]) < SortRank(keys[1..][i])
        {
          assert keys[1..][i] == keys[i + 1];
        }
      }
      GroupsAscending(rows, city, keys[1..]);
      GroupsAfter(rows, city, keys[1..], keys[0]);
      AscendingCons(g, rest, keys[0]);
    }
  }

  /** The seasons of the groups of some keys: the keys whose group is not empty. */
  lemma {:induction false} GroupsSeasons(rows: seq<Obs>, city: string, keys: seq<Season>)
    ensures SeasonsOf(Groups(rows, city, keys)) == set s | s in keys && s in SeasonsIn(rows, city)
  {
    if keys != [] {
      var g := GroupRow(rows, city, keys[0]);
      GroupsSeasons(rows, city, keys[1..]);
      SeasonsOfAppend(g, Groups(rows, city, keys[1..]));
      SeasonOccurs(rows, city, keys[0]);
      if g != [] {
        assert g[0].season == keys[0];
      }
      assert keys == [keys[0]] + keys[1..];
    }
  }

  /** Every profile row holds the aggregates of exactly its own season's rows. */
  lemma SeasonProfileStats(rows: seq<Obs>, city: string, i: nat)
    requires i < |SeasonProfile(rows, city)|
    ensures SeasonProfile(rows, city)[i].city == city
    ensures Describes(SeasonProfile(rows, city)[i], rows, city)
  {
    GroupsDescribe(rows, city, SortedSeasons, i);
  }

  /** Every profile row carries the city. */
  lemma SeasonProfileCity(rows: seq<Obs>, city: string)
    ensures forall i :: 0 <= i < |SeasonProfile(rows, city)| ==> SeasonProfile(rows, city)[i].city == city
  {
    forall i | 0 <= i < |SeasonProfile(rows, city)|
      ensures SeasonProfile(rows, city)[i].city == city
    {
      GroupsDescribe(rows, city, SortedSeasons, i);
    }
  }

  /** When every row of season s reads c, so does every row of the group of s. */
  lemma GroupTempsConstant(rows: seq<Obs>, city: string, s: Season, c: real)
    requires forall i :: 0 <= i < |rows| && rows[i].season == s ==> rows[i].temp == c
    ensures forall k :: 0 <= k < |Temps(SeasonGroup(rows, city, s))| ==> Temps(SeasonGroup(rows, city, s))[k] == c
  {
    var g := SeasonGroup(rows, city, s);
    forall k | 0 <= k < |g|
      ensures g[k].temp == c
    {
      SeasonGroupMembers(rows, city, s, g[k]);
    }
  }

  /**
   * The season profile of the rows of one city: at most four rows, in
   * pandas' key order, one for each season that occurs and no other, each
   * with the aggregates of exactly that season's rows.
   */
  lemma SeasonTable(rows: seq<Obs>, city: string)
    ensures var p := SeasonProfile(rows, city);
      |p| <= 4 && RowsAscending(p) && SeasonsOf(p) == SeasonsIn(rows, city)
      && forall i :: 0 <= i < |p| ==> Describes(p[i], rows, city)
  {
    SeasonProfileSorted(rows, city);
    SeasonProfileKeys(rows, city);
    forall i | 0 <= i < |SeasonProfile(rows, city)|
      ensures Describes(SeasonProfile(rows, city)[i], rows, city)
    {
      SeasonProfileStats(rows, city, i);
    }
  }

  /** The profile rows come in pandas' key order, so no season appears twice. */
  lemma SeasonProfileSorted(rows: seq<Obs>, city: string)
    ensures RowsAscending(SeasonProfile(rows, city))
  {
    assert forall i :: 0 <= i < |SortedSeasons| ==> SortRank(SortedSeasons[i]) == i;
    assert Ascending(SortedSeasons);
    GroupsAscending(rows, city, SortedSeasons);
  }

  /** One profile row for each season of the city's rows, and no other. */
  lemma SeasonProfileKeys(rows: seq<Obs>, city: string)
    ensures SeasonsOf(SeasonProfile(rows, city)) == SeasonsIn(rows, city)
  {
    GroupsSeasons(rows, city, SortedSeasons);
    forall s | s in SeasonsIn(rows, city)
      ensures s in SortedSeasons
    {
      match s
      case Autumn =>
      case Spring =>
      case Summer =>
      case Winter =>
    }
  }

  /** The seasons of concatenated profile rows are the union of their seasons. */
  lemma SeasonsOfAppend(a: seq<SeasonRow>, b: seq<SeasonRow>)
    ensures SeasonsOf(a + b) == SeasonsOf(a) + SeasonsOf(b)
  {
    var p := a + b;
    forall s | s in SeasonsOf(a)
      ensures s in SeasonsOf(p)
    {
      var i :| 0 <= i < |a| && a[i].season == s;
      assert p[i] == a[i];
    }
    forall s | s in SeasonsOf(b)
      ensures s in SeasonsOf(p)
    {
      var i :| 0 <= i < |b| && b[i].season == s;
      assert p[|a| + i] == b[i];
    }
  }

  /** A season has a group exactly when some row of the city carries it. */
  lemma SeasonOccurs(rows: seq<Obs>, city: string, s: Season)
    ensures SeasonGroup(rows, city, s) != [] <==> s in SeasonsIn(rows, city)
  {
    if SeasonGroup(rows, city, s) != [] {
      var o := SeasonGroup(rows, city, s)[0];
      SeasonGroupMembers(rows, city, s, o);
    }
    if s in SeasonsIn(rows, city) {
      var o :| o in rows && o.city == city && o.season == s;
      SeasonGroupMembers(rows, city, s, o);
    }
  }

  /** One row of `city_profile`. */
  datatype CityRow = CityRow(city: string, stats: Aggregate)

  /**
   * `city_profile` for the rows of one city: a single row with the
   * aggregates of all its rows, or no row when it has none.
   */
  function CityProfile(rows: seq<Obs>, city: string): (p: seq<CityRow>)
    ensures |p| <= 1
    ensures p != [] <==> OfCity(rows, city) != []
    ensures forall i :: 0 <= i < |p| ==>
      p[i].city == city && OfCity(rows, city) != [] && p[i].stats == Summarize(Temps(OfCity(rows, city)))
  {
    var g := OfCity(rows, city);
    if g == [] then [] else [CityRow(city, Summarize(Temps(g)))]
  }
}
