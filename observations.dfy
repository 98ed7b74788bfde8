/**
 * The rows of the temperature table and the row filters the pipeline
 * applies to them.
 */
module Observations {

  /** The four labels of the `season` column. */
  datatype Season = Winter | Spring | Summer | Autumn

  /**
   * Position of a season among grouping keys. pandas sorts the string
   * labels, and "autumn" < "spring" < "summer" < "winter".
   */
  function SortRank(s: Season): (r: nat)
    ensures r < 4
  {
    match s
    case Autumn => 0
    case Spring => 1
    case Summer => 2
    case Winter => 3
  }

  /**
   * One row of the input table. `ts` is the timestamp after
   * `astype('int')`: an integer count of nanoseconds.
   */
  datatype Obs = Obs(city: string, ts: int, temp: real, season: Season)

  /** The temperature column. */
  function Temps(rows: seq<Obs>): (t: seq<real>)
    ensures |t| == |rows|
  {
    seq(|rows|, i requires 0 <= i < |rows| => rows[i].temp)
  }

  /** `data[data['city'] == city]`: the rows of one city, in their order. */
  function OfCity(rows: seq<Obs>, city: string): (r: seq<Obs>)
    ensures |r| <= |rows|
  {
    if rows == [] then []
    else (if rows[0].city == city then [rows[0]] else []) + OfCity(rows[1..], city)
  }

  /** A row passes the city filter exactly when it is in the table and carries the city. */
  lemma {:induction false} OfCityMembers(rows: seq<Obs>, city: string, o: Obs)
    ensures o in OfCity(rows, city) <==> o in rows && o.city == city
  {
    if rows != [] {
      OfCityMembers(rows[1..], city, o);
      assert rows == [rows[0]] + rows[1..];
    }
  }

  /** The rows of one season, in their order. */
  function OfSeason(rows: seq<Obs>, season: Season): (r: seq<Obs>)
    ensures |r| <= |rows|
  {
    if rows == [] then []
    else (if rows[0].season == season then [rows[0]] else []) + OfSeason(rows[1..], season)
  }

  /** A row passes the season filter exactly when it is in the table and carries the season. */
  lemma {:induction false} OfSeasonMembers(rows: seq<Obs>, season: Season, o: Obs)
    ensures o in OfSeason(rows, season) <==> o in rows && o.season == season
  {
    if rows != [] {
      OfSeasonMembers(rows[1..], season, o);
      assert rows == [rows[0]] + rows[1..];
    }
  }

  /** Every row that passes the city filter carries the city. */
  lemma OfCityCity(rows: seq<Obs>, city: string)
    ensures forall i :: 0 <= i < |OfCity(rows, city)| ==> OfCity(rows, city)[i].city == city
  {
    var r := OfCity(rows, city);
    forall i | 0 <= i < |r|
      ensures r[i].city == city
    {
      OfCityMembers(rows, city, r[i]);
    }
  }

  /** The city filter keeps order: it distributes over concatenation. */
  lemma {:induction false} OfCityAppend(a: seq<Obs>, b: seq<Obs>, city: string)
    ensures OfCity(a + b, city) == OfCity(a, city) + OfCity(b, city)
  {
    if a != [] {
      assert (a + b)[1..] == a[1..] + b;
      OfCityAppend(a[1..], b, city);
    } else {
      assert a + b == b;
    }
  }

  /** Rows that all belong to the city pass the filter unchanged. */
  lemma {:induction false} OfCityAll(rows: seq<Obs>, city: string)
    requires forall i :: 0 <= i < |rows| ==> rows[i].city == city
    ensures OfCity(rows, city) == rows
  {
    if rows != [] {
      OfCityAll(rows[1..], city);
    }
  }
}
