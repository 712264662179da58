/** The client's airport autocomplete: a case-insensitive substring search
    over the airport table, cut to a limit, and a lookup by IATA code.  The
    table is a parameter; its rows are not part of this model. */
module AirportSearch {
  import opened Models
  import opened Text

  /** The search's limit when the caller gives none. */
  const DefaultSearchLimit := 10

  /** Queries shorter than this return nothing. */
  const MinQueryLength := 2

  /** The airport's code, name, city or country contains the (lower-case)
      query, ignoring case. */
  predicate MatchesQuery(a: Airport, lowerQuery: string) {
    || Contains(Lower(a.iata), lowerQuery)
    || Contains(Lower(a.name), lowerQuery)
    || Contains(Lower(a.city), lowerQuery)
    || Contains(Lower(a.country), lowerQuery)
  }

  /** The matching airports, in table order. */
  function Matches(table: seq<Airport>, lowerQuery: string): (r: seq<Airport>)
    ensures |r| <= |table|
    decreases |table|
  {
    if table == [] then []
    else if MatchesQuery(table[0], lowerQuery) then [table[0]] + Matches(table[1..], lowerQuery)
    else Matches(table[1..], lowerQuery)
  }

  /** `r` is `s` with some elements dropped, the rest in their order. */
  predicate IsSubsequence(r: seq<Airport>, s: seq<Airport>)
    decreases |s|
  {
    if r == [] then true
    else if s == [] then false
    else if r[0] == s[0] then IsSubsequence(r[1..], s[1..])
    else IsSubsequence(r, s[1..])
  }

  /** The end index of JavaScript's `slice(0, limit)` on a list of length
      `n`: a negative limit counts back from the end. */
  function SliceEnd(n: nat, limit: int): (e: nat)
    ensures e <= n
    ensures limit >= 0 ==> e == (if limit <= n then limit else n)
    ensures limit < 0 ==> e == (if n + limit >= 0 then n + limit else 0)
  {
    if limit >= 0 then (if limit <= n then limit else n)
    else if n + limit >= 0 then n + limit
    else 0
  }

  /** Search the table: nothing for a query of fewer than two characters,
      else the first matches up to the limit. */
  function SearchAirports(table: seq<Airport>, query: string, limit: int): (r: seq<Airport>)
    ensures |query| < MinQueryLength ==> r == []
    ensures |query| >= MinQueryLength ==>
      var all := Matches(table, Lower(query));
      |r| == SliceEnd(|all|, limit) && r == all[..|r|]
  {
    if |query| < MinQueryLength then []
    else
      var all := Matches(table, Lower(query));
      all[..SliceEnd(|all|, limit)]
  }

  /** The matches are exactly the table's airports that match, in table order. */
  lemma {:induction false} MatchesIsFilter(table: seq<Airport>, lowerQuery: string)
    ensures forall a :: a in Matches(table, lowerQuery) <==> a in table && MatchesQuery(a, lowerQuery)
    ensures IsSubsequence(Matches(table, lowerQuery), table)
    decreases |table|
  {
    if table != [] {
      MatchesIsFilter(table[1..], lowerQuery);
      assert table == [table[0]] + table[1..];
    }
  }

  /** A prefix of a subsequence is a subsequence. */
  lemma {:induction false} PrefixOfSubsequence(r: seq<Airport>, s: seq<Airport>, n: nat)
    requires n <= |r| && IsSubsequence(r, s)
    ensures IsSubsequence(r[..n], s)
    decreases |s|
  {
    if n > 0 && s != [] {
      if r[0] == s[0] {
        PrefixOfSubsequence(r[1..], s[1..], n - 1);
        assert r[..n][1..] == r[1..][..n - 1];
      } else {
        PrefixOfSubsequence(r, s[1..], n);
      }
    }
  }

  /** Every result is an airport of the table that matches the query, and the
      results keep the table's order. */
  lemma SearchResultsMatch(table: seq<Airport>, query: string, limit: int)
    ensures var r := SearchAirports(table, query, limit);
      && IsSubsequence(r, table)
      && forall a :: a in r ==> a in table && MatchesQuery(a, Lower(query))
  {
    var r := SearchAirports(table, query, limit);
    var all := Matches(table, Lower(query));
    MatchesIsFilter(table, Lower(query));
    if |query| >= MinQueryLength {
      PrefixOfSubsequence(all, table, |r|);
      forall a | a in r ensures a in all {
        var i :| 0 <= i < |r| && r[i] == a;
        assert all[i] == a;
      }
    }
  }

  /** A non-negative limit bounds the results; when fewer than `limit` come
      back, every matching airport of the table is among them. */
  lemma SearchWithinLimit(table: seq<Airport>, query: string, limit: int)
    requires limit >= 0
    ensures var r := SearchAirports(table, query, limit);
      && |r| <= limit
      && (|query| >= MinQueryLength && |r| < limit ==>
            forall a :: a in table && MatchesQuery(a, Lower(query)) ==> a in r)
  {
    var r := SearchAirports(table, query, limit);
    if |query| >= MinQueryLength && |r| < limit {
      var all := Matches(table, Lower(query));
      MatchesIsFilter(table, Lower(query));
      assert r == all;
    }
  }

  /** With the default limit the search box shows at most ten airports, and
      fewer only when every matching airport of the table is shown. */
  lemma DefaultSearchShowsTen(table: seq<Airport>, query: string)
    ensures var r := SearchAirports(table, query, DefaultSearchLimit);
      && |r| <= 10
      && (|query| >= MinQueryLength && |r| < 10 ==>
            forall a :: a in table && MatchesQuery(a, Lower(query)) ==> a in r)
  {
    SearchWithinLimit(table, query, DefaultSearchLimit);
  }

  /** The first airport whose code equals `iata` ignoring case, if any. */
  function GetAirportByIata(table: seq<Airport>, iata: string): (r: Option<Airport>)
    ensures r.None? <==> forall a :: a in table ==> Upper(a.iata) != Upper(iata)
    ensures r.Some? ==> Upper(r.value.iata) == Upper(iata)
    ensures r.Some? ==>
      exists i :: (0 <= i < |table| && table[i] == r.value &&
                   forall j :: 0 <= j < i ==> Upper(table[j].iata) != Upper(iata))
    decreases |table|
  {
    if table == [] then None
    else if Upper(table[0].iata) == Upper(iata) then Some(table[0])
    else
      var rest := GetAirportByIata(table[1..], iata);
      assert forall a :: a in table ==> a == table[0] || a in table[1..];
      if rest.Some? then
        var i :| (0 <= i < |table[1..]| && table[1..][i] == rest.value &&
                  forall j :: 0 <= j < i ==> Upper(table[1..][j].iata) != Upper(iata));
        assert table[i + 1] == rest.value;
        assert forall j :: 1 <= j < i + 1 ==> table[j] == table[1..][j - 1];
        rest
      else rest
  }

  /** The lookup ignores the case of its argument. */
  lemma LookupIgnoresCase(table: seq<Airport>, iata: string)
    ensures GetAirportByIata(table, iata) == GetAirportByIata(table, Upper(iata))
    ensures GetAirportByIata(table, iata) == GetAirportByIata(table, Lower(iata))
  {
    assert Upper(Upper(iata)) == Upper(iata);
    assert Upper(Lower(iata)) == Upper(iata);
    LookupDependsOnUpper(table, iata, Upper(iata));
    LookupDependsOnUpper(table, iata, Lower(iata));
  }

  lemma {:induction false} LookupDependsOnUpper(table: seq<Airport>, x: string, y: string)
    requires Upper(x) == Upper(y)
    ensures GetAirportByIata(table, x) == GetAirportByIata(table, y)
    decreases |table|
  {
    if table != [] {
      LookupDependsOnUpper(table[1..], x, y);
    }
  }
}
