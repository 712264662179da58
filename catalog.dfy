/** The flight catalog: the current flight snapshot, the static airport table
    keyed by IATA code, the difficulty filter, random sampling with its
    fallbacks, enrichment of provider flights from the airport table, and the
    two string routines that guess a city from an airport name. */
module Catalog {
  import opened Models
  import opened Text
  import opened Geo

  // ---------------------------------------------------------------------------
  // City extraction from an airport name

  const CitySuffixes: seq<string> := [" International", " Airport", " Intl", " Regional", " Municipal"]

  /** Cut `name` at the first occurrence of `suffix`, but only when that
      occurrence does not start the name. */
  function CutAt(name: string, suffix: string): string {
    var idx := FirstIndex(name, suffix);
    if idx > 0 then name[..idx] else name
  }

  /** Apply `CutAt` for each suffix in turn. */
  function CutAll(name: string, suffixes: seq<string>): string
    decreases |suffixes|
  {
    if suffixes == [] then name else CutAll(CutAt(name, suffixes[0]), suffixes[1..])
  }

  /** The city the server derives from an airport name. */
  function CityOf(name: string): (r: string)
    ensures r <= name
  {
    CutAllIsPrefix(name, CitySuffixes);
    CutAll(name, CitySuffixes)
  }

  /** The first index of `sub` in `s`, or -1, by a left-to-right scan. */
  method IndexOfStr(s: string, sub: string) returns (r: int)
    ensures r == FirstIndex(s, sub)
    ensures r >= 0 ==> OccursAt(s, sub, r) && forall j :: 0 <= j < r ==> !OccursAt(s, sub, j)
    ensures r == -1 <==> forall j :: !OccursAt(s, sub, j)
  {
    var i := 0;
    while i <= |s| - |sub|
      invariant 0 <= i
      invariant forall j :: 0 <= j < i ==> !OccursAt(s, sub, j)
    {
      if s[i..i + |sub|] == sub {
        assert OccursAt(s, sub, i);
        return i;
      }
      i := i + 1;
    }
    return -1;
  }

  /** The name with the first of each known airport suffix (and what follows)
      removed, suffix by suffix. */
  method ExtractCityFromAirportName(name: string) returns (result: string)
    ensures result == CityOf(name)
  {
    result := name;
    var k := 0;
    while k < |CitySuffixes|
      invariant 0 <= k <= |CitySuffixes|
      invariant CutAll(result, CitySuffixes[k..]) == CityOf(name)
    {
      assert CitySuffixes[k..][1..] == CitySuffixes[k + 1..];
      var idx := IndexOfStr(result, CitySuffixes[k]);
      if idx > 0 {
        result := result[..idx];
      }
      k := k + 1;
    }
  }

  lemma {:induction false} CutAllIsPrefix(name: string, suffixes: seq<string>)
    ensures CutAll(name, suffixes) <= name
    ensures (forall k :: 0 <= k < |suffixes| ==> FirstIndex(name, suffixes[k]) <= 0) ==> CutAll(name, suffixes) == name
    decreases |suffixes|
  {
    if suffixes != [] {
      CutAllIsPrefix(CutAt(name, suffixes[0]), suffixes[1..]);
      if forall k :: 0 <= k < |suffixes| ==> FirstIndex(name, suffixes[k]) <= 0 {
        assert CutAt(name, suffixes[0]) == name;
        forall k | 0 <= k < |suffixes[1..]| ensures FirstIndex(name, suffixes[1..][k]) <= 0 {
          assert suffixes[1..][k] == suffixes[k + 1];
        }
      }
    }
  }

  /** The derived city is always a prefix of the name, and is the whole name
      when no suffix occurs past its first character. */
  lemma CityOfIsPrefix(name: string)
    ensures CityOf(name) <= name
    ensures (forall k :: 0 <= k < |CitySuffixes| ==> FirstIndex(name, CitySuffixes[k]) <= 0) ==> CityOf(name) == name
  {
    CutAllIsPrefix(name, CitySuffixes);
  }

  /** If a string's first occurrence of `sub` is at 0 or nowhere, the same holds
      of each of its prefixes. */
  lemma PrefixKeepsNoLateOccurrence(p: string, s: string, sub: string)
    requires p <= s && FirstIndex(s, sub) <= 0
    ensures FirstIndex(p, sub) <= 0
  {
    var i := FirstIndex(p, sub);
    if i > 0 {
      OccursInPrefix(p, s, sub, i);
      assert false;
    }
  }

  /** After a cut at `sub`, `sub` occurs at most at index 0. */
  lemma CutAtSettles(name: string, sub: string)
    ensures FirstIndex(CutAt(name, sub), sub) <= 0
  {
    var idx := FirstIndex(name, sub);
    if idx > 0 {
      var r := name[..idx];
      var i := FirstIndex(r, sub);
      if i >= 0 {
        OccursInPrefix(r, name, sub, i);
        assert false;
      }
    }
  }

  lemma {:induction false} CutAllSettles(name: string, suffixes: seq<string>)
    ensures forall k :: 0 <= k < |suffixes| ==> FirstIndex(CutAll(name, suffixes), suffixes[k]) <= 0
    decreases |suffixes|
  {
    if suffixes != [] {
      var cut := CutAt(name, suffixes[0]);
      CutAllSettles(cut, suffixes[1..]);
      CutAtSettles(name, suffixes[0]);
      CutAllIsPrefix(cut, suffixes[1..]);
      PrefixKeepsNoLateOccurrence(CutAll(cut, suffixes[1..]), cut, suffixes[0]);
      forall k | 1 <= k < |suffixes|
        ensures FirstIndex(CutAll(name, suffixes), suffixes[k]) <= 0
      {
        assert suffixes[k] == suffixes[1..][k - 1];
      }
    }
  }

  /** Deriving the city twice gives the same city as deriving it once. */
  lemma CityOfIdempotent(name: string)
    ensures CityOf(CityOf(name)) == CityOf(name)
  {
    CutAllSettles(name, CitySuffixes);
    CutAllIsPrefix(CityOf(name), CitySuffixes);
  }

  // ---------------------------------------------------------------------------
  // The airport table

  /** Insert the airports of `table` in order, each under its IATA code; a
      later row with the same code replaces an earlier one. */
  function IndexInto(m: map<string, Airport>, table: seq<Airport>): map<string, Airport>
    decreases |table|
  {
    if table == [] then m else IndexInto(m[table[0].iata := table[0]], table[1..])
  }

  function AirportIndex(table: seq<Airport>): map<string, Airport> {
    IndexInto(map[], table)
  }

  lemma {:induction false} IndexIntoLookup(m: map<string, Airport>, table: seq<Airport>, code: string)
    ensures code in IndexInto(m, table) <==> code in m || exists i :: 0 <= i < |table| && table[i].iata == code
    ensures (exists i :: 0 <= i < |table| && table[i].iata == code) ==>
      exists i :: 0 <= i < |table| && table[i] == IndexInto(m, table)[code] && table[i].iata == code &&
        forall j :: i < j < |table| ==> table[j].iata != code
    ensures (forall i :: 0 <= i < |table| ==> table[i].iata != code) && code in m ==> IndexInto(m, table)[code] == m[code]
    decreases |table|
  {
    if table != [] {
      var m' := m[table[0].iata := table[0]];
      IndexIntoLookup(m', table[1..], code);
      if exists i :: 0 <= i < |table[1..]| && table[1..][i].iata == code {
        var i :| 0 <= i < |table[1..]| && table[1..][i] == IndexInto(m', table[1..])[code] && table[1..][i].iata == code &&
          forall j :: i < j < |table[1..]| ==> table[1..][j].iata != code;
        assert table[i + 1] == IndexInto(m, table)[code];
        forall j | i + 1 < j < |table| ensures table[j].iata != code {
          assert table[j] == table[1..][j - 1];
        }
      } else if table[0].iata == code {
        assert forall j :: 0 < j < |table| ==> table[j] == table[1..][j - 1];
      }
      if exists i :: 0 <= i < |table| && table[i].iata == code {
        var i :| 0 <= i < |table| && table[i].iata == code;
        if i > 0 {
          assert table[1..][i - 1].iata == code;
        }
      }
    }
  }

  /** A code is in the airport index exactly when some row of the table has it;
      the indexed airport is the last such row, so it carries that code. */
  lemma AirportIndexLookup(table: seq<Airport>, code: string)
    ensures code in AirportIndex(table) <==> exists i :: 0 <= i < |table| && table[i].iata == code
    ensures code in AirportIndex(table) ==>
      AirportIndex(table)[code].iata == code &&
      exists i :: 0 <= i < |table| && table[i] == AirportIndex(table)[code] &&
        forall j :: i < j < |table| ==> table[j].iata != code
  {
    IndexIntoLookup(map[], table, code);
  }

  // ---------------------------------------------------------------------------
  // Difficulty filter

  /** Easy keeps domestic flights, medium flights of at most 5000 km, and hard
      or any other difficulty keeps every flight. */
  predicate MatchesDifficulty(f: Flight, d: Difficulty, dist: DistanceFn): (r: bool)
    // Hard (and any unrecognised difficulty) accepts every flight; a domestic
    // flight of at most 5000 km is accepted at every difficulty.
    ensures d != Easy && d != Medium ==> r
    ensures (f.departure.country == f.arrival.country &&
             dist(f.departure.latitude, f.departure.longitude, f.arrival.latitude, f.arrival.longitude) <= 5000.0) ==> r
  {
    if d == Easy then f.departure.country == f.arrival.country
    else if d == Medium then
      dist(f.departure.latitude, f.departure.longitude, f.arrival.latitude, f.arrival.longitude) <= 5000.0
    else true
  }

  /** The flights of `fs` that match, in their order. */
  function Matching(fs: seq<Flight>, d: Difficulty, dist: DistanceFn): seq<Flight>
    decreases |fs|
  {
    if fs == [] then []
    else if MatchesDifficulty(fs[0], d, dist) then [fs[0]] + Matching(fs[1..], d, dist)
    else Matching(fs[1..], d, dist)
  }

  /** A flight is in the filtered list exactly when it is in the catalog and
      matches; the filtered list is never longer than the catalog. */
  lemma {:induction false} MatchingMembers(fs: seq<Flight>, d: Difficulty, dist: DistanceFn)
    ensures forall f :: f in Matching(fs, d, dist) <==> f in fs && MatchesDifficulty(f, d, dist)
    ensures |Matching(fs, d, dist)| <= |fs|
    decreases |fs|
  {
    if fs != [] {
      MatchingMembers(fs[1..], d, dist);
      assert fs == [fs[0]] + fs[1..];
    }
  }

  /** Hard, and any difficulty the server does not know, filter nothing out. */
  lemma {:induction false} MatchingUnfiltered(fs: seq<Flight>, d: Difficulty, dist: DistanceFn)
    requires d != Easy && d != Medium
    ensures Matching(fs, d, dist) == fs
    decreases |fs|
  {
    if fs != [] {
      MatchingUnfiltered(fs[1..], d, dist);
      assert fs == [fs[0]] + fs[1..];
    }
  }

  // ---------------------------------------------------------------------------
  // Enrichment from the airport table

  /** One provider flight after enrichment: known departure and arrival codes
      are replaced by the table's airport; an unknown arrival without a city
      gets one derived from its name; when the departure has coordinates, the
      shown position, heading and telemetry are drawn around it. */
  function Enriched(f: Flight, airports: map<string, Airport>, j: Jitter, bearing: BearingFn): Flight {
    var dep := if f.departure.iata in airports then airports[f.departure.iata] else f.departure;
    var arr :=
      if f.arrival.iata in airports then airports[f.arrival.iata]
      else if f.arrival.city == "" && f.arrival.name != "" then f.arrival.(city := CityOf(f.arrival.name))
      else f.arrival;
    var placed := f.(departure := dep, arrival := arr);
    if dep.latitude != 0.0 || dep.longitude != 0.0 then
      var target := HeadingTarget(dep.latitude, dep.longitude, arr.latitude, arr.longitude);
      var lat := dep.latitude + j.offsetLat;
      var lon := dep.longitude + j.offsetLon;
      placed.(latitude := lat, longitude := lon, direction := bearing(lat, lon, target.0, target.1),
              altitude := j.altitude, speed := j.speed, verticalSpeed := j.verticalSpeed)
    else placed
  }

  function EnrichedAll(fs: seq<Flight>, airports: map<string, Airport>, jitters: nat -> Jitter, bearing: BearingFn): seq<Flight> {
    seq(|fs|, i requires 0 <= i < |fs| => Enriched(fs[i], airports, jitters(i), bearing))
  }

  /** What enrichment does to the airports of a flight, and what it leaves alone. */
  lemma EnrichedAirports(f: Flight, airports: map<string, Airport>, j: Jitter, bearing: BearingFn)
    ensures var e := Enriched(f, airports, j, bearing);
      && (f.departure.iata in airports ==> e.departure == airports[f.departure.iata])
      && (f.departure.iata !in airports ==> e.departure == f.departure)
      && (f.arrival.iata in airports ==> e.arrival == airports[f.arrival.iata])
      && (f.arrival.iata !in airports && f.arrival.city == "" && f.arrival.name != "" ==>
            e.arrival == f.arrival.(city := CityOf(f.arrival.name)) && e.arrival.city <= f.arrival.name)
      && (f.arrival.iata !in airports && (f.arrival.city != "" || f.arrival.name == "") ==> e.arrival == f.arrival)
  {
    CityOfIsPrefix(f.arrival.name);
  }

  /** Enrichment keeps the flight's identity, and moves it only when its
      departure airport has coordinates. */
  lemma EnrichedKeepsIdentity(f: Flight, airports: map<string, Airport>, j: Jitter, bearing: BearingFn)
    ensures var e := Enriched(f, airports, j, bearing);
      && e.id == f.id && e.flightNumber == f.flightNumber && e.callsign == f.callsign && e.airline == f.airline
      && (e.departure.latitude == 0.0 && e.departure.longitude == 0.0 ==>
            e.latitude == f.latitude && e.longitude == f.longitude && e.altitude == f.altitude)
  {
  }

  // ---------------------------------------------------------------------------
  // The catalog object

  /** What a reload attempt obtains: the cached snapshot (empty when the cache
      is missing, failing or empty), the provider's flights (None when the
      fetch failed) and the random draws used to enrich them. */
  datatype Reload = Reload(cached: seq<Flight>, fetched: Option<seq<Flight>>, jitters: nat -> Jitter)

  /** The catalog after `loadInitialFlights`: a non-empty cached snapshot wins,
      otherwise the enriched provider flights, otherwise nothing changes. */
  function AfterLoad(current: seq<Flight>, reload: Reload, airports: map<string, Airport>, bearing: BearingFn): seq<Flight> {
    if |reload.cached| > 0 then reload.cached
    else if reload.fetched.Some? then EnrichedAll(reload.fetched.value, airports, reload.jitters, bearing)
    else current
  }

  /** The pool a random sample is drawn from: the matching flights, else the
      whole catalog, else the catalog after one reload. */
  function SamplePool(before: seq<Flight>, reloaded: seq<Flight>, d: Difficulty, dist: DistanceFn): seq<Flight> {
    var m := Matching(before, d, dist);
    if m != [] then m else if before != [] then before else reloaded
  }

  function Min(a: int, b: int): int {
    if a <= b then a else b
  }

  /** Fisher-Yates shuffle in place; `rng(i)` stands for the random draw below `i + 1`. */
  method Shuffle(a: array<Flight>, rng: nat -> nat)
    modifies a
    ensures multiset(a[..]) == multiset(old(a[..]))
  {
    var i := a.Length - 1;
    while i > 0
      invariant -1 <= i < a.Length || (a.Length == 0 && i == -1)
      invariant multiset(a[..]) == multiset(old(a[..]))
    {
      var j := rng(i) % (i + 1);
      a[i], a[j] := a[j], a[i];
      i := i - 1;
    }
  }

  class FlightService {
    var flights: seq<Flight>
    var airports: map<string, Airport>

    /** A new catalog: the airport table is indexed and the first snapshot is loaded. */
    constructor (table: seq<Airport>, reload: Reload, bearing: BearingFn)
      ensures airports == AirportIndex(table)
      ensures flights == AfterLoad([], reload, airports, bearing)
    {
      flights := [];
      airports := map[];
      new;
      InitializeAirports(table);
      LoadInitialFlights(reload, bearing);
    }

    method InitializeAirports(table: seq<Airport>)
      modifies this
      ensures airports == IndexInto(old(airports), table)
      ensures flights == old(flights)
    {
      var k := 0;
      while k < |table|
        invariant 0 <= k <= |table|
        invariant IndexInto(airports, table[k..]) == IndexInto(old(airports), table)
        invariant flights == old(flights)
      {
        assert table[k..][1..] == table[k + 1..];
        airports := airports[table[k].iata := table[k]];
        k := k + 1;
      }
    }

    /** Replace the whole snapshot. */
    method UpdateFlights(fs: seq<Flight>)
      modifies this
      ensures flights == fs && airports == old(airports)
    {
      flights := fs;
    }

    method GetAirport(iata: string) returns (airport: Airport, ok: bool)
      ensures ok <==> iata in airports
      ensures airport == if ok then airports[iata] else NoAirport
    {
      if iata in airports {
        return airports[iata], true;
      }
      return NoAirport, false;
    }

    /** Enrich one flight: airports from the table (or the city from the
        arrival's name), then a position around the departure airport. */
    method EnrichOne(f0: Flight, j: Jitter, bearing: BearingFn) returns (f: Flight)
      ensures f == Enriched(f0, airports, j, bearing)
    {
      f := f0;
      var dep, depOk := GetAirport(f.departure.iata);
      if depOk {
        f := f.(departure := dep);
      }
      var arr, arrOk := GetAirport(f.arrival.iata);
      if arrOk {
        f := f.(arrival := arr);
      } else if f.arrival.city == "" && f.arrival.name != "" {
        var city := ExtractCityFromAirportName(f.arrival.name);
        f := f.(arrival := f.arrival.(city := city));
      }
      if f.departure.latitude != 0.0 || f.departure.longitude != 0.0 {
        var target := HeadingTarget(f.departure.latitude, f.departure.longitude, f.arrival.latitude, f.arrival.longitude);
        var lat := f.departure.latitude + j.offsetLat;
        var lon := f.departure.longitude + j.offsetLon;
        f := f.(latitude := lat, longitude := lon, direction := bearing(lat, lon, target.0, target.1),
                altitude := j.altitude, speed := j.speed, verticalSpeed := j.verticalSpeed);
      }
    }

    /** Enrich each flight of `a` in place from the airport table. */
    method EnrichFlights(a: array<Flight>, jitters: nat -> Jitter, bearing: BearingFn)
      modifies a
      ensures forall i :: 0 <= i < a.Length ==> a[i] == Enriched(old(a[i]), airports, jitters(i), bearing)
    {
      for i := 0 to a.Length
        invariant forall k :: 0 <= k < i ==> a[k] == Enriched(old(a[k]), airports, jitters(k), bearing)
        invariant forall k :: i <= k < a.Length ==> a[k] == old(a[k])
      {
        a[i] := EnrichOne(a[i], jitters(i), bearing);
      }
    }

    /** Load a snapshot from the cache or, failing that, from the provider. */
    method LoadInitialFlights(reload: Reload, bearing: BearingFn)
      modifies this
      ensures flights == AfterLoad(old(flights), reload, airports, bearing)
      ensures airports == old(airports)
    {
      if |reload.cached| > 0 {
        UpdateFlights(reload.cached);
        return;
      }
      if reload.fetched.None? {
        return;
      }
      var fs := reload.fetched.value;
      var a := new Flight[|fs|](i requires 0 <= i < |fs| => fs[i]);
      EnrichFlights(a, reload.jitters, bearing);
      assert a[..] == EnrichedAll(fs, airports, reload.jitters, bearing);
      UpdateFlights(a[..]);
    }

    /** The catalog flights matching the difficulty, in catalog order. */
    method GetFlights(d: Difficulty, dist: DistanceFn) returns (filtered: seq<Flight>)
      ensures filtered == Matching(flights, d, dist)
    {
      filtered := [];
      var k := 0;
      while k < |flights|
        invariant 0 <= k <= |flights|
        invariant filtered + Matching(flights[k..], d, dist) == Matching(flights, d, dist)
      {
        assert flights[k..][1..] == flights[k + 1..];
        if MatchesDifficulty(flights[k], d, dist) {
          filtered := filtered + [flights[k]];
        }
        k := k + 1;
      }
    }

    /** Up to `n` distinct draws from the pool: some permutation of the pool,
        cut to its first min(n, |pool|) elements; empty only when the catalog
        is still empty after one reload. */
    method GetRandomFlights(d: Difficulty, n: nat, geo: Geometry, reload: Reload, rng: nat -> nat)
      returns (sample: seq<Flight>)
      modifies this
      ensures airports == old(airports)
      ensures flights == if old(flights) == [] then AfterLoad([], reload, airports, geo.bearing) else old(flights)
      ensures var pool := SamplePool(old(flights), flights, d, geo.distanceKm);
        |sample| == Min(n, |pool|) && multiset(sample) <= multiset(pool)
    {
      var pool := GetFlights(d, geo.distanceKm);
      if |pool| == 0 {
        pool := flights;
      }
      if |pool| == 0 {
        LoadInitialFlights(reload, geo.bearing);
        pool := flights;
      }
      if |pool| == 0 {
        return [];
      }
      var a := new Flight[|pool|](i requires 0 <= i < |pool| => pool[i]);
      assert a[..] == pool;
      Shuffle(a, rng);
      var k := Min(n, |pool|);
      assert a[..] == a[..k] + a[k..];
      sample := a[..k];
    }
  }
}
