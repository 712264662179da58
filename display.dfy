/** What the player is shown of a round's flight: a position jittered around
    the departure airport, a heading towards the arrival, cosmetic telemetry,
    and the destination (and more, by difficulty) masked. */
module Display {
  import opened Models
  import opened Geo
  import CityFacts

  /** The centre used when the departure airport has no coordinates. */
  const DefaultLat: real := 40.0
  const DefaultLon: real := -74.0

  const HiddenArrival := Airport("???", "????", "Unknown Destination", "", "", 0.0, 0.0)
  const HiddenDeparture := Airport("???", "????", "Unknown Origin", "", "", 0.0, 0.0)

  /** The point the displayed position is jittered around: the departure
      airport, or (40, -74) when its coordinates are (0, 0). */
  function Centre(f: Flight): (c: (real, real))
    ensures f.departure.latitude == 0.0 && f.departure.longitude == 0.0 ==> c == (DefaultLat, DefaultLon)
    ensures !(f.departure.latitude == 0.0 && f.departure.longitude == 0.0) ==>
      c == (f.departure.latitude, f.departure.longitude)
  {
    if f.departure.latitude == 0.0 && f.departure.longitude == 0.0 then (DefaultLat, DefaultLon)
    else (f.departure.latitude, f.departure.longitude)
  }

  /** The flight as displayed at difficulty `d`, given the random draws `j`
      and the easy-mode `hint` the fact cache produced. */
  function Masked(f: Flight, d: Difficulty, j: Jitter, bearing: BearingFn, hint: string): (r: Flight)
    // The destination is never shown.
    ensures r.arrival == HiddenArrival
    // Medium and hard hide the flight number and callsign; easy and any
    // unknown difficulty keep them.
    ensures (d == Medium || d == Hard) ==> r.flightNumber == "" && r.callsign == ""
    ensures d != Medium && d != Hard ==> r.flightNumber == f.flightNumber && r.callsign == f.callsign
    // Hard also hides the airline and the origin.
    ensures d == Hard ==> r.airline == NoAirline && r.departure == HiddenDeparture
    ensures d != Hard ==> r.airline == f.airline && r.departure == f.departure
    // Only easy mode, and only for a known arrival city, carries the hint.
    ensures r.hint == if d == Easy && f.arrival.city != "" then hint else f.hint
    // Identity and aircraft are always shown.
    ensures r.id == f.id && r.icao24 == f.icao24 && r.status == f.status && r.aircraft == f.aircraft
    ensures r.updatedAt == f.updatedAt
    // The position and telemetry come from the draws, whatever the difficulty.
    ensures (r.latitude, r.longitude) == (Centre(f).0 + j.offsetLat, Centre(f).1 + j.offsetLon)
    ensures r.altitude == j.altitude && r.speed == j.speed && r.verticalSpeed == j.verticalSpeed
  {
    var c := Centre(f);
    var lat := c.0 + j.offsetLat;
    var lon := c.1 + j.offsetLon;
    var target := HeadingTarget(c.0, c.1, f.arrival.latitude, f.arrival.longitude);
    var shown := f.(
      latitude := lat, longitude := lon, direction := bearing(lat, lon, target.0, target.1),
      altitude := j.altitude, speed := j.speed, verticalSpeed := j.verticalSpeed,
      arrival := HiddenArrival);
    if d == Easy then (if f.arrival.city != "" then shown.(hint := hint) else shown)
    else if d == Medium then shown.(flightNumber := "", callsign := "")
    else if d == Hard then shown.(flightNumber := "", callsign := "", airline := NoAirline, departure := HiddenDeparture)
    else shown
  }

  /** With draws from the generator's ranges, the shown position lies 0.3 to
      1.0 degrees from the centre, and the telemetry is within its ranges. */
  lemma ShownNearCentre(f: Flight, d: Difficulty, j: Jitter, bearing: BearingFn, hint: string)
    requires InDrawRange(j)
    ensures var r := Masked(f, d, j, bearing, hint);
      var c := Centre(f);
      && 0.09 <= (r.latitude - c.0) * (r.latitude - c.0) + (r.longitude - c.1) * (r.longitude - c.1) <= 1.0
      && 28000.0 <= r.altitude <= 38000.0 && 420.0 <= r.speed <= 520.0
      && -500.0 <= r.verticalSpeed <= 500.0
  {
    var r := Masked(f, d, j, bearing, hint);
    var c := Centre(f);
    assert r.latitude - c.0 == j.offsetLat;
    assert r.longitude - c.1 == j.offsetLon;
  }

  /** The heading points from the shown position towards the arrival airport,
      or 5 degrees north-east of the centre when the arrival has no
      coordinates. */
  lemma HeadingTowardsArrival(f: Flight, d: Difficulty, j: Jitter, bearing: BearingFn, hint: string)
    ensures var r := Masked(f, d, j, bearing, hint);
      var c := Centre(f);
      && (f.arrival.latitude == 0.0 && f.arrival.longitude == 0.0 ==>
            r.direction == bearing(r.latitude, r.longitude, c.0 + 5.0, c.1 + 5.0))
      && (!(f.arrival.latitude == 0.0 && f.arrival.longitude == 0.0) ==>
            r.direction == bearing(r.latitude, r.longitude, f.arrival.latitude, f.arrival.longitude))
  {
  }

  /** `shown` is the display of `f`, and the fact cache went from `before` to
      `after` on the way: in easy mode with a known arrival city the hint is
      the cached fact for the city and flight, drawn from the city's
      candidates and memoised on a miss; otherwise the flight's own hint is
      kept and the cache is untouched. */
  predicate Displayed(
    f: Flight, d: Difficulty, j: Jitter, bearing: BearingFn, facts: CityFacts.FactStore,
    before: map<string, string>, after: map<string, string>, shown: Flight)
  {
    && shown == Masked(f, d, j, bearing, shown.hint)
    && (!(d == Easy && f.arrival.city != "") ==> shown.hint == f.hint && after == before)
    && (d == Easy && f.arrival.city != "" ==>
          var key := CityFacts.CacheKey(f.arrival.city, f.id);
          && (key in before ==> shown.hint == before[key] && after == before)
          && (key !in before ==>
                shown.hint in facts.Candidates(f.arrival.city) && after == before[key := shown.hint]))
  }

  /** Prepare a flight for display.  In easy mode with a known arrival city
      the hint comes from the fact cache, keyed by the city and the flight's
      identifier (`pick` is the cache's random draw on a miss). */
  method PrepareFlightForDisplay(
    f: Flight, d: Difficulty, j: Jitter, bearing: BearingFn, facts: CityFacts.FactStore, pick: nat)
    returns (shown: Flight)
    requires |facts.fallbackFacts| > 0
    modifies facts
    ensures Displayed(f, d, j, bearing, facts, old(facts.cache), facts.cache, shown)
  {
    var hint := f.hint;
    if d == Easy && f.arrival.city != "" {
      hint := facts.GetCityFact(f.arrival.city, f.id, pick);
    }
    shown := Masked(f, d, j, bearing, hint);
  }
}
