/** Conversion of the flight provider's records into catalog flights.  Only the
    record fields the conversion reads are kept; the aircraft and live blocks
    are optional, as they are nullable in the provider's JSON. */
module Aviation {
  import opened Models

  datatype EndpointData = EndpointData(airport: string, iata: string, icao: string)

  datatype AirlineData = AirlineData(name: string, iata: string, icao: string)

  datatype FlightCodes = FlightCodes(number: string, iata: string, icao: string)

  datatype AircraftData = AircraftData(registration: string, iata: string, icao: string, icao24: string)

  datatype LiveData = LiveData(
    latitude: real,
    longitude: real,
    altitude: real,
    direction: real,
    speedHorizontal: real,
    speedVertical: real)

  datatype FlightData = FlightData(
    flightStatus: string,
    departure: EndpointData,
    arrival: EndpointData,
    airline: AirlineData,
    flight: FlightCodes,
    aircraft: Option<AircraftData>,
    live: Option<LiveData>)

  function AircraftICAO24(a: Option<AircraftData>): (r: string)
    ensures a.None? ==> r == ""
  {
    if a.None? then "" else a.value.icao24
  }

  function AircraftIATA(a: Option<AircraftData>): (r: string)
    ensures a.None? ==> r == ""
  {
    if a.None? then "" else a.value.iata
  }

  function AircraftICAO(a: Option<AircraftData>): (r: string)
    ensures a.None? ==> r == ""
  {
    if a.None? then "" else a.value.icao
  }

  function AircraftReg(a: Option<AircraftData>): (r: string)
    ensures a.None? ==> r == ""
  {
    if a.None? then "" else a.value.registration
  }

  /** A record is kept only when both its departure and arrival codes are set. */
  predicate Complete(r: FlightData) {
    r.departure.iata != "" && r.arrival.iata != ""
  }

  /** The flight identifier: the aircraft's ICAO24 address, else the flight's
      IATA number, else "<flight IATA>-<departure>-<arrival>". */
  function FlightId(r: FlightData): string {
    var byAircraft :=
      if r.aircraft.Some? && r.aircraft.value.icao24 != "" then r.aircraft.value.icao24 else r.flight.iata;
    if byAircraft == "" then r.flight.iata + "-" + r.departure.iata + "-" + r.arrival.iata else byAircraft
  }

  /** The identifier is never empty, and follows the fallback chain. */
  lemma FlightIdChain(r: FlightData)
    ensures FlightId(r) != ""
    ensures r.aircraft.Some? && r.aircraft.value.icao24 != "" ==> FlightId(r) == r.aircraft.value.icao24
    ensures (r.aircraft.None? || r.aircraft.value.icao24 == "") && r.flight.iata != "" ==> FlightId(r) == r.flight.iata
    ensures (r.aircraft.None? || r.aircraft.value.icao24 == "") && r.flight.iata == "" ==>
      FlightId(r) == "-" + r.departure.iata + "-" + r.arrival.iata
  {
    var byAircraft :=
      if r.aircraft.Some? && r.aircraft.value.icao24 != "" then r.aircraft.value.icao24 else r.flight.iata;
    if byAircraft == "" {
      assert (r.flight.iata + "-" + r.departure.iata + "-" + r.arrival.iata)[|r.flight.iata|] == '-';
    }
  }

  /** One complete record as a catalog flight, stamped with `now`. */
  function Convert(r: FlightData, now: real): (f: Flight)
    // The airports carry the record's codes and names; the city, country and
    // hint are left blank for enrichment, and the flight is stamped with `now`.
    ensures f.id == FlightId(r) && f.updatedAt == now && f.hint == ""
    ensures f.departure == Airport(r.departure.iata, r.departure.icao, r.departure.airport, "", "", 0.0, 0.0)
    ensures f.arrival == Airport(r.arrival.iata, r.arrival.icao, r.arrival.airport, "", "", 0.0, 0.0)
  {
    var base := Flight(
      FlightId(r), AircraftICAO24(r.aircraft), r.flight.icao,
      0.0, 0.0, 0.0, 0.0, 0.0, 0.0,
      r.flightStatus,
      Airport(r.departure.iata, r.departure.icao, r.departure.airport, "", "", 0.0, 0.0),
      Airport(r.arrival.iata, r.arrival.icao, r.arrival.airport, "", "", 0.0, 0.0),
      Aircraft(AircraftIATA(r.aircraft), AircraftICAO(r.aircraft), "", AircraftReg(r.aircraft)),
      Airline(r.airline.iata, r.airline.icao, r.airline.name),
      r.flight.iata, "", now);
    if r.live.Some? then
      var l := r.live.value;
      base.(latitude := l.latitude, longitude := l.longitude, altitude := l.altitude,
            direction := l.direction, speed := l.speedHorizontal, verticalSpeed := l.speedVertical)
    else base
  }

  /** The complete records of `raw`, in input order. */
  function Kept(raw: seq<FlightData>): seq<FlightData>
    decreases |raw|
  {
    if raw == [] then []
    else if Complete(raw[0]) then [raw[0]] + Kept(raw[1..])
    else Kept(raw[1..])
  }

  /** What a converted flight holds, field by field, for a complete record. */
  lemma ConvertFields(r: FlightData, now: real)
    requires Complete(r)
    ensures var f := Convert(r, now);
      && f.id != "" && f.departure.iata != "" && f.arrival.iata != ""
      && f.callsign == r.flight.icao && f.flightNumber == r.flight.iata && f.status == r.flightStatus
      && f.departure.iata == r.departure.iata && f.departure.icao == r.departure.icao && f.departure.name == r.departure.airport
      && f.arrival.iata == r.arrival.iata && f.arrival.icao == r.arrival.icao && f.arrival.name == r.arrival.airport
      && (r.aircraft.None? ==> f.icao24 == "" && f.aircraft == Aircraft("", "", "", ""))
      && (r.live.None? ==> f.latitude == 0.0 && f.longitude == 0.0 && f.altitude == 0.0 &&
                           f.direction == 0.0 && f.speed == 0.0 && f.verticalSpeed == 0.0)
      && (r.live.Some? ==> f.latitude == r.live.value.latitude && f.longitude == r.live.value.longitude &&
                           f.altitude == r.live.value.altitude && f.direction == r.live.value.direction &&
                           f.speed == r.live.value.speedHorizontal && f.verticalSpeed == r.live.value.speedVertical)
  {
    FlightIdChain(r);
  }

  /** Dropping incomplete records keeps the complete ones in order, and only those. */
  lemma {:induction false} KeptIsFilter(raw: seq<FlightData>)
    ensures |Kept(raw)| <= |raw|
    ensures forall r :: r in Kept(raw) <==> r in raw && Complete(r)
    decreases |raw|
  {
    if raw != [] {
      KeptIsFilter(raw[1..]);
      assert raw == [raw[0]] + raw[1..];
    }
  }

  /** Convert the provider's records, dropping those without both airport codes. */
  method ConvertToFlights(raw: seq<FlightData>, now: real) returns (flights: seq<Flight>)
    ensures |flights| == |Kept(raw)| <= |raw|
    ensures forall i :: 0 <= i < |flights| ==> flights[i] == Convert(Kept(raw)[i], now)
    ensures forall i :: 0 <= i < |flights| ==>
      flights[i].id != "" && flights[i].departure.iata != "" && flights[i].arrival.iata != ""
  {
    flights := [];
    var k := 0;
    while k < |raw|
      invariant 0 <= k <= |raw|
      invariant |flights| == |Kept(raw[..k])|
      invariant forall i :: 0 <= i < |flights| ==> flights[i] == Convert(Kept(raw[..k])[i], now)
    {
      KeptStep(raw, k);
      var r := raw[k];
      if r.departure.iata == "" || r.arrival.iata == "" {
        k := k + 1;
        continue;
      }
      var flight := ConvertRecord(r, now);
      flights := flights + [flight];
      k := k + 1;
    }
    assert raw[..|raw|] == raw;
    ConvertedAreComplete(raw, now, flights);
  }

  lemma ConvertedAreComplete(raw: seq<FlightData>, now: real, flights: seq<Flight>)
    requires |flights| == |Kept(raw)|
    requires forall i :: 0 <= i < |flights| ==> flights[i] == Convert(Kept(raw)[i], now)
    ensures |Kept(raw)| <= |raw|
    ensures forall i :: 0 <= i < |flights| ==>
      flights[i].id != "" && flights[i].departure.iata != "" && flights[i].arrival.iata != ""
  {
    KeptIsFilter(raw);
    forall i | 0 <= i < |flights|
      ensures flights[i].id != "" && flights[i].departure.iata != "" && flights[i].arrival.iata != ""
    {
      assert Kept(raw)[i] in Kept(raw);
      ConvertFields(Kept(raw)[i], now);
    }
  }

  /** One complete record as a flight: the identifier chain, the codes and
      names, then the live position when there is one. */
  method ConvertRecord(r: FlightData, now: real) returns (flight: Flight)
    ensures flight == Convert(r, now)
  {
    var flightId := r.flight.iata;
    if r.aircraft.Some? && r.aircraft.value.icao24 != "" {
      flightId := r.aircraft.value.icao24;
    }
    if flightId == "" {
      flightId := r.flight.iata + "-" + r.departure.iata + "-" + r.arrival.iata;
    }
    flight := Flight(
      flightId, AircraftICAO24(r.aircraft), r.flight.icao,
      0.0, 0.0, 0.0, 0.0, 0.0, 0.0,
      r.flightStatus,
      Airport(r.departure.iata, r.departure.icao, r.departure.airport, "", "", 0.0, 0.0),
      Airport(r.arrival.iata, r.arrival.icao, r.arrival.airport, "", "", 0.0, 0.0),
      Aircraft(AircraftIATA(r.aircraft), AircraftICAO(r.aircraft), "", AircraftReg(r.aircraft)),
      Airline(r.airline.iata, r.airline.icao, r.airline.name),
      r.flight.iata, "", now);
    if r.live.Some? {
      flight := flight.(latitude := r.live.value.latitude, longitude := r.live.value.longitude,
                        altitude := r.live.value.altitude, direction := r.live.value.direction,
                        speed := r.live.value.speedHorizontal, verticalSpeed := r.live.value.speedVertical);
    }
  }

  /** Taking one more record of the input adds it to the kept records when
      it is complete. */
  lemma KeptStep(raw: seq<FlightData>, k: nat)
    requires k < |raw|
    ensures Kept(raw[..k + 1]) == Kept(raw[..k]) + (if Complete(raw[k]) then [raw[k]] else [])
  {
    KeptAppend(raw[..k], raw[k]);
    assert raw[..k + 1] == raw[..k] + [raw[k]];
  }

  lemma {:induction false} KeptAppend(s: seq<FlightData>, r: FlightData)
    ensures Kept(s + [r]) == Kept(s) + (if Complete(r) then [r] else [])
    decreases |s|
  {
    if s == [] {
      assert Kept([r][1..]) == [];
    } else {
      KeptAppend(s[1..], r);
      assert (s + [r])[1..] == s[1..] + [r];
    }
  }
}
