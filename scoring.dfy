/** The score of one guess: the airport tiers (exact, same city, same country,
    within 500 km, wrong), a difficulty multiplier and a speed multiplier.
    Multipliers are kept in tenths, so a score is base * d10 * s10 / 100,
    truncated, exactly as the server's float product truncates for the values
    that occur (see README). */
module Scoring {
  import opened Models
  import opened Geo

  const ExactPoints := 1000
  const FamilyPoints := 750
  const CountryPoints := 500
  const DistancePoints := 250
  const WrongPoints := 0

  const ExactMatch := "exact"
  const FamilyMatch := "family"
  const CountryMatch := "country"
  const DistanceMatch := "distance"
  const WrongMatch := "wrong"

  /** Guesses closer than this many kilometres score the distance tier. */
  const NearbyKm: real := 500.0

  /** The highest score one round can earn: exact, hard, fastest. */
  const MaxRoundPoints := 2600

  /** The difficulty multiplier in tenths: 1.0, 1.5 and 2.0 for easy, medium
      and hard, and 1.0 for anything else. */
  function DifficultyMultiplier10(d: Difficulty): (m: int)
    ensures 10 <= m <= 20
    ensures m == 15 <==> d == Medium
    ensures m == 20 <==> d == Hard
    ensures d != Medium && d != Hard ==> m == 10
  {
    if d == Easy then 10
    else if d == Medium then 15
    else if d == Hard then 20
    else 10
  }

  /** The speed multiplier in tenths: 1.3 within 10 seconds, 1.1 within 30,
      else 1.0. */
  function SpeedMultiplier10(guessTime: real): (m: int)
    ensures 10 <= m <= 13
    ensures m == 13 <==> guessTime <= 10.0
    ensures m == 10 <==> guessTime > 30.0
  {
    if guessTime <= 10.0 then 13
    else if guessTime <= 30.0 then 11
    else 10
  }

  /** A faster guess never earns a smaller speed multiplier. */
  lemma SpeedMultiplierAntitone(t1: real, t2: real)
    requires t1 <= t2
    ensures SpeedMultiplier10(t1) >= SpeedMultiplier10(t2)
  {
  }

  /** The truncated product of the base points and both multipliers. */
  function Points(base: int, d10: int, s10: int): int {
    base * d10 * s10 / 100
  }

  /** For the bases and multipliers that occur, a score lies between the base
      and 2600: the multipliers never reduce points. */
  lemma {:induction false} PointsBounds(base: int, d10: int, s10: int)
    requires 0 <= base <= ExactPoints && 10 <= d10 <= 20 && 10 <= s10 <= 13
    ensures base <= Points(base, d10, s10) <= MaxRoundPoints
    ensures Points(base, d10, s10) == 0 <==> base == 0
  {
    var m := d10 * s10;
    MulMono(d10, 10, s10);
    MulMono(s10, d10, 20);
    assert 100 <= m <= 260;
    var p := base * m;
    assert base * d10 * s10 == p;
    MulMono(base, 100, m);
    MulMono(base, m, 260);
    MulMono(260, base, 1000);
    assert base * 100 <= p <= 260000;
  }

  lemma MulMono(a: int, x: int, y: int)
    requires a >= 0 && x <= y
    ensures a * x <= a * y
  {
  }

  /** The score is monotone in each factor. */
  lemma {:induction false} PointsMonotone(b1: int, b2: int, d1: int, d2: int, s1: int, s2: int)
    requires 0 <= b1 <= b2 && 0 <= d1 <= d2 && 0 <= s1 <= s2
    ensures Points(b1, d1, s1) <= Points(b2, d2, s2)
  {
    assert b1 * d1 <= b2 * d1 <= b2 * d2;
    assert b1 * d1 * s1 <= b2 * d2 * s1 <= b2 * d2 * s2;
  }

  /** The base points each match type carries. */
  function BaseFor(matchType: string): int {
    if matchType == ExactMatch then ExactPoints
    else if matchType == FamilyMatch then FamilyPoints
    else if matchType == CountryMatch then CountryPoints
    else if matchType == DistanceMatch then DistancePoints
    else WrongPoints
  }

  /** An airport code resolved through the airport table. */
  function Resolve(code: string, airports: map<string, Airport>): Option<Airport> {
    if code in airports then Some(airports[code]) else None
  }

  /** The actual airport: the stored arrival when it carries a real code
      (neither "" nor the mask "???"), else the table's entry for the code. */
  function ResolveActual(actualIATA: string, info: Option<Airport>, airports: map<string, Airport>): (r: Option<Airport>)
    ensures info.Some? && info.value.iata != "" && info.value.iata != "???" ==> r == info
    ensures (info.None? || info.value.iata == "" || info.value.iata == "???") ==> r == Resolve(actualIATA, airports)
  {
    if info.Some? && info.value.iata != "" && info.value.iata != "???" then info
    else Resolve(actualIATA, airports)
  }

  function OrNoAirport(a: Option<Airport>): Airport {
    if a.Some? then a.value else NoAirport
  }

  /** The tier and distance of a guess whose codes differ and both resolve. */
  function Tier(actual: Airport, guessed: Airport, dist: DistanceFn): (string, real) {
    var km := dist(actual.latitude, actual.longitude, guessed.latitude, guessed.longitude);
    if actual.city == guessed.city then (FamilyMatch, km)
    else if actual.country == guessed.country then (CountryMatch, km)
    else if km <= NearbyKm then (DistanceMatch, km)
    else (WrongMatch, km)
  }

  /** Score a guess.  `info` is the stored arrival of the round's flight,
      `airports` the airport table and `dist` the great-circle distance. */
  function CalculateScore(
    actualIATA: string, guessedIATA: string, d: Difficulty, guessTime: real,
    info: Option<Airport>, airports: map<string, Airport>, dist: DistanceFn): (r: ScoreResult)
    ensures r.difficultyMulti10 == DifficultyMultiplier10(d)
    ensures r.speedMulti10 == SpeedMultiplier10(guessTime)
    ensures r.basePoints == BaseFor(r.matchType)
    ensures r.totalPoints == Points(r.basePoints, r.difficultyMulti10, r.speedMulti10)
    ensures r.basePoints <= r.totalPoints <= MaxRoundPoints
    ensures r.totalPoints == 0 <==> r.basePoints == 0
    ensures r.correctAirport == OrNoAirport(ResolveActual(actualIATA, info, airports))
    ensures r.guessedAirport == OrNoAirport(Resolve(guessedIATA, airports))
  {
    var actual := ResolveActual(actualIATA, info, airports);
    var guessed := Resolve(guessedIATA, airports);
    var d10 := DifficultyMultiplier10(d);
    var s10 := SpeedMultiplier10(guessTime);
    var tier :=
      if actualIATA == guessedIATA then (ExactMatch, 0.0)
      else if actual.Some? && guessed.Some? then Tier(actual.value, guessed.value, dist)
      else (WrongMatch, 0.0);
    var base := BaseFor(tier.0);
    PointsBounds(base, d10, s10);
    ScoreResult(base, d10, s10, Points(base, d10, s10), tier.0, tier.1, OrNoAirport(actual), OrNoAirport(guessed))
  }

  /** Equal codes are an exact match at distance 0, whether or not either
      code resolves. */
  lemma ExactMatchScore(
    code: string, d: Difficulty, guessTime: real,
    info: Option<Airport>, airports: map<string, Airport>, dist: DistanceFn)
    ensures var r := CalculateScore(code, code, d, guessTime, info, airports, dist);
      r.matchType == ExactMatch && r.basePoints == ExactPoints && r.distanceKm == 0.0
  {
  }

  /** Different codes that both resolve: the first matching tier wins, and the
      distance is the one between the two airports. */
  lemma TierOrder(
    actualIATA: string, guessedIATA: string, d: Difficulty, guessTime: real,
    info: Option<Airport>, airports: map<string, Airport>, dist: DistanceFn)
    requires actualIATA != guessedIATA
    requires ResolveActual(actualIATA, info, airports).Some? && guessedIATA in airports
    ensures var r := CalculateScore(actualIATA, guessedIATA, d, guessTime, info, airports, dist);
      var a := ResolveActual(actualIATA, info, airports).value;
      var g := airports[guessedIATA];
      && r.distanceKm == dist(a.latitude, a.longitude, g.latitude, g.longitude)
      && (a.city == g.city ==> r.matchType == FamilyMatch && r.basePoints == FamilyPoints)
      && (a.city != g.city && a.country == g.country ==> r.matchType == CountryMatch && r.basePoints == CountryPoints)
      && (a.city != g.city && a.country != g.country && r.distanceKm <= NearbyKm ==>
            r.matchType == DistanceMatch && r.basePoints == DistancePoints)
      && (a.city != g.city && a.country != g.country && r.distanceKm > NearbyKm ==>
            r.matchType == WrongMatch && r.basePoints == WrongPoints)
  {
  }

  /** A guess in the same city scores the family tier even when it is also
      within 500 km: the city test comes first. */
  lemma FamilyBeatsDistance(
    actualIATA: string, guessedIATA: string, d: Difficulty, guessTime: real,
    info: Option<Airport>, airports: map<string, Airport>, dist: DistanceFn)
    requires actualIATA != guessedIATA
    requires ResolveActual(actualIATA, info, airports).Some? && guessedIATA in airports
    requires ResolveActual(actualIATA, info, airports).value.city == airports[guessedIATA].city
    ensures CalculateScore(actualIATA, guessedIATA, d, guessTime, info, airports, dist).basePoints == FamilyPoints
  {
    TierOrder(actualIATA, guessedIATA, d, guessTime, info, airports, dist);
  }

  /** Different codes where either airport fails to resolve: wrong, 0 points,
      distance 0. */
  lemma UnresolvedIsWrong(
    actualIATA: string, guessedIATA: string, d: Difficulty, guessTime: real,
    info: Option<Airport>, airports: map<string, Airport>, dist: DistanceFn)
    requires actualIATA != guessedIATA
    requires ResolveActual(actualIATA, info, airports).None? || guessedIATA !in airports
    ensures var r := CalculateScore(actualIATA, guessedIATA, d, guessTime, info, airports, dist);
      r.matchType == WrongMatch && r.basePoints == 0 && r.totalPoints == 0 && r.distanceKm == 0.0
  {
  }

  /** A faster guess of the same airports never scores less. */
  lemma FasterNeverScoresLess(
    actualIATA: string, guessedIATA: string, d: Difficulty, t1: real, t2: real,
    info: Option<Airport>, airports: map<string, Airport>, dist: DistanceFn)
    requires t1 <= t2
    ensures CalculateScore(actualIATA, guessedIATA, d, t1, info, airports, dist).totalPoints >=
            CalculateScore(actualIATA, guessedIATA, d, t2, info, airports, dist).totalPoints
  {
    var r1 := CalculateScore(actualIATA, guessedIATA, d, t1, info, airports, dist);
    var r2 := CalculateScore(actualIATA, guessedIATA, d, t2, info, airports, dist);
    assert r1.basePoints == r2.basePoints;
    SpeedMultiplierAntitone(t1, t2);
    PointsMonotone(r2.basePoints, r1.basePoints, r2.difficultyMulti10, r1.difficultyMulti10,
                   r2.speedMulti10, r1.speedMulti10);
  }

  /** Worked scores: the extremes of an exact guess, and two products with
      a half that truncates away. */
  lemma ExactScores()
    ensures Points(ExactPoints, 10, 13) == 1300 && Points(ExactPoints, 15, 13) == 1950
    ensures Points(ExactPoints, 20, 13) == 2600 && Points(ExactPoints, 20, 10) == 2000
    ensures Points(FamilyPoints, 15, 11) == 1237 && Points(DistancePoints, 15, 13) == 487
  {
  }
}
