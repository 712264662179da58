/** Shared data shapes of the game: airports, flights, rounds, sessions,
    leaderboard entries and score results, plus the Option/Result wrappers the
    operations return.  Time stamps are seconds as `real`; the string-typed
    enumerations of the server (difficulty, session status, match type) stay
    strings, because the server accepts and stores any string there. */
module Models {

  datatype Option<+T> = None | Some(value: T)

  datatype Result<+T, +E> = Ok(value: T) | Err(error: E)

  /** The server's difficulty is a plain string; these are the three values it knows. */
  type Difficulty = string

  const Easy: Difficulty := "easy"
  const Medium: Difficulty := "medium"
  const Hard: Difficulty := "hard"

  predicate KnownDifficulty(d: Difficulty) {
    d == Easy || d == Medium || d == Hard
  }

  datatype Airport = Airport(
    iata: string,
    icao: string,
    name: string,
    city: string,
    country: string,
    latitude: real,
    longitude: real)

  /** Go's zero value of an Airport. */
  const NoAirport := Airport("", "", "", "", "", 0.0, 0.0)

  datatype Aircraft = Aircraft(iata: string, icao: string, model: string, registration: string)

  datatype Airline = Airline(iata: string, icao: string, name: string)

  const NoAirline := Airline("", "", "")

  datatype Flight = Flight(
    id: string,
    icao24: string,
    callsign: string,
    latitude: real,
    longitude: real,
    altitude: real,
    speed: real,
    direction: real,
    verticalSpeed: real,
    status: string,
    departure: Airport,
    arrival: Airport,
    aircraft: Aircraft,
    airline: Airline,
    flightNumber: string,
    hint: string,
    updatedAt: real)

  /** A round is pending while `playerGuess` is empty and scored afterwards. */
  datatype Round = Round(
    roundNumber: int,
    flightId: string,
    flight: Option<Flight>,
    departure: string,
    actualArrival: string,
    playerGuess: string,
    pointsEarned: int,
    guessTime: real,
    confidence: int,
    startedAt: real,
    completedAt: Option<real>)

  const InProgress := "in_progress"
  const Completed := "completed"

  datatype GameSession = GameSession(
    sessionId: string,
    username: string,
    startedAt: real,
    endedAt: Option<real>,
    difficulty: Difficulty,
    totalScore: int,
    rounds: seq<Round>,
    status: string)

  /** `rank` is filled in only on the copies a leaderboard query returns. */
  datatype LeaderboardEntry = LeaderboardEntry(
    rank: int,
    username: string,
    difficulty: Difficulty,
    totalScore: int,
    gamesPlayed: int,
    updatedAt: real)

  /** The multipliers are kept in tenths: 13 stands for 1.3. */
  datatype ScoreResult = ScoreResult(
    basePoints: int,
    difficultyMulti10: int,
    speedMulti10: int,
    totalPoints: int,
    matchType: string,
    distanceKm: real,
    correctAirport: Airport,
    guessedAirport: Airport)
}
