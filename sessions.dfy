/** The game service: a session of ten rounds that runs from "in_progress" to
    "completed", with the in-memory session store.  The current round is
    always the first round whose guess is empty. */
module Sessions {
  import opened Models
  import opened Geo
  import opened Scoring
  import opened Display
  import Catalog
  import CityFacts

  const TotalRounds := 10

  datatype GameError = SessionNotFound | GameCompleted | InvalidRound | NoFlights

  datatype StartGameResponse = StartGameResponse(
    sessionId: string, difficulty: Difficulty, totalRounds: int, currentRound: int, flight: Flight)

  datatype GuessResponse = GuessResponse(
    score: ScoreResult, roundNumber: int, isGameOver: bool, nextFlight: Option<Flight>, totalScore: int)

  datatype EndGameResponse = EndGameResponse(
    sessionId: string, totalScore: int, rounds: seq<Round>, rank: int, difficulty: Difficulty)

  /** The zero value a freshly made round slot holds. */
  const BlankRound := Round(0, "", None, "", "", "", 0, 0.0, 0, 0.0, None)

  // ---------------------------------------------------------------------
  // Specification of a session's life

  /** `fs` is a draw of up to ten flights from `pool`: as many as there are,
      up to ten, and each no more often than in the pool. */
  predicate IsDraw(fs: seq<Flight>, pool: seq<Flight>) {
    0 < |fs| == Catalog.Min(TotalRounds, |pool|) && multiset(fs) <= multiset(pool)
  }

  /** The flights of a draw, padded to ten by repeating its first flight. */
  function Padded(fs: seq<Flight>): (r: seq<Flight>)
    requires 0 < |fs| <= TotalRounds
    ensures |r| == TotalRounds && r[..|fs|] == fs
    ensures forall i :: |fs| <= i < TotalRounds ==> r[i] == fs[0]
  {
    fs + seq(TotalRounds - |fs|, _ => fs[0])
  }

  /** Round `i` (0-based) of a new session, played with flight `f`. */
  function NewRound(f: Flight, i: int, now: real): Round {
    Round(i + 1, f.id, Some(f), f.departure.iata, f.arrival.iata, "", 0, 0.0, 0, now, None)
  }

  /** The session StartGame creates from a non-empty draw of at most ten. */
  function NewSession(id: string, username: string, d: Difficulty, now: real, fs: seq<Flight>): GameSession
    requires 0 < |fs| <= TotalRounds
  {
    var flights := Padded(fs);
    GameSession(id, username, now, None, d, 0,
                seq(TotalRounds, i requires 0 <= i < TotalRounds => NewRound(flights[i], i, now)), InProgress)
  }

  /** The first round at or after `from` whose guess is empty. */
  function FirstPendingFrom(rs: seq<Round>, from: nat): (r: Option<nat>)
    decreases |rs| - from
    ensures r.Some? ==> from <= r.value < |rs| && rs[r.value].playerGuess == ""
    ensures forall i :: from <= i < |rs| && (r.None? || i < r.value) ==> rs[i].playerGuess != ""
  {
    if from >= |rs| then None
    else if rs[from].playerGuess == "" then Some(from)
    else FirstPendingFrom(rs, from + 1)
  }

  /** The current round: the first one whose guess is empty, if any. */
  function FirstPending(rs: seq<Round>): (r: Option<nat>)
    ensures r.Some? ==> r.value < |rs| && rs[r.value].playerGuess == ""
    ensures r.Some? ==> forall i :: 0 <= i < r.value ==> rs[i].playerGuess != ""
    ensures r.None? <==> forall i :: 0 <= i < |rs| ==> rs[i].playerGuess != ""
  {
    FirstPendingFrom(rs, 0)
  }

  /** The score of `guess` for round `idx`, timed from the round's start to
      the clock reading `clock`. */
  function RoundScore(s: GameSession, idx: nat, guess: string, clock: real,
                      airports: map<string, Airport>, dist: DistanceFn): ScoreResult
    requires idx < |s.rounds|
  {
    var round := s.rounds[idx];
    var info := if round.flight.Some? then Some(round.flight.value.arrival) else None;
    CalculateScore(round.actualArrival, guess, s.difficulty, clock - round.startedAt, info, airports, dist)
  }

  /** The session with round `idx` scored at time `now`: the round records
      the guess, and the total grows by the points. */
  function Scored(s: GameSession, idx: nat, guess: string, points: int, guessTime: real,
                  confidence: int, now: real): GameSession
    requires idx < |s.rounds|
  {
    var scored := s.rounds[idx].(playerGuess := guess, pointsEarned := points, guessTime := guessTime,
                                 confidence := confidence, completedAt := Some(now));
    s.(rounds := s.rounds[idx := scored], totalScore := s.totalScore + points)
  }

  /** Scoring recorded: the tenth round also completes the game. */
  function Recorded(s: GameSession, idx: nat, guess: string, points: int, guessTime: real,
                    confidence: int, now: real): GameSession
    requires idx < |s.rounds|
  {
    var s1 := Scored(s, idx, guess, points, guessTime, confidence, now);
    if idx == TotalRounds - 1 then s1.(status := Completed, endedAt := Some(now)) else s1
  }

  /** The session after round `idx` is scored at time `now`: the tenth round
      completes the game, and any other round restarts the next round's
      clock. */
  function AfterGuess(s: GameSession, idx: nat, guess: string, points: int, guessTime: real,
                      confidence: int, now: real): GameSession
    requires idx < |s.rounds|
  {
    var s1 := Recorded(s, idx, guess, points, guessTime, confidence, now);
    if idx != TotalRounds - 1 && idx + 1 < |s1.rounds| then
      s1.(rounds := s1.rounds[idx + 1 := s1.rounds[idx + 1].(startedAt := now)])
    else s1
  }

  /** The session after a guess is scored at `now`, timed by `clock`. */
  function Guessed(s: GameSession, idx: nat, guess: string, confidence: int, clock: real, now: real,
                   airports: map<string, Airport>, geo: Geometry): GameSession
    requires idx < |s.rounds|
  {
    var score := RoundScore(s, idx, guess, clock, airports, geo.distanceKm);
    AfterGuess(s, idx, guess, score.totalPoints, clock - s.rounds[idx].startedAt, confidence, now)
  }

  /** The answer to a guess for round `idx` of `s`: its score, the round's
      number, whether the game is over (only after round 10), the new total,
      and the next round's flight as displayed when there is one; the fact
      cache goes from `before` to `after` only through that display. */
  predicate Answers(s: GameSession, idx: nat, guess: string, clock: real,
                    airports: map<string, Airport>, geo: Geometry, j: Jitter,
                    facts: CityFacts.FactStore, before: map<string, string>, after: map<string, string>,
                    resp: GuessResponse)
    requires idx < |s.rounds|
  {
    var score := RoundScore(s, idx, guess, clock, airports, geo.distanceKm);
    && resp.score == score && resp.roundNumber == s.rounds[idx].roundNumber
    && resp.isGameOver == (idx == TotalRounds - 1)
    && resp.totalScore == s.totalScore + score.totalPoints
    && (resp.nextFlight.Some? <==>
          idx != TotalRounds - 1 && idx + 1 < |s.rounds| && s.rounds[idx + 1].flight.Some?)
    && (resp.nextFlight.None? ==> after == before)
    && (resp.nextFlight.Some? ==>
          Displayed(s.rounds[idx + 1].flight.value, s.difficulty, j, geo.bearing, facts, before, after,
                    resp.nextFlight.value))
  }

  /** The session after EndGame at time `now`. */
  function Ended(s: GameSession, now: real): (r: GameSession)
    ensures r.status == Completed
    ensures r.sessionId == s.sessionId && r.rounds == s.rounds && r.totalScore == s.totalScore
    ensures s.status == Completed ==> r == s
  {
    if s.status == Completed then s else s.(status := Completed, endedAt := Some(now))
  }

  function SumPoints(rs: seq<Round>): int
    decreases |rs|
  {
    if rs == [] then 0 else rs[0].pointsEarned + SumPoints(rs[1..])
  }

  /** The rounds of a stored session: ten, numbered 1 to 10, each worth 0 to
      2600 points; a pending round holds no points and no completion time,
      and the scored rounds form a prefix. */
  predicate RoundsWellFormed(rs: seq<Round>) {
    && |rs| == TotalRounds
    && (forall i :: 0 <= i < |rs| ==> rs[i].roundNumber == i + 1)
    && (forall i :: 0 <= i < |rs| ==> 0 <= rs[i].pointsEarned <= MaxRoundPoints)
    && (forall i :: 0 <= i < |rs| && rs[i].playerGuess == "" ==>
          rs[i].pointsEarned == 0 && rs[i].completedAt.None?)
    && (forall i, j :: 0 <= i < j < |rs| && rs[j].playerGuess != "" ==> rs[i].playerGuess != "")
  }

  /** What every stored session satisfies: well-formed rounds, a total that
      is the sum of the rounds' points, and a game that is completed exactly
      when it has an end time, and is only in progress while round 10 is
      unscored. */
  predicate WellFormed(s: GameSession) {
    && RoundsWellFormed(s.rounds)
    && s.totalScore == SumPoints(s.rounds)
    && (s.status == InProgress || s.status == Completed)
    && (s.status == Completed <==> s.endedAt.Some?)
    && (s.status == InProgress ==> s.rounds[TotalRounds - 1].playerGuess == "")
  }

  // ---------------------------------------------------------------------
  // Properties of the specification

  lemma {:induction false} SumPointsZero(rs: seq<Round>)
    requires forall i :: 0 <= i < |rs| ==> rs[i].pointsEarned == 0
    ensures SumPoints(rs) == 0
    decreases |rs|
  {
    if rs != [] {
      SumPointsZero(rs[1..]);
    }
  }

  /** Replacing one round changes the sum by the difference of its points. */
  lemma {:induction false} SumPointsUpdate(rs: seq<Round>, i: nat, r: Round)
    requires i < |rs|
    ensures SumPoints(rs[i := r]) == SumPoints(rs) - rs[i].pointsEarned + r.pointsEarned
    decreases |rs|
  {
    if i > 0 {
      SumPointsUpdate(rs[1..], i - 1, r);
      assert rs[i := r][1..] == rs[1..][i - 1 := r];
    } else {
      assert rs[i := r][1..] == rs[1..];
    }
  }

  lemma {:induction false} SumPointsBounds(rs: seq<Round>)
    requires forall i :: 0 <= i < |rs| ==> 0 <= rs[i].pointsEarned <= MaxRoundPoints
    ensures 0 <= SumPoints(rs) <= MaxRoundPoints * |rs|
    decreases |rs|
  {
    if rs != [] {
      SumPointsBounds(rs[1..]);
    }
  }

  /** A new session is well formed, in progress, scoreless, and its rounds
      play the draw in order, the missing ones with the draw's first flight. */
  lemma NewSessionWellFormed(id: string, username: string, d: Difficulty, now: real, fs: seq<Flight>)
    requires 0 < |fs| <= TotalRounds
    ensures var s := NewSession(id, username, d, now, fs);
      && WellFormed(s) && s.status == InProgress && s.totalScore == 0 && s.endedAt.None?
      && s.sessionId == id && s.username == username && s.difficulty == d && s.startedAt == now
      && (forall i :: 0 <= i < |fs| ==> s.rounds[i].flight == Some(fs[i]))
      && (forall i :: |fs| <= i < TotalRounds ==> s.rounds[i].flight == Some(fs[0]))
      && (forall i :: 0 <= i < TotalRounds ==> s.rounds[i].startedAt == now)
      && FirstPending(s.rounds) == Some(0)
  {
    var s := NewSession(id, username, d, now, fs);
    SumPointsZero(s.rounds);
    var p := Padded(fs);
    forall i | 0 <= i < |fs| ensures s.rounds[i].flight == Some(fs[i]) {
      assert p[..|fs|][i] == fs[i];
    }
  }

  /** A well-formed game in progress always has a current round, so the
      invalid-round error cannot arise for it. */
  lemma InProgressHasCurrentRound(s: GameSession)
    requires WellFormed(s) && s.status == InProgress
    ensures FirstPending(s.rounds).Some?
  {
    assert s.rounds[TotalRounds - 1].playerGuess == "";
  }

  /** Scoring the first pending round with a non-empty guess and points in
      range keeps the rounds well formed. */
  lemma ScoringKeepsRounds(rs: seq<Round>, idx: nat, scored: Round)
    requires RoundsWellFormed(rs) && FirstPending(rs) == Some(idx)
    requires scored.roundNumber == rs[idx].roundNumber && scored.playerGuess != ""
    requires 0 <= scored.pointsEarned <= MaxRoundPoints
    ensures RoundsWellFormed(rs[idx := scored])
  {
    var after := rs[idx := scored];
    forall i, j | 0 <= i < j < |after| && after[j].playerGuess != ""
      ensures after[i].playerGuess != ""
    {
      if j == idx {
        assert rs[i].playerGuess != "";
      } else if i != idx {
        assert rs[j].playerGuess != "";
      }
    }
  }

  /** Restarting a round's clock changes neither the rounds' shape nor their
      points. */
  lemma RestartKeepsRounds(rs: seq<Round>, k: nat, t: real)
    requires RoundsWellFormed(rs) && k < |rs|
    ensures RoundsWellFormed(rs[k := rs[k].(startedAt := t)])
    ensures SumPoints(rs[k := rs[k].(startedAt := t)]) == SumPoints(rs)
  {
    SumPointsUpdate(rs, k, rs[k].(startedAt := t));
    var after := rs[k := rs[k].(startedAt := t)];
    assert forall i :: 0 <= i < |rs| ==> after[i].playerGuess == rs[i].playerGuess;
  }

  /** Scoring the current round with a non-empty guess and points in range
      keeps the session well formed and adds exactly the points. */
  lemma GuessPreservesWellFormed(
    s: GameSession, guess: string, points: int, guessTime: real, confidence: int, now: real)
    requires WellFormed(s) && s.status == InProgress && FirstPending(s.rounds).Some?
    requires guess != "" && 0 <= points <= MaxRoundPoints
    ensures var after := AfterGuess(s, FirstPending(s.rounds).value, guess, points, guessTime, confidence, now);
      WellFormed(after) && after.totalScore == s.totalScore + points
  {
    var idx := FirstPending(s.rounds).value;
    var scored := s.rounds[idx].(playerGuess := guess, pointsEarned := points, guessTime := guessTime,
                                 confidence := confidence, completedAt := Some(now));
    var rs := s.rounds[idx := scored];
    SumPointsUpdate(s.rounds, idx, scored);
    ScoringKeepsRounds(s.rounds, idx, scored);
    if idx + 1 < TotalRounds {
      RestartKeepsRounds(rs, idx + 1, now);
    }
  }

  /** Scoring a non-empty guess for the current round of a well-formed,
      unfinished session keeps it well formed. */
  lemma GuessedPreservesWellFormed(
    s: GameSession, guess: string, confidence: int, clock: real, now: real,
    airports: map<string, Airport>, geo: Geometry)
    requires WellFormed(s) && s.status != Completed && FirstPending(s.rounds).Some? && guess != ""
    ensures WellFormed(Guessed(s, FirstPending(s.rounds).value, guess, confidence, clock, now, airports, geo))
  {
    var idx := FirstPending(s.rounds).value;
    var score := RoundScore(s, idx, guess, clock, airports, geo.distanceKm);
    var guessTime := clock - s.rounds[idx].startedAt;
    assert 0 <= score.totalPoints <= MaxRoundPoints;
    assert Guessed(s, idx, guess, confidence, clock, now, airports, geo)
        == AfterGuess(s, idx, guess, score.totalPoints, guessTime, confidence, now);
    GuessPreservesWellFormed(s, guess, score.totalPoints, guessTime, confidence, now);
  }

  /** A guess ends the game exactly when the nine rounds before the current
      one are all scored, i.e. on the tenth guess. */
  lemma TenthGuessEndsGame(
    s: GameSession, guess: string, points: int, guessTime: real, confidence: int, now: real)
    requires WellFormed(s) && s.status == InProgress && FirstPending(s.rounds).Some?
    ensures var after := AfterGuess(s, FirstPending(s.rounds).value, guess, points, guessTime, confidence, now);
      (after.status == Completed && after.endedAt == Some(now)) <==>
        forall i :: 0 <= i < TotalRounds - 1 ==> s.rounds[i].playerGuess != ""
  {
    var idx := FirstPending(s.rounds).value;
    if idx != TotalRounds - 1 {
      assert s.rounds[idx].playerGuess == "";
    }
  }

  /** A guess writes only into the current round, and restarts only the next
      round's clock. */
  lemma GuessTouchesOnlyCurrentRound(
    s: GameSession, guess: string, points: int, guessTime: real, confidence: int, now: real)
    requires FirstPending(s.rounds).Some?
    ensures var idx := FirstPending(s.rounds).value;
      var after := AfterGuess(s, idx, guess, points, guessTime, confidence, now);
      && |after.rounds| == |s.rounds|
      && after.rounds[idx].playerGuess == guess && after.rounds[idx].pointsEarned == points
      && after.rounds[idx].completedAt == Some(now)
      && (forall i :: 0 <= i < |s.rounds| && i != idx && i != idx + 1 ==> after.rounds[i] == s.rounds[i])
      && (idx + 1 < |s.rounds| ==>
            after.rounds[idx + 1] ==
            (if idx == TotalRounds - 1 then s.rounds[idx + 1] else s.rounds[idx + 1].(startedAt := now)))
  {
  }

  /** A well-formed session's total is between 0 and 26000. */
  lemma TotalScoreBounds(s: GameSession)
    requires WellFormed(s)
    ensures 0 <= s.totalScore <= MaxRoundPoints * TotalRounds
  {
    SumPointsBounds(s.rounds);
  }

  /** Ending completes the game, keeps its rounds and score, keeps it well
      formed, and a second end changes nothing. */
  lemma EndedProperties(s: GameSession, t1: real, t2: real)
    requires WellFormed(s)
    ensures var e := Ended(s, t1);
      && e.status == Completed && e.endedAt.Some? && e.rounds == s.rounds && e.totalScore == s.totalScore
      && WellFormed(e) && Ended(e, t2) == e
      && (s.status == Completed ==> e == s)
  {
  }

  // ---------------------------------------------------------------------
  // The service

  /** Find the current round: the first whose guess is empty. */
  method CurrentRoundIndex(rounds: seq<Round>) returns (r: Option<nat>)
    ensures r == FirstPending(rounds)
  {
    var i := 0;
    while i < |rounds|
      invariant 0 <= i <= |rounds|
      invariant FirstPending(rounds) == FirstPendingFrom(rounds, i)
    {
      if rounds[i].playerGuess == "" {
        return Some(i);
      }
      i := i + 1;
    }
    return None;
  }

  /** Repeat the first flight until there are ten; as `len % len` is always
      0, every padding flight is the first one. */
  method PadFlights(drawn: seq<Flight>) returns (flights: seq<Flight>)
    requires 0 < |drawn| <= TotalRounds
    ensures flights == Padded(drawn)
  {
    flights := drawn;
    while |flights| < TotalRounds
      invariant |drawn| <= |flights| <= TotalRounds
      invariant flights == drawn + seq(|flights| - |drawn|, _ => drawn[0])
      decreases TotalRounds - |flights|
    {
      flights := flights + [flights[|flights| % |flights|]];
    }
  }

  /** Fill the ten round slots, round i playing flight i, all started at `now`. */
  method MakeRounds(flights: seq<Flight>, now: real) returns (rounds: seq<Round>)
    requires |flights| == TotalRounds
    ensures rounds == seq(TotalRounds, i requires 0 <= i < TotalRounds => NewRound(flights[i], i, now))
  {
    var slots := new Round[TotalRounds](_ => BlankRound);
    for i := 0 to TotalRounds
      invariant forall k :: 0 <= k < i ==> slots[k] == NewRound(flights[k], k, now)
    {
      slots[i] := NewRound(flights[i], i, now);
    }
    rounds := slots[..];
  }

  /** Score round `idx` of `session` for `guess`, timed from the round's
      start to `clock`, and record it at `now`. */
  method RecordGuess(
    session: GameSession, idx: nat, guess: string, confidence: int, clock: real, now: real,
    airports: map<string, Airport>, dist: DistanceFn)
    returns (s: GameSession, score: ScoreResult)
    requires idx < |session.rounds|
    ensures score == RoundScore(session, idx, guess, clock, airports, dist)
    ensures s == Recorded(session, idx, guess, score.totalPoints, clock - session.rounds[idx].startedAt, confidence, now)
  {
    var round := session.rounds[idx];
    var guessTime := clock - round.startedAt;
    var info := if round.flight.Some? then Some(round.flight.value.arrival) else None;
    score := CalculateScore(round.actualArrival, guess, session.difficulty, guessTime, info, airports, dist);
    s := session.(rounds := session.rounds[idx := round.(
      playerGuess := guess, pointsEarned := score.totalPoints, guessTime := guessTime,
      confidence := confidence, completedAt := Some(now))]);
    s := s.(totalScore := s.totalScore + score.totalPoints);
    if idx == TotalRounds - 1 {
      s := s.(status := Completed, endedAt := Some(now));
    }
  }

  class GameService {
    /** The in-memory session store, keyed by session id. */
    var sessions: map<string, GameSession>
    const flightService: Catalog.FlightService
    const facts: CityFacts.FactStore

    /** Every session is stored under its own identifier. */
    predicate Valid()
      reads this
    {
      forall id :: id in sessions ==> sessions[id].sessionId == id
    }

    constructor (flightService: Catalog.FlightService, facts: CityFacts.FactStore)
      ensures this.flightService == flightService && this.facts == facts
      ensures sessions == map[] && Valid()
    {
      this.flightService := flightService;
      this.facts := facts;
      sessions := map[];
    }

    method CreateSession(s: GameSession)
      requires Valid()
      modifies this
      ensures sessions == old(sessions)[s.sessionId := s] && Valid()
    {
      sessions := sessions[s.sessionId := s];
    }

    method GetSession(id: string) returns (r: Result<GameSession, GameError>)
      ensures id in sessions ==> r == Ok(sessions[id])
      ensures id !in sessions ==> r == Err(SessionNotFound)
    {
      if id !in sessions {
        return Err(SessionNotFound);
      }
      return Ok(sessions[id]);
    }

    method UpdateSession(s: GameSession)
      requires Valid()
      modifies this
      ensures sessions == old(sessions)[s.sessionId := s] && Valid()
    {
      sessions := sessions[s.sessionId := s];
    }

    /** Start a game: draw up to ten flights, pad the draw to ten with its
        first flight, and store a new session under `sessionId` (the fresh
        identifier) started at `now`.  `geo`, `reload` and `rng` feed the
        draw; `j` and `pick` feed the display of the first flight. */
    method StartGame(
      username: string, d: Difficulty, sessionId: string, now: real,
      geo: Geometry, reload: Catalog.Reload, rng: nat -> nat, j: Jitter, pick: nat)
      returns (r: Result<StartGameResponse, GameError>)
      requires Valid() && |facts.fallbackFacts| > 0
      modifies this, flightService, facts
      ensures Valid()
      ensures flightService.airports == old(flightService.airports)
      ensures var pool := Catalog.SamplePool(old(flightService.flights), flightService.flights, d, geo.distanceKm);
        && (r.Err? <==> pool == [])
        && (r.Err? ==> r.error == NoFlights && sessions == old(sessions) && facts.cache == old(facts.cache))
        && (r.Ok? ==>
              exists fs :: IsDraw(fs, pool) && sessions == old(sessions)[sessionId := NewSession(sessionId, username, d, now, fs)])
      ensures r.Ok? ==>
        && r.value.sessionId == sessionId && r.value.difficulty == d
        && r.value.totalRounds == TotalRounds && r.value.currentRound == 1
        && sessionId in sessions && sessions[sessionId].rounds[0].flight.Some?
        && Displayed(sessions[sessionId].rounds[0].flight.value, d, j, geo.bearing, facts,
                     old(facts.cache), facts.cache, r.value.flight)
    {
      var drawn := flightService.GetRandomFlights(d, TotalRounds, geo, reload, rng);
      if |drawn| == 0 {
        return Err(NoFlights);
      }

      var flights := PadFlights(drawn);
      var rounds := MakeRounds(flights, now);
      var session := GameSession(sessionId, username, now, None, d, 0, rounds, InProgress);
      assert session == NewSession(sessionId, username, d, now, drawn);
      CreateSession(session);

      var first := PrepareFlightForDisplay(flights[0], d, j, geo.bearing, facts, pick);
      return Ok(StartGameResponse(sessionId, d, TotalRounds, 1, first));
    }

    /** Score `guess` for the current round of session `sessionId`.  `clock`
        is the reading the guess time is measured with, `now` the one that
        stamps the round; `j` and `pick` feed the display of the next flight. */
    method SubmitGuess(
      sessionId: string, guess: string, confidence: int, clock: real, now: real,
      geo: Geometry, j: Jitter, pick: nat)
      returns (r: Result<GuessResponse, GameError>)
      requires Valid() && |facts.fallbackFacts| > 0
      modifies this, facts
      ensures Valid()
      ensures sessionId !in old(sessions) ==>
        r == Err(SessionNotFound) && sessions == old(sessions) && facts.cache == old(facts.cache)
      ensures sessionId in old(sessions) && old(sessions)[sessionId].status == Completed ==>
        r == Err(GameCompleted) && sessions == old(sessions) && facts.cache == old(facts.cache)
      ensures sessionId in old(sessions) && old(sessions)[sessionId].status != Completed &&
              FirstPending(old(sessions)[sessionId].rounds).None? ==>
        r == Err(InvalidRound) && sessions == old(sessions) && facts.cache == old(facts.cache)
      ensures sessionId in old(sessions) && old(sessions)[sessionId].status != Completed &&
              FirstPending(old(sessions)[sessionId].rounds).Some? ==>
        var s := old(sessions)[sessionId];
        var idx := FirstPending(s.rounds).value;
        && sessions == old(sessions)[sessionId := Guessed(s, idx, guess, confidence, clock, now, flightService.airports, geo)]
        && r.Ok? && Answers(s, idx, guess, clock, flightService.airports, geo, j,
                            facts, old(facts.cache), facts.cache, r.value)
      // A non-empty guess keeps a well-formed session well formed.
      ensures sessionId in old(sessions) && WellFormed(old(sessions)[sessionId]) && guess != "" && r.Ok? ==>
        WellFormed(sessions[sessionId])
    {
      var found := GetSession(sessionId);
      if found.Err? {
        return Err(SessionNotFound);
      }
      var session := found.value;
      if session.status == Completed {
        return Err(GameCompleted);
      }
      var current := CurrentRoundIndex(session.rounds);
      if current.None? {
        return Err(InvalidRound);
      }
      var response := ScoreAndAdvance(session, current.value, guess, confidence, clock, now, geo, j, pick);
      if WellFormed(session) && guess != "" {
        GuessedPreservesWellFormed(session, guess, confidence, clock, now, flightService.airports, geo);
      }
      return Ok(response);
    }

    /** The success path of SubmitGuess for round `idx` of the stored
        `session`: score it, store the session, and on any round but the
        last restart the next round's clock and display its flight. */
    method ScoreAndAdvance(
      session: GameSession, idx: nat, guess: string, confidence: int, clock: real, now: real,
      geo: Geometry, j: Jitter, pick: nat)
      returns (response: GuessResponse)
      requires Valid() && |facts.fallbackFacts| > 0 && idx < |session.rounds|
      modifies this, facts
      ensures Valid()
      ensures sessions ==
        old(sessions)[session.sessionId := Guessed(session, idx, guess, confidence, clock, now, flightService.airports, geo)]
      ensures Answers(session, idx, guess, clock, flightService.airports, geo, j,
                      facts, old(facts.cache), facts.cache, response)
    {
      var recorded, score := RecordGuess(session, idx, guess, confidence, clock, now, flightService.airports, geo.distanceKm);
      UpdateSession(recorded);
      var s := recorded;
      var isGameOver := idx == TotalRounds - 1;
      var nextFlight: Option<Flight> := None;
      if !isGameOver && idx + 1 < |s.rounds| {
        s, nextFlight := StartNextRound(s, idx + 1, now, geo, j, pick);
      }
      response := GuessResponse(score, session.rounds[idx].roundNumber, isGameOver, nextFlight, s.totalScore);
    }

    /** Restart the clock of round `next` at `now`, store the session, and
        display the round's flight if it has one. */
    method StartNextRound(s: GameSession, next: nat, now: real, geo: Geometry, j: Jitter, pick: nat)
      returns (s2: GameSession, nextFlight: Option<Flight>)
      requires Valid() && |facts.fallbackFacts| > 0 && next < |s.rounds|
      modifies this, facts
      ensures Valid()
      ensures s2 == s.(rounds := s.rounds[next := s.rounds[next].(startedAt := now)])
      ensures sessions == old(sessions)[s.sessionId := s2]
      ensures nextFlight.Some? <==> s.rounds[next].flight.Some?
      ensures nextFlight.None? ==> facts.cache == old(facts.cache)
      ensures nextFlight.Some? ==>
        Displayed(s.rounds[next].flight.value, s.difficulty, j, geo.bearing, facts,
                  old(facts.cache), facts.cache, nextFlight.value)
    {
      var round := s.rounds[next].(startedAt := now);
      s2 := s.(rounds := s.rounds[next := round]);
      UpdateSession(s2);
      nextFlight := None;
      if round.flight.Some? {
        var prepared := PrepareFlightForDisplay(round.flight.value, s.difficulty, j, geo.bearing, facts, pick);
        nextFlight := Some(prepared);
      }
    }

    /** End a game at time `now`: an unfinished game becomes completed; a
        completed one is left as it is.  The rank is always 0 here. */
    method EndGame(sessionId: string, now: real) returns (r: Result<EndGameResponse, GameError>)
      requires Valid()
      modifies this
      ensures Valid()
      ensures sessionId !in old(sessions) ==> r == Err(SessionNotFound) && sessions == old(sessions)
      ensures sessionId in old(sessions) ==>
        var e := Ended(old(sessions)[sessionId], now);
        && sessions == (if old(sessions)[sessionId].status == Completed then old(sessions)
                        else old(sessions)[sessionId := e])
        && r == Ok(EndGameResponse(e.sessionId, e.totalScore, e.rounds, 0, e.difficulty))
    {
      var found := GetSession(sessionId);
      if found.Err? {
        return Err(SessionNotFound);
      }
      var session := found.value;
      if session.status != Completed {
        session := session.(status := Completed, endedAt := Some(now));
        UpdateSession(session);
      }
      return Ok(EndGameResponse(session.sessionId, session.totalScore, session.rounds, 0, session.difficulty));
    }
  }

  /** The session store returns what was last stored under a key. */
  method StoredSessionIsFound(service: GameService, s: GameSession) returns (r: Result<GameSession, GameError>)
    requires service.Valid()
    modifies service
    ensures r == Ok(s)
  {
    service.CreateSession(s);
    r := service.GetSession(s.sessionId);
  }
}
