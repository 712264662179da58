/** The client's game store: the state of the game on screen (status, session,
    round counter, current flight, score, last result, selection) and the
    actions the screens call to move it along.  `now` stands for the clock
    reading the store takes when a round starts. */
module GameStore {
  import opened Models

  datatype GameStatus = Idle | Playing | Finished

  /** Every field of the store, as one value. */
  datatype State = State(
    status: GameStatus,
    sessionId: Option<string>,
    username: string,
    currentRound: int,
    totalRounds: int,
    currentFlight: Option<Flight>,
    roundStartTime: Option<real>,
    totalScore: int,
    rounds: seq<Round>,
    lastScore: Option<ScoreResult>,
    selectedAirport: Option<string>,
    showResult: bool)

  /** The state before any game, and after a reset. */
  const Initial := State(Idle, None, "", 0, 10, None, None, 0, [], None, None, false)

  // ---------------------------------------------------------------------
  // The actions, as functions of the state

  function AfterStart(s: State, sessionId: string, flight: Flight, totalRounds: int, now: real): State {
    s.(status := Playing, sessionId := Some(sessionId), currentRound := 1, totalRounds := totalRounds,
       currentFlight := Some(flight), roundStartTime := Some(now), totalScore := 0, rounds := [],
       lastScore := None, selectedAirport := None, showResult := false)
  }

  function AfterSetFlight(s: State, flight: Flight, now: real): State {
    s.(currentFlight := Some(flight), roundStartTime := Some(now))
  }

  function AfterSelect(s: State, iata: Option<string>): State {
    s.(selectedAirport := iata)
  }

  /** Record a scored guess: the next flight replaces the current one unless
      the game is over, which finishes it. */
  function AfterGuess(s: State, score: ScoreResult, nextFlight: Option<Flight>, isGameOver: bool): State {
    s.(lastScore := Some(score), totalScore := s.totalScore + score.totalPoints, showResult := true,
       currentFlight := if isGameOver then s.currentFlight else nextFlight,
       status := if isGameOver then Finished else s.status)
  }

  function AfterNextRound(s: State, now: real): State {
    s.(currentRound := s.currentRound + 1, roundStartTime := Some(now), selectedAirport := None,
       showResult := false, lastScore := None)
  }

  /** The final rounds from the server; the rank it sends is not kept. */
  function AfterEndGame(s: State, rounds: seq<Round>, rank: int): State {
    s.(status := Finished, rounds := rounds, showResult := false)
  }

  // ---------------------------------------------------------------------
  // Properties of the actions

  /** A result is shown only while there is a last score to show. */
  predicate ResultHasScore(s: State) {
    s.showResult ==> s.lastScore.Some?
  }

  /** Every action keeps a shown result backed by a score. */
  lemma ActionsKeepResultHasScore(
    s: State, sessionId: string, flight: Flight, totalRounds: int, now: real, iata: Option<string>,
    score: ScoreResult, nextFlight: Option<Flight>, isGameOver: bool, rounds: seq<Round>, rank: int,
    username: string)
    requires ResultHasScore(s)
    ensures ResultHasScore(Initial)
    ensures ResultHasScore(AfterStart(s, sessionId, flight, totalRounds, now))
    ensures ResultHasScore(AfterSetFlight(s, flight, now))
    ensures ResultHasScore(AfterSelect(s, iata))
    ensures ResultHasScore(AfterGuess(s, score, nextFlight, isGameOver))
    ensures ResultHasScore(AfterNextRound(s, now))
    ensures ResultHasScore(AfterEndGame(s, rounds, rank))
    ensures ResultHasScore(s.(username := username))
  {
  }

  /** Once finished, a game stays finished until a new game or a reset:
      no other action brings it back. */
  lemma FinishedIsSticky(
    s: State, username: string, flight: Flight, now: real, iata: Option<string>,
    score: ScoreResult, nextFlight: Option<Flight>, isGameOver: bool, rounds: seq<Round>, rank: int)
    requires s.status == Finished
    ensures s.(username := username).status == Finished
    ensures AfterSetFlight(s, flight, now).status == Finished
    ensures AfterSelect(s, iata).status == Finished
    ensures AfterGuess(s, score, nextFlight, isGameOver).status == Finished
    ensures AfterNextRound(s, now).status == Finished
    ensures AfterEndGame(s, rounds, rank).status == Finished
  {
  }

  /** Only a game-over guess or the end of the game finishes a game in play. */
  lemma GuessFinishesOnlyAtGameOver(s: State, score: ScoreResult, nextFlight: Option<Flight>, isGameOver: bool)
    requires s.status == Playing
    ensures AfterGuess(s, score, nextFlight, isGameOver).status == Finished <==> isGameOver
    ensures !isGameOver ==> AfterGuess(s, score, nextFlight, isGameOver).currentFlight == nextFlight
    ensures isGameOver ==> AfterGuess(s, score, nextFlight, isGameOver).currentFlight == s.currentFlight
  {
  }

  /** Sum of the points of a list of scores. */
  function TotalPoints(scores: seq<ScoreResult>): int
    decreases |scores|
  {
    if scores == [] then 0 else TotalPoints(scores[..|scores| - 1]) + scores[|scores| - 1].totalPoints
  }

  /** Rounds played one after another: a guess that does not end the game,
      then the move to the next round, each round starting at `now`. */
  function PlayRounds(s: State, scores: seq<ScoreResult>, flights: seq<Option<Flight>>, now: real): State
    requires |flights| == |scores|
    decreases |scores|
  {
    if scores == [] then s
    else
      var k := |scores| - 1;
      AfterNextRound(AfterGuess(PlayRounds(s, scores[..k], flights[..k], now), scores[k], flights[k], false), now)
  }

  /** After a new game and any number of rounds the score is the sum of the
      rounds' points, the round counter has advanced once per round, the game
      is still in play, and nothing is selected or shown. */
  lemma {:induction false} RoundsAccumulate(
    s: State, sessionId: string, flight: Flight, totalRounds: int, now: real,
    scores: seq<ScoreResult>, flights: seq<Option<Flight>>)
    requires |flights| == |scores|
    ensures var t := PlayRounds(AfterStart(s, sessionId, flight, totalRounds, now), scores, flights, now);
      && t.totalScore == TotalPoints(scores)
      && t.currentRound == 1 + |scores|
      && t.status == Playing
      && t.sessionId == Some(sessionId)
      && t.selectedAirport == None && !t.showResult && t.lastScore == None
      && t.currentFlight == (if scores == [] then Some(flight) else flights[|flights| - 1])
    decreases |scores|
  {
    if scores != [] {
      var k := |scores| - 1;
      RoundsAccumulate(s, sessionId, flight, totalRounds, now, scores[..k], flights[..k]);
    }
  }

  // ---------------------------------------------------------------------
  // The store

  class Store {
    var status: GameStatus
    var sessionId: Option<string>
    var username: string
    var currentRound: int
    var totalRounds: int
    var currentFlight: Option<Flight>
    var roundStartTime: Option<real>
    var totalScore: int
    var rounds: seq<Round>
    var lastScore: Option<ScoreResult>
    var selectedAirport: Option<string>
    var showResult: bool

    /** The store's fields as one value. */
    function Snapshot(): State
      reads this
    {
      State(status, sessionId, username, currentRound, totalRounds, currentFlight, roundStartTime,
            totalScore, rounds, lastScore, selectedAirport, showResult)
    }

    constructor()
      ensures Snapshot() == Initial
    {
      status := Idle;
      sessionId := None;
      username := "";
      currentRound := 0;
      totalRounds := 10;
      currentFlight := None;
      roundStartTime := None;
      totalScore := 0;
      rounds := [];
      lastScore := None;
      selectedAirport := None;
      showResult := false;
    }

    method SetUsername(name: string)
      modifies this
      ensures Snapshot() == old(Snapshot()).(username := name)
    {
      username := name;
    }

    method StartGame(id: string, flight: Flight, total: int, now: real)
      modifies this
      ensures Snapshot() == AfterStart(old(Snapshot()), id, flight, total, now)
    {
      status, sessionId, currentRound, totalRounds, currentFlight, roundStartTime :=
        Playing, Some(id), 1, total, Some(flight), Some(now);
      totalScore, rounds, lastScore, selectedAirport, showResult := 0, [], None, None, false;
    }

    method SetCurrentFlight(flight: Flight, now: real)
      modifies this
      ensures Snapshot() == AfterSetFlight(old(Snapshot()), flight, now)
    {
      currentFlight := Some(flight);
      roundStartTime := Some(now);
    }

    method SelectAirport(iata: Option<string>)
      modifies this
      ensures Snapshot() == AfterSelect(old(Snapshot()), iata)
    {
      selectedAirport := iata;
    }

    method SubmitGuess(score: ScoreResult, nextFlight: Option<Flight>, isGameOver: bool)
      modifies this
      ensures Snapshot() == AfterGuess(old(Snapshot()), score, nextFlight, isGameOver)
    {
      lastScore := Some(score);
      totalScore := totalScore + score.totalPoints;
      showResult := true;
      if !isGameOver {
        currentFlight := nextFlight;
      }
      if isGameOver {
        status := Finished;
      }
    }

    method NextRound(now: real)
      modifies this
      ensures Snapshot() == AfterNextRound(old(Snapshot()), now)
    {
      currentRound := currentRound + 1;
      roundStartTime := Some(now);
      selectedAirport := None;
      showResult := false;
      lastScore := None;
    }

    method EndGame(finalRounds: seq<Round>, rank: int)
      modifies this
      ensures Snapshot() == AfterEndGame(old(Snapshot()), finalRounds, rank)
    {
      status := Finished;
      rounds := finalRounds;
      showResult := false;
    }

    method ResetGame()
      modifies this
      ensures Snapshot() == Initial
    {
      status := Idle;
      sessionId := None;
      username := "";
      currentRound := 0;
      totalRounds := 10;
      currentFlight := None;
      roundStartTime := None;
      totalScore := 0;
      rounds := [];
      lastScore := None;
      selectedAirport := None;
      showResult := false;
    }
  }
}
