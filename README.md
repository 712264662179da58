# skyQuest game core in Dafny

skyQuest is a flight-guessing game. The server shows the player a live
flight with its destination hidden. The player guesses the arrival airport
and is scored by how close the guess is and how fast it came. A game is ten
rounds, and each finished game goes onto a leaderboard.

This project models the deterministic core of that game and proves
properties of the model:

- the scoring engine: airport tiers, difficulty and speed multipliers, and truncation to whole points;
- the session state machine: a game runs from `in_progress` to `completed` over exactly ten rounds;
- the masking of a flight for display;
- the in-memory leaderboard;
- the flight catalog's filtering, sampling, airport lookup and enrichment;
- the city-fact memo cache;
- the conversion of the flight provider's records into catalog flights;
- the client's airport search, its score labels, and its game store.

Each source file is one module:

| module | file |
|---|---|
| `Models`, `Text`, `Geo` | shared shapes, string helpers, and the parameters that stand for trigonometry and random draws |
| `Catalog` | `server/internal/services/flight.go` |
| `CityFacts` | `server/pkg/hints/cityfacts.go` |
| `Aviation` | `server/pkg/aviation/client.go` |
| `Scoring`, `Display`, `Sessions` | `server/internal/services/game.go` |
| `Leaderboard` | `server/internal/services/score.go` |
| `AirportSearch` | `client/src/utils/airports.ts` |
| `ScoreLabels` | `client/src/utils/scoring.ts` |
| `GameStore` | `client/src/store/gameStore.ts` |

Pure code is written as functions and lemmas. Code that changes state is
written as classes with `modifies` clauses:

- the session store, the score store, the flight catalog and the fact cache;
- the client store, whose twelve fields are read back as one `State` value by `Snapshot()`.

Each such method is proved against a specification function of the old
state. The properties are then proved about those functions.

Nondeterminism is passed in as parameters:

- the clock is `now` or `clock`, in seconds, as a `real`;
- session identifiers are a `sessionId` parameter;
- the shuffle's draws are `rng`;
- the fact cache's draw is `pick`;
- the display telemetry is a `Jitter` record;
- the great-circle distance and the bearing are functions in a `Geometry` record.

Multipliers are kept in tenths, so a round scores `base * d10 * s10 / 100`
with integer division. The Go code instead truncates the float64 product
`base * dm * sm`. The two agree on every input that occurs:

- the bases (1000, 750, 500, 250, 0) and the multipliers 1.0, 1.5 and 2.0 are exact in binary;
- 1.1 and 1.3 round upward as float64, so the float product never falls below the exact product;
- the float product never reaches the next integer, because the exact products are multiples of 0.01 or whole.

## Model

| member | source | states |
|---|---|---|
| Text.FirstIndexFrom | server/internal/services/flight.go:275-282 | The result is -1 or an occurrence at or after `from`, and there is no occurrence between `from` and the result |
| Text.FirstIndex | server/internal/services/flight.go:275-282 | The result is the smallest index where `sub` occurs, or -1 when it occurs nowhere |
| Text.Contains | client/src/utils/airports.ts:88-91 | `includes` holds exactly when some index is an occurrence |
| Text.Lower | client/src/utils/airports.ts:84 | Lower-casing keeps the length and maps each character |
| Text.Upper | client/src/utils/airports.ts:97 | Upper-casing keeps the length and maps each character |
| Catalog.IndexOfStr | server/internal/services/flight.go:275-282 | The loop returns the first occurrence of `sub`, with none before it, or -1 exactly when there is no occurrence |
| Catalog.ExtractCityFromAirportName | server/internal/services/flight.go:263-273 | The loop over the five suffixes computes `CityOf(name)` |
| Catalog.CityOf | server/internal/services/flight.go:263-273 | The derived city is a prefix of the airport name |
| Catalog.CutAllIsPrefix | server/internal/services/flight.go:263-273 | Cutting at the suffixes gives a prefix of the name, and the whole name when no suffix occurs past index 0 |
| Catalog.CityOfIsPrefix | server/internal/services/flight.go:263-273 | The derived city is a prefix of the airport name, and equals the name when no cut applies |
| Catalog.PrefixKeepsNoLateOccurrence | server/internal/services/flight.go:266-270 | A prefix of a string with no occurrence past index 0 has none either |
| Catalog.CutAtSettles | server/internal/services/flight.go:266-270 | After a cut at a suffix, that suffix occurs at most at index 0 |
| Catalog.CutAllSettles | server/internal/services/flight.go:263-273 | After all the cuts, no suffix occurs past index 0 |
| Catalog.CityOfIdempotent | server/internal/services/flight.go:263-273 | Deriving the city of a derived city changes nothing |
| Catalog.IndexIntoLookup | server/internal/services/flight.go:131-133 | After keying the table by IATA code, a code is present exactly when it was present before or some row has it. The last such row wins, and untouched keys keep their airport |
| Catalog.AirportIndexLookup | server/internal/services/flight.go:131-133 | A code is in the airport index exactly when some row has it, and it maps to the last such row |
| Catalog.MatchingMembers | server/internal/services/flight.go:285-296 | A flight is among the filtered flights exactly when it is in the catalog and matches the difficulty; the filter never grows the list |
| Catalog.MatchesDifficulty | server/internal/services/flight.go:374-395 | Hard, and any difficulty other than easy and medium, accepts every flight; a domestic flight of at most 5000 km is accepted at every difficulty |
| Catalog.MatchingUnfiltered | server/internal/services/flight.go:374-395 | Hard, and any difficulty other than easy and medium, filters nothing out |
| Catalog.EnrichedAirports | server/internal/services/flight.go:187-202 | A departure or arrival whose code is in the table is replaced by the table row. An unknown arrival with an empty city and a non-empty name gets its city from the name. Otherwise the airport is kept |
| Catalog.EnrichedKeepsIdentity | server/internal/services/flight.go:187-236 | Enrichment keeps the flight's id, number, callsign and airline, and moves the flight only when its departure airport has coordinates |
| Catalog.Shuffle | server/internal/services/flight.go:327-334 | The Fisher-Yates loop leaves a permutation of the array |
| Catalog.FlightService.constructor | server/internal/services/flight.go:26-37 | A new catalog holds the airport table keyed by code and the first loaded snapshot |
| Catalog.FlightService.InitializeAirports | server/internal/services/flight.go:75-133 | The airport map becomes the old map with the table's rows inserted by code; the flights are untouched |
| Catalog.FlightService.UpdateFlights | server/internal/services/flight.go:179-183 | The snapshot is replaced wholesale, and the airports are untouched |
| Catalog.FlightService.GetAirport | server/internal/services/flight.go:351-356 | Returns (airport, true) exactly for keyed codes, else the zero airport and false |
| Catalog.FlightService.EnrichOne | server/internal/services/flight.go:187-202 | One loop step computes the enriched flight |
| Catalog.FlightService.EnrichFlights | server/internal/services/flight.go:187-236 | Every slot of the array is replaced in place by its enriched flight |
| Catalog.FlightService.LoadInitialFlights | server/internal/services/flight.go:40-72 | A non-empty cached snapshot wins, else the enriched provider flights, else the catalog is kept |
| Catalog.FlightService.GetFlights | server/internal/services/flight.go:285-296 | The loop returns the matching catalog flights in catalog order |
| Catalog.FlightService.GetRandomFlights | server/internal/services/flight.go:299-335 | An empty catalog triggers one reload. The pool is the matching flights, else the whole catalog. The result has min(n, pool size) flights, each drawn from the pool no more often than it occurs there (the first elements of a permutation of the pool); it is empty only when the pool is |
| CityFacts.FactStore.constructor | server/pkg/hints/cityfacts.go:8-12 | The cache starts empty over the given fact tables |
| CityFacts.FactStore.GetCityFact | server/pkg/hints/cityfacts.go:332-362 | An empty city gives "" and leaves the cache alone. A hit returns the stored fact unchanged. A miss returns one of the city's facts (or a fallback fact) and stores it under `city + "-" + seed` |
| CityFacts.FactStore.ClearCache | server/pkg/hints/cityfacts.go:365-369 | The cache is empty afterwards |
| CityFacts.RepeatedLookupIsStable | server/pkg/hints/cityfacts.go:338-361 | Two lookups with the same city and seed return the same fact, and that fact is stored |
| CityFacts.LookupAfterClearMisses | server/pkg/hints/cityfacts.go:349-369 | After clearing, a lookup of a non-empty city is a miss: it draws a candidate, and the cache holds only that key |
| Aviation.AircraftICAO24 | server/pkg/aviation/client.go:201-211 | A missing aircraft block gives "" |
| Aviation.AircraftIATA | server/pkg/aviation/client.go:213-223 | A missing aircraft block gives "" |
| Aviation.AircraftICAO | server/pkg/aviation/client.go:225-235 | A missing aircraft block gives "" |
| Aviation.AircraftReg | server/pkg/aviation/client.go:237-247 | A missing aircraft block gives "" |
| Aviation.FlightIdChain | server/pkg/aviation/client.go:147-153 | For a kept record the id is never empty. It is the aircraft's ICAO24 if set, else the flight IATA code, else `flightIATA-dep-arr` |
| Aviation.Convert | server/pkg/aviation/client.go:147-192 | The flight carries the fallback-chain id, the record's airport codes and names with city, country and position blank for enrichment, no hint, and the conversion time |
| Aviation.ConvertFields | server/pkg/aviation/client.go:155-192 | The callsign, number, status and airport codes and names are copied. The aircraft fields come from the helpers. Position and speeds come from the live block if present, else they are zero |
| Aviation.KeptIsFilter | server/pkg/aviation/client.go:138-144 | The kept records are exactly the input records with both airport codes set, never more than the input |
| Aviation.KeptStep | server/pkg/aviation/client.go:138-144 | One more input record is appended to the kept records exactly when it is complete |
| Aviation.ConvertRecord | server/pkg/aviation/client.go:147-192 | One loop step builds the converted flight of a record |
| Aviation.ConvertToFlights | server/pkg/aviation/client.go:137-198 | The output is the conversion of the complete records in input order, no longer than the input. Each flight has a non-empty id and non-empty departure and arrival codes |
| Aviation.ConvertedAreComplete | server/pkg/aviation/client.go:142-170 | Converted complete records carry a non-empty id and both airport codes |
| Scoring.DifficultyMultiplier10 | server/internal/services/game.go:330-341 | Medium is 1.5, hard is 2.0, and easy or any other value is 1.0 |
| Scoring.SpeedMultiplier10 | server/internal/services/game.go:343-350 | 1.3 exactly when the guess took at most 10 s, 1.0 exactly when it took over 30 s, 1.1 in between |
| Scoring.SpeedMultiplierAntitone | server/internal/services/game.go:343-350 | A faster guess never gets a smaller speed multiplier |
| Scoring.PointsBounds | server/internal/services/game.go:325 | The truncated product is between the base and 2600, and is 0 exactly when the base is 0 |
| Scoring.PointsMonotone | server/internal/services/game.go:325 | The truncated product is monotone in the base and both multipliers |
| Scoring.ResolveActual | server/internal/services/game.go:273-278 | The stored arrival is used unless its code is "" or "???"; otherwise the code is looked up in the table |
| Scoring.CalculateScore | server/internal/services/game.go:264-328 | The result records both multipliers, the base of its match type, and the truncated points in base..2600 (0 exactly when the base is 0). It also records the resolved actual and guessed airports |
| Scoring.ExactMatchScore | server/internal/services/game.go:289-293 | Equal codes score 1000, "exact", distance 0, even when neither code resolves |
| Scoring.TierOrder | server/internal/services/game.go:294-318 | For different codes that both resolve, the first matching tier wins: same city, then same country, then distance ≤ 500 km, else wrong; the distance is recorded |
| Scoring.FamilyBeatsDistance | server/internal/services/game.go:294-318 | Same city scores the family tier even when the distance tier would also hold |
| Scoring.UnresolvedIsWrong | server/internal/services/game.go:319-322 | Different codes where either airport does not resolve score 0, "wrong", distance 0 |
| Scoring.FasterNeverScoresLess | server/internal/services/game.go:325-350 | The same guess made faster never scores less |
| Scoring.ExactScores | server/internal/services/game.go:325-350 | Worked values: 1300, 1950, 2600, 2000, 1237 and 487 |
| Display.Centre | server/internal/services/game.go:363-367 | A departure at (0, 0) is replaced by (40, -74); otherwise the departure's coordinates are used |
| Display.Masked | server/internal/services/game.go:353-426 | The arrival is always hidden. Medium and hard clear the flight number and callsign, and hard also clears the airline and hides the departure. Only easy with a known arrival city gets the hint. Identity and aircraft are kept, and the position and telemetry come from the draws |
| Display.ShownNearCentre | server/internal/services/game.go:375-393 | With draws in the generator's ranges, the shown position is 0.3 to 1.0 degrees from the centre, and altitude, speed and vertical rate are within their ranges |
| Display.HeadingTowardsArrival | server/internal/services/game.go:369-388 | The heading aims at the arrival, or at the centre plus (5, 5) when the arrival has no coordinates |
| Display.PrepareFlightForDisplay | server/internal/services/game.go:353-426 | The flight is masked. In easy mode with a known arrival city, the hint is the cached fact for the city and flight id; on a miss it is drawn from the city's facts and memoised. Otherwise the hint is the flight's own and the cache is untouched |
| Sessions.Padded | server/internal/services/game.go:53-55 | The padded draw has ten flights, starts with the draw, and repeats its first flight after it |
| Sessions.FirstPendingFrom | server/internal/services/game.go:112-125 | The result is the first round at or after `from` whose guess is empty, or None when every such round is guessed |
| Sessions.FirstPending | server/internal/services/game.go:112-125 | The current round is the first with an empty guess; None exactly when every round has a guess |
| Sessions.SumPointsZero | server/internal/services/game.go:61-82 | Rounds worth nothing sum to 0 |
| Sessions.SumPointsUpdate | server/internal/services/game.go:146-153 | Replacing one round changes the sum by the difference of its points |
| Sessions.SumPointsBounds | server/internal/services/game.go:146-153 | Rounds worth 0..2600 each sum to between 0 and 2600 times their number |
| Sessions.NewSessionWellFormed | server/internal/services/game.go:53-82 | A new session is well formed and in progress, with total 0 and no end time. Round i plays flight i of the draw, later rounds play the first flight, all rounds start now, and the current round is the first |
| Sessions.InProgressHasCurrentRound | server/internal/services/game.go:108-125 | A well-formed session in progress always has a round with an empty guess |
| Sessions.ScoringKeepsRounds | server/internal/services/game.go:144-150 | Scoring the current round with a non-empty guess keeps the rounds well formed |
| Sessions.RestartKeepsRounds | server/internal/services/game.go:170-174 | Restarting a round's clock keeps the rounds well formed and their sum |
| Sessions.GuessPreservesWellFormed | server/internal/services/game.go:144-161 | A non-empty guess with points in range keeps the session well formed, and adds the points to the total |
| Sessions.GuessedPreservesWellFormed | server/internal/services/game.go:144-161 | Scoring a non-empty guess for the current round of a well-formed unfinished session, at any clock reading, keeps it well formed |
| Sessions.TenthGuessEndsGame | server/internal/services/game.go:156-163 | The session becomes completed, with its end time set, exactly when the nine earlier rounds are guessed |
| Sessions.GuessTouchesOnlyCurrentRound | server/internal/services/game.go:144-174 | A guess writes the guess, points and completion time into the current round only. It restarts the next round's clock unless the game ended, and leaves every other round as it was |
| Sessions.TotalScoreBounds | server/internal/services/game.go:146-153 | A well-formed session's total is between 0 and 26000 |
| Sessions.Ended | server/internal/services/game.go:198-206 | The ended session is completed and keeps its id, rounds and total; a completed session is returned unchanged |
| Sessions.EndedProperties | server/internal/services/game.go:198-206 | Ending completes the game and keeps its rounds, total and well-formedness. Ending twice is ending once, and an already completed session is unchanged |
| Sessions.CurrentRoundIndex | server/internal/services/game.go:112-125 | The scanning loop finds the first round with an empty guess |
| Sessions.PadFlights | server/internal/services/game.go:53-55 | The padding loop repeats the first flight until there are ten |
| Sessions.MakeRounds | server/internal/services/game.go:61-72 | The loop fills round i, numbered i + 1, with flight i, started now |
| Sessions.RecordGuess | server/internal/services/game.go:127-161 | The guess is scored against the round's flight and timed from the round's start. The session records it in the current round, adds the points, and completes the game on the tenth round |
| Sessions.GameService.constructor | server/internal/services/game.go:36-42 | The session store starts empty |
| Sessions.GameService.CreateSession | server/internal/services/game.go:227-236 | The session is stored under its own id |
| Sessions.GameService.GetSession | server/internal/services/game.go:238-250 | A stored id returns its session; any other id is ErrSessionNotFound |
| Sessions.GameService.UpdateSession | server/internal/services/game.go:252-261 | The session replaces whatever was stored under its id |
| Sessions.GameService.StartGame | server/internal/services/game.go:45-99 | An empty pool is ErrNoFlights and changes neither sessions nor the fact cache. Otherwise a new session from some draw of the pool is stored under the given id. The response is round 1 of 10, with the first flight displayed and the fact cache updated as that display requires |
| Sessions.GameService.SubmitGuess | server/internal/services/game.go:102-189 | An unknown id is ErrSessionNotFound, a completed game is ErrGameCompleted, and no pending round is ErrInvalidRound; none of these changes the sessions or the fact cache. Otherwise the current round is scored and stored, the next flight is displayed with its hint and cache update, and a well-formed session stays well formed |
| Sessions.GameService.ScoreAndAdvance | server/internal/services/game.go:127-189 | The scored session is stored. The response carries the score, the game-over flag and the next round's displayed flight with its hint; the fact cache changes only through that display |
| Sessions.GameService.StartNextRound | server/internal/services/game.go:168-180 | The next round's clock restarts now, and the session is stored. The next flight is that round's flight displayed, with the easy-mode hint taken from the fact cache; without a flight the cache is untouched |
| Sessions.GameService.EndGame | server/internal/services/game.go:192-218 | An unknown id is ErrSessionNotFound. An unfinished game is completed with its end time set; a completed game is left as it is. The response carries the session's total and rounds |
| Sessions.StoredSessionIsFound | server/internal/services/game.go:227-250 | What was last stored under an id is what a lookup of that id returns |
| Leaderboard.KeyInjective | server/internal/services/score.go:38 | Keys `username:difficulty` identify the pair when difficulties hold no ':' |
| Leaderboard.KnownDifficultyKeys | server/internal/services/score.go:38-39 | For the three difficulties, equal keys mean the same user and difficulty |
| Leaderboard.Saved | server/internal/services/score.go:41-56 | The store gains the player's key and no other. That entry's best is at least the new score and at least the old best, and it is stamped now. Every other entry is unchanged |
| Leaderboard.SavedEntry | server/internal/services/score.go:41-56 | A first save creates the entry with the score and one game. A later save keeps the higher score and counts one more game. The entry is stamped, and every other entry is kept |
| Leaderboard.BestNeverDecreases | server/internal/services/score.go:41-56 | No save lowers any stored best score |
| Leaderboard.SaveTwiceExample | server/internal/services/score.go:41-56 | Saving 500 then 300 keeps 500 and counts two games |
| Leaderboard.EffectiveLimit | server/internal/services/score.go:63-65 | A limit of 0 or less means 10; a positive limit is kept |
| Leaderboard.Insert | server/internal/services/score.go:83-86 | Inserting into a list sorted by score, highest first, keeps it sorted and adds exactly the entry |
| Leaderboard.SortByScore | server/internal/services/score.go:83-86 | The sort gives a permutation of its input, non-increasing by score |
| Leaderboard.Ranked | server/internal/services/score.go:88-91 | Entry i gets rank i + 1 |
| Leaderboard.Top | server/internal/services/score.go:92-94 | The cut keeps the first min(n, limit) entries |
| Leaderboard.RankedTop | server/internal/services/score.go:83-94 | Ranking then cutting a sorted list keeps its order and its entries, apart from their ranks |
| Leaderboard.LeaderboardOfSorted | server/internal/services/score.go:76-94 | Ranking and cutting a sorted selection without repeats gives a leaderboard |
| Leaderboard.RankIn | server/internal/services/score.go:106-112 | The rank is 1 + the position of the user's first entry, or 0 exactly when the user has none |
| Leaderboard.StrictLeaderIsFirst | server/internal/services/score.go:83-94 | An entry that outscores every other selected entry heads the leaderboard |
| Leaderboard.RankMeansEntry | server/internal/services/score.go:100-113 | A positive rank means the user has a selected entry; no entry means rank 0 |
| Leaderboard.DuplicateCounted | server/internal/services/score.go:75-79 | An entry that appears at two positions of a list is counted at least twice in it |
| Leaderboard.DistinctCountedOnce | server/internal/services/score.go:75-79 | In a list without repeats every entry is counted at most once |
| Leaderboard.PermutationKeepsDistinct | server/internal/services/score.go:82-84 | Reordering a list without repeats, as the sort does, introduces none |
| Leaderboard.CollectedIsSelection | server/internal/services/score.go:75-80 | Entries collected once per selected key are exactly the selection, and in a valid store no entry repeats |
| Leaderboard.CollectSelected | server/internal/services/score.go:75-80 | The filtering loop collects each selected entry once: all entries for an empty difficulty, else only that difficulty, and none twice |
| Leaderboard.AssignRanks | server/internal/services/score.go:88-91 | The loop numbers the entries 1, 2, ... in order |
| Leaderboard.ScoreService.constructor | server/internal/services/score.go:21-26 | The store starts empty |
| Leaderboard.ScoreService.SaveScore | server/internal/services/score.go:29-56 | The store becomes the old store with the session's score saved under `username:difficulty` |
| Leaderboard.ScoreService.GetLeaderboard | server/internal/services/score.go:62-97 | The result is a leaderboard of the selection under the effective limit. It is sorted by score with ranks 1..n, shows each entry of the selection at most once, and leaves out only entries scoring no more than any shown |
| Leaderboard.ScoreService.GetUserRank | server/internal/services/score.go:100-113 | The rank is the user's rank in a top-100 leaderboard of the difficulty, with no entry repeated, or 0, and lies in 0..100 |
| AirportSearch.Matches | client/src/utils/airports.ts:86-92 | The filter is never longer than the table |
| AirportSearch.SliceEnd | client/src/utils/airports.ts:93 | `slice(0, limit)` ends at min(limit, n) for a non-negative limit and counts back from the end for a negative one |
| AirportSearch.SearchAirports | client/src/utils/airports.ts:81-94 | A query shorter than 2 gives []. Otherwise the result is the first matches up to the limit |
| AirportSearch.MatchesIsFilter | client/src/utils/airports.ts:86-92 | An airport is a match exactly when it is in the table and matches the query; the matches keep table order |
| AirportSearch.PrefixOfSubsequence | client/src/utils/airports.ts:93 | Cutting an ordered subsequence keeps it an ordered subsequence |
| AirportSearch.SearchResultsMatch | client/src/utils/airports.ts:81-94 | Results are an order-preserving subsequence of the table, and each contains the lower-cased query in its code, name, city or country |
| AirportSearch.SearchWithinLimit | client/src/utils/airports.ts:81-94 | There are at most `limit` results, and fewer only when every match is among them |
| AirportSearch.DefaultSearchShowsTen | client/src/utils/airports.ts:81-94 | With the default limit of 10, at most ten airports are shown, and fewer only when every match is shown |
| AirportSearch.GetAirportByIata | client/src/utils/airports.ts:96-98 | The result is the first airport whose code equals the argument ignoring case, or none exactly when no code does |
| AirportSearch.LookupIgnoresCase | client/src/utils/airports.ts:96-98 | Looking up a code, its upper-case form or its lower-case form gives the same airport |
| AirportSearch.LookupDependsOnUpper | client/src/utils/airports.ts:97 | Codes with the same upper-case form find the same airport |
| ScoreLabels.DifficultyLabel | client/src/utils/scoring.ts:3-10 | The label is the difficulty with its first letter capitalised |
| ScoreLabels.DifficultyColor | client/src/utils/scoring.ts:12-19 | The text colour is the difficulty's hue at shade 400: emerald, amber or rose |
| ScoreLabels.DifficultyBgColor | client/src/utils/scoring.ts:21-28 | Background and border are the same hue as the text colour, at shade 500 |
| ScoreLabels.DifficultyStylesDistinct | client/src/utils/scoring.ts:3-28 | Different difficulties have different labels, colours and backgrounds |
| ScoreLabels.MatchTypeLabel | client/src/utils/scoring.ts:30-39 | "Unknown" exactly for a string that is not one of the five match types |
| ScoreLabels.MatchTypeColor | client/src/utils/scoring.ts:41-50 | "text-gray-400" exactly for a string that is not one of the five match types |
| ScoreLabels.MatchTypeStylesDistinct | client/src/utils/scoring.ts:30-50 | The five match types have five different labels and five different colours |
| ScoreLabels.ScoredMatchTypesAreLabelled | client/src/utils/scoring.ts:30-50 | Every match type the server's scoring produces has its own label and colour |
| ScoreLabels.SpeedBonusLabel | client/src/utils/scoring.ts:75-79 | "Lightning Fast!" exactly at 1.3 and up, "Quick!" exactly from 1.1 to below 1.3, "" exactly below 1.1 |
| ScoreLabels.SpeedBadgeMatchesGuessTime | client/src/utils/scoring.ts:75-79 | On the server's multipliers, the badge says the guess took at most 10 s, 10 to 30 s, or longer |
| ScoreLabels.CalculateMaxScore | client/src/utils/scoring.ts:81-89 | 13000 for easy, 19500 for medium, 26000 for hard |
| ScoreLabels.MaxScoreIsTenBestRounds | client/src/utils/scoring.ts:81-89 | The maximum is ten exact guesses within 10 s, and ten of any round's score never exceed it |
| ScoreLabels.NatToString | client/src/utils/scoring.ts:59-62 | At least one digit, all digits, and no leading zero except for 0 itself |
| ScoreLabels.NatToStringRoundTrip | client/src/utils/scoring.ts:59-62 | Reading the digits back gives the number |
| ScoreLabels.LeadingZero | client/src/utils/scoring.ts:62 | A leading zero does not change the value |
| ScoreLabels.PadTwo | client/src/utils/scoring.ts:62 | `padStart(2, '0')` prepends zeros up to length two, so the result ends with the string, and leaves longer strings alone |
| ScoreLabels.SecondsPart | client/src/utils/scoring.ts:61 | The seconds past the minute lie in 0..59 |
| ScoreLabels.FormatTime | client/src/utils/scoring.ts:56-63 | For at least 60 s, the text is digits with a colon third from the end |
| ScoreLabels.ShortNatToString | client/src/utils/scoring.ts:62 | A seconds value below 100 has at most two digits, so padding gives exactly two |
| ScoreLabels.FormatTimeReadsBack | client/src/utils/scoring.ts:56-63 | For at least 60 s, the text is minutes, ':', two digits; read back, it gives the whole seconds |
| ScoreLabels.FormatTimeExamples | client/src/utils/scoring.ts:56-63 | 75.9 s shows as "1:15", 600 s as "10:00" |
| GameStore.ActionsKeepResultHasScore | client/src/store/gameStore.ts:41-104 | Every action keeps a shown result backed by a last score |
| GameStore.FinishedIsSticky | client/src/store/gameStore.ts:75-102 | Only startGame or resetGame take a finished game out of "finished": setUsername, setCurrentFlight, selectAirport, submitGuess, nextRound and endGame keep it |
| GameStore.GuessFinishesOnlyAtGameOver | client/src/store/gameStore.ts:82-88 | A game in play finishes on a guess exactly when it is game over. The current flight is kept then, and replaced by the next flight otherwise |
| GameStore.RoundsAccumulate | client/src/store/gameStore.ts:61-96 | After startGame and n rounds, the total is the sum of the rounds' points and the round counter is 1 + n. The game is still playing, and nothing is selected or shown |
| GameStore.Store.constructor | client/src/store/gameStore.ts:41-54 | The store starts in the initial state |
| GameStore.Store.SetUsername | client/src/store/gameStore.ts:59 | Only the username changes |
| GameStore.Store.StartGame | client/src/store/gameStore.ts:61-73 | The new state is playing round 1 of the given total, with the session and flight set. Score, rounds, last score, selection and result are cleared |
| GameStore.Store.SetCurrentFlight | client/src/store/gameStore.ts:75-78 | Only the current flight and the round start time change |
| GameStore.Store.SelectAirport | client/src/store/gameStore.ts:80 | Only the selection changes |
| GameStore.Store.SubmitGuess | client/src/store/gameStore.ts:82-88 | The points are added, the score is recorded and shown, and the next flight or "finished" is set as the game-over flag says |
| GameStore.Store.NextRound | client/src/store/gameStore.ts:90-96 | The round advances and its clock restarts. Selection, result and last score are cleared, and the total is untouched |
| GameStore.Store.EndGame | client/src/store/gameStore.ts:98-102 | The state becomes finished with the final rounds and no result shown; the rank is ignored |
| GameStore.Store.ResetGame | client/src/store/gameStore.ts:104 | The store returns exactly to the initial state, username included |

## Left out

- The trigonometry (`CalculateDistance`, `calculateHeading`, `calculateBearing`) is floating point. Distance and bearing are parameters of function type, so each property holds for any distance and bearing function.
- The random telemetry in `enrichFlights` and `prepareFlightForDisplay` is a `Jitter` parameter. Its ranges appear only in `Display.ShownNearCentre`.
- The random draws are parameters: the shuffle indices (`rng`), the fact choice (`pick`) and the game's flight draw. `Sessions.GameService.StartGame` promises only "some draw of the pool".
- Clocks (`time.Now`, `Date.now`) and `uuid.New` are parameters: `now`, `clock` and `sessionId`. The leaderboard entry's database identifier (`primitive.NewObjectID()`, given to every new best score) is not modelled: `LeaderboardEntry` has no `ID` field.
- Guess times and coordinates are `real`, not float64. The multipliers in tenths are argued above to give the same whole points.
- `Catalog.IndexOfStr`, `Text.FirstIndex` and `AirportSearch.SearchAirports`: strings are sequences of Unicode characters. Indices and lengths count characters, not the UTF-8 bytes Go's `len` and slicing count, nor the UTF-16 code units JavaScript's `length` counts. So for a name with a non-ASCII letter before the suffix, the model's index is smaller than Go's byte offset. A one-character query outside the Basic Multilingual Plane has length 2 in JavaScript and is searched, but the model returns nothing for it. The city cut in `Catalog.CityOf` lands on the same text either way, so the derived city is unaffected.
- Case mapping covers ASCII letters only. JavaScript's `toLowerCase`/`toUpperCase` also map other Unicode letters.
- Persistence and I/O are not modelled: the MongoDB and Redis branches of the services, the provider's HTTP fetch, the polling loop, and the websocket hub. Only the in-memory branches are modelled. `Catalog.FlightService.LoadInitialFlights` takes the cache or provider result as a parameter.
- Mutexes and concurrent access are not modelled. Each method runs alone.
- Go stores sessions as pointers and mutates them in place before storing them again. The model stores session values, so aliasing between the store and a caller is not captured.
- `GetFlightByID`, `GetAllAirports` and the public `GetSession` wrapper are not modelled. They are a linear find, a map dump and a forwarding call.
- The airport rows and fact strings are parameters, not transcribed.
- `Leaderboard.SortByScore`: `sort.Slice` is not stable. The model is one particular sort, an insertion sort. Entries with equal scores may come out in a different order. `IsLeaderboard` therefore states only what holds for every order of equal scores.
- Map iteration order in `GetLeaderboard` is arbitrary. `Leaderboard.CollectSelected` picks keys in an unspecified order and promises only the set of entries collected.
- `ScoreLabels.FormatTime`: the branch under 60 seconds uses `toFixed(1)`, which is float formatting, and is left out. The minutes branch requires at least 60 seconds.
- `formatScore` and `formatDistance` use locale and float formatting and are left out.
- `GameStore.Store.EndGame`: the `rank` argument is accepted and ignored, as in the store.
- zustand's `set` merges the given fields into the state. The actions are not modelled as fields of the state.
- `GameStore.Store.ResetGame`: `resetGame` calls `set(initialState, true)`, and the `true` replaces the whole state. The action functions are dropped with it, so a later `startGame` on the reset store would fail. The model keeps its methods after a reset, so it does not capture that loss.
- The HTTP handlers' validation, such as rejecting an empty guess, is not part of this model. `Sessions.GameService.SubmitGuess` keeps sessions well formed only for a non-empty guess.
- The padding in `StartGame` appends `flights[len(flights) % len(flights)]`, which is always the first flight. The model follows the code: short draws are padded with their first flight, not cycled.
