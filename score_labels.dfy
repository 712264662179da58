/** The client's presentation helpers for scores: difficulty and match-type
    labels and colours, the speed-bonus badge, the best possible game score,
    and the minutes form of a guess time. */
module ScoreLabels {
  import opened Models
  import opened Text
  import Scoring
  import Geo

  // ---------------------------------------------------------------------
  // Difficulty

  /** The difficulty's display name: the difficulty with a capital first
      letter.  Only the three difficulties have one. */
  function DifficultyLabel(d: Difficulty): (r: string)
    requires KnownDifficulty(d)
    ensures |r| == |d| && r[0] == UpperChar(d[0]) && r[1..] == d[1..]
  {
    if d == Easy then "Easy"
    else if d == Medium then "Medium"
    else "Hard"
  }

  /** The colour family a difficulty is drawn in. */
  function Hue(d: Difficulty): string
    requires KnownDifficulty(d)
  {
    if d == Easy then "emerald" else if d == Medium then "amber" else "rose"
  }

  /** The difficulty's text colour, and its background and border, share one
      hue: the text at shade 400, the background and border at shade 500. */
  function DifficultyColor(d: Difficulty): (r: string)
    requires KnownDifficulty(d)
    ensures r == "text-" + Hue(d) + "-400"
  {
    if d == Easy then "text-emerald-400"
    else if d == Medium then "text-amber-400"
    else "text-rose-400"
  }

  /** The background and border classes of a hue. */
  function BgStyle(h: string): string {
    "bg-" + h + "-500/20 border-" + h + "-500/30"
  }

  function DifficultyBgColor(d: Difficulty): (r: string)
    requires KnownDifficulty(d)
    ensures r == BgStyle(Hue(d))
  {
    if d == Easy then
      EmeraldBackground();
      "bg-emerald-500/20 border-emerald-500/30"
    else if d == Medium then
      AmberBackground();
      "bg-amber-500/20 border-amber-500/30"
    else
      RoseBackground();
      "bg-rose-500/20 border-rose-500/30"
  }

  // One literal each: the three together are costly for the solver.
  lemma EmeraldBackground() ensures BgStyle("emerald") == "bg-emerald-500/20 border-emerald-500/30" {}
  lemma AmberBackground() ensures BgStyle("amber") == "bg-amber-500/20 border-amber-500/30" {}
  lemma RoseBackground() ensures BgStyle("rose") == "bg-rose-500/20 border-rose-500/30" {}

  /** Different difficulties are told apart by label, colour and background. */
  lemma DifficultyStylesDistinct(d1: Difficulty, d2: Difficulty)
    requires KnownDifficulty(d1) && KnownDifficulty(d2) && d1 != d2
    ensures DifficultyLabel(d1) != DifficultyLabel(d2)
    ensures DifficultyColor(d1) != DifficultyColor(d2)
    ensures DifficultyBgColor(d1) != DifficultyBgColor(d2)
  {
    assert DifficultyLabel(d1)[0] != DifficultyLabel(d2)[0];
    assert |DifficultyColor(d1)| != |DifficultyColor(d2)|;
    assert |DifficultyBgColor(d1)| != |DifficultyBgColor(d2)|;
  }

  // ---------------------------------------------------------------------
  // Match types

  predicate KnownMatchType(m: string) {
    m == Scoring.ExactMatch || m == Scoring.FamilyMatch || m == Scoring.CountryMatch ||
    m == Scoring.DistanceMatch || m == Scoring.WrongMatch
  }

  const UnknownLabel := "Unknown"
  const UnknownColor := "text-gray-400"

  function MatchTypeLabel(m: string): (r: string)
    ensures r == UnknownLabel <==> !KnownMatchType(m)
  {
    if m == Scoring.ExactMatch then "Perfect Match!"
    else if m == Scoring.FamilyMatch then "Same City"
    else if m == Scoring.CountryMatch then "Same Country"
    else if m == Scoring.DistanceMatch then "Close Guess"
    else if m == Scoring.WrongMatch then "Wrong"
    else UnknownLabel
  }

  function MatchTypeColor(m: string): (r: string)
    ensures r == UnknownColor <==> !KnownMatchType(m)
  {
    if m == Scoring.ExactMatch then "text-emerald-400"
    else if m == Scoring.FamilyMatch then "text-sky-400"
    else if m == Scoring.CountryMatch then "text-amber-400"
    else if m == Scoring.DistanceMatch then "text-orange-400"
    else if m == Scoring.WrongMatch then "text-rose-400"
    else UnknownColor
  }

  /** Each of the five match types has its own label and its own colour. */
  lemma MatchTypeStylesDistinct(m1: string, m2: string)
    requires KnownMatchType(m1) && KnownMatchType(m2) && m1 != m2
    ensures MatchTypeLabel(m1) != MatchTypeLabel(m2)
    ensures MatchTypeColor(m1) != MatchTypeColor(m2)
  {
    assert |MatchTypeLabel(m1)| != |MatchTypeLabel(m2)|;
    assert MatchTypeColor(m1)[5] != MatchTypeColor(m2)[5];
  }

  /** Every match type the server's scoring produces has a label of its own. */
  lemma ScoredMatchTypesAreLabelled(
    actualIATA: string, guessedIATA: string, d: Difficulty, guessTime: real,
    info: Option<Airport>, airports: map<string, Airport>, dist: Geo.DistanceFn)
    ensures var r := Scoring.CalculateScore(actualIATA, guessedIATA, d, guessTime, info, airports, dist);
      MatchTypeLabel(r.matchType) != UnknownLabel && MatchTypeColor(r.matchType) != UnknownColor
  {
  }

  // ---------------------------------------------------------------------
  // Speed bonus

  const LightningLabel := "Lightning Fast!"
  const QuickLabel := "Quick!"

  /** The badge for a speed multiplier: 1.3 and up, 1.1 and up, else none. */
  function SpeedBonusLabel(multiplier: real): (r: string)
    ensures r == LightningLabel <==> multiplier >= 1.3
    ensures r == QuickLabel <==> 1.1 <= multiplier < 1.3
    ensures r == "" <==> multiplier < 1.1
  {
    if multiplier >= 1.3 then LightningLabel
    else if multiplier >= 1.1 then QuickLabel
    else ""
  }

  /** On the server's multipliers the badge tells how fast the guess was:
      within 10 seconds, within 30, or slower. */
  lemma SpeedBadgeMatchesGuessTime(guessTime: real)
    ensures var badge := SpeedBonusLabel(Scoring.SpeedMultiplier10(guessTime) as real / 10.0);
      && (badge == LightningLabel <==> guessTime <= 10.0)
      && (badge == QuickLabel <==> 10.0 < guessTime <= 30.0)
      && (badge == "" <==> guessTime > 30.0)
  {
  }

  // ---------------------------------------------------------------------
  // Best possible game

  /** Rounds per game on the client's side of the computation. */
  const GameRounds := 10

  /** The best possible game score: every round an exact guess within 10
      seconds, 1000 * multiplier * 1.3 * 10, rounded (the product is whole). */
  function CalculateMaxScore(d: Difficulty): (r: int)
    requires KnownDifficulty(d)
    ensures r == (if d == Easy then 13000 else if d == Medium then 19500 else 26000)
  {
    var m10 := if d == Easy then 10 else if d == Medium then 15 else 20;
    1000 * m10 * 13 * GameRounds / 100
  }

  /** The best possible game is ten of the best possible rounds, and no guess
      earns more than a tenth of it. */
  lemma MaxScoreIsTenBestRounds(
    d: Difficulty, code: string, actualIATA: string, guessedIATA: string, guessTime: real,
    info: Option<Airport>, airports: map<string, Airport>, dist: Geo.DistanceFn)
    requires KnownDifficulty(d)
    ensures CalculateMaxScore(d) ==
      GameRounds * Scoring.CalculateScore(code, code, d, 0.0, info, airports, dist).totalPoints
    ensures GameRounds * Scoring.CalculateScore(actualIATA, guessedIATA, d, guessTime, info, airports, dist).totalPoints
      <= CalculateMaxScore(d)
  {
    var best := Scoring.CalculateScore(code, code, d, 0.0, info, airports, dist);
    var r := Scoring.CalculateScore(actualIATA, guessedIATA, d, guessTime, info, airports, dist);
    Scoring.ExactMatchScore(code, d, 0.0, info, airports, dist);
    assert best.totalPoints == Scoring.Points(1000, Scoring.DifficultyMultiplier10(d), 13);
    Scoring.PointsMonotone(r.basePoints, 1000, r.difficultyMulti10, r.difficultyMulti10, r.speedMulti10, 13);
  }

  // ---------------------------------------------------------------------
  // Guess time, minutes form

  function DigitChar(n: nat): char
    requires n < 10
  {
    ('0' as int + n) as char
  }

  predicate IsDigit(c: char) {
    '0' <= c <= '9'
  }

  /** The decimal digits of `n`, without leading zeros. */
  function NatToString(n: nat): (r: string)
    ensures |r| >= 1 && (r[0] == '0' ==> n == 0)
    ensures forall i :: 0 <= i < |r| ==> IsDigit(r[i])
    decreases n
  {
    if n < 10 then [DigitChar(n)]
    else NatToString(n / 10) + [DigitChar(n % 10)]
  }

  /** The number a string of decimal digits spells. */
  function DecimalValue(s: string): nat
    requires forall i :: 0 <= i < |s| ==> IsDigit(s[i])
    decreases |s|
  {
    if s == [] then 0
    else
      assert IsDigit(s[|s| - 1]);
      DecimalValue(s[..|s| - 1]) * 10 + (s[|s| - 1] as int - '0' as int)
  }

  /** Reading the digits back gives the number. */
  lemma {:induction false} NatToStringRoundTrip(n: nat)
    ensures DecimalValue(NatToString(n)) == n
    decreases n
  {
    var s := NatToString(n);
    if n >= 10 {
      NatToStringRoundTrip(n / 10);
      assert s[..|s| - 1] == NatToString(n / 10);
    }
  }

  /** A leading zero changes no value. */
  lemma {:induction false} LeadingZero(s: string)
    requires forall i :: 0 <= i < |s| ==> IsDigit(s[i])
    ensures DecimalValue("0" + s) == DecimalValue(s)
    decreases |s|
  {
    if s != [] {
      assert ("0" + s)[..|"0" + s| - 1] == "0" + s[..|s| - 1];
      LeadingZero(s[..|s| - 1]);
    }
  }

  /** padStart(2, '0'): zeros are prepended up to length two; a longer
      string is left alone. */
  function PadTwo(s: string): (r: string)
    ensures |s| < 2 ==> |r| == 2 && r[2 - |s|..] == s && forall i :: 0 <= i < 2 - |s| ==> r[i] == '0'
    ensures |s| >= 2 ==> r == s
  {
    if |s| == 0 then "00" else if |s| == 1 then "0" + s else s
  }

  /** A number below 100 has at most two digits. */
  lemma ShortNatToString(n: nat)
    requires n < 100
    ensures |NatToString(n)| <= 2
  {
    if n >= 10 {
      assert NatToString(n) == NatToString(n / 10) + [DigitChar(n % 10)];
    }
  }

  /** The whole minutes of a time of at least a minute. */
  function Minutes(seconds: real): nat
    requires seconds >= 60.0
  {
    (seconds / 60.0).Floor
  }

  /** The whole seconds past the minute. */
  function SecondsPart(seconds: real): (s: int)
    requires seconds >= 60.0
    ensures 0 <= s < 60
  {
    seconds.Floor - 60 * Minutes(seconds)
  }

  /** "m:ss" for a time of at least a minute. */
  function FormatTime(seconds: real): (r: string)
    requires seconds >= 60.0
    ensures |r| >= 4 && r[|r| - 3] == ':'
    ensures forall i :: 0 <= i < |r| && i != |r| - 3 ==> IsDigit(r[i])
  {
    ShortNatToString(SecondsPart(seconds));
    NatToString(Minutes(seconds)) + ":" + PadTwo(NatToString(SecondsPart(seconds)))
  }

  /** The text splits at its colon into minutes and two-digit seconds, and
      reading them back gives the whole seconds of the time. */
  lemma FormatTimeReadsBack(seconds: real)
    requires seconds >= 60.0
    ensures exists m, s ::
      && FormatTime(seconds) == m + ":" + s
      && |m| >= 1 && |s| == 2
      && (forall i :: 0 <= i < |m| ==> IsDigit(m[i]))
      && (forall i :: 0 <= i < |s| ==> IsDigit(s[i]))
      && DecimalValue(m) * 60 + DecimalValue(s) == seconds.Floor
      && DecimalValue(s) < 60
  {
    var m := NatToString(Minutes(seconds));
    var sec := NatToString(SecondsPart(seconds));
    var s := PadTwo(sec);
    NatToStringRoundTrip(Minutes(seconds));
    NatToStringRoundTrip(SecondsPart(seconds));
    assert |sec| <= 2;
    if |sec| < 2 {
      LeadingZero(sec);
    }
    assert forall i :: 0 <= i < |s| ==> IsDigit(s[i]);
    assert FormatTime(seconds) == m + ":" + s;
  }

  /** Worked times: 75.9 seconds shows as 1:15, 600 as 10:00. */
  lemma FormatTimeExamples()
    ensures FormatTime(75.9) == "1:15"
    ensures FormatTime(600.0) == "10:00"
  {
    assert Minutes(75.9) == 1;
    assert SecondsPart(75.9) == 15;
    assert Minutes(600.0) == 10;
    assert SecondsPart(600.0) == 0;
  }
}
