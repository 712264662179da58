/** The in-memory leaderboard: the best score per (user, difficulty) and the
    number of games played, with a ranked, limited query and a user's rank. */
module Leaderboard {
  import opened Models

  /** The store key of a user's entry for a difficulty. */
  function Key(username: string, d: Difficulty): string {
    username + ":" + d
  }

  /** Keys are unambiguous as long as difficulties hold no ':'; then there is
      at most one entry per (user, difficulty). */
  lemma KeyInjective(u1: string, d1: Difficulty, u2: string, d2: Difficulty)
    requires ':' !in d1 && ':' !in d2
    requires Key(u1, d1) == Key(u2, d2)
    ensures u1 == u2 && d1 == d2
  {
    KeySuffixNotShorter(u1, d1, u2, d2);
    KeySuffixNotShorter(u2, d2, u1, d1);
    var k := Key(u1, d1);
    assert d1 == k[|k| - |d1|..] == d2;
    assert u1 == k[..|u1|] == u2;
  }

  lemma KeySuffixNotShorter(u1: string, d1: Difficulty, u2: string, d2: Difficulty)
    requires ':' !in d2
    requires Key(u1, d1) == Key(u2, d2)
    ensures |d1| >= |d2|
  {
    var k := Key(u1, d1);
    assert k[|u1|] == ':';
    if |d1| < |d2| {
      assert false;
    }
  }

  /** The three difficulties the server knows give unambiguous keys. */
  lemma KnownDifficultyKeys(u1: string, d1: Difficulty, u2: string, d2: Difficulty)
    requires KnownDifficulty(d1) && KnownDifficulty(d2)
    ensures Key(u1, d1) == Key(u2, d2) <==> u1 == u2 && d1 == d2
  {
    if Key(u1, d1) == Key(u2, d2) {
      KeyInjective(u1, d1, u2, d2);
    }
  }

  /** The store after saving a finished game's score at time `now`: a first
      game creates the entry; a strictly higher score replaces it; any other
      score only counts the game. */
  function Saved(m: map<string, LeaderboardEntry>, username: string, d: Difficulty, score: int, now: real)
    : (r: map<string, LeaderboardEntry>)
    ensures r.Keys == m.Keys + {Key(username, d)}
    ensures r[Key(username, d)].totalScore >= score && r[Key(username, d)].updatedAt == now
    ensures Key(username, d) in m ==> r[Key(username, d)].totalScore >= m[Key(username, d)].totalScore
    ensures forall k :: k in m && k != Key(username, d) ==> r[k] == m[k]
  {
    var key := Key(username, d);
    if key !in m then m[key := LeaderboardEntry(0, username, d, score, 1, now)]
    else if score > m[key].totalScore then
      m[key := LeaderboardEntry(0, username, d, score, m[key].gamesPlayed + 1, now)]
    else m[key := m[key].(gamesPlayed := m[key].gamesPlayed + 1, updatedAt := now)]
  }

  function Max(a: int, b: int): int {
    if a >= b then a else b
  }

  /** A store whose entries sit under their own key, count at least one game
      and carry no rank. */
  predicate StoreValid(m: map<string, LeaderboardEntry>) {
    forall k :: k in m ==>
      k == Key(m[k].username, m[k].difficulty) && m[k].gamesPlayed >= 1 && m[k].rank == 0
  }

  /** Saving keeps the best score, counts one more game, stamps the entry and
      leaves every other entry as it was. */
  lemma SavedEntry(m: map<string, LeaderboardEntry>, username: string, d: Difficulty, score: int, now: real)
    requires StoreValid(m)
    ensures var m' := Saved(m, username, d, score, now);
      var key := Key(username, d);
      && StoreValid(m')
      && key in m' && m'[key].updatedAt == now
      && (key !in m ==> m'[key].totalScore == score && m'[key].gamesPlayed == 1)
      && (key in m ==> m'[key].totalScore == Max(m[key].totalScore, score) &&
                       m'[key].gamesPlayed == m[key].gamesPlayed + 1)
      && (key !in m || score > m[key].totalScore ==> m'[key].username == username && m'[key].difficulty == d)
      && m'.Keys == m.Keys + {key}
      && (forall k :: k in m && k != key ==> m'[k] == m[k])
  {
  }

  /** The best score never decreases. */
  lemma BestNeverDecreases(m: map<string, LeaderboardEntry>, username: string, d: Difficulty, score: int, now: real)
    requires StoreValid(m)
    ensures forall k :: k in m ==>
      k in Saved(m, username, d, score, now) && Saved(m, username, d, score, now)[k].totalScore >= m[k].totalScore
  {
    SavedEntry(m, username, d, score, now);
  }

  /** A 500 followed by a 300 keeps 500 and counts two games. */
  lemma SaveTwiceExample(username: string, d: Difficulty, t1: real, t2: real)
    ensures var m := Saved(Saved(map[], username, d, 500, t1), username, d, 300, t2);
      m[Key(username, d)].totalScore == 500 && m[Key(username, d)].gamesPlayed == 2
  {
  }

  // ---------------------------------------------------------------------
  // Queries

  const DefaultLimit := 10
  const RankWindow := 100

  /** A limit of zero or less means the default of 10. */
  function EffectiveLimit(limit: int): (r: int)
    ensures r >= 1
    ensures limit > 0 ==> r == limit
  {
    if limit <= 0 then DefaultLimit else limit
  }

  /** An empty difficulty selects every entry. */
  predicate Selected(e: LeaderboardEntry, d: Difficulty) {
    d == "" || e.difficulty == d
  }

  function SelectedKeys(m: map<string, LeaderboardEntry>, d: Difficulty): set<string> {
    set k | k in m && Selected(m[k], d)
  }

  function Selection(m: map<string, LeaderboardEntry>, d: Difficulty): set<LeaderboardEntry> {
    set k | k in m && Selected(m[k], d) :: m[k]
  }

  predicate SortedDesc(s: seq<LeaderboardEntry>) {
    forall i, j :: 0 <= i < j < |s| ==> s[i].totalScore >= s[j].totalScore
  }

  function Unranked(r: seq<LeaderboardEntry>): (u: seq<LeaderboardEntry>)
    ensures |u| == |r| && forall i :: 0 <= i < |r| ==> u[i] == r[i].(rank := 0)
  {
    seq(|r|, i requires 0 <= i < |r| => r[i].(rank := 0))
  }

  /** No element occurs twice. */
  predicate Distinct<T(==)>(s: seq<T>) {
    forall i, j :: 0 <= i < j < |s| ==> s[i] != s[j]
  }

  /** An element found at two positions is counted at least twice. */
  lemma DuplicateCounted<T>(s: seq<T>, i: nat, j: nat)
    requires i < j < |s| && s[i] == s[j]
    ensures multiset(s)[s[i]] >= 2
  {
    assert s == s[..i] + [s[i]] + s[i + 1..j] + [s[j]] + s[j + 1..];
  }

  /** In a list without repeats every element is counted at most once. */
  lemma {:induction false} DistinctCountedOnce<T>(s: seq<T>, x: T)
    requires Distinct(s)
    ensures multiset(s)[x] <= 1
    decreases |s|
  {
    if s != [] {
      var init := s[..|s| - 1];
      assert s == init + [s[|s| - 1]];
      DistinctCountedOnce(init, x);
      if x == s[|s| - 1] {
        assert x !in init by {
          forall i | 0 <= i < |init| ensures init[i] != x {
            assert init[i] == s[i];
          }
        }
      }
    }
  }

  /** A permutation of a list without repeats has none either. */
  lemma PermutationKeepsDistinct<T>(s: seq<T>, t: seq<T>)
    requires Distinct(s) && multiset(s) == multiset(t)
    ensures Distinct(t)
  {
    forall i, j | 0 <= i < j < |t| ensures t[i] != t[j] {
      if t[i] == t[j] {
        DuplicateCounted(t, i, j);
        DistinctCountedOnce(s, t[i]);
        assert false;
      }
    }
  }

  /** `r` is a leaderboard of the selected entries under limit `lim`: as many
      as there are, up to `lim`; ranked 1, 2, ... in order; by score, highest
      first; each entry once; drawn from the selection; every selected entry left out scores no
      more than any entry shown; and nothing is left out unless the limit
      cut it. */
  predicate IsLeaderboard(r: seq<LeaderboardEntry>, m: map<string, LeaderboardEntry>, d: Difficulty, lim: int) {
    && |r| == (if |SelectedKeys(m, d)| <= lim then |SelectedKeys(m, d)| else lim)
    && (forall i :: 0 <= i < |r| ==> r[i].rank == i + 1)
    && SortedDesc(r)
    && Distinct(Unranked(r))
    && (forall e :: e in Unranked(r) ==> e in Selection(m, d))
    && (forall e :: e in Selection(m, d) && e !in Unranked(r) ==>
          forall i :: 0 <= i < |r| ==> r[i].totalScore >= e.totalScore)
    && (|SelectedKeys(m, d)| <= lim ==> forall e :: e in Selection(m, d) ==> e in Unranked(r))
  }

  /** Insert an entry into a list sorted by score, highest first. */
  function Insert(e: LeaderboardEntry, s: seq<LeaderboardEntry>): (r: seq<LeaderboardEntry>)
    requires SortedDesc(s)
    ensures SortedDesc(r) && multiset(r) == multiset(s) + multiset{e}
    decreases |s|
  {
    if s == [] || e.totalScore >= s[0].totalScore then
      InsertHere(e, s);
      [e] + s
    else
      var rest := Insert(e, s[1..]);
      InsertLater(e, s, rest);
      [s[0]] + rest
  }

  lemma InsertHere(e: LeaderboardEntry, s: seq<LeaderboardEntry>)
    requires SortedDesc(s) && (s == [] || e.totalScore >= s[0].totalScore)
    ensures SortedDesc([e] + s)
  {
    var r := [e] + s;
    forall i, j | 0 <= i < j < |r| ensures r[i].totalScore >= r[j].totalScore {
      assert r[j] == s[j - 1];
      if i > 0 {
        assert r[i] == s[i - 1];
      } else if j > 1 {
        assert s[0].totalScore >= s[j - 1].totalScore;
      }
    }
  }

  lemma InsertLater(e: LeaderboardEntry, s: seq<LeaderboardEntry>, rest: seq<LeaderboardEntry>)
    requires SortedDesc(s) && s != [] && e.totalScore < s[0].totalScore
    requires SortedDesc(rest) && multiset(rest) == multiset(s[1..]) + multiset{e}
    ensures SortedDesc([s[0]] + rest) && multiset([s[0]] + rest) == multiset(s) + multiset{e}
  {
    forall j | 0 <= j < |rest| ensures rest[j].totalScore <= s[0].totalScore {
      assert rest[j] in multiset(rest);
      if rest[j] != e {
        assert rest[j] in multiset(s[1..]);
        var k :| 0 <= k < |s[1..]| && s[1..][k] == rest[j];
        assert s[k + 1] == rest[j];
      }
    }
    var r := [s[0]] + rest;
    forall i, j | 0 <= i < j < |r| ensures r[i].totalScore >= r[j].totalScore {
      assert r[j] == rest[j - 1];
      if i > 0 {
        assert r[i] == rest[i - 1];
      }
    }
    assert s == [s[0]] + s[1..];
  }

  /** Sort by score, highest first: a permutation of the input.  Entries
      with equal scores may come in any order. */
  function SortByScore(s: seq<LeaderboardEntry>): (r: seq<LeaderboardEntry>)
    ensures SortedDesc(r) && multiset(r) == multiset(s)
  {
    if s == [] then []
    else
      assert s == [s[0]] + s[1..];
      Insert(s[0], SortByScore(s[1..]))
  }

  /** Ranks 1, 2, ... in list order. */
  function Ranked(s: seq<LeaderboardEntry>): (r: seq<LeaderboardEntry>)
    ensures |r| == |s| && forall i :: 0 <= i < |s| ==> r[i] == s[i].(rank := i + 1)
  {
    seq(|s|, i requires 0 <= i < |s| => s[i].(rank := i + 1))
  }

  /** The first `lim` entries, or all of them when there are fewer. */
  function Top(r: seq<LeaderboardEntry>, lim: int): (t: seq<LeaderboardEntry>)
    requires lim >= 0
    ensures |t| == (if |r| <= lim then |r| else lim) && t == r[..|t|]
  {
    if |r| > lim then r[..lim] else r
  }

  /** Ranking a sorted, unranked list and cutting it keeps the order, numbers
      the ranks from 1, and shows a prefix of the list. */
  lemma RankedTop(sorted: seq<LeaderboardEntry>, lim: int)
    requires lim >= 0 && SortedDesc(sorted)
    requires forall i :: 0 <= i < |sorted| ==> sorted[i].rank == 0
    ensures var top := Top(Ranked(sorted), lim);
      && (forall i :: 0 <= i < |top| ==> top[i].rank == i + 1)
      && SortedDesc(top)
      && Unranked(top) == sorted[..|top|]
  {
    var top := Top(Ranked(sorted), lim);
    forall i | 0 <= i < |top| ensures Unranked(top)[i] == sorted[i] {
      assert top[i] == sorted[i].(rank := i + 1);
    }
  }

  /** Ranking a sorted, unranked list of exactly the selected entries and
      cutting it to `lim` gives a leaderboard. */
  lemma LeaderboardOfSorted(sorted: seq<LeaderboardEntry>, m: map<string, LeaderboardEntry>, d: Difficulty, lim: int)
    requires lim >= 1 && SortedDesc(sorted) && |sorted| == |SelectedKeys(m, d)|
    requires forall e :: e in sorted <==> e in Selection(m, d)
    requires forall i :: 0 <= i < |sorted| ==> sorted[i].rank == 0
    requires Distinct(sorted)
    ensures IsLeaderboard(Top(Ranked(sorted), lim), m, d, lim)
  {
    var top := Top(Ranked(sorted), lim);
    RankedTop(sorted, lim);
    var shown := sorted[..|top|];
    assert Distinct(shown) by {
      forall i, j | 0 <= i < j < |shown| ensures shown[i] != shown[j] {
        assert shown[i] == sorted[i] && shown[j] == sorted[j];
      }
    }
    assert forall e :: e in shown ==> e in sorted;
    forall e | e in Selection(m, d) && e !in shown
      ensures forall i :: 0 <= i < |top| ==> top[i].totalScore >= e.totalScore
    {
      var p :| 0 <= p < |sorted| && sorted[p] == e;
      forall i | 0 <= i < |top| ensures top[i].totalScore >= e.totalScore {
        assert top[i].totalScore == sorted[i].totalScore;
      }
    }
    if |SelectedKeys(m, d)| <= lim {
      assert shown == sorted;
    }
  }

  /** The rank of `username` in a leaderboard: the position of their first
      entry, counting from 1, or 0 when they have none. */
  function RankIn(r: seq<LeaderboardEntry>, username: string): (rank: int)
    ensures 0 <= rank <= |r|
    ensures rank > 0 ==> r[rank - 1].username == username
    ensures rank > 0 ==> forall i :: 0 <= i < rank - 1 ==> r[i].username != username
    ensures rank == 0 <==> forall i :: 0 <= i < |r| ==> r[i].username != username
  {
    if r == [] then 0
    else if r[0].username == username then 1
    else
      var rest := RankIn(r[1..], username);
      assert forall i :: 1 <= i < |r| ==> r[i] == r[1..][i - 1];
      if rest == 0 then 0 else rest + 1
  }

  /** When one selected entry outscores every other, it heads every
      leaderboard of the selection. */
  lemma StrictLeaderIsFirst(r: seq<LeaderboardEntry>, m: map<string, LeaderboardEntry>, d: Difficulty, lim: int,
                            e: LeaderboardEntry)
    requires lim >= 1 && IsLeaderboard(r, m, d, lim)
    requires e in Selection(m, d)
    requires forall x :: x in Selection(m, d) && x != e ==> x.totalScore < e.totalScore
    ensures |r| > 0 && Unranked(r)[0] == e
  {
    var k :| k in m && Selected(m[k], d) && m[k] == e;
    assert k in SelectedKeys(m, d);
    assert |r| > 0;
    assert Unranked(r)[0] in Selection(m, d);
  }

  /** A user's rank is positive only if they have a selected entry, and 0
      when they have none. */
  lemma RankMeansEntry(r: seq<LeaderboardEntry>, m: map<string, LeaderboardEntry>, d: Difficulty, lim: int,
                       username: string)
    requires IsLeaderboard(r, m, d, lim)
    ensures RankIn(r, username) > 0 ==> exists e :: e in Selection(m, d) && e.username == username
    ensures (forall e :: e in Selection(m, d) ==> e.username != username) ==> RankIn(r, username) == 0
  {
    var rank := RankIn(r, username);
    if rank > 0 {
      assert Unranked(r)[rank - 1] in Unranked(r);
    }
  }

  /** Visiting one more key adds it to the visited selected keys exactly
      when it is selected. */
  lemma KeyStep(done: set<string>, selected: set<string>, keys: seq<string>, k: string)
    requires k !in done && multiset(keys) == multiset(done * selected)
    ensures k in selected ==> multiset(keys + [k]) == multiset((done + {k}) * selected)
    ensures k !in selected ==> multiset(keys) == multiset((done + {k}) * selected)
  {
    if k in selected {
      assert (done + {k}) * selected == done * selected + {k};
    } else {
      assert (done + {k}) * selected == done * selected;
    }
  }

  /** `collected` lists the entries stored under `keys`, in the same order. */
  predicate EntriesUnder(m: map<string, LeaderboardEntry>, keys: seq<string>, collected: seq<LeaderboardEntry>) {
    |collected| == |keys| && forall i :: 0 <= i < |keys| ==> keys[i] in m && collected[i] == m[keys[i]]
  }

  lemma EntriesUnderAppend(m: map<string, LeaderboardEntry>, keys: seq<string>, collected: seq<LeaderboardEntry>, k: string)
    requires EntriesUnder(m, keys, collected) && k in m
    ensures EntriesUnder(m, keys + [k], collected + [m[k]])
  {
    var keys', collected' := keys + [k], collected + [m[k]];
    forall i | 0 <= i < |keys'| ensures keys'[i] in m && collected'[i] == m[keys'[i]] {
      if i < |keys| {
        assert keys'[i] == keys[i] && collected'[i] == collected[i];
      }
    }
  }

  /** A list of the entries under a list of keys, which holds each selected
      key once, holds the selected entries and only those. */
  lemma CollectedIsSelection(m: map<string, LeaderboardEntry>, d: Difficulty, keys: seq<string>, collected: seq<LeaderboardEntry>)
    requires EntriesUnder(m, keys, collected)
    requires multiset(keys) == multiset(SelectedKeys(m, d))
    ensures |collected| == |SelectedKeys(m, d)|
    ensures forall e :: e in collected <==> e in Selection(m, d)
    ensures StoreValid(m) ==> Distinct(collected)
  {
    assert |keys| == |multiset(keys)|;
    if StoreValid(m) {
      forall i, j | 0 <= i < j < |collected| ensures collected[i] != collected[j] {
        if collected[i] == collected[j] {
          assert keys[i] == keys[j];
          DuplicateCounted(keys, i, j);
          assert false;
        }
      }
    }
    forall e | e in Selection(m, d) ensures e in collected {
      var k :| k in m && Selected(m[k], d) && m[k] == e;
      assert k in multiset(keys);
      var i :| 0 <= i < |keys| && keys[i] == k;
      assert collected[i] == e;
    }
    forall e | e in collected ensures e in Selection(m, d) {
      var i :| 0 <= i < |collected| && collected[i] == e;
      assert keys[i] in multiset(keys);
    }
  }

  /** The selected entries, each once, in some order. */
  method CollectSelected(m: map<string, LeaderboardEntry>, d: Difficulty) returns (collected: seq<LeaderboardEntry>)
    ensures |collected| == |SelectedKeys(m, d)|
    ensures forall e :: e in collected <==> e in Selection(m, d)
    ensures StoreValid(m) ==> Distinct(collected)
  {
    ghost var selected := SelectedKeys(m, d);
    collected := [];
    var remaining := m.Keys;
    ghost var done: set<string> := {};
    ghost var keys: seq<string> := [];
    while remaining != {}
      invariant remaining == m.Keys - done
      invariant EntriesUnder(m, keys, collected)
      invariant multiset(keys) == multiset(done * selected)
      decreases |remaining|
    {
      var k :| k in remaining;
      remaining := remaining - {k};
      KeyStep(done, selected, keys, k);
      if Selected(m[k], d) {
        EntriesUnderAppend(m, keys, collected, k);
        collected := collected + [m[k]];
        keys := keys + [k];
      }
      done := done + {k};
    }
    assert done * selected == selected;
    CollectedIsSelection(m, d, keys, collected);
  }

  /** Number the entries 1, 2, ... in list order. */
  method AssignRanks(sorted: seq<LeaderboardEntry>) returns (entries: seq<LeaderboardEntry>)
    ensures entries == Ranked(sorted)
  {
    entries := sorted;
    for i := 0 to |entries|
      invariant |entries| == |sorted|
      invariant forall k :: 0 <= k < i ==> entries[k] == sorted[k].(rank := k + 1)
      invariant forall k :: i <= k < |entries| ==> entries[k] == sorted[k]
    {
      entries := entries[i := entries[i].(rank := i + 1)];
    }
  }

  class ScoreService {
    /** The in-memory entries, keyed by Key(username, difficulty). */
    var memoryScores: map<string, LeaderboardEntry>

    predicate Valid()
      reads this
    {
      StoreValid(memoryScores)
    }

    constructor ()
      ensures memoryScores == map[] && Valid()
    {
      memoryScores := map[];
    }

    /** Record a finished game's score at time `now`. */
    method SaveScore(session: GameSession, now: real)
      requires Valid()
      modifies this
      ensures Valid()
      ensures memoryScores == Saved(old(memoryScores), session.username, session.difficulty, session.totalScore, now)
    {
      var key := session.username + ":" + session.difficulty;
      if key !in memoryScores || session.totalScore > memoryScores[key].totalScore {
        var entry := LeaderboardEntry(0, session.username, session.difficulty, session.totalScore, 1, now);
        if key in memoryScores {
          entry := entry.(gamesPlayed := memoryScores[key].gamesPlayed + 1);
        }
        memoryScores := memoryScores[key := entry];
      } else {
        var existing := memoryScores[key];
        memoryScores := memoryScores[key := existing.(gamesPlayed := existing.gamesPlayed + 1, updatedAt := now)];
      }
      SavedEntry(old(memoryScores), session.username, session.difficulty, session.totalScore, now);
    }

    /** The selected entries, sorted by score, ranked, cut to the limit (10
        when the limit is zero or less). */
    method GetLeaderboard(d: Difficulty, limit: int) returns (entries: seq<LeaderboardEntry>)
      requires Valid()
      ensures IsLeaderboard(entries, memoryScores, d, EffectiveLimit(limit))
    {
      var lim := limit;
      if lim <= 0 {
        lim := DefaultLimit;
      }

      var collected := CollectSelected(memoryScores, d);
      var sorted := SortByScore(collected);
      assert forall e :: e in sorted <==> e in collected by {
        assert forall e :: e in sorted <==> e in multiset(sorted);
        assert forall e :: e in collected <==> e in multiset(collected);
      }
      assert |sorted| == |collected| by {
        assert |multiset(sorted)| == |multiset(collected)|;
      }
      PermutationKeepsDistinct(collected, sorted);

      forall i | 0 <= i < |sorted| ensures sorted[i].rank == 0 {
        assert sorted[i] in Selection(memoryScores, d);
      }
      entries := AssignRanks(sorted);

      entries := Top(entries, lim);
      LeaderboardOfSorted(sorted, memoryScores, d, lim);
    }

    /** The rank of `username` among the top 100 entries of difficulty `d`,
        or 0 when they are not among them. */
    method GetUserRank(username: string, d: Difficulty) returns (rank: int)
      requires Valid()
      ensures exists r :: IsLeaderboard(r, memoryScores, d, RankWindow) && rank == RankIn(r, username)
      ensures 0 <= rank <= RankWindow
    {
      var entries := GetLeaderboard(d, RankWindow);
      rank := 0;
      var i := 0;
      while i < |entries|
        invariant 0 <= i <= |entries|
        invariant forall k :: 0 <= k < i ==> entries[k].username != username
      {
        if entries[i].username == username {
          rank := entries[i].rank;
          assert RankIn(entries, username) == i + 1;
          return;
        }
        i := i + 1;
      }
    }
  }
}
