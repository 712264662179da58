/** String helpers shared by the server and client models: substring search,
    containment and ASCII case mapping.  Strings are `seq<char>`. */
module Text {

  /** `sub` occurs in `s` starting at index `i`. */
  predicate OccursAt(s: string, sub: string, i: int) {
    0 <= i && i + |sub| <= |s| && s[i..i + |sub|] == sub
  }

  /** The first index at or after `from` where `sub` occurs in `s`, or -1. */
  function FirstIndexFrom(s: string, sub: string, from: nat): (r: int)
    decreases |s| - from
    ensures r == -1 || (from <= r && OccursAt(s, sub, r))
    ensures forall j :: from <= j && (r == -1 || j < r) ==> !OccursAt(s, sub, j)
  {
    if from + |sub| > |s| then -1
    else if s[from..from + |sub|] == sub then from
    else FirstIndexFrom(s, sub, from + 1)
  }

  /** The smallest index where `sub` occurs in `s`, or -1 when it never does. */
  function FirstIndex(s: string, sub: string): (r: int)
    ensures r == -1 || OccursAt(s, sub, r)
    ensures forall j :: 0 <= j && (r == -1 || j < r) ==> !OccursAt(s, sub, j)
  {
    FirstIndexFrom(s, sub, 0)
  }

  /** JavaScript's `includes`. */
  predicate Contains(s: string, sub: string)
    ensures Contains(s, sub) <==> exists i :: OccursAt(s, sub, i)
  {
    FirstIndex(s, sub) >= 0
  }

  /** An occurrence inside a prefix of `s` is an occurrence in `s`. */
  lemma OccursInPrefix(p: string, s: string, sub: string, i: int)
    requires p <= s && OccursAt(p, sub, i)
    ensures OccursAt(s, sub, i)
  {
    assert s[i..i + |sub|] == p[i..i + |sub|];
  }

  function LowerChar(c: char): char {
    if 'A' <= c <= 'Z' then (c as int + 32) as char else c
  }

  function UpperChar(c: char): char {
    if 'a' <= c <= 'z' then (c as int - 32) as char else c
  }

  /** ASCII lower-casing, letter by letter. */
  function Lower(s: string): (r: string)
    ensures |r| == |s|
    ensures forall i :: 0 <= i < |s| ==> r[i] == LowerChar(s[i])
  {
    seq(|s|, i requires 0 <= i < |s| => LowerChar(s[i]))
  }

  /** ASCII upper-casing, letter by letter. */
  function Upper(s: string): (r: string)
    ensures |r| == |s|
    ensures forall i :: 0 <= i < |s| ==> r[i] == UpperChar(s[i])
  {
    seq(|s|, i requires 0 <= i < |s| => UpperChar(s[i]))
  }
}
