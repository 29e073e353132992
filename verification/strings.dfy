/** The two string operations the sentiment router relies on: Python's
    `str.lower()` (restricted to ASCII letters) and the substring test
    `sub in s`. */
module Strings {

  /** Lower-cases one character; only the ASCII letters 'A'..'Z' change. */
  function LowerChar(c: char): (d: char)
    ensures 'A' <= c <= 'Z' ==> 'a' <= d <= 'z' && d as int - c as int == 'a' as int - 'A' as int
    ensures !('A' <= c <= 'Z') ==> d == c
  {
    if 'A' <= c <= 'Z' then (c as int - 'A' as int + 'a' as int) as char else c
  }

  /** True when `s` holds no ASCII upper-case letter. */
  predicate NoUpper(s: string) {
    forall i :: 0 <= i < |s| ==> !('A' <= s[i] <= 'Z')
  }

  /** Python's `s.lower()`, restricted to ASCII: the same length, and every
      character lower-cased in place. */
  function Lower(s: string): (r: string)
    ensures |r| == |s|
    ensures forall i :: 0 <= i < |s| ==> r[i] == LowerChar(s[i])
  {
    if s == [] then [] else [LowerChar(s[0])] + Lower(s[1..])
  }

  /** No upper-case letter survives lower-casing. */
  lemma LowerHasNoUpper(s: string)
    ensures NoUpper(Lower(s))
  {
  }

  /** Lower-casing an already lower-cased string changes nothing. */
  lemma LowerIdempotent(s: string)
    ensures Lower(Lower(s)) == Lower(s)
  {
  }

  /** A string with no upper-case letter is its own lower-case form. */
  lemma LowerUnchanged(s: string)
    requires NoUpper(s)
    ensures Lower(s) == s
  {
  }

  /** Lower-casing works one leading character at a time. */
  lemma LowerCons(c: char, t: string)
    ensures Lower([c] + t) == [LowerChar(c)] + Lower(t)
  {
  }

  /** Lower-casing a concatenation lower-cases each part. */
  lemma LowerAppend(s: string, t: string)
    ensures Lower(s + t) == Lower(s) + Lower(t)
  {
  }

  /** `sub` occurs in `s` at position `i`. */
  predicate MatchAt(s: string, sub: string, i: int) {
    0 <= i && i + |sub| <= |s| && s[i..i + |sub|] == sub
  }

  /** The meaning of Python's `sub in s`: some position of `s` starts a copy of `sub`. */
  ghost predicate Occurs(sub: string, s: string) {
    exists i :: MatchAt(s, sub, i)
  }

  /** Python's `sub in s`, computed by trying each starting position in
      turn; true exactly when some position of `s` starts a copy of `sub`. */
  function Contains(s: string, sub: string): (b: bool)
    ensures b <==> Occurs(sub, s)
    decreases |s|
  {
    if |s| < |sub| then
      assert forall i :: !MatchAt(s, sub, i);
      false
    else if s[..|sub|] == sub then
      assert MatchAt(s, sub, 0);
      true
    else
      OccursInTail(s, sub);
      Contains(s[1..], sub)
  }

  /** A match in `s[1..]` is a match in `s` one position later, and back. */
  lemma MatchAtTail(s: string, sub: string, j: int)
    requires |s| > 0
    ensures MatchAt(s[1..], sub, j) <==> 0 <= j && MatchAt(s, sub, j + 1)
  {
    if 0 <= j && j + |sub| <= |s[1..]| {
      assert s[1..][j..j + |sub|] == s[j + 1..j + 1 + |sub|];
    }
  }

  /** Without a match at the first position, `sub` occurs in `s` exactly
      when it occurs in the rest of `s`. */
  lemma OccursInTail(s: string, sub: string)
    requires |s| > 0 && !MatchAt(s, sub, 0)
    ensures Occurs(sub, s) <==> Occurs(sub, s[1..])
  {
    if Occurs(sub, s[1..]) {
      var j :| MatchAt(s[1..], sub, j);
      MatchAtTail(s, sub, j);
    }
    if Occurs(sub, s) {
      var i :| MatchAt(s, sub, i);
      MatchAtTail(s, sub, i - 1);
    }
  }
}
