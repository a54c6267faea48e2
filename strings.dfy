/**
 * The handful of JavaScript string operations the dashboard relies on:
 * prefix and suffix tests, substring search (`includes`), ASCII lower-casing,
 * whitespace trimming and the decimal rendering of a small count.
 */
module Strings {

  predicate StartsWith(s: string, prefix: string)
  {
    prefix <= s
  }

  predicate EndsWith(s: string, suffix: string)
  {
    |suffix| <= |s| && s[|s| - |suffix|..] == suffix
  }

  /** `s.includes(p)`: p occurs in s at some position. */
  predicate Contains(s: string, p: string)
    decreases |s|
  {
    p <= s || (|s| > 0 && Contains(s[1..], p))
  }

  /** p sits in s starting at position i. */
  predicate OccursAt(s: string, p: string, i: int)
  {
    0 <= i && i + |p| <= |s| && s[i..i + |p|] == p
  }

  /** Contains holds exactly when p sits in s at some position. */
  lemma {:induction false} ContainsAt(s: string, p: string)
    ensures Contains(s, p) <==> exists i :: OccursAt(s, p, i)
    decreases |s|
  {
    OccursAtStart(s, p);
    if !(p <= s) && |s| > 0 {
      ContainsAt(s[1..], p);
      if exists i :: OccursAt(s, p, i) {
        var i :| OccursAt(s, p, i);
        OccursShift(s, p, i);
      }
      if exists i :: OccursAt(s[1..], p, i) {
        var i :| OccursAt(s[1..], p, i);
        OccursShift(s, p, i + 1);
      }
    }
  }

  lemma OccursAtStart(s: string, p: string)
    ensures OccursAt(s, p, 0) <==> p <= s
  {
  }

  /** Past the first position, p sits in s where it sits in s[1..], one position on. */
  lemma OccursShift(s: string, p: string, i: int)
    requires i >= 1 && |s| > 0
    ensures OccursAt(s, p, i) <==> OccursAt(s[1..], p, i - 1)
  {
    if 0 <= i - 1 && i + |p| <= |s| {
      var here, there := s[i..i + |p|], s[1..][i - 1..i - 1 + |p|];
      assert forall k :: 0 <= k < |p| ==> here[k] == s[i + k] == there[k];
      assert here == there;
    }
  }

  function LowerChar(c: char): char
  {
    if 'A' <= c <= 'Z' then (c as int + 32) as char else c
  }

  /** `toLowerCase`, on the ASCII letters. */
  function ToLower(s: string): (r: string)
    ensures |r| == |s|
    ensures forall i :: 0 <= i < |s| ==> r[i] == LowerChar(s[i])
  {
    if s == [] then [] else [LowerChar(s[0])] + ToLower(s[1..])
  }

  /** The characters `String.prototype.trim` removes. */
  predicate IsWhitespace(c: char)
  {
    c == ' ' || c == '\t' || c == '\n' || c == '\r' || c == '\U{B}' || c == '\U{C}'
    || c == '\U{A0}' || c == '\U{1680}' || ('\U{2000}' <= c <= '\U{200A}')
    || c == '\U{2028}' || c == '\U{2029}' || c == '\U{202F}' || c == '\U{205F}'
    || c == '\U{3000}' || c == '\U{FEFF}'
  }

  /** s[lo..hi] is all whitespace. */
  predicate BlankIn(s: string, lo: nat, hi: nat)
    requires lo <= hi <= |s|
  {
    forall k :: lo <= k < hi ==> IsWhitespace(s[k])
  }

  predicate Blank(s: string)
  {
    BlankIn(s, 0, |s|)
  }

  /** The first position at or after i that holds no whitespace, or |s|. */
  function SkipLeading(s: string, i: nat): (j: nat)
    requires i <= |s|
    ensures i <= j <= |s| && BlankIn(s, i, j)
    ensures j < |s| ==> !IsWhitespace(s[j])
    decreases |s| - i
  {
    if i < |s| && IsWhitespace(s[i]) then SkipLeading(s, i + 1) else i
  }

  /** The end of s[lo..hi] once the whitespace it ends with is dropped. */
  function SkipTrailing(s: string, lo: nat, hi: nat): (j: nat)
    requires lo <= hi <= |s|
    ensures lo <= j <= hi && BlankIn(s, j, hi)
    ensures lo < j ==> !IsWhitespace(s[j - 1])
    decreases hi - lo
  {
    if lo < hi && IsWhitespace(s[hi - 1]) then SkipTrailing(s, lo, hi - 1) else hi
  }

  /** `s.trim()`: s with its leading and trailing whitespace removed; empty exactly when s is blank. */
  function Trim(s: string): (r: string)
    ensures |r| <= |s|
    ensures r == [] <==> Blank(s)
  {
    var a := SkipLeading(s, 0);
    var e := SkipTrailing(s, a, |s|);
    assert a == e ==> BlankIn(s, 0, |s|);
    s[a..e]
  }

  /**
   * The trimmed string is the window of s that starts and ends on a
   * non-whitespace character and has only whitespace outside it.
   */
  lemma TrimIsWindow(s: string)
    ensures var r := Trim(s);
            exists i, j :: 0 <= i <= j <= |s| && r == s[i..j]
                           && BlankIn(s, 0, i) && BlankIn(s, j, |s|)
                           && (i < j ==> !IsWhitespace(s[i]) && !IsWhitespace(s[j - 1]))
  {
    var a := SkipLeading(s, 0);
    var e := SkipTrailing(s, a, |s|);
    assert Trim(s) == s[a..e];
  }

  /** Trimming a trimmed string changes nothing. */
  lemma TrimIdempotent(s: string)
    ensures Trim(Trim(s)) == Trim(s)
  {
    var r := Trim(s);
    var a := SkipLeading(s, 0);
    var e := SkipTrailing(s, a, |s|);
    if r != [] {
      assert r[0] == s[a] && r[|r| - 1] == s[e - 1];
      assert SkipLeading(r, 0) == 0;
      assert SkipTrailing(r, 0, |r|) == |r|;
      assert r[0..|r|] == r;
    }
  }

  /** The decimal rendering of a natural number, as `String(n)` gives it. */
  function NatToString(n: nat): (r: string)
    ensures |r| >= 1
    ensures forall i :: 0 <= i < |r| ==> '0' <= r[i] <= '9'
    decreases n
  {
    if n < 10 then [('0' as int + n) as char]
    else NatToString(n / 10) + [('0' as int + n % 10) as char]
  }
}
