/** The string built-ins the monitor relies on: `str.lower`, `str.find`,
    the substring test `x in s` and `str.count` of one character. */
module Text {

  /** Lower-casing of one character (ASCII letters only). */
  function LowerChar(c: char): char {
    if 'A' <= c <= 'Z' then (c as int + 32) as char else c
  }

  /** `s.lower()`: same length, every ASCII capital replaced by its small
      letter, nothing else touched. */
  function Lower(s: string): (r: string)
    ensures |r| == |s|
    ensures forall i :: 0 <= i < |s| ==> r[i] == LowerChar(s[i])
    ensures forall i :: 0 <= i < |r| ==> !('A' <= r[i] <= 'Z')
  {
    seq(|s|, i requires 0 <= i < |s| => LowerChar(s[i]))
  }

  /** `pat` occurs in `text` starting at offset `i`. */
  predicate OccursAt(text: string, pat: string, i: int) {
    0 <= i && i + |pat| <= |text| && text[i..i + |pat|] == pat
  }

  /** `i` is the leftmost occurrence of `pat` in `text`. */
  predicate FirstOccurrence(text: string, pat: string, i: int) {
    OccursAt(text, pat, i) && forall j :: 0 <= j < i ==> !OccursAt(text, pat, j)
  }

  /** Leftmost occurrence of `pat` at or after `start`, or -1. */
  function FindFrom(text: string, pat: string, start: nat): (r: int)
    requires start <= |text|
    ensures r == -1 || (start <= r && OccursAt(text, pat, r))
    ensures r == -1 ==> forall i :: start <= i ==> !OccursAt(text, pat, i)
    ensures r != -1 ==> forall i :: start <= i < r ==> !OccursAt(text, pat, i)
    decreases |text| - start
  {
    if start + |pat| > |text| then -1
    else if text[start..start + |pat|] == pat then start
    else FindFrom(text, pat, start + 1)
  }

  /** `text.find(pat)`: the leftmost occurrence, or -1 when there is none. */
  function Find(text: string, pat: string): (r: int)
    ensures r == -1 <==> forall i :: !OccursAt(text, pat, i)
    ensures r != -1 ==> FirstOccurrence(text, pat, r)
  {
    FindFrom(text, pat, 0)
  }

  /** `needle in hay` for strings. */
  function Contains(hay: string, needle: string): (b: bool)
    ensures b <==> exists i :: OccursAt(hay, needle, i)
  {
    Find(hay, needle) != -1
  }

  /** `s.count(c)` for a single character: the number of copies of `c`
      in `s`. */
  function CountChar(s: string, c: char): (n: nat)
    ensures n == multiset(s)[c]
    ensures n <= |s|
  {
    if s == [] then 0
    else
      assert s == s[..|s| - 1] + [s[|s| - 1]];
      CountChar(s[..|s| - 1], c) + (if s[|s| - 1] == c then 1 else 0)
  }

  /** A prefix never holds more copies of a character than the whole string. */
  lemma {:induction false} CountCharPrefix(s: string, c: char, i: nat)
    requires i <= |s|
    ensures CountChar(s[..i], c) <= CountChar(s, c)
    decreases |s|
  {
    if i < |s| {
      var init := s[..|s| - 1];
      assert init[..i] == s[..i];
      CountCharPrefix(init, c, i);
    } else {
      assert s[..i] == s;
    }
  }
}
