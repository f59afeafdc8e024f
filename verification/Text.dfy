/**
  The few string operations the governed code relies on.  Which characters count as white
  space is a parameter, so the results hold for any Unicode table.
 */
module Text {

  function StripLeft(isSpace: char -> bool, s: string): string {
    if s != "" && isSpace(s[0]) then StripLeft(isSpace, s[1..]) else s
  }

  function StripRight(isSpace: char -> bool, s: string): string {
    if s != "" && isSpace(s[|s| - 1]) then StripRight(isSpace, s[..|s| - 1]) else s
  }

  function Strip(isSpace: char -> bool, s: string): string {
    StripRight(isSpace, StripLeft(isSpace, s))
  }

  /** Stripping twice is stripping once. */
  lemma StripIdempotent(isSpace: char -> bool, s: string)
    ensures Strip(isSpace, Strip(isSpace, s)) == Strip(isSpace, s)
  {
    var left := StripLeft(isSpace, s);
    StripLeftStarts(isSpace, s);
    StripRightEnds(isSpace, left);
  }

  lemma {:induction false} StripLeftStarts(isSpace: char -> bool, s: string)
    ensures var t := StripLeft(isSpace, s); t != "" ==> !isSpace(t[0])
  {
    if s != "" && isSpace(s[0]) {
      StripLeftStarts(isSpace, s[1..]);
    }
  }

  lemma {:induction false} StripRightEnds(isSpace: char -> bool, s: string)
    ensures var t := StripRight(isSpace, s); t <= s && (t != "" ==> !isSpace(t[|t| - 1]))
  {
    if s != "" && isSpace(s[|s| - 1]) {
      StripRightEnds(isSpace, s[..|s| - 1]);
    }
  }

  /** The position of the first `separator`, or the length of `s` when there is none. */
  function Find(separator: char, s: string): (n: nat)
    ensures n <= |s|
    ensures separator !in s[..n]
    ensures n < |s| ==> s[n] == separator
  {
    if s == "" || s[0] == separator then 0 else
      var n := 1 + Find(separator, s[1..]);
      assert s[..n] == [s[0]] + s[1..][..n - 1];
      n
  }

  function LowerChar(c: char): char {
    if 'A' <= c <= 'Z' then c - 'A' + 'a' else c
  }

  /** Whether `s`, ignoring ASCII case, is the word "true". */
  predicate IsTrueWord(s: string) {
    |s| == 4 && LowerChar(s[0]) == 't' && LowerChar(s[1]) == 'r' && LowerChar(s[2]) == 'u' && LowerChar(s[3]) == 'e'
  }
}
