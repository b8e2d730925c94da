/** The string operations the dashboard relies on: `toString()` of a count, `toLowerCase()`, and a case-insensitive search. */
module Strings {

  predicate IsDigit(c: char)
  {
    '0' <= c <= '9'
  }

  function DigitChar(d: nat): char
    requires d < 10
  {
    ('0' as int + d) as char
  }

  /** `n.toString()` for a non-negative integer: its decimal digits, without leading zeros. */
  function DecimalString(n: nat): (s: string)
    ensures |s| >= 1
    ensures forall i :: 0 <= i < |s| ==> IsDigit(s[i])
    ensures |s| > 1 ==> s[0] != '0'
  {
    if n < 10 then [DigitChar(n)] else DecimalString(n / 10) + [DigitChar(n % 10)]
  }

  /** Reads a string of decimal digits back as a number. */
  function DecimalValue(s: string): nat
    requires forall i :: 0 <= i < |s| ==> IsDigit(s[i])
  {
    if s == [] then 0
    else
      var d := s[|s| - 1] as int - '0' as int;
      assert IsDigit(s[|s| - 1]);
      DecimalValue(s[..|s| - 1]) * 10 + d
  }

  /** Reading the decimal string of a count gives the count back. */
  lemma {:induction false} DecimalRoundTrip(n: nat)
    ensures DecimalValue(DecimalString(n)) == n
  {
    if n >= 10 {
      var s := DecimalString(n);
      assert s[..|s| - 1] == DecimalString(n / 10);
      DecimalRoundTrip(n / 10);
    }
  }

  /** Lower-casing of one character; only the ASCII letters A-Z change. */
  function LowerChar(c: char): char
  {
    if 'A' <= c <= 'Z' then (c as int + 32) as char else c
  }

  /**
    * `s.toLowerCase()` restricted to ASCII. Compared against an all-ASCII lower-case
    * literal, as everywhere in this dashboard, this agrees with the full Unicode mapping:
    * no other character lower-cases to a single ASCII letter that such a literal contains.
    */
  function Lower(s: string): (r: string)
    ensures |r| == |s|
    ensures forall i :: 0 <= i < |s| ==> r[i] == LowerChar(s[i])
  {
    seq(|s|, i requires 0 <= i < |s| => LowerChar(s[i]))
  }

  /** Lower-casing twice is lower-casing once. */
  lemma {:induction false} LowerIdempotent(s: string)
    ensures Lower(Lower(s)) == Lower(s)
  {
  }

  /** Needle occurs in the haystack at position i, ASCII letters compared without case on both sides. */
  predicate MatchesAt(haystack: string, needle: string, i: nat)
  {
    i + |needle| <= |haystack| && Lower(haystack[i..i + |needle|]) == Lower(needle)
  }

  /**
    * `/needle/i.test(haystack)` for a needle of ASCII letters, spaces and other literal
    * characters, searched left to right. In a regular expression without the `u` flag
    * (ECMA-262, section 22.2.2.7.3, Canonicalize), a non-ASCII character never matches an
    * ASCII one, so ASCII lower-casing of both sides decides the match exactly.
    */
  function ContainsIgnoringCase(haystack: string, needle: string): (r: bool)
    ensures r <==> exists i: nat :: MatchesAt(haystack, needle, i)
    decreases |haystack|
  {
    if |haystack| < |needle| then false
    else if Lower(haystack[..|needle|]) == Lower(needle) then
      assert MatchesAt(haystack, needle, 0);
      true
    else
      var rest := ContainsIgnoringCase(haystack[1..], needle);
      ShiftMatches(haystack, needle);
      rest
  }

  /** A match beyond the first position is a match in the haystack's tail. */
  lemma {:induction false} ShiftMatches(haystack: string, needle: string)
    requires |haystack| >= 1
    requires !MatchesAt(haystack, needle, 0)
    ensures (exists i: nat :: MatchesAt(haystack, needle, i)) <==> (exists i: nat :: MatchesAt(haystack[1..], needle, i))
  {
    forall i: nat | MatchesAt(haystack, needle, i)
      ensures MatchesAt(haystack[1..], needle, i - 1)
    {
      assert i != 0;
      assert haystack[1..][i - 1..i - 1 + |needle|] == haystack[i..i + |needle|];
    }
    forall i: nat | MatchesAt(haystack[1..], needle, i)
      ensures MatchesAt(haystack, needle, i + 1)
    {
      assert haystack[1..][i..i + |needle|] == haystack[i + 1..i + 1 + |needle|];
    }
  }
}
