/**
 * The parts of Kotlin's string library the core relies on, restricted to
 * ASCII: `isBlank`, `toIntOrNull`, `Int.toString`, `Char.lowercase` and
 * `String.contains(other, ignoreCase = true)`.
 */
module KotlinText {
  import opened Wrappers

  const MinInt: int := -0x8000_0000
  const MaxInt: int := 0x7fff_ffff

  /** `Char.isWhitespace` on ASCII: tab to carriage return, the four separators 0x1C-0x1F, and space. */
  predicate IsWhitespace(c: char) {
    9 <= c as int <= 13 || 28 <= c as int <= 32
  }

  /** `String.isBlank`: empty or whitespace only. */
  predicate IsBlank(s: string): (r: bool)
    ensures s == [] ==> r
    ensures r && s != [] ==> IsWhitespace(s[0]) && IsWhitespace(s[|s| - 1])
  {
    forall i | 0 <= i < |s| :: IsWhitespace(s[i])
  }

  /** `String?.isNullOrBlank`: a text that is not counts only with a visible character. */
  predicate IsNullOrBlank(s: Option<string>): (r: bool)
    ensures s.None? ==> r
    ensures s.Some? ==> (!r <==> exists i | 0 <= i < |s.value| :: !IsWhitespace(s.value[i]))
  {
    s.None? || IsBlank(s.value)
  }

  predicate IsDigit(c: char) {
    '0' <= c <= '9'
  }

  predicate AllDigits(s: string) {
    forall i | 0 <= i < |s| :: IsDigit(s[i])
  }

  /** The value of a run of decimal digits, most significant first. */
  function DigitsValue(s: string): nat
    requires AllDigits(s)
  {
    if s == [] then 0 else DigitsValue(s[..|s| - 1]) * 10 + (s[|s| - 1] as int - '0' as int)
  }

  /**
   * `String.toIntOrNull()`: an optional `-` or `+` sign followed by at least
   * one decimal digit, whose value fits a 32-bit Int; anything else is null.
   * No surrounding whitespace, no decimal point.
   */
  function ToIntOrNull(s: string): (r: Option<int>)
    ensures r.Some? ==> MinInt <= r.value <= MaxInt
    ensures r.Some? ==> !IsBlank(s)
    ensures r.Some? ==> exists i | 0 <= i < |s| :: IsDigit(s[i])
  {
    if |s| == 0 then None
    else if s[0] < '0' then
      if |s| == 1 then None
      else if s[0] == '-' && AllDigits(s[1..]) && -(DigitsValue(s[1..]) as int) >= MinInt then
        assert IsDigit(s[1]) by { assert s[1] == s[1..][0]; }
        Some(-(DigitsValue(s[1..]) as int))
      else if s[0] == '+' && AllDigits(s[1..]) && DigitsValue(s[1..]) <= MaxInt then
        assert IsDigit(s[1]) by { assert s[1] == s[1..][0]; }
        Some(DigitsValue(s[1..]))
      else None
    else if AllDigits(s) && DigitsValue(s) <= MaxInt then
      assert IsDigit(s[0]);
      Some(DigitsValue(s))
    else None
  }

  /** The decimal digits of a natural number, without leading zeros. */
  function NatToString(n: nat): (r: string)
    ensures |r| >= 1 && AllDigits(r)
    decreases n
  {
    var d := ['0' + ((n % 10) as char)];
    if n < 10 then d else NatToString(n / 10) + d
  }

  /** `Int.toString()`: a `-` sign for negatives, then the digits of the magnitude. */
  function IntToString(n: int): (r: string)
    ensures |r| >= 1
    ensures r[0] == '-' <==> n < 0
    ensures n >= 0 ==> AllDigits(r)
    ensures n < 0 ==> AllDigits(r[1..])
  {
    if n < 0 then "-" + NatToString(-n) else NatToString(n)
  }

  lemma {:induction false} NatToStringValue(n: nat)
    ensures DigitsValue(NatToString(n)) == n
    decreases n
  {
    var r := NatToString(n);
    if n >= 10 {
      NatToStringValue(n / 10);
      assert r[..|r| - 1] == NatToString(n / 10);
    }
  }

  /**
   * Printing an Int and parsing the text back gives the same Int: the two
   * conversions the input loop chains when it falls back on an old Int value.
   */
  lemma IntToStringRoundTrip(n: int)
    requires MinInt <= n <= MaxInt
    ensures ToIntOrNull(IntToString(n)) == Some(n)
  {
    if n < 0 {
      NatToStringValue(-n);
      assert IntToString(n)[1..] == NatToString(-n);
    } else {
      NatToStringValue(n);
    }
  }

  /** `Char.lowercase()` on ASCII. */
  function LowerAscii(c: char): (r: char)
    ensures 'A' <= c <= 'Z' ==> r as int == c as int + 32
    ensures !('A' <= c <= 'Z') ==> r == c
    ensures !('A' <= r <= 'Z')
  {
    if 'A' <= c <= 'Z' then (c as int + 32) as char else c
  }

  /** Does `pattern` occur in `text` starting at `at`, ignoring ASCII case? */
  predicate MatchesAt(text: string, pattern: string, at: nat)
    requires at + |pattern| <= |text|
  {
    forall j | 0 <= j < |pattern| :: LowerAscii(text[at + j]) == LowerAscii(pattern[j])
  }

  /** `String.contains(other, ignoreCase = true)`. */
  predicate ContainsIgnoreCase(text: string, pattern: string): (r: bool)
    ensures r ==> |pattern| <= |text|
    ensures text == pattern ==> r
  {
    assert text == pattern ==> MatchesAt(text, pattern, 0);
    exists at: nat | at + |pattern| <= |text| :: MatchesAt(text, pattern, at)
  }

  /** Every text contains the empty string, so an empty search matches every title. */
  lemma EmptyPatternMatches(text: string)
    ensures ContainsIgnoreCase(text, "")
  {
    assert MatchesAt(text, "", 0);
  }

  /** Matching ignores the case of the pattern: "aPp" is found wherever "app" is. */
  lemma ContainsIgnoresPatternCase(text: string, pattern: string, other: string)
    requires |pattern| == |other|
    requires forall j | 0 <= j < |pattern| :: LowerAscii(pattern[j]) == LowerAscii(other[j])
    ensures ContainsIgnoreCase(text, pattern) <==> ContainsIgnoreCase(text, other)
  {
    if ContainsIgnoreCase(text, pattern) {
      var at: nat :| at + |pattern| <= |text| && MatchesAt(text, pattern, at);
      assert MatchesAt(text, other, at);
    }
    if ContainsIgnoreCase(text, other) {
      var at: nat :| at + |other| <= |text| && MatchesAt(text, other, at);
      assert MatchesAt(text, pattern, at);
    }
  }
}
