/** Facts about strings that the Rust code gets from `format!`, `str` methods and `Display`. */
module Strings {
  import opened Wrappers

  /** `p` is a prefix of `s` (`s.starts_with(p)`). */
  predicate IsPrefix(p: string, s: string) {
    |p| <= |s| && s[..|p|] == p
  }

  /** `p` is a suffix of `s` (`s.ends_with(p)`). */
  predicate IsSuffix(p: string, s: string) {
    |p| <= |s| && s[|s| - |p|..] == p
  }

  /** `t` occurs in `s` starting at index `i`. */
  predicate OccursAt(t: string, s: string, i: nat) {
    i + |t| <= |s| && s[i..i + |t|] == t
  }

  /** `s.contains(t)`. */
  predicate Contains(s: string, t: string) {
    exists i: nat | i <= |s| :: OccursAt(t, s, i)
  }

  /** `c` does not occur in `s` before index `n`. */
  predicate AbsentBefore(s: string, c: char, n: nat) {
    forall j :: 0 <= j < n && j < |s| ==> s[j] != c
  }

  /** The index of the first occurrence of `c` in `s`; reading the model name
      back out of an endpoint URL splits at the first `:`. */
  function IndexOf(s: string, c: char): (r: Option<nat>)
    ensures r.None? ==> AbsentBefore(s, c, |s|)
    ensures r.Some? ==> r.value < |s| && s[r.value] == c && AbsentBefore(s, c, r.value)
  {
    if s == [] then None
    else if s[0] == c then Some(0)
    else
      match IndexOf(s[1..], c)
      case None => None
      case Some(k) => Some(k + 1)
  }

  /** The layout of a three-part concatenation. */
  lemma Layout(a: string, b: string, c: string)
    ensures |a + b + c| == |a| + |b| + |c|
    ensures IsPrefix(a, a + b + c)
    ensures OccursAt(b, a + b + c, |a|)
    ensures IsSuffix(c, a + b + c)
  {
  }

  // ---------------------------------------------------------------------------
  // Decimal rendering of unsigned integers (`Display` for `u16` and `u32`)
  // ---------------------------------------------------------------------------

  predicate IsDigit(c: char) {
    '0' <= c <= '9'
  }

  predicate AllDigits(s: string) {
    forall i :: 0 <= i < |s| ==> IsDigit(s[i])
  }

  function DigitChar(d: nat): (c: char)
    requires d < 10
    ensures IsDigit(c) && (c as int) - ('0' as int) == d
  {
    (('0' as int) + d) as char
  }

  function DigitValue(c: char): nat
    requires IsDigit(c)
  {
    (c as int) - ('0' as int)
  }

  /** The decimal digits of `n`, most significant first, with no leading zero. */
  function Decimal(n: nat): (s: string)
    ensures |s| > 0 && AllDigits(s)
    ensures s[0] == '0' ==> s == "0"
    decreases n
  {
    if n < 10 then [DigitChar(n)] else Decimal(n / 10) + [DigitChar(n % 10)]
  }

  /** The number a string of decimal digits denotes. */
  function DecimalValue(s: string): nat
    requires AllDigits(s)
  {
    if s == [] then 0 else DecimalValue(s[..|s| - 1]) * 10 + DigitValue(s[|s| - 1])
  }

  /** Rendering a number in decimal loses nothing: the digits denote the number. */
  lemma {:induction false} DecimalRoundTrip(n: nat)
    ensures DecimalValue(Decimal(n)) == n
    decreases n
  {
    if n >= 10 {
      DecimalRoundTrip(n / 10);
      var s := Decimal(n);
      assert s[..|s| - 1] == Decimal(n / 10);
    }
  }

  /** Distinct numbers have distinct renderings. */
  lemma DecimalInjective(m: nat, n: nat)
    requires Decimal(m) == Decimal(n)
    ensures m == n
  {
    DecimalRoundTrip(m);
    DecimalRoundTrip(n);
  }

  // ---------------------------------------------------------------------------
  // `str::trim_end`
  // ---------------------------------------------------------------------------

  /** Rust's `char::is_whitespace`: the Unicode `White_Space` property. */
  predicate IsWhitespace(c: char) {
    ('\t' <= c <= '\r') || c == ' ' || c == '\U{85}' || c == '\U{A0}' || c == '\U{1680}'
    || ('\U{2000}' <= c <= '\U{200A}') || c == '\U{2028}' || c == '\U{2029}'
    || c == '\U{202F}' || c == '\U{205F}' || c == '\U{3000}'
  }

  /** `s.trim_end()`: `s` without its trailing whitespace. */
  function TrimEnd(s: string): (r: string)
    ensures IsPrefix(r, s)
    ensures r == [] || !IsWhitespace(r[|r| - 1])
    ensures forall i :: |r| <= i < |s| ==> IsWhitespace(s[i])
  {
    if s == [] || !IsWhitespace(s[|s| - 1]) then s else TrimEnd(s[..|s| - 1])
  }

  /** The three properties of `TrimEnd` determine its result: any prefix with
      no trailing whitespace that removes only whitespace is `TrimEnd(s)`. */
  lemma TrimEndUnique(s: string, r: string)
    requires IsPrefix(r, s)
    requires r == [] || !IsWhitespace(r[|r| - 1])
    requires forall i :: |r| <= i < |s| ==> IsWhitespace(s[i])
    ensures r == TrimEnd(s)
  {
  }

  /** Trimming twice is trimming once. */
  lemma TrimEndIdempotent(s: string)
    ensures TrimEnd(TrimEnd(s)) == TrimEnd(s)
  {
  }
}
