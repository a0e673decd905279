/** String helpers used by the action: prefix tests, the `'true'` input test,
    `Array.prototype.join` and the decimal rendering of an exit code. */
module Text {

  /** `s.startsWith(prefix)`. */
  predicate StartsWith(s: string, prefix: string) {
    |prefix| <= |s| && s[..|prefix|] == prefix
  }

  /** Appending text keeps a prefix. */
  lemma StartsWithAppend(s: string, prefix: string, more: string)
    requires StartsWith(s, prefix)
    ensures StartsWith(s + more, prefix)
  {
    assert (s + more)[..|prefix|] == s[..|prefix|];
  }

  /** Lower-cases the ASCII letters `A`..`Z` and leaves every other character alone. */
  function LowerChar(c: char): char {
    if 'A' <= c <= 'Z' then (c as int - 'A' as int + 'a' as int) as char else c
  }

  function Lower(s: string): (t: string)
    ensures |t| == |s|
    ensures forall i :: 0 <= i < |s| ==> t[i] == LowerChar(s[i])
  {
    if |s| == 0 then "" else [LowerChar(s[0])] + Lower(s[1..])
  }

  /** A boolean action input: `raw.toLowerCase() === 'true'`. */
  predicate IsTrueInput(raw: string) {
    Lower(raw) == "true"
  }

  /** `raw` is the word `true` written in any mix of upper and lower case. */
  predicate SpellsTrue(raw: string) {
    && |raw| == 4
    && (raw[0] == 't' || raw[0] == 'T')
    && (raw[1] == 'r' || raw[1] == 'R')
    && (raw[2] == 'u' || raw[2] == 'U')
    && (raw[3] == 'e' || raw[3] == 'E')
  }

  /** The input reads as true exactly when it spells `true` in any mix of cases;
      in particular the empty input (an unset input) reads as false. */
  lemma TrueInputSpelling(raw: string)
    ensures IsTrueInput(raw) <==> SpellsTrue(raw)
    ensures raw == "" ==> !IsTrueInput(raw)
  {
    var t := Lower(raw);
    if IsTrueInput(raw) {
      assert t[0] == 't' && t[1] == 'r' && t[2] == 'u' && t[3] == 'e';
    }
    if SpellsTrue(raw) {
      assert t == "true";
    }
  }

  /** `parts.join(sep)`. */
  function Join(parts: seq<string>, sep: string): string
  {
    if |parts| == 0 then ""
    else if |parts| == 1 then parts[0]
    else parts[0] + sep + Join(parts[1..], sep)
  }

  /** The first part, then the separator when more parts follow, then the rest joined. */
  lemma JoinHead(parts: seq<string>, sep: string)
    requires |parts| > 0
    ensures Join(parts, sep) == parts[0] + (if |parts| > 1 then sep else "") + Join(parts[1..], sep)
  {
  }

  predicate IsDigit(c: char) {
    '0' <= c <= '9'
  }

  predicate AllDigits(s: string) {
    forall i :: 0 <= i < |s| ==> IsDigit(s[i])
  }

  function DigitChar(d: nat): (c: char)
    requires d < 10
    ensures IsDigit(c)
  {
    ('0' as int + d) as char
  }

  /** The decimal text of `n`, as a JavaScript template literal renders a non-negative integer. */
  function Decimal(n: nat): (s: string)
    ensures |s| > 0
    ensures AllDigits(s)
    ensures n > 0 ==> s[0] != '0'
    decreases n
  {
    if n < 10 then [DigitChar(n)] else Decimal(n / 10) + [DigitChar(n % 10)]
  }

  /** The number a string of decimal digits denotes. */
  function DigitsValue(s: string): nat
    requires AllDigits(s)
  {
    if |s| == 0 then 0
    else DigitsValue(s[..|s| - 1]) * 10 + (s[|s| - 1] as int - '0' as int)
  }

  /** Reading the decimal text back gives the number: the rendering loses nothing. */
  lemma {:induction false} DecimalRoundTrip(n: nat)
    ensures DigitsValue(Decimal(n)) == n
  {
    if n >= 10 {
      DecimalRoundTrip(n / 10);
      var s := Decimal(n);
      assert s[..|s| - 1] == Decimal(n / 10);
    }
  }

  /** Distinct numbers have distinct decimal texts. */
  lemma DecimalInjective(m: nat, n: nat)
    requires Decimal(m) == Decimal(n)
    ensures m == n
  {
    DecimalRoundTrip(m);
    DecimalRoundTrip(n);
  }
}
