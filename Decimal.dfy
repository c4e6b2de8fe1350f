/** Decimal rendering and parsing of integers as JavaScript performs them:
    template-literal and `toString()` conversion of a number, and `parseInt(s, 10)`. */
module Decimal {

  predicate IsDigit(c: char) { '0' <= c <= '9' }

  predicate AllDigits(s: string) { forall i :: 0 <= i < |s| ==> IsDigit(s[i]) }

  function DigitValue(c: char): (d: nat)
    requires IsDigit(c)
    ensures d < 10
  {
    c as int - '0' as int
  }

  function DigitChar(d: nat): (c: char)
    requires d < 10
    ensures IsDigit(c) && DigitValue(c) == d
  {
    ('0' as int + d) as char
  }

  /** The shortest decimal numeral of `n`, most significant digit first. */
  function NatToString(n: nat): (s: string)
    ensures |s| > 0 && AllDigits(s)
  {
    if n < 10 then [DigitChar(n)] else NatToString(n / 10) + [DigitChar(n % 10)]
  }

  /** The number a string of digits denotes. */
  function DigitsValue(s: string): nat
    requires AllDigits(s)
  {
    if s == [] then 0 else DigitsValue(s[..|s| - 1]) * 10 + DigitValue(s[|s| - 1])
  }

  lemma {:induction false} NatToStringRoundTrip(n: nat)
    ensures DigitsValue(NatToString(n)) == n
  {
    if n >= 10 {
      var s := NatToString(n);
      assert s[..|s| - 1] == NatToString(n / 10);
      NatToStringRoundTrip(n / 10);
    }
  }

  /** `String(i)` for an integer `i`. */
  function IntToString(i: int): (s: string)
    ensures |s| > 0 && (s[0] == '-' || IsDigit(s[0]))
  {
    if i < 0 then "-" + NatToString(-i) else NatToString(i)
  }

  /** The length of the longest run of digits at the start of `s`. */
  function DigitPrefixLength(s: string): (p: nat)
    ensures p <= |s| && AllDigits(s[..p])
    ensures p < |s| ==> !IsDigit(s[p])
  {
    if s == [] || !IsDigit(s[0]) then 0
    else
      var q := DigitPrefixLength(s[1..]);
      assert s[..1 + q] == [s[0]] + s[1..][..q];
      1 + q
  }

  /** A JavaScript number as far as this model needs it: an integer, or `NaN`. */
  datatype Number = Finite(value: int) | NaN

  /** `parseInt(s, 10)`: an optional sign, then the longest run of digits; `NaN` when there is no digit. */
  function ParseInt(s: string): (x: Number)
    ensures x.NaN? <==> DigitPrefixLength(if |s| > 0 && (s[0] == '-' || s[0] == '+') then s[1..] else s) == 0
  {
    var signed := |s| > 0 && (s[0] == '-' || s[0] == '+');
    var digits := if signed then s[1..] else s;
    var p := DigitPrefixLength(digits);
    if p == 0 then NaN
    else
      var magnitude: int := DigitsValue(digits[..p]);
      Finite(if s[0] == '-' then -magnitude else magnitude)
  }

  /** Only the empty run of digits is skipped by `parseInt`: nothing else fails to parse once it is a numeral. */
  lemma ParseIntRoundTrip(i: int)
    ensures ParseInt(IntToString(i)) == Finite(i)
  {
    var n: nat := if i < 0 then -i else i;
    var digits := NatToString(n);
    var s := IntToString(i);
    assert i < 0 ==> s[1..] == digits;
    assert i >= 0 ==> s == digits;
    assert DigitPrefixLength(digits) == |digits|;
    assert digits[..|digits|] == digits;
    NatToStringRoundTrip(n);
  }

  lemma IntToStringInjective(i: int, j: int)
    requires IntToString(i) == IntToString(j)
    ensures i == j
  {
    ParseIntRoundTrip(i);
    ParseIntRoundTrip(j);
  }

  lemma NatToStringInjective(i: nat, j: nat)
    requires NatToString(i) == NatToString(j)
    ensures i == j
  {
    NatToStringRoundTrip(i);
    NatToStringRoundTrip(j);
  }

  /** `x.toString()` for a number. */
  function NumberToString(x: Number): (s: string)
    ensures s != ""
    ensures s == "NaN" <==> x.NaN?
  {
    match x
    case NaN => "NaN"
    case Finite(i) => IntToString(i)
  }

  /** Converting the number text of an integer back and forth gives the same text. */
  lemma NumberTextRoundTrip(i: int)
    ensures NumberToString(ParseInt(IntToString(i))) == IntToString(i)
  {
    ParseIntRoundTrip(i);
  }
}
