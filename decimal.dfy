/**
 * The two Python built-ins the bot uses to move integers to and from text:
 * `str(n)` (and the equivalent f-string `f'{n}'`) and `int(s)` for a
 * base-10 string. `int(s)` raising `ValueError` is the `None` result.
 */
module Decimal {
  import opened Wrappers

  predicate IsDigit(c: char) {
    '0' <= c <= '9'
  }

  predicate AllDigits(s: string) {
    forall i :: 0 <= i < |s| ==> IsDigit(s[i])
  }

  /** The white space `int()` strips around its argument (ASCII part of `str.isspace`). */
  predicate IsSpace(c: char) {
    c == ' ' || '\t' <= c <= '\r' || '\U{1C}' <= c <= '\U{1F}'
  }

  function DigitChar(d: nat): (c: char)
    requires d < 10
    ensures IsDigit(c)
  {
    (('0' as int) + d) as char
  }

  function DigitValue(c: char): (d: nat)
    requires IsDigit(c)
    ensures d < 10 && DigitChar(d) == c
  {
    (c as int) - ('0' as int)
  }

  /** `str(n)` for a natural number: its shortest decimal spelling. */
  function NatToString(n: nat): (s: string)
    ensures |s| >= 1 && AllDigits(s)
    decreases n
  {
    if n < 10 then [DigitChar(n)] else NatToString(n / 10) + [DigitChar(n % 10)]
  }

  /** `str(i)` for any integer: a minus sign in front of negative numbers. */
  function IntToString(i: int): (s: string)
    ensures |s| >= 1
    ensures i < 0 <==> s[0] == '-'
    ensures i >= 0 ==> AllDigits(s)
  {
    if i < 0 then "-" + NatToString(-i) else NatToString(i)
  }

  /** The value of a string of decimal digits, read left to right. */
  function DigitsValue(s: string): nat
    requires AllDigits(s)
    decreases |s|
  {
    if s == [] then 0 else DigitsValue(s[..|s| - 1]) * 10 + DigitValue(s[|s| - 1])
  }

  /** `s` without its leading white space. */
  function TrimStart(s: string): string
    decreases |s|
  {
    if s != [] && IsSpace(s[0]) then TrimStart(s[1..]) else s
  }

  /** `s` without its trailing white space. */
  function TrimEnd(s: string): string
    decreases |s|
  {
    if s != [] && IsSpace(s[|s| - 1]) then TrimEnd(s[..|s| - 1]) else s
  }

  /** `int(s)`: surrounding white space, an optional sign, then one or more digits. */
  function ParseInt(s: string): Option<int> {
    ParseSigned(TrimEnd(TrimStart(s)))
  }

  /** An optional sign followed by one or more digits, with nothing around them. */
  function ParseSigned(t: string): Option<int> {
    if t != [] && (t[0] == '-' || t[0] == '+') then
      var digits := t[1..];
      if digits != [] && AllDigits(digits) then
        var magnitude: int := DigitsValue(digits);
        Some(if t[0] == '-' then -magnitude else magnitude)
      else
        None
    else if t != [] && AllDigits(t) then
      Some(DigitsValue(t))
    else
      None
  }

  /** Reading back the digits `str` writes gives the number again. */
  lemma {:induction false} NatToStringValue(n: nat)
    ensures DigitsValue(NatToString(n)) == n
    decreases n
  {
    if n >= 10 {
      var s := NatToString(n);
      assert s[..|s| - 1] == NatToString(n / 10);
      NatToStringValue(n / 10);
    }
  }

  /** Text made of digits and a leading minus sign has no white space to strip. */
  lemma NoSpaceToTrim(s: string)
    requires s != [] && (s[0] == '-' || IsDigit(s[0])) && AllDigits(s[1..])
    ensures TrimEnd(TrimStart(s)) == s
  {
    assert !IsSpace(s[0]);
    assert !IsSpace(s[|s| - 1]) by {
      if |s| > 1 { assert s[|s| - 1] == s[1..][|s| - 2]; }
    }
  }

  /** A bare run of digits, with or without a minus sign in front. */
  lemma ParseSignedDigits(d: string)
    requires d != [] && AllDigits(d)
    ensures ParseSigned(d) == Some(DigitsValue(d))
    ensures ParseSigned("-" + d) == Some(-(DigitsValue(d) as int))
  {
    assert IsDigit(d[0]);
    assert ("-" + d)[1..] == d;
  }

  /** `int(str(i)) == i` for every integer. */
  lemma {:induction false} IntToStringRoundTrip(i: int)
    ensures ParseInt(IntToString(i)) == Some(i)
  {
    var s := IntToString(i);
    var magnitude: nat := if i < 0 then -i else i;
    var digits := NatToString(magnitude);
    NatToStringValue(magnitude);
    ParseSignedDigits(digits);
    if i < 0 {
      assert s == "-" + digits && s[1..] == digits;
    } else {
      assert s == digits && s[1..] == digits[1..];
    }
    NoSpaceToTrim(s);
  }

  /** White space in front of a number does not change what `int()` reads. */
  lemma ParseIntLeadingSpace(s: string)
    ensures ParseInt(" " + s) == ParseInt(s)
  {
    assert (" " + s)[1..] == s;
    assert TrimStart(" " + s) == TrimStart(s);
  }

  /** `str` never gives two integers the same text. */
  lemma IntToStringInjective(i: int, j: int)
    requires IntToString(i) == IntToString(j)
    ensures i == j
  {
    IntToStringRoundTrip(i);
    IntToStringRoundTrip(j);
  }
}
