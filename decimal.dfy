/**
 * Decimal text of integers, as JavaScript's `String(n)` and template literals
 * print a whole number below 10^21 in magnitude, and a reader for it.
 * The reader inverts the printer: every other module that builds a
 * message or a style string with a number in it proves that the number can be
 * read back from that string.
 */
module Decimal {
  import opened Wrappers

  predicate IsDigit(c: char) {
    '0' <= c <= '9'
  }

  function DigitChar(d: nat): (c: char)
    requires d < 10
    ensures IsDigit(c) && (c as int) - ('0' as int) == d
  {
    ['0', '1', '2', '3', '4', '5', '6', '7', '8', '9'][d]
  }

  function DigitValue(c: char): (d: nat)
    requires IsDigit(c)
    ensures d < 10
  {
    (c as int) - ('0' as int)
  }

  /** Decimal digits of `n`, most significant first, no leading zeros. */
  function NatToString(n: nat): (s: string)
    ensures |s| > 0
    ensures forall k :: 0 <= k < |s| ==> IsDigit(s[k])
    ensures s[0] == '0' ==> n == 0
  {
    if n < 10 then [DigitChar(n)] else NatToString(n / 10) + [DigitChar(n % 10)]
  }

  /** `String(n)` for a whole number: a minus sign for negatives, then the digits. */
  function IntToString(n: int): (s: string)
    ensures |s| > 0
    ensures n < 0 <==> s[0] == '-'
  {
    if n < 0 then "-" + NatToString(-n) else NatToString(n)
  }

  /** The value of a string of digits, most significant first. */
  function DigitsValue(s: string): nat
    requires forall k :: 0 <= k < |s| ==> IsDigit(s[k])
  {
    if |s| == 0 then 0 else DigitsValue(s[..|s| - 1]) * 10 + DigitValue(s[|s| - 1])
  }

  /** Number of leading digits of `s`. */
  function DigitRun(s: string): (k: nat)
    ensures k <= |s|
    ensures forall j :: 0 <= j < k ==> IsDigit(s[j])
    ensures k < |s| ==> !IsDigit(s[k])
  {
    if |s| > 0 && IsDigit(s[0]) then 1 + DigitRun(s[1..]) else 0
  }

  /** Reads a natural number at the front of `s`: all its leading digits, at least one. */
  function ReadNat(s: string): (r: Option<(nat, string)>)
    ensures r.Some? ==> |r.value.1| < |s|
    ensures r.None? <==> (|s| == 0 || !IsDigit(s[0]))
  {
    var k := DigitRun(s);
    if k == 0 then None else Some((DigitsValue(s[..k]), s[k..]))
  }

  /** Reads an integer, with an optional leading minus sign, at the front of `s`. */
  function ReadInt(s: string): (r: Option<(int, string)>)
    ensures r.Some? ==> |r.value.1| < |s|
  {
    if |s| > 0 && s[0] == '-' then
      var r := ReadNat(s[1..]);
      if r.None? then None else Some((0 - r.value.0, r.value.1))
    else
      var r := ReadNat(s);
      if r.None? then None else Some((r.value.0 as int, r.value.1))
  }

  /** `s` with the literal `p` removed from its front, if it starts with `p`. */
  function StripPrefix(p: string, s: string): (r: Option<string>)
    ensures r.Some? <==> (|p| <= |s| && s[..|p|] == p)
    ensures r.Some? ==> s == p + r.value
  {
    if |p| <= |s| && s[..|p|] == p then Some(s[|p|..]) else None
  }

  /** A reader may stop before `rest` only when `rest` does not go on with a digit. */
  predicate Delimited(rest: string) {
    |rest| == 0 || !IsDigit(rest[0])
  }

  lemma StripPrefixConcat(p: string, t: string)
    ensures StripPrefix(p, p + t) == Some(t)
  {
    assert (p + t)[..|p|] == p;
    assert (p + t)[|p|..] == t;
  }

  lemma {:induction false} DigitsValueOfNat(n: nat)
    ensures DigitsValue(NatToString(n)) == n
  {
    var s := NatToString(n);
    if n >= 10 {
      DigitsValueOfNat(n / 10);
      assert s[..|s| - 1] == NatToString(n / 10);
    }
  }

  lemma {:induction false} DigitRunOfDigits(ds: string, rest: string)
    requires forall k :: 0 <= k < |ds| ==> IsDigit(ds[k])
    requires Delimited(rest)
    ensures DigitRun(ds + rest) == |ds|
  {
    if |ds| > 0 {
      assert (ds + rest)[1..] == ds[1..] + rest;
      DigitRunOfDigits(ds[1..], rest);
    } else {
      assert ds + rest == rest;
    }
  }

  /** Reading back the printed digits of `n` yields `n` and leaves `rest`. */
  lemma ReadNatRoundTrip(n: nat, rest: string)
    requires Delimited(rest)
    ensures ReadNat(NatToString(n) + rest) == Some((n, rest))
  {
    var ds := NatToString(n);
    var s := ds + rest;
    DigitRunOfDigits(ds, rest);
    assert s[..|ds|] == ds;
    assert s[|ds|..] == rest;
    DigitsValueOfNat(n);
  }

  /** Reading back `String(n)` yields `n` and leaves `rest`. */
  lemma ReadIntRoundTrip(n: int, rest: string)
    requires Delimited(rest)
    ensures ReadInt(IntToString(n) + rest) == Some((n, rest))
  {
    if n < 0 {
      ReadNegativeRoundTrip(n, rest);
    } else {
      ReadNonNegativeRoundTrip(n, rest);
    }
  }

  lemma ReadNegativeRoundTrip(n: int, rest: string)
    requires Delimited(rest) && n < 0
    ensures ReadInt(IntToString(n) + rest) == Some((n, rest))
  {
    var ds := NatToString(-n);
    ReadNatRoundTrip(-n, rest);
    ReadSigned(ds, rest, -n);
    assert IntToString(n) == "-" + ds;
  }

  /** After a minus sign, `ReadInt` reads a natural number and negates it. */
  lemma ReadSigned(ds: string, rest: string, m: nat)
    requires ReadNat(ds + rest) == Some((m, rest))
    ensures var v := -(m as int); ReadInt(("-" + ds) + rest) == Some((v, rest))
  {
    assert (("-" + ds) + rest)[1..] == ds + rest;
  }

  lemma ReadNonNegativeRoundTrip(n: nat, rest: string)
    requires Delimited(rest)
    ensures ReadInt(IntToString(n) + rest) == Some((n, rest))
  {
    var ds := NatToString(n);
    assert IsDigit((ds + rest)[0]);
    ReadNatRoundTrip(n, rest);
  }

  /** Printing is injective: two numbers with the same text are equal. */
  lemma IntToStringInjective(a: int, b: int)
    requires IntToString(a) == IntToString(b)
    ensures a == b
  {
    ReadIntRoundTrip(a, "");
    ReadIntRoundTrip(b, "");
    assert IntToString(a) + "" == IntToString(a);
    assert IntToString(b) + "" == IntToString(b);
  }
}
