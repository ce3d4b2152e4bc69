/** Unsigned 64-bit integers and their decimal text: Rust's `u64::to_string`
    and `str::parse::<u64>` (also used for `usize` on a 64-bit target). */
module Decimal {
  import opened Wrappers

  const U64_LIMIT: nat := 0x1_0000_0000_0000_0000

  type U64 = n: nat | n < U64_LIMIT

  /** The error kinds of Rust's integer parser. */
  datatype ParseError = Empty | InvalidDigit | PosOverflow

  predicate IsDigit(c: char) {
    '0' <= c <= '9'
  }

  predicate AllDigits(s: string) {
    forall i :: 0 <= i < |s| ==> IsDigit(s[i])
  }

  function DigitValue(c: char): (d: nat)
    requires IsDigit(c)
    ensures d < 10
  {
    c as int - '0' as int
  }

  function DigitChar(d: nat): (c: char)
    requires d < 10
    ensures IsDigit(c) && DigitValue(c) == d
  {
    ('0' as int + d) as char
  }

  /** The number a string of decimal digits denotes, most significant digit first. */
  function DigitsValue(s: string): nat
    requires AllDigits(s)
  {
    if s == [] then 0 else DigitsValue(s[..|s| - 1]) * 10 + DigitValue(s[|s| - 1])
  }

  /** Decimal rendering without sign or leading zeros (`to_string`). */
  function ToDecimal(n: nat): (s: string)
    ensures |s| > 0 && AllDigits(s)
    ensures DigitsValue(s) == n
    ensures |s| > 1 ==> s[0] != '0'
  {
    if n < 10 then [DigitChar(n)]
    else
      var s := ToDecimal(n / 10) + [DigitChar(n % 10)];
      assert s[..|s| - 1] == ToDecimal(n / 10);
      s
  }

  /** The part of the text that must be digits: one leading '+' is accepted
      and dropped when something follows it; a '-' is not a sign for an
      unsigned type and so stays, as an invalid digit. */
  function Unsigned(s: string): string
  {
    if |s| > 1 && s[0] == '+' then s[1..] else s
  }

  /** The longest run of digits the text starts with. */
  function DigitPrefix(s: string): (p: string)
    ensures |p| <= |s| && p == s[..|p|] && AllDigits(p)
    ensures |p| < |s| ==> !IsDigit(s[|p|])
  {
    if s == [] || !IsDigit(s[0]) then []
    else
      var p := [s[0]] + DigitPrefix(s[1..]);
      assert s == [s[0]] + s[1..];
      p
  }

  /** `str::parse::<u64>`. The parser reads the digits from left to right and
      stops at the first problem: a value past `u64::MAX` is an overflow even
      when a bad character comes later, and a bad character is reported only
      when the digits before it still fit. */
  function ParseU64(s: string): (r: Result<U64, ParseError>)
    ensures s == [] <==> r == Failure(Empty)
    ensures r.Success? <==> |s| > 0 && AllDigits(Unsigned(s)) && DigitsValue(Unsigned(s)) < U64_LIMIT
    ensures r.Success? ==> r.value == DigitsValue(Unsigned(s))
    ensures r == Failure(PosOverflow) <==> |s| > 0 && DigitsValue(DigitPrefix(Unsigned(s))) >= U64_LIMIT
    ensures r == Failure(InvalidDigit) <==>
      |s| > 0 && !AllDigits(Unsigned(s)) && DigitsValue(DigitPrefix(Unsigned(s))) < U64_LIMIT
  {
    if s == [] then Failure(Empty)
    else
      var digits := Unsigned(s);
      var p := DigitPrefix(digits);
      assert AllDigits(digits) ==> p == digits;
      if DigitsValue(p) >= U64_LIMIT then Failure(PosOverflow)
      else if |p| < |digits| then Failure(InvalidDigit)
      else
        assert p == digits;
        Success(DigitsValue(digits))
  }

  /** A longer run of digits never denotes a smaller number. */
  lemma {:induction false} DigitsValuePrefix(s: string, k: nat)
    requires AllDigits(s) && k <= |s|
    ensures DigitsValue(s[..k]) <= DigitsValue(s)
  {
    if k < |s| {
      var t := s[..|s| - 1];
      assert s[..k] == t[..k];
      DigitsValuePrefix(t, k);
    } else {
      assert s[..k] == s;
    }
  }

  /** Overflow is reported as soon as the digits read so far pass
      `u64::MAX`, whatever the rest of the text holds. */
  lemma OverflowWinsOverLaterBadDigit(s: string, j: nat)
    requires |s| > 0 && j <= |Unsigned(s)|
    requires AllDigits(Unsigned(s)[..j]) && DigitsValue(Unsigned(s)[..j]) >= U64_LIMIT
    ensures ParseU64(s) == Failure(PosOverflow)
  {
    var u := Unsigned(s);
    var p := DigitPrefix(u);
    assert p[..j] == u[..j];
    DigitsValuePrefix(p, j);
  }

  /** The digits of a number past `u64::MAX` make any text that starts
      with them an overflow, whatever follows: `"18446744073709551616x"`
      overflows rather than failing on the `x`. */
  lemma OverflowBeforeAnyTail(n: nat, tail: string)
    requires n >= U64_LIMIT
    ensures ParseU64(ToDecimal(n) + tail) == Failure(PosOverflow)
  {
    var d := ToDecimal(n);
    var s := d + tail;
    assert s[0] == d[0];
    assert Unsigned(s) == s;
    assert s[..|d|] == d;
    OverflowWinsOverLaterBadDigit(s, |d|);
  }

  /** Parsing what `to_string` printed gives the number back. */
  lemma ParseToDecimal(n: U64)
    ensures ParseU64(ToDecimal(n)) == Success(n)
  {
    var s := ToDecimal(n);
    assert Unsigned(s) == s by {
      assert IsDigit(s[0]);
    }

  }

  /** `to_string` is injective on the whole of `u64`. */
  lemma ToDecimalInjective(m: U64, n: U64)
    requires ToDecimal(m) == ToDecimal(n)
    ensures m == n
  {
    ParseToDecimal(m);
    ParseToDecimal(n);
  }

  /** A leading minus sign is never accepted, whatever follows it. */
  lemma ParseRejectsMinus(s: string)
    ensures ParseU64(['-'] + s).Failure?
  {
    var t := ['-'] + s;
    assert Unsigned(t) == t;
    assert !IsDigit(t[0]);
  }
}
