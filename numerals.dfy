/** The integer plumbing the ATM controller relies on from .NET: Int32.TryParse
    applied to the digit buffer, int.ToString for the amounts it displays, and
    the wrap-around of C#'s unchecked 32-bit `int` arithmetic. */
module Numerals {

  datatype Option<T> = None | Some(value: T)

  const MinInt32: int := -0x8000_0000
  const MaxInt32: int := 0x7fff_ffff
  const Two32: int := 0x1_0000_0000

  predicate IsInt32(x: int) {
    MinInt32 <= x <= MaxInt32
  }

  /** The value a C# `int` holds after an unchecked operation whose
      mathematical result is x: the int32 value congruent to x modulo 2^32. */
  function Wrap(x: int): (r: int)
    ensures IsInt32(r)
    ensures (x - r) % Two32 == 0
    ensures IsInt32(x) ==> r == x
  {
    (x - MinInt32) % Two32 + MinInt32
  }

  // ----- decimal digits -----

  /** The character a digit button delivers. */
  type Digit = c: char | '0' <= c <= '9' witness '0'

  predicate IsDigits(s: string) {
    forall i :: 0 <= i < |s| ==> '0' <= s[i] <= '9'
  }

  function DigitValue(c: Digit): (d: nat)
    ensures d < 10
  {
    c as int - '0' as int
  }

  function DigitChar(d: nat): (c: Digit)
    requires d < 10
    ensures DigitValue(c) == d
  {
    ('0' as int + d) as char
  }

  function Pow10(k: nat): (p: nat)
    ensures p >= 1
  {
    if k == 0 then 1 else 10 * Pow10(k - 1)
  }

  /** The number a string of decimal digits denotes, most significant digit first. */
  function ValueOf(s: string): nat
    requires IsDigits(s)
  {
    if s == [] then 0 else 10 * ValueOf(s[..|s| - 1]) + DigitValue(s[|s| - 1])
  }

  /** Int32.TryParse on the input buffer: it succeeds exactly when the buffer
      is a non-empty run of decimal digits whose value fits in an int. */
  function TryParseInt32(s: string): (r: Option<int>)
    ensures r.Some? ==> 0 <= r.value <= MaxInt32
  {
    if s != [] && IsDigits(s) && ValueOf(s) <= MaxInt32 then Some(ValueOf(s)) else None
  }

  /** The canonical decimal form of n: int.ToString for a non-negative int. */
  function NatToString(n: nat): (r: string)
    ensures IsDigits(r) && r != []
    ensures r[0] == '0' ==> n == 0
  {
    if n < 10 then [DigitChar(n)] else NatToString(n / 10) + [DigitChar(n % 10)]
  }

  /** int.ToString: a minus sign before the magnitude of a negative value. */
  function IntToString(x: int): (r: string)
    ensures r != [] && (r[0] == '-' <==> x < 0)
    ensures x >= 0 ==> r == NatToString(x)
    ensures x < 0 ==> r[1..] == NatToString(-x)
  {
    if x < 0 then "-" + NatToString(-x) else NatToString(x)
  }

  // ----- properties of parsing and formatting -----

  /** Reading back the decimal form of n gives n. */
  lemma {:induction false} ValueOfNatToString(n: nat)
    ensures ValueOf(NatToString(n)) == n
  {
    if n >= 10 {
      var s := NatToString(n / 10);
      var t := s + [DigitChar(n % 10)];
      assert t[..|t| - 1] == s;
      ValueOfNatToString(n / 10);
    }
  }

  /** Every int value that a parse can produce is parsed back from its own decimal form. */
  lemma ParseFormatRoundTrip(n: int)
    requires 0 <= n <= MaxInt32
    ensures TryParseInt32(NatToString(n)) == Some(n)
  {
    ValueOfNatToString(n);
  }

  /** Different ints are displayed as different strings. */
  lemma IntToStringInjective(x: int, y: int)
    requires IntToString(x) == IntToString(y)
    ensures x == y
  {
    if x < 0 {
      ValueOfNatToString(-x);
      ValueOfNatToString(-y);
    } else {
      ValueOfNatToString(x);
      ValueOfNatToString(y);
    }
  }

  /** A leading zero does not change the value of a digit string. */
  lemma {:induction false} LeadingZeroIgnored(s: string)
    requires IsDigits(s)
    ensures IsDigits("0" + s) && ValueOf("0" + s) == ValueOf(s)
  {
    var t := "0" + s;
    if s != [] {
      assert t[..|t| - 1] == "0" + s[..|s| - 1];
      LeadingZeroIgnored(s[..|s| - 1]);
    }
  }

  /** So TryParse accepts a number typed with leading zeros as the number itself. */
  lemma ParseIgnoresLeadingZero(s: string)
    requires s != []
    ensures TryParseInt32("0" + s) == TryParseInt32(s)
  {
    if IsDigits(s) {
      LeadingZeroIgnored(s);
    } else {
      var i :| 0 <= i < |s| && !('0' <= s[i] <= '9');
      assert ("0" + s)[i + 1] == s[i];
    }
  }

  /** A string of k digits denotes a number below 10^k. */
  lemma {:induction false} ValueBelowPow10(s: string)
    requires IsDigits(s)
    ensures ValueOf(s) < Pow10(|s|)
  {
    if s != [] {
      ValueBelowPow10(s[..|s| - 1]);
    }
  }

  /** A string of k digits whose first digit is not zero denotes at least 10^(k-1). */
  lemma {:induction false} ValueAtLeastPow10(s: string)
    requires IsDigits(s) && s != [] && s[0] != '0'
    ensures ValueOf(s) >= Pow10(|s| - 1)
  {
    if |s| > 1 {
      ValueAtLeastPow10(s[..|s| - 1]);
    }
  }

  lemma {:induction false} Pow10Monotone(j: nat, k: nat)
    requires j <= k
    ensures Pow10(j) <= Pow10(k)
  {
    if j < k {
      Pow10Monotone(j, k - 1);
    }
  }

  /** Any non-empty buffer of at most nine digits parses. */
  lemma ShortInputParses(s: string)
    requires IsDigits(s) && 0 < |s| <= 9
    ensures TryParseInt32(s) == Some(ValueOf(s))
  {
    ValueBelowPow10(s);
    Pow10Monotone(|s|, 9);
    assert Pow10(9) == 1_000_000_000;
  }

  /** A buffer of eleven or more digits without a leading zero overflows an int
      and is refused. */
  lemma LongInputRejected(s: string)
    requires IsDigits(s) && |s| >= 11 && s[0] != '0'
    ensures TryParseInt32(s) == None
  {
    ValueAtLeastPow10(s);
    Pow10Monotone(10, |s| - 1);
    assert Pow10(10) == 10_000_000_000;
  }
}
