/**
 * Decimal text for the whole numbers the user interface prints: JavaScript's
 * `${n}` for an integer and `padStart(width, '0')`, with the digit-string
 * reading they invert.
 */
module Decimal {

  predicate IsDigit(c: char) {
    '0' <= c <= '9'
  }

  predicate IsDigits(s: string) {
    forall i :: 0 <= i < |s| ==> IsDigit(s[i])
  }

  function DigitChar(d: nat): (c: char)
    requires d < 10
    ensures IsDigit(c)
  {
    ('0' as int + d) as char
  }

  function DigitValue(c: char): nat
    requires IsDigit(c)
  {
    (c as int - '0' as int) as nat
  }

  /** The value of a string of decimal digits, most significant first; 0 for the empty string. */
  function DigitsValue(s: string): nat
    requires IsDigits(s)
  {
    if |s| == 0 then 0 else 10 * DigitsValue(s[..|s| - 1]) + DigitValue(s[|s| - 1])
  }

  /** `${n}` for a non-negative integer: its decimal digits, without leading zeros. */
  function NatToString(n: nat): (s: string)
    ensures |s| >= 1 && IsDigits(s)
  {
    if n < 10 then [DigitChar(n)] else NatToString(n / 10) + [DigitChar(n % 10)]
  }

  /** `${i}` for an integer: a minus sign before the digits of a negative one. */
  function IntToString(i: int): (s: string)
    ensures i >= 0 ==> s == NatToString(i)
    ensures i < 0 ==> s == "-" + NatToString(-i)
  {
    if i < 0 then "-" + NatToString(-i) else NatToString(i)
  }

  /** `s.padStart(width, '0')`: zeros are put in front of `s` up to `width` characters. */
  function PadStart(s: string, width: nat): (r: string)
    ensures |r| == if |s| < width then width else |s|
    ensures r[|r| - |s|..] == s
    ensures forall i :: 0 <= i < |r| - |s| ==> r[i] == '0'
  {
    if |s| < width then seq(width - |s|, _ => '0') + s else s
  }

  /** The digits of `NatToString(n)` read back as `n`, and only zero is written with a leading zero. */
  lemma {:induction false} NatToStringValue(n: nat)
    ensures DigitsValue(NatToString(n)) == n
    ensures NatToString(n)[0] == '0' <==> n == 0
  {
    var s := NatToString(n);
    if n >= 10 {
      NatToStringValue(n / 10);
      assert s[..|s| - 1] == NatToString(n / 10);
      assert s[0] == NatToString(n / 10)[0];
    }
  }

  /** Different numbers are written differently. */
  lemma NatToStringInjective(a: nat, b: nat)
    requires NatToString(a) == NatToString(b)
    ensures a == b
  {
    NatToStringValue(a);
    NatToStringValue(b);
  }

  /** Zeros in front of a digit string do not change its value. */
  lemma {:induction false} LeadingZeros(s: string, t: string)
    requires IsDigits(s) && IsDigits(t)
    requires forall i :: 0 <= i < |s| ==> s[i] == '0'
    ensures IsDigits(s + t) && DigitsValue(s + t) == DigitsValue(t)
    decreases |t|
  {
    if |t| == 0 {
      assert s + t == s;
      AllZeros(s);
    } else {
      var u := s + t;
      assert u[..|u| - 1] == s + t[..|t| - 1];
      LeadingZeros(s, t[..|t| - 1]);
    }
  }

  lemma {:induction false} AllZeros(s: string)
    requires forall i :: 0 <= i < |s| ==> s[i] == '0'
    ensures IsDigits(s) && DigitsValue(s) == 0
  {
    if |s| > 0 {
      AllZeros(s[..|s| - 1]);
    }
  }

  /** A number below 100 has at most two digits. */
  lemma ShortDigits(n: nat)
    requires n < 100
    ensures |NatToString(n)| <= 2
  {
    if n >= 10 {
      assert n / 10 < 10;
    }
  }

  /**
   * A number below 100 padded to two places is exactly two digits that
   * read back as the number.
   */
  lemma TwoDigits(n: nat)
    requires n < 100
    ensures var r := PadStart(NatToString(n), 2);
      |r| == 2 && IsDigits(r) && DigitsValue(r) == n
  {
    var s := NatToString(n);
    ShortDigits(n);
    NatToStringValue(n);
    PaddedValue(s, 2);
  }

  /** Padding a digit string with zeros keeps it a digit string of the same value. */
  lemma PaddedValue(s: string, width: nat)
    requires IsDigits(s)
    ensures IsDigits(PadStart(s, width)) && DigitsValue(PadStart(s, width)) == DigitsValue(s)
  {
    var r := PadStart(s, width);
    var zeros := r[..|r| - |s|];
    assert r == zeros + s;
    LeadingZeros(zeros, s);
  }
}
