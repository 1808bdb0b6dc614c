/** Number-to-text helpers used by the time formatters: Number.prototype.toString() for
    non-negative integers, String.prototype.padStart, and splitting on a separator. */
module Numerals {

  predicate IsDigit(c: char) {
    '0' <= c <= '9'
  }

  predicate AllDigits(s: string) {
    forall k :: 0 <= k < |s| ==> IsDigit(s[k])
  }

  function DigitChar(d: nat): (c: char)
    requires d < 10
    ensures IsDigit(c)
  {
    (48 + d) as char
  }

  function DigitValue(c: char): (d: nat)
    requires IsDigit(c)
    ensures d < 10 && DigitChar(d) == c
  {
    c as int - 48
  }

  /** The number of decimal digits of `n` (at least one). */
  function DigitCount(n: nat): nat {
    if n < 10 then 1 else DigitCount(n / 10) + 1
  }

  /** `n.toString()` for a non-negative integer: its decimal digits, no leading zero. */
  function Decimal(n: nat): (s: string)
    ensures |s| == DigitCount(n)
    ensures AllDigits(s)
    ensures s[0] == '0' ==> n == 0
  {
    if n < 10 then [DigitChar(n)] else Decimal(n / 10) + [DigitChar(n % 10)]
  }

  /** The value of a string of decimal digits (the empty string reads as 0). */
  function DecimalValue(s: string): nat
    requires AllDigits(s)
  {
    if s == [] then 0 else DecimalValue(s[..|s| - 1]) * 10 + DigitValue(s[|s| - 1])
  }

  /** Reading back the digits of `n` gives `n`. */
  lemma {:induction false} DecimalRoundTrip(n: nat)
    ensures DecimalValue(Decimal(n)) == n
  {
    if n >= 10 {
      var s := Decimal(n);
      assert s[..|s| - 1] == Decimal(n / 10);
      DecimalRoundTrip(n / 10);
    }
  }

  /** Only 0 to 9 have one digit, and only 0 to 99 have at most two. */
  lemma {:induction false} DigitCountBounds(n: nat)
    ensures DigitCount(n) == 1 <==> n < 10
    ensures DigitCount(n) <= 2 <==> n < 100
  {
    if n >= 10 {
      DigitCountBounds(n / 10);
    }
  }

  function Repeat(c: char, k: nat): (s: string)
    ensures |s| == k && forall i :: 0 <= i < k ==> s[i] == c
  {
    if k == 0 then [] else [c] + Repeat(c, k - 1)
  }

  /** `s.padStart(width, fill)` with a one-character filler. */
  function PadStart(s: string, width: nat, fill: char): (r: string)
    ensures |r| == if |s| >= width then |s| else width
    ensures r[|r| - |s|..] == s
    ensures forall i :: 0 <= i < |r| - |s| ==> r[i] == fill
  {
    if |s| >= width then s else Repeat(fill, width - |s|) + s
  }

  /** Leading zeros do not change the value of a digit string. */
  lemma {:induction false} LeadingZeros(k: nat, s: string)
    requires AllDigits(s)
    ensures AllDigits(Repeat('0', k) + s)
    ensures DecimalValue(Repeat('0', k) + s) == DecimalValue(s)
  {
    var z := Repeat('0', k);
    if s == [] {
      assert z + s == z;
      ZerosReadAsZero(k);
    } else {
      var init := s[..|s| - 1];
      assert (z + s)[..|z + s| - 1] == z + init;
      LeadingZeros(k, init);
    }
  }

  lemma {:induction false} ZerosReadAsZero(k: nat)
    ensures AllDigits(Repeat('0', k)) && DecimalValue(Repeat('0', k)) == 0
  {
    if k > 0 {
      var z := Repeat('0', k);
      assert z[..|z| - 1] == Repeat('0', k - 1);
      ZerosReadAsZero(k - 1);
    }
  }

  /** `n.toString().padStart(2, '0')`, the two-digit field of the clock formatters. */
  function Pad2(n: nat): (s: string)
    ensures |s| >= 2 && |s| >= |Decimal(n)| && s[|s| - |Decimal(n)|..] == Decimal(n)
    ensures forall i :: 0 <= i < |s| - |Decimal(n)| ==> s[i] == '0'
  {
    PadStart(Decimal(n), 2, '0')
  }

  /** A padded field is all digits, at least two long, exactly two below 100, and reads back
      as `n`. */
  lemma Pad2Field(n: nat)
    ensures AllDigits(Pad2(n)) && DecimalValue(Pad2(n)) == n
    ensures |Pad2(n)| >= 2 && (|Pad2(n)| == 2 <==> n < 100)
  {
    var d := Decimal(n);
    DecimalRoundTrip(n);
    DigitCountBounds(n);
    if |d| < 2 {
      LeadingZeros(2 - |d|, d);
    }
  }

  /** `s.split(sep)`: the maximal pieces of `s` between occurrences of `sep`. */
  function SplitOn(s: string, sep: char): (parts: seq<string>)
    ensures |parts| >= 1
    decreases |s|
  {
    if sep !in s then [s]
    else
      var i := FirstIndex(s, sep);
      [s[..i]] + SplitOn(s[i + 1..], sep)
  }

  function FirstIndex(s: string, c: char): (i: nat)
    requires c in s
    ensures i < |s| && s[i] == c && c !in s[..i]
  {
    if s[0] == c then 0 else
      var j := FirstIndex(s[1..], c);
      assert s[..j + 1] == [s[0]] + s[1..][..j];
      j + 1
  }

  /** Splitting a separator-free piece followed by the separator peels that piece off. */
  lemma SplitOnPeel(a: string, sep: char, rest: string)
    requires sep !in a
    ensures SplitOn(a + [sep] + rest, sep) == [a] + SplitOn(rest, sep)
  {
    var s := a + [sep] + rest;
    assert s[|a|] == sep;
    var i := FirstIndex(s, sep);
    assert s[..i] == a;
    assert s[i + 1..] == rest;
  }
}
