/**
 * Decimal text of integers, as JavaScript writes an integer into a template
 * string (`${index}`), and the part of `parseInt` that reads it back.
 */
module Decimal {
  import opened Wrappers

  predicate IsDigit(c: char)
  {
    '0' <= c <= '9'
  }

  function DigitChar(d: nat): (c: char)
    requires d < 10
    ensures IsDigit(c)
  {
    ('0' as int + d) as char
  }

  function DigitValue(c: char): (d: nat)
    requires IsDigit(c)
    ensures d < 10 && DigitChar(d) == c
  {
    c as int - '0' as int
  }

  /** The decimal digits of `n`, most significant first, without leading zeros. */
  function Digits(n: nat): (r: string)
    ensures |r| > 0 && forall i :: 0 <= i < |r| ==> IsDigit(r[i])
    decreases n
  {
    if n < 10 then [DigitChar(n)] else Digits(n / 10) + [DigitChar(n % 10)]
  }

  /**
   * The text of an integer: it starts with a minus sign exactly when the
   * integer is negative, and every other character is a digit.
   */
  function Show(n: int): (r: string)
    ensures |r| > 0 && (r[0] == '-' <==> n < 0)
    ensures forall i :: 0 < i < |r| ==> IsDigit(r[i])
    ensures n >= 0 ==> IsDigit(r[0])
  {
    if n < 0 then "-" + Digits(-n) else Digits(n)
  }

  /** The length of the longest prefix of `s` made of digits. */
  function DigitRun(s: string): (n: nat)
    ensures n <= |s| && forall i :: 0 <= i < n ==> IsDigit(s[i])
    ensures n < |s| ==> !IsDigit(s[n])
    decreases |s|
  {
    if s == [] || !IsDigit(s[0]) then 0 else 1 + DigitRun(s[1..])
  }

  /** The number a string of digits denotes. */
  function ValueOf(s: string): nat
    requires forall i :: 0 <= i < |s| ==> IsDigit(s[i])
    decreases |s|
  {
    if s == [] then 0 else ValueOf(s[..|s| - 1]) * 10 + DigitValue(s[|s| - 1])
  }

  /**
   * `parseInt(s)` in base 10: an optional sign, then the longest run of
   * digits; `None` (NaN) when there is no digit there.
   */
  function ParseInt(s: string): (r: Option<int>)
    ensures r.None? <==>
              var rest := if |s| > 0 && (s[0] == '-' || s[0] == '+') then s[1..] else s;
              rest == [] || !IsDigit(rest[0])
    ensures r.Some? && r.value < 0 ==> s[0] == '-'
  {
    var signed := |s| > 0 && (s[0] == '-' || s[0] == '+');
    var rest := if signed then s[1..] else s;
    var n := DigitRun(rest);
    if n == 0 then None
    else
      var v: int := ValueOf(rest[..n]);
      Some(if signed && s[0] == '-' then -v else v)
  }

  /** Reading back the digits of `n` gives `n`. */
  lemma {:induction false} ValueOfDigits(n: nat)
    ensures ValueOf(Digits(n)) == n
    decreases n
  {
    if n >= 10 {
      ValueOfDigits(n / 10);
      var d := Digits(n);
      assert d[..|d| - 1] == Digits(n / 10);
    }
  }

  /** A string made only of digits is read whole. */
  lemma {:induction false} DigitRunOfDigits(s: string)
    requires forall i :: 0 <= i < |s| ==> IsDigit(s[i])
    ensures DigitRun(s) == |s|
    decreases |s|
  {
    if s != [] {
      DigitRunOfDigits(s[1..]);
    }
  }

  /** The digit run of a string of digits followed by a non-digit stops at that non-digit. */
  lemma {:induction false} DigitRunStops(d: string, tail: string)
    requires forall i :: 0 <= i < |d| ==> IsDigit(d[i])
    requires tail != [] && !IsDigit(tail[0])
    ensures DigitRun(d + tail) == |d|
    decreases |d|
  {
    if d != [] {
      assert (d + tail)[1..] == d[1..] + tail;
      DigitRunStops(d[1..], tail);
    } else {
      assert d + tail == tail;
    }
  }

  /** `parseInt` recovers every integer from its text. */
  lemma ParseShow(n: int)
    ensures ParseInt(Show(n)) == Some(n)
  {
    var m := if n < 0 then -n else n;
    var d := Digits(m);
    ValueOfDigits(m);
    DigitRunOfDigits(d);
    assert d[..|d|] == d;
    if n < 0 {
      assert Show(n) == "-" + d && Show(n)[1..] == d;
    } else {
      assert Show(n) == d && !(d[0] == '-' || d[0] == '+');
    }
  }
}
