/**
 * Decimal numerals: Python's str() of an integer and the zero-padded
 * format spec `{n:03d}` used for segment file names.
 */
module Decimal {

  predicate IsDigit(c: char) {
    '0' <= c <= '9'
  }

  predicate AllDigits(s: string) {
    forall i :: 0 <= i < |s| ==> IsDigit(s[i])
  }

  function DigitChar(d: nat): (c: char)
    requires d < 10
    ensures IsDigit(c) && c as int - '0' as int == d
  {
    ('0' as int + d) as char
  }

  function DigitValue(c: char): (d: nat)
    requires IsDigit(c)
    ensures d < 10 && DigitChar(d) == c
  {
    c as int - '0' as int
  }

  /** The numeral of n without leading zeros, as Python's str(n) for n >= 0. */
  function Digits(n: nat): string
    decreases n
  {
    if n < 10 then [DigitChar(n)] else Digits(n / 10) + [DigitChar(n % 10)]
  }

  /** A numeral is a non-empty string of digits, one digit long exactly below ten. */
  lemma {:induction false} DigitsShape(n: nat)
    ensures 1 <= |Digits(n)| && AllDigits(Digits(n))
    ensures n < 10 <==> |Digits(n)| == 1
    decreases n
  {
    if n >= 10 {
      DigitsShape(n / 10);
      var s := Digits(n);
      assert s == Digits(n / 10) + [DigitChar(n % 10)];
      assert forall i :: 0 <= i < |s| - 1 ==> s[i] == Digits(n / 10)[i];
    }
  }

  /** The number a string of digits denotes; leading zeros are allowed. */
  function Value(s: string): nat
    requires AllDigits(s)
  {
    if s == [] then 0 else 10 * Value(s[..|s| - 1]) + DigitValue(s[|s| - 1])
  }

  /** Reading back a numeral gives the number it was made from. */
  lemma {:induction false} ValueOfDigits(n: nat)
    ensures AllDigits(Digits(n)) && Value(Digits(n)) == n
    decreases n
  {
    DigitsShape(n);
    if n >= 10 {
      var s := Digits(n);
      assert s[..|s| - 1] == Digits(n / 10);
      ValueOfDigits(n / 10);
    }
  }

  /** Numbers below 1000 have at most three digits. */
  lemma DigitsBelowThousand(n: nat)
    requires n < 1000
    ensures |Digits(n)| <= 3
  {
    DigitsShape(n);
    if n >= 10 {
      DigitsShape(n / 10);
      assert |Digits(n)| == |Digits(n / 10)| + 1;
      if n / 10 >= 10 {
        DigitsShape(n / 100);
        assert |Digits(n / 10)| == |Digits(n / 100)| + 1;
      }
    }
  }

  function Zeros(k: nat): string {
    seq(k, _ => '0')
  }

  lemma {:induction false} ValueOfZeros(k: nat)
    ensures AllDigits(Zeros(k)) && Value(Zeros(k)) == 0
  {
    if k > 0 {
      assert Zeros(k)[..k - 1] == Zeros(k - 1);
      ValueOfZeros(k - 1);
    }
  }

  /** Leading zeros do not change the number a numeral denotes. */
  lemma {:induction false} ValueIgnoresLeadingZeros(k: nat, s: string)
    requires AllDigits(s)
    ensures AllDigits(Zeros(k) + s) && Value(Zeros(k) + s) == Value(s)
    decreases |s|
  {
    var t := Zeros(k) + s;
    ValueOfZeros(k);
    if s == [] {
      assert t == Zeros(k);
    } else {
      assert t[..|t| - 1] == Zeros(k) + s[..|s| - 1];
      ValueIgnoresLeadingZeros(k, s[..|s| - 1]);
    }
  }

  /** Python's `format(n, "0{width}d")` for n >= 0: left-padded with zeros to at least `width`. */
  function ZeroPad(n: nat, width: nat): string {
    var d := Digits(n);
    if |d| < width then Zeros(width - |d|) + d else d
  }

  /** A padded numeral is at least `width` digits long and still denotes its number; so padding never merges two numbers. */
  lemma ZeroPadValue(n: nat, width: nat)
    ensures |ZeroPad(n, width)| >= width
    ensures AllDigits(ZeroPad(n, width)) && Value(ZeroPad(n, width)) == n
  {
    var d := Digits(n);
    ValueOfDigits(n);
    if |d| < width {
      ValueIgnoresLeadingZeros(width - |d|, d);
    }
  }

  lemma ZeroPadInjective(m: nat, n: nat, width: nat)
    requires ZeroPad(m, width) == ZeroPad(n, width)
    ensures m == n
  {
    ZeroPadValue(m, width);
    ZeroPadValue(n, width);
  }

  /** `{n:03d}` is exactly three characters for every n below 1000. */
  lemma ThreeDigitPad(n: nat)
    requires n < 1000
    ensures |ZeroPad(n, 3)| == 3
  {
    DigitsBelowThousand(n);
  }

  /** Python's str(i) for any integer. */
  function IntText(i: int): string {
    if i < 0 then "-" + Digits(-i) else Digits(i)
  }

  /** str(i) reads back as i: digits for i >= 0, a '-' and the digits of -i otherwise. */
  lemma IntTextValue(i: int)
    ensures |IntText(i)| >= 1
    ensures i >= 0 ==> AllDigits(IntText(i)) && Value(IntText(i)) == i
    ensures i < 0 ==> IntText(i)[0] == '-' && AllDigits(IntText(i)[1..]) && Value(IntText(i)[1..]) == -i
  {
    ValueOfDigits(if i < 0 then -i else i);
    DigitsShape(if i < 0 then -i else i);
    if i < 0 {
      assert IntText(i)[1..] == Digits(-i);
    }
  }
}
