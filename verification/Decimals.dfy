/** Decimal numerals as the sources print and parse them. */
module Decimals {
  import opened Types

  predicate IsDigit(c: char) {
    '0' <= c <= '9'
  }

  function DigitValue(c: char): (d: nat)
    requires IsDigit(c)
    ensures d < 10
  {
    c as int - '0' as int
  }

  function Digit(d: nat): (c: char)
    requires d < 10
    ensures IsDigit(c) && DigitValue(c) == d
  {
    "0123456789"[d]
  }

  predicate AllDigits(s: string) {
    forall i :: 0 <= i < |s| ==> IsDigit(s[i])
  }

  function Value(s: string): nat
    requires AllDigits(s)
  {
    if s == [] then 0 else 10 * Value(s[..|s| - 1]) + DigitValue(s[|s| - 1])
  }

  /** The shortest numeral of a number. */
  function Decimal(n: nat): (s: string)
    ensures AllDigits(s) && s != []
  {
    if n < 10 then [Digit(n)] else Decimal(n / 10) + [Digit(n % 10)]
  }

  function Zeros(k: nat): (s: string)
    ensures |s| == k && AllDigits(s)
  {
    if k == 0 then "" else Zeros(k - 1) + ['0']
  }

  /** Filled with zeros up to a width; longer numerals are kept whole. */
  function Padded(n: nat, width: nat): (s: string)
    ensures AllDigits(s) && s != []
  {
    var d := Decimal(n);
    if |d| >= width then d else Zeros(width - |d|) + d
  }

  function Pow10(k: nat): (p: nat)
    ensures p >= 1
  {
    if k == 0 then 1 else 10 * Pow10(k - 1)
  }

  lemma {:induction false} DecimalValue(n: nat)
    ensures Value(Decimal(n)) == n
  {
    if n >= 10 {
      DecimalValue(n / 10);
      assert (Decimal(n / 10) + [Digit(n % 10)])[..|Decimal(n)| - 1] == Decimal(n / 10);
    }
  }

  lemma {:induction false} ZerosInFront(k: nat, s: string)
    requires AllDigits(s)
    ensures AllDigits(Zeros(k) + s) && Value(Zeros(k) + s) == Value(s)
    decreases k + |s|
  {
    if s == [] {
      assert Zeros(k) + s == Zeros(k);
      if k > 0 {
        assert Zeros(k)[..k - 1] == Zeros(k - 1);
        ZerosInFront(k - 1, []);
        assert Zeros(k - 1) + [] == Zeros(k - 1);
      }
    } else {
      var p := s[..|s| - 1];
      ZerosInFront(k, p);
      assert (Zeros(k) + s)[..k + |s| - 1] == Zeros(k) + p;
    }
  }

  /** Padding does not change the number. */
  lemma PaddedValue(n: nat, width: nat)
    ensures Value(Padded(n, width)) == n
  {
    DecimalValue(n);
    if |Decimal(n)| < width {
      ZerosInFront(width - |Decimal(n)|, Decimal(n));
    }
  }

  lemma {:induction false} DecimalLength(n: nat, width: nat)
    requires n < Pow10(width) && width >= 1
    ensures |Decimal(n)| <= width
  {
    if n >= 10 {
      assert Pow10(0) == 1;
      DecimalLength(n / 10, width - 1);
    }
  }

  lemma PaddedLength(n: nat, width: nat)
    requires n < Pow10(width) && width >= 1
    ensures |Padded(n, width)| == width
  {
    DecimalLength(n, width);
  }

  // ----- signed numerals -----

  function Signed(x: int): (s: string) {
    if x < 0 then "-" + Decimal(-x) else Decimal(x)
  }

  function ReadNat(s: string): Option<nat> {
    if s != [] && AllDigits(s) then Some(Value(s)) else None
  }

  function ReadSigned(s: string): Option<int> {
    if s != [] && s[0] == '-' then
      match ReadNat(s[1..])
      case Some(n) => Some(-(n as int))
      case None => None
    else
      match ReadNat(s)
      case Some(n) => Some(n as int)
      case None => None
  }

  lemma DigitsReadBack(n: nat)
    ensures ReadNat(Decimal(n)) == Some(n) && Decimal(n)[0] != '-'
  {
    DecimalValue(n);
    assert IsDigit(Decimal(n)[0]);
    hide Value, Decimal;
  }

  lemma SignedReadsBack(x: int)
    ensures ReadSigned(Signed(x)) == Some(x)
  {
    hide Decimal, ReadNat, IsDigit, AllDigits;
    if x < 0 {
      DigitsReadBack(-x);
      assert Signed(x)[1..] == Decimal(-x);
    } else {
      DigitsReadBack(x);
    }
  }
}
