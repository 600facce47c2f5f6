/** The base-10 text of an integer: the reference that `print_integer`
    is proved against, with its inverse and the facts about digit order
    and digit count that the digit buffer relies on. */
module Decimal {
  import opened CTypes

  predicate IsDigit(b: Byte) {
    '0' <= b <= '9'
  }

  function DigitChar(d: nat): (b: Byte)
    requires d < 10
    ensures IsDigit(b)
  {
    ('0' as int + d) as char
  }

  function DigitValue(b: Byte): nat
    requires IsDigit(b)
  {
    b as int - '0' as int
  }

  /** The decimal digits of `n`, most significant first; `0` is "0". */
  function Digits(n: nat): (r: seq<Byte>)
    ensures |r| >= 1
    ensures forall i :: 0 <= i < |r| ==> IsDigit(r[i])
    ensures r[0] == '0' <==> n == 0
    decreases n
  {
    if n < 10 then [DigitChar(n)] else Digits(n / 10) + [DigitChar(n % 10)]
  }

  /** The base-10 text of `v`: a leading '-' if and only if `v` is negative,
      then the digits of its magnitude. */
  function DecimalText(v: int): (r: seq<Byte>)
    ensures |r| >= 1
    ensures r[0] == '-' <==> v < 0
    ensures forall i :: 0 < i < |r| ==> IsDigit(r[i])
  {
    if v < 0 then ['-'] + Digits(-v) else Digits(v)
  }

  /** A canonical numeral: digits only, and no leading zero except "0" itself. */
  predicate IsNumeral(s: seq<Byte>) {
    && |s| >= 1
    && (forall i :: 0 <= i < |s| ==> IsDigit(s[i]))
    && (s[0] == '0' ==> |s| == 1)
  }

  /** The texts `DecimalText` can produce: a numeral, or '-' and a numeral
      other than "0". */
  predicate IsDecimalText(s: seq<Byte>) {
    || IsNumeral(s)
    || (|s| >= 2 && s[0] == '-' && IsNumeral(s[1..]) && s[1] != '0')
  }

  /** The value of a digit string, read most significant first. */
  function ValueOf(s: seq<Byte>): nat
    requires forall i :: 0 <= i < |s| ==> IsDigit(s[i])
  {
    if s == [] then 0 else ValueOf(s[..|s| - 1]) * 10 + DigitValue(s[|s| - 1])
  }

  /** Reads back a decimal text. */
  function ParseDecimal(s: seq<Byte>): int
    requires IsDecimalText(s)
  {
    if s[0] == '-' then 0 - ValueOf(s[1..]) else ValueOf(s)
  }

  lemma {:induction false} DigitsRoundTrip(n: nat)
    ensures ValueOf(Digits(n)) == n
    decreases n
  {
    var s := Digits(n);
    if n >= 10 {
      DigitsRoundTrip(n / 10);
      assert s[..|s| - 1] == Digits(n / 10);
    }
  }

  lemma {:induction false} NumeralRoundTrip(s: seq<Byte>)
    requires IsNumeral(s)
    ensures Digits(ValueOf(s)) == s
    decreases |s|
  {
    if |s| > 1 {
      var t, d := s[..|s| - 1], s[|s| - 1];
      assert IsNumeral(t);
      NumeralRoundTrip(t);
      // t has no leading zero and more than one digit follows it,
      // so its value is positive and the whole value is at least 10.
      assert ValueOf(t) != 0;
      var n := ValueOf(s);
      assert n / 10 == ValueOf(t) && n % 10 == DigitValue(d);
      assert s == t + [d];
    }
  }

  lemma DecimalTextRoundTrip(v: int)
    ensures IsDecimalText(DecimalText(v))
    ensures ParseDecimal(DecimalText(v)) == v
  {
    var s := DecimalText(v);
    if v < 0 {
      assert s[1..] == Digits(-v);
      DigitsRoundTrip(-v);
    } else {
      DigitsRoundTrip(v);
    }
  }

  lemma ParseRoundTrip(s: seq<Byte>)
    requires IsDecimalText(s)
    ensures DecimalText(ParseDecimal(s)) == s
  {
    if s[0] == '-' {
      var t := s[1..];
      NumeralRoundTrip(t);
      assert ValueOf(t) != 0;
      assert s == ['-'] + t;
    } else {
      NumeralRoundTrip(s);
    }
  }

  function Pow10(k: nat): (p: nat)
    ensures p >= 1
  {
    if k == 0 then 1 else 10 * Pow10(k - 1)
  }

  /** A number below 10^k has at most k digits. */
  lemma {:induction false} DigitsBound(n: nat, k: nat)
    requires 1 <= k && n < Pow10(k)
    ensures |Digits(n)| <= k
    decreases k
  {
    if n >= 10 {
      assert k >= 2;
      DigitsBound(n / 10, k - 1);
    }
  }

  function Reverse<T>(s: seq<T>): (r: seq<T>)
    ensures |r| == |s|
  {
    if s == [] then [] else Reverse(s[1..]) + [s[0]]
  }

  /** Element i of the reversal is element |s| - 1 - i of the original. */
  lemma {:induction false} ReverseIndex<T>(s: seq<T>)
    ensures forall i :: 0 <= i < |s| ==> Reverse(s)[i] == s[|s| - 1 - i]
    decreases |s|
  {
    if s != [] {
      ReverseIndex(s[1..]);
    }
  }

  /** The digits of `n` in the order `print_integer` stores them:
      repeated remainder and division by 10, least significant first.
      Empty for 0, which the loop never enters. */
  function LsdFirst(n: nat): (r: seq<Byte>)
    ensures |r| == 0 <==> n == 0
    ensures forall i :: 0 <= i < |r| ==> IsDigit(r[i])
    decreases n
  {
    if n == 0 then [] else [DigitChar(n % 10)] + LsdFirst(n / 10)
  }

  /** Emitting the stored digits backwards gives the reference digits. */
  lemma {:induction false} LsdFirstReversed(n: nat)
    requires n > 0
    ensures Reverse(LsdFirst(n)) == Digits(n)
    decreases n
  {
    if n >= 10 {
      LsdFirstReversed(n / 10);
    }
  }

  /** The digit loop of `print_integer` runs at most 10 times for a
      positive 32-bit magnitude. */
  lemma DigitLoopBound(n: nat)
    requires 0 < n < 0x8000_0000
    ensures |LsdFirst(n)| <= 10
  {
    LsdFirstReversed(n);
    assert Pow10(10) == 10_000_000_000;
    DigitsBound(n, 10);
  }

  /** The 11-byte literal written for INT_MIN is its decimal text. */
  lemma IntMinText()
    ensures DecimalText(IntMin as int) == "-2147483648"
  {
    assert Digits(2) == "2";
    assert Digits(21) == Digits(2) + ['1'];
    assert Digits(214) == Digits(21) + ['4'];
    assert Digits(2147) == Digits(214) + ['7'];
    assert Digits(21474) == Digits(2147) + ['4'];
    assert Digits(214748) == Digits(21474) + ['8'];
    assert Digits(2147483) == Digits(214748) + ['3'];
    assert Digits(21474836) == Digits(2147483) + ['6'];
    assert Digits(214748364) == Digits(21474836) + ['4'];
    assert Digits(2147483648) == Digits(214748364) + ['8'];
  }
}
