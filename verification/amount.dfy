/**
 * The `Amount` field of the anchoring payment (server.js:48): the decimal
 * rendering of the number of started kilobytes followed by seven '0'
 * characters. Read as a count of drops (one millionth of a currency unit),
 * that is ten units per started kilobyte.
 */
module Amount {

  /** The seven zero digits the template literal appends. */
  const ZeroSuffix: string := "0000000"

  /** The value ZeroSuffix multiplies the unit count by. */
  const SuffixScale: nat := 10000000

  /** `Math.ceil(len / 1000)` on naturals: the least u with u * 1000 >= len. */
  function Units(len: nat): (u: nat)
    ensures u * 1000 >= len
    ensures u == 0 || (u - 1) * 1000 < len
  {
    (len + 999) / 1000
  }

  /** No smaller count of kilobytes covers the content. */
  lemma UnitsIsLeast(len: nat, v: nat)
    requires v * 1000 >= len
    ensures Units(len) <= v
  {
  }

  predicate IsDigit(c: char) { '0' <= c <= '9' }

  predicate AllDigits(s: string) { forall i :: 0 <= i < |s| ==> IsDigit(s[i]) }

  function Digit(d: nat): (c: char)
    requires d < 10
    ensures IsDigit(c)
  {
    ('0' as int + d) as char
  }

  /** `BigInt.prototype.toString()` for a non-negative value: no sign, no leading zero. */
  function Decimal(n: nat): (s: string)
    ensures |s| >= 1 && AllDigits(s)
    ensures s[0] == '0' ==> n == 0
  {
    if n < 10 then [Digit(n)] else Decimal(n / 10) + [Digit(n % 10)]
  }

  /** The number a string of decimal digits denotes (leading zeros allowed). */
  function DecimalValue(s: string): nat
    requires AllDigits(s)
    decreases |s|
  {
    if s == [] then 0
    else DecimalValue(s[..|s| - 1]) * 10 + (s[|s| - 1] as int - '0' as int)
  }

  /** 10 to the power k. */
  function Pow10(k: nat): nat
  {
    if k == 0 then 1 else 10 * Pow10(k - 1)
  }

  /** Reading back a rendering gives the number rendered. */
  lemma {:induction false} DecimalRoundTrip(n: nat)
    ensures DecimalValue(Decimal(n)) == n
  {
    if n >= 10 {
      var s := Decimal(n);
      assert s[..|s| - 1] == Decimal(n / 10);
      DecimalRoundTrip(n / 10);
    }
  }

  /** Distinct numbers have distinct renderings. */
  lemma DecimalInjective(m: nat, n: nat)
    ensures Decimal(m) == Decimal(n) <==> m == n
  {
    DecimalRoundTrip(m);
    DecimalRoundTrip(n);
  }

  /** Appending digits shifts the value left by their count. */
  lemma {:induction false} DecimalValueAppend(s: string, t: string)
    requires AllDigits(s) && AllDigits(t)
    ensures DecimalValue(s + t) == DecimalValue(s) * Pow10(|t|) + DecimalValue(t)
    decreases |t|
  {
    if t == [] {
      assert s + t == s;
    } else {
      var t' := t[..|t| - 1];
      var st := s + t;
      assert st[..|st| - 1] == s + t';
      assert st[|st| - 1] == t[|t| - 1];
      DecimalValueAppend(s, t');
      var a, p, v := DecimalValue(s), Pow10(|t'|), DecimalValue(t');
      var d := t[|t| - 1] as int - '0' as int;
      assert DecimalValue(st) == DecimalValue(s + t') * 10 + d;
      assert DecimalValue(t) == v * 10 + d;
      assert Pow10(|t|) == 10 * p;
      ShiftArith(a, p, v, d);
    }
  }

  lemma ShiftArith(a: int, p: int, v: int, d: int)
    ensures (a * p + v) * 10 + d == a * (10 * p) + (v * 10 + d)
  {
  }

  /** A string of zeros denotes zero. */
  lemma {:induction false} ZerosValue(s: string)
    requires forall i :: 0 <= i < |s| ==> s[i] == '0'
    ensures AllDigits(s) && DecimalValue(s) == 0
    decreases |s|
  {
    if s != [] {
      ZerosValue(s[..|s| - 1]);
    }
  }

  /** The `Amount` string of a payment anchoring `len` bytes of content. */
  function AmountString(len: nat): (s: string)
    ensures AllDigits(s) && |s| >= 8
    ensures s[..|s| - 7] == Decimal(Units(len)) && s[|s| - 7..] == ZeroSuffix
    ensures s[0] == '0' ==> len == 0 && |s| == 8
  {
    Decimal(Units(len)) + ZeroSuffix
  }

  /** The amount is the kilobyte count scaled by ten million: ten units of 10^6 drops per kilobyte. */
  lemma AmountValue(len: nat)
    ensures DecimalValue(AmountString(len)) == Units(len) * SuffixScale
  {
    DecimalValueAppend(Decimal(Units(len)), ZeroSuffix);
    DecimalRoundTrip(Units(len));
    ZerosValue(ZeroSuffix);
    assert Pow10(7) == SuffixScale;
  }

  /** Two contents get the same amount exactly when they start the same number of kilobytes. */
  lemma AmountDependsOnlyOnUnits(len1: nat, len2: nat)
    ensures AmountString(len1) == AmountString(len2) <==> Units(len1) == Units(len2)
  {
    AmountValue(len1);
    AmountValue(len2);
  }

  /** The worked kilobyte counts: 0, 1, 1000 and 1001 bytes. */
  lemma UnitsExamples()
    ensures Units(0) == 0 && Units(1) == 1 && Units(1000) == 1 && Units(1001) == 2
  {
  }

  /** Empty content still gets an amount: "0" followed by the seven zeros. */
  lemma AmountOfEmptyContent()
    ensures AmountString(0) == "00000000"
  {
    assert Decimal(Units(0)) == "0";
  }

  /** One full kilobyte: "1" followed by the seven zeros. */
  lemma AmountOfOneKilobyte()
    ensures AmountString(1000) == "10000000"
  {
    assert Decimal(Units(1000)) == "1";
  }

  /** 2500 bytes start three kilobytes: "3" followed by the seven zeros. */
  lemma AmountOf2500Bytes()
    ensures AmountString(2500) == "30000000"
  {
    assert Decimal(Units(2500)) == "3";
  }
}
