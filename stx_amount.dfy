/**
 * STX amounts as the send form sees them: an exact finite base-10 number, its exact base-10 printing
 * (BigNumber's `toString(10)` for amounts with at most 20 fraction digits, where it does not round),
 * and its value in micro-STX (one STX is 10^6 micro-STX).
 */
module StxAmount {
  import opened Wrappers
  import opened Text

  type Digit = d: int | 0 <= d < 10

  /** A signed decimal: `whole` before the point, `fraction` after it. */
  datatype Decimal = Decimal(negative: bool, whole: nat, fraction: seq<Digit>) {
    /** BigNumber's normal form: no trailing zero after the point, and no negative zero. */
    predicate Canonical() {
      (fraction == [] || fraction[|fraction| - 1] != 0) &&
      (negative ==> whole != 0 || fraction != [])
    }
  }

  type Amount = d: Decimal | d.Canonical() witness Decimal(false, 0, [])

  const MicroPerStx: nat := 1000000
  const StxDecimals: nat := 6

  function Pow10(k: nat): (p: nat)
    ensures p >= 1
  {
    if k == 0 then 1 else 10 * Pow10(k - 1)
  }

  lemma {:induction false} Pow10Add(a: nat, b: nat)
    ensures Pow10(a + b) == Pow10(a) * Pow10(b)
  {
    if a > 0 {
      Pow10Add(a - 1, b);
      assert Pow10(a + b) == 10 * Pow10(a - 1 + b);
    }
  }

  /** The fraction digits read as a whole number. */
  function FractionValue(f: seq<Digit>): (v: nat)
    ensures v < Pow10(|f|)
  {
    if f == [] then 0 else FractionValue(f[..|f| - 1]) * 10 + f[|f| - 1]
  }

  /** The amount times 10^|fraction|, a whole number. */
  function Scaled(d: Decimal): int {
    var m := d.whole * Pow10(|d.fraction|) + FractionValue(d.fraction);
    if d.negative then -m else m
  }

  /** `d * 10^6 <= balance`, compared exactly (both sides scaled by 10^|fraction|). */
  predicate MicroStxAtMost(d: Decimal, balance: int) {
    Scaled(d) * MicroPerStx <= balance * Pow10(|d.fraction|)
  }

  /** The micro-STX value of an amount with at most six fraction digits. */
  function MicroStx(d: Decimal): (m: int)
    requires |d.fraction| <= StxDecimals
    ensures m * Pow10(|d.fraction|) == Scaled(d) * MicroPerStx
    ensures m > 0 <==> Scaled(d) > 0
  {
    Pow10Add(StxDecimals - |d.fraction|, |d.fraction|);
    Scaled(d) * Pow10(StxDecimals - |d.fraction|)
  }

  lemma MulLeft(a: int, b: int, c: int)
    requires c > 0
    ensures a * c <= b * c <==> a <= b
  {
    if a <= b {
      assert b * c - a * c == (b - a) * c;
    } else {
      assert a * c - b * c == (a - b) * c;
    }
  }

  /** The exact comparison agrees with the comparison of the micro-STX value when there is one. */
  lemma MicroStxAtMostIsComparison(d: Decimal, balance: int)
    requires |d.fraction| <= StxDecimals
    ensures MicroStxAtMost(d, balance) <==> MicroStx(d) <= balance
  {
    MulLeft(MicroStx(d), balance, Pow10(|d.fraction|));
  }

  lemma MulInjective(x: int, y: int, c: int)
    requires c > 0 && x != y
    ensures x * c != y * c
  {
    MulLeft(x, y, c);
    MulLeft(y, x, c);
  }

  /** The magnitude of a canonical amount with a fraction ends in its last, non-zero, fraction digit. */
  lemma {:induction false} ScaledNotMultipleOfTen(d: Amount)
    requires d.fraction != []
    ensures Scaled(d) % 10 != 0
  {
    var f := d.fraction;
    var k := |f|;
    var w := d.whole * Pow10(k - 1);
    assert d.whole * Pow10(k) == 10 * w;
    var r := w + FractionValue(f[..k - 1]);
    var m := d.whole * Pow10(k) + FractionValue(f);
    assert m == 10 * r + f[k - 1];
    assert 0 < f[k - 1] < 10;
    if d.negative {
      assert Scaled(d) == 10 * (-r - 1) + (10 - f[k - 1]);
    } else {
      assert Scaled(d) == 10 * r + f[k - 1];
    }
  }

  /**
   * An amount with more than six digits after the point is no whole number of micro-STX:
   * no integer `m` satisfies `m == d * 10^6`.
   */
  lemma NoMicroStxBeyondSixDecimals(d: Amount, m: int)
    requires |d.fraction| > StxDecimals
    ensures m * Pow10(|d.fraction|) != Scaled(d) * MicroPerStx
  {
    var k := |d.fraction|;
    var e := Pow10(k - StxDecimals - 1);
    Pow10Add(k - StxDecimals, StxDecimals);
    assert Pow10(k - StxDecimals) == 10 * e;
    assert Pow10(StxDecimals) == MicroPerStx;
    ScaledNotMultipleOfTen(d);
    NotMultipleOfTenHasNoMicro(m, Scaled(d), e, Pow10(k));
  }

  lemma NotMultipleOfTenHasNoMicro(m: int, scaled: int, e: int, p: int)
    requires p == (10 * e) * MicroPerStx
    requires scaled % 10 != 0
    ensures m * p != scaled * MicroPerStx
  {
    var x := m * (10 * e);
    assert m * p == x * MicroPerStx;
    assert x == 10 * (m * e);
    assert x % 10 == 0;
    MulInjective(x, scaled, MicroPerStx);
  }

  /** Digits printed as characters. */
  function DigitsToString(f: seq<Digit>): (s: string)
    ensures |s| == |f| && AllDigits(s)
  {
    seq(|f|, i requires 0 <= i < |f| => DigitChar(f[i]))
  }

  function StringToDigits(s: string): seq<Digit>
    requires AllDigits(s)
  {
    seq(|s|, i requires 0 <= i < |s| => CharValue(s[i]))
  }

  /**
   * The exact base-10 printing of `d`: sign, whole digits, then a point and the fraction if there is one.
   * BigNumber's `toString(10)` prints the same for amounts of at most 20 fraction digits; it rounds
   * longer fractions to 20 places, which this function does not.
   */
  function ToString10(d: Amount): string {
    (if d.negative then "-" else "") + NatToString(d.whole) +
    (if d.fraction == [] then "" else "." + DigitsToString(d.fraction))
  }

  /** Reads a string printed by ToString10. */
  function ParseDecimal(s: string): Option<Decimal> {
    if |s| > 0 && s[0] == '-' then ParseUnsigned(true, s[1..]) else ParseUnsigned(false, s)
  }

  function ParseUnsigned(negative: bool, body: string): Option<Decimal> {
    var parts := Split(body, '.');
    if |parts| > 2 || parts[0] == [] || !AllDigits(parts[0]) then None
    else if |parts| == 1 then Some(Decimal(negative, ParseNat(parts[0]), []))
    else if !AllDigits(parts[1]) then None
    else Some(Decimal(negative, ParseNat(parts[0]), StringToDigits(parts[1])))
  }

  /** `s.split('.')[1]`: what follows the first point, up to the next; None when there is no point. */
  function FractionPart(s: string): Option<string> {
    var parts := Split(s, '.');
    if |parts| >= 2 then Some(parts[1]) else None
  }

  /** The digits before the point, then a point and the fraction digits if there are any. */
  function WithFraction(head: string, f: seq<Digit>): string {
    head + (if f == [] then "" else "." + DigitsToString(f))
  }

  /** A point-free head followed by a fraction splits into the head and the fraction digits. */
  lemma SplitWithFraction(head: string, f: seq<Digit>)
    requires '.' !in head
    ensures Split(WithFraction(head, f), '.') == if f == [] then [head] else [head, DigitsToString(f)]
  {
    if f == [] {
      assert WithFraction(head, f) == head;
      SplitWithoutSeparator(head, '.');
    } else {
      var tail := DigitsToString(f);
      assert WithFraction(head, f) == Join([head, tail], '.');
      SplitJoin([head, tail], '.');
    }
  }

  /** The part after the point of the rendering is exactly the fraction digits. */
  lemma FractionPartOfRendering(d: Amount)
    ensures FractionPart(ToString10(d)) ==
      if d.fraction == [] then None else Some(DigitsToString(d.fraction))
  {
    var head := (if d.negative then "-" else "") + NatToString(d.whole);
    assert AllDigits(NatToString(d.whole));
    assert ToString10(d) == WithFraction(head, d.fraction);
    SplitWithFraction(head, d.fraction);
  }

  lemma ParseUnsignedRendering(negative: bool, whole: nat, f: seq<Digit>)
    ensures ParseUnsigned(negative, WithFraction(NatToString(whole), f)) == Some(Decimal(negative, whole, f))
  {
    assert AllDigits(NatToString(whole));
    SplitWithFraction(NatToString(whole), f);
    ParseNatToString(whole);
    if f != [] {
      assert StringToDigits(DigitsToString(f)) == f;
    }
  }

  /** The rendering denotes the amount: reading it back gives the amount. */
  lemma ParseRendering(d: Amount)
    ensures ParseDecimal(ToString10(d)) == Some(d)
  {
    var digits := NatToString(d.whole);
    var body := WithFraction(digits, d.fraction);
    var s := ToString10(d);
    if d.negative {
      assert s == "-" + body && s[1..] == body;
    } else {
      assert s == body && s[0] == digits[0] && IsDigitChar(digits[0]);
    }
    ParseUnsignedRendering(d.negative, d.whole, d.fraction);
  }
}
