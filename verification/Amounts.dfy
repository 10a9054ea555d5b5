/**
 * What a number amounts to.  The laws below fix it: it is the value the decimal numeral has, sign,
 * fraction and power included, and different numbers amount to different values.
 */
module Amounts {
  import opened Wrappers
  import opened Digits
  import opened Json
  import opened JsonPrinting
  import opened JsonReading
  import opened NumberSyntax

  function Pow10(e: int): real
    decreases if e < 0 then -e else e
  {
    if e == 0 then 1.0 else if e > 0 then 10.0 * Pow10(e - 1) else Pow10(e + 1) / 10.0
  }

  function Value(n: Number): real {
    match n
    case Zero => 0.0
    case Finite(neg, ds, p) =>
      (DigitsValue(ds) as real) * Pow10(p - |ds|) * (if neg then -1.0 else 1.0)
  }

  /* ---- powers ---- */

  lemma {:induction false} PowStep(e: int)
    ensures Pow10(e + 1) == 10.0 * Pow10(e) && Pow10(e) > 0.0
    decreases if e < 0 then -e else e
  {
    if e > 0 { PowStep(e - 1); }
    if e < 0 { PowStep(e + 1); }
  }

  /** The product; lemmas that do not look into it are spared nonlinear arithmetic. */
  function Times(x: real, y: real): real { x * y }

  lemma {:induction false} PowSum(a: int, b: int)
    ensures Pow10(a + b) == Times(Pow10(a), Pow10(b))
    decreases if b < 0 then -b else b
  {
    hide Pow10, Times;
    if b > 0 {
      PowSum(a, b - 1);
      PowUp(a, b - 1);
    } else if b < 0 {
      PowSum(a, b + 1);
      PowDown(a, b);
    } else {
      PowZero(a);
    }
  }

  lemma PowZero(a: int)
    ensures Pow10(0) == 1.0 && Pow10(a + 0) == Times(Pow10(a), Pow10(0))
  {
  }

  lemma PowUp(a: int, b: int)
    requires Pow10(a + b) == Times(Pow10(a), Pow10(b))
    ensures Pow10(a + (b + 1)) == Times(Pow10(a), Pow10(b + 1))
  {
    PowStep(a + b);
    PowStep(b);
    assert a + (b + 1) == a + b + 1;
    hide Pow10, Times;
    Regroup(Pow10(a), Pow10(b));
  }

  lemma PowDown(a: int, b: int)
    requires Pow10(a + (b + 1)) == Times(Pow10(a), Pow10(b + 1))
    ensures Pow10(a + b) == Times(Pow10(a), Pow10(b))
  {
    PowStep(a + b);
    PowStep(b);
    assert a + (b + 1) == a + b + 1;
    hide Pow10, Times;
    Regroup(Pow10(a), Pow10(b));
  }

  lemma Regroup(x: real, y: real)
    ensures Times(x, 10.0 * y) == 10.0 * Times(x, y)
  {
  }

  lemma {:induction false} PowOfNat(n: nat)
    ensures Pow10(n) == Power10(n) as real
  {
    if n > 0 { PowOfNat(n - 1); }
  }

  lemma {:induction false} PowGrows(a: int, b: int)
    requires a <= b
    ensures Pow10(a) <= Pow10(b)
    decreases b - a
  {
    if a < b {
      PowGrows(a, b - 1);
      PowStep(b - 1);
    }
  }

  /* ---- laws ---- */

  /** Moving the point by one multiplies by ten. */
  lemma PointMoves(negative: bool, ds: seq<Digit>, p: int)
    ensures Value(Finite(negative, ds, p + 1)) == 10.0 * Value(Finite(negative, ds, p))
  {
    PowStep(p - |ds|);
    var d, x, sign := DigitsValue(ds) as real, Pow10(p - |ds|), if negative then -1.0 else 1.0;
    assert Pow10(p + 1 - |ds|) == 10.0 * x;
    Regroup(d, x);
    assert d * (10.0 * x) * sign == 10.0 * (d * x * sign);
  }

  lemma SignNegates(ds: seq<Digit>, p: int)
    ensures Value(Finite(true, ds, p)) == -Value(Finite(false, ds, p))
  {
  }

  function Sign(negative: bool): real { if negative then -1.0 else 1.0 }

  /** The digits, shifted. */
  function Scaled(ds: seq<Digit>, e: int): real { Times(DigitsValue(ds) as real, Pow10(e)) }

  lemma Padding(a: seq<Digit>, b: nat, e: int)
    ensures Scaled(a + Zeros(b), e) == Scaled(a, e + b)
  {
    DigitsAppend(a, Zeros(b));
    ZerosValue(b);
    PowSum(e, b);
    PowOfNat(b);
    ProductReal(DigitsValue(a), Power10(b));
    hide Pow10, DigitsValue, Power10, Times;
    Reorder(DigitsValue(a) as real, Power10(b) as real, Pow10(e));
  }

  lemma Reorder(d: real, n: real, x: real)
    ensures Times(Times(d, n), x) == Times(d, Times(x, n))
  {
  }

  lemma {:induction false} LeadingZerosAside(ds: seq<Digit>)
    ensures DigitsValue(ds[LeadingZeros(ds)..]) == DigitsValue(ds)
  {
    if ds != [] && ds[0] == 0 {
      LeadingZerosAside(ds[1..]);
      DigitsFront(0, ds[1..]);
      assert ds == [0] + ds[1..] && ds[LeadingZeros(ds)..] == ds[1..][LeadingZeros(ds[1..])..];
    } else {
      assert ds[0..] == ds;
    }
  }

  lemma ValueOfFinite(negative: bool, ds: seq<Digit>, p: int)
    ensures Value(Finite(negative, ds, p)) == Scaled(ds, p - |ds|) * Sign(negative)
  {
    hide DigitsValue, Pow10;
  }

  lemma NoDigits(negative: bool, ds: seq<Digit>, e: int)
    requires DigitsValue(ds) == 0
    ensures Value(Zero) == Scaled(ds, e) * Sign(negative)
  {
    hide DigitsValue, Pow10;
  }

  lemma NumberOfZeros(negative: bool, ds: seq<Digit>, p: int)
    requires LeadingZeros(ds) == |ds|
    ensures NumberOf(negative, ds, p) == Zero && DigitsValue(ds) == 0
  {
    LeadingZerosAside(ds);
    assert ds[|ds|..] == [];
  }

  /** Zeros dropped at either end do not count. */
  lemma ValueOfDigits(negative: bool, ds: seq<Digit>, p: int)
    ensures Value(NumberOf(negative, ds, p)) == Scaled(ds, p - |ds|) * Sign(negative)
  {
    hide *;
    var k := LeadingZeros(ds);
    if k == |ds| {
      NumberOfZeros(negative, ds, p);
      NoDigits(negative, ds, p - |ds|);
    } else {
      var kept := DropTrailingZeros(ds[k..]);
      LeadingZerosAside(ds);
      NumberOfIs(negative, ds, p, k, kept);
      ValueOfKept(negative, ds, k, p);
    }
  }

  lemma ValueOfKept(negative: bool, ds: seq<Digit>, k: nat, p: int)
    requires k < |ds| && DigitsValue(ds[k..]) == DigitsValue(ds)
    ensures Value(Finite(negative, DropTrailingZeros(ds[k..]), p - k)) == Scaled(ds, p - |ds|) * Sign(negative)
  {
    hide *;
    var kept := DropTrailingZeros(ds[k..]);
    DropsZeros(ds[k..]);
    Padding(kept, |ds| - k - |kept|, p - |ds|);
    SameScaled(ds[k..], ds, p - |ds|);
    ValueOfFinite(negative, kept, p - k);
  }

  lemma SameScaled(a: seq<Digit>, b: seq<Digit>, e: int)
    requires DigitsValue(a) == DigitsValue(b)
    ensures Scaled(a, e) == Scaled(b, e)
  {
  }

  /** Whole and fraction, as numbers, times the power of ten. */
  function NumeralValue(negative: bool, m: Numeral): real {
    (Scaled(m.whole, 0) + Scaled(m.fraction, 0 - |m.fraction|)) * Pow10(m.exponent.GetOr(0)) * Sign(negative)
  }

  /** Whole and fraction together. */
  lemma ScaledAppend(w: seq<Digit>, f: seq<Digit>, e: int)
    ensures Scaled(w + f, e - |f|) == Times(Scaled(w, 0) + Scaled(f, 0 - |f|), Pow10(e))
  {
    DigitsAppend(w, f);
    AppendReal(DigitsValue(w), Power10(|f|), DigitsValue(f));
    PowsOfFraction(|f|, e);
    hide DigitsValue, Power10, Pow10, Times;
    Distributes(DigitsValue(w) as real, DigitsValue(f) as real, Power10(|f|) as real, Pow10(0 - |f|), Pow10(e));
  }

  lemma PowsOfFraction(k: nat, e: int)
    ensures Pow10(0) == 1.0 && Times(Pow10(0 - k), Power10(k) as real) == 1.0
    ensures Pow10(e - k) == Times(Pow10(e), Pow10(0 - k))
  {
    PowOfNat(k);
    PowSum(0 - k, k);
    PowSum(e, 0 - k);
    PowZero(0);
    hide Pow10, Power10, Times;
    assert 0 - k + k == 0 && e + (0 - k) == e - k;
  }

  lemma AppendReal(a: nat, n: nat, b: nat)
    ensures (a * n + b) as real == Times(a as real, n as real) + b as real
  {
    ProductReal(a, n);
  }

  lemma {:induction false} ProductReal(a: nat, n: nat)
    ensures (a * n) as real == Times(a as real, n as real)
  {
    if a > 0 {
      ProductReal(a - 1, n);
      assert a * n == (a - 1) * n + n;
      assert (a as real) * (n as real) == ((a - 1) as real) * (n as real) + n as real;
    }
  }

  /** The number a numeral stands for amounts to what the numeral says. */
  lemma ValueOfNumeral(negative: bool, m: Numeral)
    ensures Value(Stands(negative, m)) == NumeralValue(negative, m)
  {
    var w, f, e := m.whole, m.fraction, m.exponent.GetOr(0);
    ValueOfDigits(negative, w + f, |w| + e);
    ScaledAppend(w, f, e);
    hide NumberOf, Value, Scaled, Pow10, Sign;
    assert |w| + e - |w + f| == e - |f|;
  }

  lemma Distributes(a: real, b: real, n: real, x: real, y: real)
    requires Times(x, n) == 1.0
    ensures Times(Times(a, n) + b, Times(y, x)) == Times(Times(a, 1.0) + Times(b, x), y)
  {
    calc {
      (a * n + b) * (y * x);
      (a * n) * (y * x) + b * (y * x);
      { assert (a * n) * (y * x) == (a * y) * (x * n); }
      a * y + (b * x) * y;
      (a + b * x) * y;
    }
  }

  /** The text of any number, as a numeral, says what the number amounts to. */
  lemma ValueOfText(n: Number) returns (m: Numeral)
    requires NumberOk(n) && n.Finite?
    ensures NumberText(n) == NumeralText(n.negative, m) && Value(n) == NumeralValue(n.negative, m)
  {
    m := Notation(n.digits, n.point);
    NotationTidy(n.digits, n.point);
    NotationStands(n.negative, n.digits, n.point);
    NumberTextIff(n, n.negative, m);
    ValueOfNumeral(n.negative, m);
    hide Value, NumeralValue, NumeralText, Stands, NumberText;
  }

  lemma PlainText(n: nat)
    ensures NumeralText(false, Numeral(NatDigits(n), [], None)) == NatText(n)
  {
    hide NatDigits;
  }

  lemma PlainValue(ds: seq<Digit>)
    ensures NumeralValue(false, Numeral(ds, [], None)) == DigitsValue(ds) as real
  {
    hide DigitsValue;
    PowZero(0);
    assert Scaled([], 0) == 0.0 by { assert DigitsValue([]) == 0 by { ZerosValue(0); assert Zeros(0) == []; } }
  }

  /** A number printed as the decimal text of n amounts to n. */
  lemma ValueOfNat(n: nat, m: Number)
    requires NumberOk(m) && NumberText(m) == NatText(n)
    ensures Value(m) == n as real
  {
    var numeral := Numeral(NatDigits(n), [], None);
    NatDigitsBack(n);
    PlainText(n);
    PlainValue(NatDigits(n));
    ValueOfNumeral(false, numeral);
    hide Value, NumeralValue, NumeralText, Stands, NumberText, ReadNumber, NatText, NatDigits, DigitsValue, NumberOk;
    NumeralBack(false, numeral, []);
    RoundTrip(m, []);
  }

  /** Up to 21 digits, there is such a number. */
  lemma NatIsPrinted(n: nat)
    requires 0 < n && |NatDigits(n)| <= 21
    ensures var m := NumberOf(false, NatDigits(n), |NatDigits(n)|); NumberOk(m) && NumberText(m) == NatText(n)
  {
    var ds := NatDigits(n);
    NatDigitsBack(n);
    PlainText(n);
    hide NatDigits, NatText, NumeralText, NumberText;
    WholeNumber(ds);
    NumberTextIff(NumberOf(false, ds, |ds|), false, Numeral(ds, [], None));
    hide NumberOf, Stands;
  }

  lemma WholeNumber(ds: seq<Digit>)
    requires ds != [] && ds[0] != 0
    ensures var m := NumberOf(false, ds, |ds|);
            NumberOk(m) && m.Finite? && m.point == |ds| && Stands(false, Numeral(ds, [], None)) == m
  {
    assert LeadingZeros(ds) == 0 && ds[0..] == ds && ds + [] == ds;
    DropsZeros(ds);
    DropTrailingKeepsFirst(ds);
  }

  /* ---- different numbers amount to different values ---- */

  lemma MagnitudeBounds(ds: seq<Digit>, p: int)
    requires ds != [] && ds[0] != 0
    ensures Pow10(p - 1) <= Scaled(ds, p - |ds|) < Pow10(p)
  {
    var k, e := |ds|, p - |ds|;
    DigitsBound(ds);
    PowOfNat(k);
    PowOfNat(k - 1);
    PowSum(e, k);
    PowSum(e, k - 1);
    PowStep(e);
    assert e + k == p && e + (k - 1) == p - 1;
    hide Pow10, DigitsValue, Power10, Times;
    Between(Pow10(e), Pow10(k - 1), DigitsValue(ds) as real, Pow10(k), Pow10(p - 1), Pow10(p));
  }

  lemma Between(x: real, low: real, d: real, high: real, a: real, b: real)
    requires x > 0.0 && low <= d < high && a == Times(x, low) && b == Times(x, high)
    ensures a <= Times(d, x) < b
  {
  }

  lemma SamePoint(a: seq<Digit>, p: int, b: seq<Digit>, q: int)
    requires a != [] && a[0] != 0 && b != [] && b[0] != 0 && Scaled(a, p - |a|) == Scaled(b, q - |b|)
    ensures p == q
  {
    MagnitudeBounds(a, p);
    MagnitudeBounds(b, q);
    if p < q { PowGrows(p, q - 1); }
    if q < p { PowGrows(q, p - 1); }
    hide Pow10, Scaled;
  }

  lemma SameDigits(a: seq<Digit>, b: seq<Digit>, p: int)
    requires b != [] && b[|b| - 1] != 0 && |a| <= |b| && Scaled(a, p - |a|) == Scaled(b, p - |b|)
    ensures a == b
  {
    var k := |b| - |a|;
    Padding(a, k, p - |b|);
    assert p - |b| + k == p - |a|;
    SameScale(a + Zeros(k), b, p - |b|);
    DigitsInjective(a + Zeros(k), b);
    hide Scaled, DigitsValue;
    if k > 0 {
      EndsInZero(a, k);
      assert false;
    }
    assert a + Zeros(0) == a;
  }

  lemma SameScale(a: seq<Digit>, b: seq<Digit>, e: int)
    requires Scaled(a, e) == Scaled(b, e)
    ensures DigitsValue(a) == DigitsValue(b)
  {
    PowStep(e);
    hide Pow10, DigitsValue, Times;
    Cancel(DigitsValue(a) as real, DigitsValue(b) as real, Pow10(e));
  }

  lemma Cancel(a: real, b: real, x: real)
    requires x > 0.0 && Times(a, x) == Times(b, x)
    ensures a == b
  {
    assert (a - b) * x == 0.0;
  }

  lemma MagnitudeInjective(a: seq<Digit>, p: int, b: seq<Digit>, q: int)
    requires a != [] && a[0] != 0 && a[|a| - 1] != 0 && b != [] && b[0] != 0 && b[|b| - 1] != 0
    requires Scaled(a, p - |a|) == Scaled(b, q - |b|)
    ensures a == b && p == q
  {
    SamePoint(a, p, b, q);
    if |a| <= |b| { SameDigits(a, b, p); } else { SameDigits(b, a, p); }
    hide Scaled;
  }

  lemma MagnitudePositive(ds: seq<Digit>, p: int)
    requires ds != [] && ds[0] != 0
    ensures Scaled(ds, p - |ds|) > 0.0
  {
    MagnitudeBounds(ds, p);
    PowStep(p - 1);
    hide Scaled;
  }

  lemma ValueSigned(n: Number)
    requires NumberOk(n) && n.Finite?
    ensures var m := Scaled(n.digits, n.point - |n.digits|);
            m > 0.0 && Value(n) == if n.negative then 0.0 - m else m
  {
    MagnitudePositive(n.digits, n.point);
    ValueOfFinite(n.negative, n.digits, n.point);
    hide Scaled, Value;
  }

  /** Different numbers amount to different values. */
  lemma ValueInjective(a: Number, b: Number)
    requires NumberOk(a) && NumberOk(b) && Value(a) == Value(b)
    ensures a == b
  {
    assert Value(Zero) == 0.0;
    hide Value, Scaled;
    if a.Finite? { ValueSigned(a); }
    if b.Finite? { ValueSigned(b); }
    if a.Finite? && b.Finite? { MagnitudeInjective(a.digits, a.point, b.digits, b.point); }
  }

  /** A number amounts to 999 only as 999. */
  lemma NineHundredNinetyNine(n: Number)
    requires NumberOk(n)
    ensures Value(n) == 999.0 <==> n == Finite(false, [9, 9, 9], 3)
  {
    assert DigitsValue([9, 9, 9]) == 999 by {
      assert [9, 9, 9][..2] == [9, 9] && [9, 9][..1] == [9] && [9][..0] == [];
    }
    assert Pow10(0) == 1.0;
    hide DigitsValue, Pow10;
    if Value(n) == 999.0 { ValueInjective(n, Finite(false, [9, 9, 9], 3)); }
  }
}
