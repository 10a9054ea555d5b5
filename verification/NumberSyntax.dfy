/**
 * The text of a number: read back it is the number, and among the numerals that stand for the number
 * it is the one Number::toString names (section 6.1.6.1.20 of ECMA-262).
 */
module NumberSyntax {
  import opened Wrappers
  import opened Digits
  import opened Json
  import opened JsonPrinting
  import opened JsonReading

  function FractionText(f: seq<Digit>): JString { if f == [] then [] else [46] + DigitText(f) }

  /** The letter e, a sign in any case, and the digits of the power. */
  function PowerText(e: Option<int>): JString {
    match e
    case None => []
    case Some(p) => [101, if p < 0 then 45 else 43] + DigitText(NatDigits(if p < 0 then -p else p))
  }

  /** A numeral: integer digits, fraction digits, and an exponent. */
  datatype Numeral = Numeral(whole: seq<Digit>, fraction: seq<Digit>, exponent: Option<int>)

  function NumeralText(negative: bool, m: Numeral): JString {
    (if negative then [45] else []) + (DigitText(m.whole) + (FractionText(m.fraction) + PowerText(m.exponent)))
  }

  /** The number a numeral stands for. */
  function Stands(negative: bool, m: Numeral): Number {
    NumberOf(negative, m.whole + m.fraction, |m.whole| + m.exponent.GetOr(0))
  }

  /** No digit more than needed: no leading zero, no trailing zero after the point, one digit before a power. */
  predicate Tidy(m: Numeral) {
    && |m.whole| > 0 && (m.whole[0] == 0 ==> |m.whole| == 1)
    && (m.fraction != [] ==> m.fraction[|m.fraction| - 1] != 0)
    && (m.exponent.Some? ==> |m.whole| == 1 && m.whole[0] != 0)
  }

  /* ---- reading ---- */

  /** Nothing, or something other than a digit, point or power. */
  predicate AfterNumber(r: JString) { r == [] || (!IsDigit(r[0]) && r[0] != 46 && r[0] != 101 && r[0] != 69) }

  lemma {:induction false} DigitsBack(ds: seq<Digit>, r: JString)
    requires r == [] || !IsDigit(r[0])
    ensures DigitRun(DigitText(ds) + r) == |ds| && LeadingDigits(DigitText(ds) + r) == ds
    ensures (DigitText(ds) + r)[|ds|..] == r
  {
    var t := DigitText(ds) + r;
    if DigitRun(t) < |ds| { assert IsDigit(t[DigitRun(t)]); }
    assert r != [] ==> t[|ds|] == r[0];
  }

  lemma PointedBack(u: JString)
    requires DigitRun(u) > 0
    ensures ReadFraction([46] + u) == Some(Read(LeadingDigits(u), u[DigitRun(u)..]))
  {
    assert ([46] + u)[1..] == u;
    hide DigitRun, LeadingDigits;
  }

  lemma FractionStarts(f: seq<Digit>, r: JString)
    ensures f == [] ==> FractionText(f) + r == r
    ensures f != [] ==> FractionText(f) + r == [46] + (DigitText(f) + r)
  {
    hide DigitText;
    if f == [] {
      assert FractionText(f) + r == r;
    }
  }

  lemma NoFraction(r: JString)
    requires r == [] || r[0] != 46
    ensures ReadFraction(r) == Some(Read([], r))
  {
  }

  lemma FractionBack(f: seq<Digit>, r: JString)
    requires r == [] || (!IsDigit(r[0]) && r[0] != 46)
    ensures ReadFraction(FractionText(f) + r) == Some(Read(f, r))
  {
    hide *;
    FractionStarts(f, r);
    if f == [] {
      NoFraction(r);
    } else {
      DigitsBack(f, r);
      PointedBack(DigitText(f) + r);
    }
  }

  lemma SignedPower(sign: CodeUnit, u: JString)
    requires sign == 43 || sign == 45
    ensures ReadExponent([101, sign] + u) == ReadPower(sign == 45, u)
  {
    assert ([101, sign] + u)[2..] == u;
    hide ReadPower;
  }

  lemma PowerOf(negative: bool, t: JString, ds: seq<Digit>, r: JString)
    requires DigitRun(t) == |ds| > 0 && LeadingDigits(t) == ds && t[|ds|..] == r
    ensures var e := DigitsValue(ds); ReadPower(negative, t) == Some(Read(if negative then 0 - e else e, r))
  {
    hide DigitRun, LeadingDigits, DigitsValue;
  }

  lemma PowerDigits(negative: bool, ds: seq<Digit>, r: JString)
    requires ds != [] && (r == [] || !IsDigit(r[0]))
    ensures var e := DigitsValue(ds);
            ReadPower(negative, DigitText(ds) + r) == Some(Read(if negative then 0 - e else e, r))
  {
    hide *;
    DigitsBack(ds, r);
    PowerOf(negative, DigitText(ds) + r, ds, r);
  }

  lemma PowerStarts(e: int, r: JString)
    ensures PowerText(Some(e)) + r
            == [101, if e < 0 then 45 else 43] + (DigitText(NatDigits(if e < 0 then -e else e)) + r)
  {
    hide DigitText, NatDigits;
  }

  lemma NoPower(r: JString)
    requires AfterNumber(r)
    ensures ReadExponent(PowerText(None) + r) == Some(Read(0, r))
  {
    assert PowerText(None) + r == r;
  }

  lemma SomePower(e: int, n: nat, r: JString)
    requires AfterNumber(r) && n == if e < 0 then -e else e
    ensures ReadExponent(PowerText(Some(e)) + r) == Some(Read(e, r))
  {
    hide *;
    var ds := NatDigits(n);
    NatDigitsBack(n);
    NotDigit(r);
    PowerDigits(e < 0, ds, r);
    PowerStarts(e, r);
    SignedPower(if e < 0 then 45 else 43, DigitText(ds) + r);
  }

  lemma NotDigit(r: JString)
    ensures AfterNumber(r) ==> r == [] || !IsDigit(r[0])
  {
  }

  lemma PowerBack(e: Option<int>, r: JString)
    requires AfterNumber(r)
    ensures ReadExponent(PowerText(e) + r) == Some(Read(e.GetOr(0), r))
  {
    if e.None? { NoPower(r); } else { SomePower(e.value, if e.value < 0 then -e.value else e.value, r); }
    hide ReadExponent, PowerText, AfterNumber;
  }

  lemma SignBack(negative: bool, u: JString)
    requires u != [] && u[0] != 45
    ensures ReadNumber((if negative then [45] else []) + u) == ReadUnsigned(negative, u)
  {
    if negative {
      assert ([45] + u)[1..] == u;
    } else {
      assert [] + u == u;
    }
    hide ReadUnsigned;
  }

  /** A numeral read back is the number it stands for. */
  lemma NumeralBack(negative: bool, m: Numeral, r: JString)
    requires |m.whole| > 0 && (m.whole[0] == 0 ==> |m.whole| == 1) && AfterNumber(r)
    ensures ReadNumber(NumeralText(negative, m) + r) == Some(Read(Stands(negative, m), r))
  {
    var u := DigitText(m.whole) + (FractionText(m.fraction) + (PowerText(m.exponent) + r));
    NumeralParts(negative, m, r);
    StartsWithDigit(m.whole, FractionText(m.fraction) + (PowerText(m.exponent) + r));
    UnsignedBack(negative, m, r);
    hide DigitText, FractionText, PowerText, ReadUnsigned, Stands, NumeralText, ReadNumber;
    SignBack(negative, u);
  }

  lemma NumeralParts(negative: bool, m: Numeral, r: JString)
    ensures NumeralText(negative, m) + r
            == (if negative then [45] else [])
               + (DigitText(m.whole) + (FractionText(m.fraction) + (PowerText(m.exponent) + r)))
  {
    hide DigitText, FractionText, PowerText;
  }

  lemma StartsWithDigit(ds: seq<Digit>, r: JString)
    requires |ds| > 0
    ensures var t := DigitText(ds) + r; t != [] && IsDigit(t[0]) && (t[0] == 48 <==> ds[0] == 0)
  {
  }

  /** A reader of a number, from what it finds part by part. */
  lemma ReadsParts(
      negative: bool, t: JString, whole: seq<Digit>, u: JString, f: seq<Digit>, w: JString, e: int, r: JString)
    requires DigitRun(t) == |whole| > 0 && LeadingDigits(t) == whole && t[|whole|..] == u
    requires t[0] == 48 ==> |whole| == 1
    requires ReadFraction(u) == Some(Read(f, w)) && ReadExponent(w) == Some(Read(e, r))
    ensures ReadUnsigned(negative, t) == Some(Read(NumberOf(negative, whole + f, |whole| + e), r))
  {
    hide DigitRun, LeadingDigits, ReadFraction, ReadExponent, NumberOf;
  }

  lemma UnsignedBack(negative: bool, m: Numeral, r: JString)
    requires |m.whole| > 0 && (m.whole[0] == 0 ==> |m.whole| == 1) && AfterNumber(r)
    ensures ReadUnsigned(negative, DigitText(m.whole) + (FractionText(m.fraction) + (PowerText(m.exponent) + r)))
            == Some(Read(Stands(negative, m), r))
  {
    hide *;
    var power := PowerText(m.exponent) + r;
    var tail := FractionText(m.fraction) + power;
    StartsWithDigit(m.whole, tail);
    PowerFirst(m.exponent, r);
    FractionFirst(m.fraction, power);
    DigitsBack(m.whole, tail);
    FractionBack(m.fraction, power);
    PowerBack(m.exponent, r);
    ReadsParts(negative, DigitText(m.whole) + tail, m.whole, tail, m.fraction, power, m.exponent.GetOr(0), r);
    StandsFor(negative, m);
  }

  lemma StandsFor(negative: bool, m: Numeral)
    ensures Stands(negative, m) == NumberOf(negative, m.whole + m.fraction, |m.whole| + m.exponent.GetOr(0))
  {
  }

  lemma PowerFirst(e: Option<int>, r: JString)
    requires AfterNumber(r)
    ensures PowerText(e) + r == [] || (!IsDigit((PowerText(e) + r)[0]) && (PowerText(e) + r)[0] != 46)
  {
    if e.None? {
      assert PowerText(e) + r == r;
    } else {
      assert PowerText(e)[0] == 101;
      hide ExponentText;
    }
  }

  lemma FractionFirst(f: seq<Digit>, p: JString)
    requires p == [] || !IsDigit(p[0])
    ensures FractionText(f) + p == [] || !IsDigit((FractionText(f) + p)[0])
  {
    if f == [] {
      assert FractionText(f) + p == p;
    } else {
      assert FractionText(f)[0] == 46;
    }
  }

  /* ---- printing ---- */

  /** The numeral Number::toString prints for digits ds with the point at p. */
  function Notation(ds: seq<Digit>, p: int): Numeral
    requires |ds| > 0
  {
    if |ds| <= p <= 21 then Numeral(ds + Zeros(p - |ds|), [], None)
    else if 0 < p <= 21 then Numeral(ds[..p], ds[p..], None)
    else if -6 < p <= 0 then Numeral([0], Zeros(-p) + ds, None)
    else Numeral(ds[..1], ds[1..], Some(p - 1))
  }

  lemma NotationTidy(ds: seq<Digit>, p: int)
    requires |ds| > 0 && ds[0] != 0 && ds[|ds| - 1] != 0
    ensures Tidy(Notation(ds, p))
  {
  }

  /** A numeral without a power, and one with it. */
  lemma PlainNumeral(i: seq<Digit>, f: seq<Digit>)
    ensures DigitText(i) + (FractionText(f) + PowerText(None))
            == if f == [] then DigitText(i) else DigitText(i) + [46] + DigitText(f)
  {
    hide DigitText;
  }

  lemma PowerPrinted(e: int)
    ensures PowerText(Some(e)) == [101] + ExponentText(e)
  {
    hide DigitText, NatDigits;
  }

  lemma PowerNumeral(i: seq<Digit>, f: seq<Digit>, e: int)
    ensures DigitText(i) + (FractionText(f) + PowerText(Some(e)))
            == DigitText(i) + (if f == [] then [] else [46] + DigitText(f)) + [101] + ExponentText(e)
  {
    PowerPrinted(e);
    hide DigitText, ExponentText, PowerText;
  }

  lemma ZeroPoint(ds: seq<Digit>)
    ensures DigitText([0]) + [46] + DigitText(ds) == [48, 46] + DigitText(ds)
  {
    assert DigitText([0]) == [48];
  }

  lemma NotationPrinted(ds: seq<Digit>, p: int)
    requires |ds| > 0
    ensures var m := Notation(ds, p);
            MagnitudeText(ds, p) == DigitText(m.whole) + (FractionText(m.fraction) + PowerText(m.exponent))
  {
    var m := Notation(ds, p);
    hide DigitText, FractionText, PowerText, ExponentText;
    if -6 < p <= 21 {
      PlainNumeral(m.whole, m.fraction);
      if p <= 0 { ZeroPoint(Zeros(-p) + ds); }
    } else {
      PowerNumeral(m.whole, m.fraction, p - 1);
    }
  }

  lemma {:induction false} StripZeros(k: nat, ds: seq<Digit>)
    requires |ds| > 0
    ensures ds[0] != 0 ==> LeadingZeros(Zeros(k) + ds) == k
    ensures ds[|ds| - 1] != 0 ==> DropTrailingZeros(ds + Zeros(k)) == ds
  {
    if k == 0 {
      assert Zeros(0) + ds == ds && ds + Zeros(0) == ds;
    } else {
      StripZeros(k - 1, ds);
      assert (Zeros(k) + ds)[1..] == Zeros(k - 1) + ds;
      assert (ds + Zeros(k))[..|ds| + k - 1] == ds + Zeros(k - 1);
    }
  }

  /** Zeros before and after do not count among the digits. */
  lemma Stripped(negative: bool, a: nat, ds: seq<Digit>, b: nat, point: int)
    requires |ds| > 0 && ds[0] != 0 && ds[|ds| - 1] != 0
    ensures NumberOf(negative, Zeros(a) + (ds + Zeros(b)), point) == Finite(negative, ds, point - a)
  {
    StripZeros(a, ds + Zeros(b));
    StripZeros(b, ds);
    assert (Zeros(a) + (ds + Zeros(b)))[a..] == ds + Zeros(b);
  }

  lemma NotationStands(negative: bool, ds: seq<Digit>, p: int)
    requires |ds| > 0 && ds[0] != 0 && ds[|ds| - 1] != 0
    ensures Stands(negative, Notation(ds, p)) == Finite(negative, ds, p)
  {
    hide *;
    var m := Notation(ds, p);
    var a := if -6 < p <= 0 then 1 - p else 0;
    var b := if |ds| <= p <= 21 then p - |ds| else 0;
    Padded(ds, p, a, b);
    NotationPoint(ds, p);
    Stripped(negative, a, ds, b, |m.whole| + m.exponent.GetOr(0));
    StandsFor(negative, m);
  }

  lemma NotationPoint(ds: seq<Digit>, p: int)
    requires |ds| > 0
    ensures var m := Notation(ds, p); |m.whole| + m.exponent.GetOr(0) == p + if -6 < p <= 0 then 1 - p else 0
  {
  }

  lemma Padded(ds: seq<Digit>, p: int, a: nat, b: nat)
    requires |ds| > 0
    requires a == (if -6 < p <= 0 then 1 - p else 0) && b == if |ds| <= p <= 21 then p - |ds| else 0
    ensures var m := Notation(ds, p); m.whole + m.fraction == Zeros(a) + (ds + Zeros(b))
  {
    var m := Notation(ds, p);
    assert Zeros(0) == [];
    if -6 < p <= 0 { assert [0] + Zeros(-p) == Zeros(a); }
  }

  /** The text of a number, in front of anything that cannot go on with it, reads back as the number. */
  lemma RoundTrip(n: Number, r: JString)
    requires NumberOk(n) && AfterNumber(r)
    ensures ReadNumber(NumberText(n) + r) == Some(Read(n, r))
  {
    if n.Finite? {
      NotationPrinted(n.digits, n.point);
      NotationTidy(n.digits, n.point);
      NotationStands(n.negative, n.digits, n.point);
      hide Stands, Notation, MagnitudeText, DigitText, FractionText, PowerText;
      NumeralBack(n.negative, Notation(n.digits, n.point), r);
    } else {
      assert NumeralText(false, Numeral([0], [], None)) == [48];
      NumeralBack(false, Numeral([0], [], None), r);
    }
  }

  /* ---- which numeral ---- */

  lemma {:induction false} DropsZeros(ds: seq<Digit>)
    ensures var kept := DropTrailingZeros(ds);
            |kept| <= |ds| && ds == kept + Zeros(|ds| - |kept|) && (kept != [] ==> kept[|kept| - 1] != 0)
  {
    if ds != [] && ds[|ds| - 1] == 0 {
      DropsZeros(ds[..|ds| - 1]);
      assert ds == ds[..|ds| - 1] + [0];
    }
  }

  lemma NumberOfIs(negative: bool, ds: seq<Digit>, point: int, k: nat, kept: seq<Digit>)
    requires LeadingZeros(ds) == k < |ds| && DropTrailingZeros(ds[k..]) == kept
    ensures NumberOf(negative, ds, point) == Finite(negative, kept, point - k)
  {
  }

  lemma {:induction false} DropTrailingKeepsFirst(ds: seq<Digit>)
    requires ds != [] && ds[0] != 0
    ensures DropTrailingZeros(ds) != [] && DropTrailingZeros(ds)[0] == ds[0]
  {
    if ds[|ds| - 1] == 0 { DropTrailingKeepsFirst(ds[..|ds| - 1]); }
  }

  lemma NoLead(ds: seq<Digit>)
    requires ds != [] && ds[0] != 0
    ensures LeadingZeros(ds) == 0 && ds[0..] == ds
  {
  }

  /** What digits that do not start with zero stand for. */
  lemma WholeStands(negative: bool, all: seq<Digit>, point: int) returns (kept: seq<Digit>)
    requires all != [] && all[0] != 0
    ensures kept != [] && kept[|kept| - 1] != 0 && |kept| <= |all| && all == kept + Zeros(|all| - |kept|)
    ensures NumberOf(negative, all, point) == Finite(negative, kept, point)
  {
    hide *;
    kept := DropTrailingZeros(all);
    DropsZeros(all);
    NoLead(all);
    DropTrailingKeepsFirst(all);
    NumberOfIs(negative, all, point, 0, kept);
  }

  lemma EndsInZero(ds: seq<Digit>, k: nat)
    requires k > 0
    ensures (ds + Zeros(k))[|ds| + k - 1] == 0
  {
  }

  /** Digits that do not end in zero have lost none. */
  lemma AllKept(all: seq<Digit>, kept: seq<Digit>)
    requires all != [] && all[|all| - 1] != 0 && |kept| <= |all| && all == kept + Zeros(|all| - |kept|)
    ensures kept == all
  {
    var b: nat := |all| - |kept|;
    if b > 0 {
      EndsInZero(kept, b);
      assert false;
    }
    assert kept + Zeros(0) == kept;
  }

  lemma WholeIsNotation(negative: bool, m: Numeral, n: Number)
    requires n.Finite? && Tidy(m) && m.whole[0] != 0 && (m.exponent.Some? <==> !(-6 < n.point <= 21))
    requires Stands(negative, m) == n
    ensures n.digits != [] && n.negative == negative && m == Notation(n.digits, n.point)
  {
    var w, f := m.whole, m.fraction;
    StandsFor(negative, m);
    hide NumberOf, Stands;
    var kept := WholeStands(negative, w + f, |w| + m.exponent.GetOr(0));
    if f == [] {
      assert w + f == w;
    } else {
      AllKept(w + f, kept);
      assert (w + f)[..|w|] == w && (w + f)[|w|..] == f;
    }
  }

  lemma LeadCons(f: seq<Digit>)
    ensures LeadingZeros([0] + f) == 1 + LeadingZeros(f) && ([0] + f)[1 + LeadingZeros(f)..] == f[LeadingZeros(f)..]
  {
    assert ([0] + f)[1..] == f;
  }

  lemma LeadSplit(f: seq<Digit>)
    ensures f == Zeros(LeadingZeros(f)) + f[LeadingZeros(f)..]
  {
  }

  lemma LeadIsShort(f: seq<Digit>)
    requires f != [] && f[|f| - 1] != 0
    ensures LeadingZeros(f) < |f|
  {
  }

  lemma NothingDropped(f: seq<Digit>, k: nat)
    requires k <= |f| && f != [] && f[|f| - 1] != 0
    ensures DropTrailingZeros(f[k..]) == f[k..]
  {
    assert k < |f| ==> f[k..][|f| - k - 1] == f[|f| - 1];
  }

  /** What 0 and a fraction f stand for. */
  lemma PointStands(negative: bool, f: seq<Digit>)
    requires f != [] && f[|f| - 1] != 0
    ensures var k := LeadingZeros(f);
            k < |f| && f == Zeros(k) + f[k..]
            && NumberOf(negative, [0] + f, 1) == Finite(negative, f[k..], 0 - k)
  {
    hide *;
    var k := LeadingZeros(f);
    LeadCons(f);
    LeadSplit(f);
    LeadIsShort(f);
    NothingDropped(f, k);
    NumberOfIs(negative, [0] + f, 1, 1 + k, f[k..]);
  }

  lemma ZeroAlone(negative: bool)
    ensures Stands(negative, Numeral([0], [], None)) == Zero
  {
    assert [0] + [] == [0] && [0][1..] == [];
  }

  lemma PointIsNotation(negative: bool, m: Numeral, n: Number)
    requires n.Finite? && Tidy(m) && m.whole[0] == 0 && (m.exponent.Some? <==> !(-6 < n.point <= 21))
    requires Stands(negative, m) == n
    ensures n.digits != [] && n.negative == negative && m == Notation(n.digits, n.point)
  {
    assert m == Numeral([0], m.fraction, None);
    StandsFor(negative, m);
    hide NumberOf, LeadingZeros, Stands;
    if m.fraction == [] {
      ZeroAlone(negative);
      assert false;
    } else {
      PointStands(negative, m.fraction);
    }
  }

  /**
   * The text of a number is the one tidy numeral, with a power of ten exactly outside 10^-6 <= n < 10^21,
   * that stands for it.
   */
  lemma NumberTextIff(n: Number, negative: bool, m: Numeral)
    requires NumberOk(n) && n.Finite? && Tidy(m) && (m.exponent.Some? <==> !(-6 < n.point <= 21))
    ensures NumberText(n) == NumeralText(negative, m) <==> Stands(negative, m) == n
  {
    if Stands(negative, m) == n {
      if m.whole[0] != 0 { WholeIsNotation(negative, m, n); } else { PointIsNotation(negative, m, n); }
      NotationPrinted(n.digits, n.point);
    }
    NumeralBack(negative, m, []);
    RoundTrip(n, []);
    hide Stands, Notation, MagnitudeText, ReadNumber, DigitText, FractionText, PowerText;
    assert NumeralText(negative, m) + [] == NumeralText(negative, m) && NumberText(n) + [] == NumberText(n);
  }

  /** There is such a numeral for every number. */
  lemma NumeralExists(n: Number)
    requires NumberOk(n) && n.Finite?
    ensures exists m :: Tidy(m) && (m.exponent.Some? <==> !(-6 < n.point <= 21)) && Stands(n.negative, m) == n
  {
    NotationTidy(n.digits, n.point);
    NotationStands(n.negative, n.digits, n.point);
    assert Notation(n.digits, n.point).exponent.Some? <==> !(-6 < n.point <= 21);
  }
}
