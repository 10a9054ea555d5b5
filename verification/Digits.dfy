/** Decimal digits, most significant first, and the natural numbers they stand for. */
module Digits {
  import opened Json

  function DigitsValue(ds: seq<Digit>): nat {
    if ds == [] then 0 else 10 * DigitsValue(ds[..|ds| - 1]) + ds[|ds| - 1]
  }

  /** The decimal digits of n. */
  function NatDigits(n: nat): seq<Digit> {
    if n < 10 then [n] else NatDigits(n / 10) + [n % 10]
  }

  function Power10(n: nat): nat { if n == 0 then 1 else 10 * Power10(n - 1) }

  function Zeros(n: nat): (r: seq<Digit>)
    ensures |r| == n && forall i :: 0 <= i < n ==> r[i] == 0
  {
    seq(n, _ => 0)
  }

  /** The digits of n stand for n, and start with zero only for zero. */
  lemma {:induction false} NatDigitsBack(n: nat)
    ensures NatDigits(n) != [] && DigitsValue(NatDigits(n)) == n
    ensures NatDigits(n)[0] == 0 ==> n == 0 && NatDigits(n) == [0]
  {
    if n < 10 {
      assert [n][..0] == [];
    } else {
      NatDigitsBack(n / 10);
      assert NatDigits(n)[..|NatDigits(n)| - 1] == NatDigits(n / 10);
    }
  }

  /** The first digit counts as many tens as there are digits after it. */
  lemma {:induction false} DigitsFront(d: Digit, ds: seq<Digit>)
    ensures DigitsValue([d] + ds) == d * Power10(|ds|) + DigitsValue(ds)
  {
    if ds == [] {
      assert [d] + ds == [d] && [d][..0] == [];
    } else {
      var n := |ds| - 1;
      DigitsFront(d, ds[..n]);
      assert ([d] + ds)[..n + 1] == [d] + ds[..n];
      assert 10 * (d * Power10(n)) == d * Power10(n + 1);
    }
  }

  lemma {:induction false} DigitsAppend(a: seq<Digit>, b: seq<Digit>)
    ensures DigitsValue(a + b) == DigitsValue(a) * Power10(|b|) + DigitsValue(b)
  {
    if b == [] {
      assert a + b == a;
    } else {
      var n := |b| - 1;
      DigitsAppend(a, b[..n]);
      assert (a + b)[..|a| + n] == a + b[..n];
      assert 10 * (DigitsValue(a) * Power10(n)) == DigitsValue(a) * Power10(n + 1);
    }
  }

  lemma {:induction false} ZerosValue(k: nat)
    ensures DigitsValue(Zeros(k)) == 0
  {
    if k > 0 {
      ZerosValue(k - 1);
      assert Zeros(k)[..k - 1] == Zeros(k - 1);
    }
  }

  lemma {:induction false} DigitsBound(ds: seq<Digit>)
    ensures DigitsValue(ds) < Power10(|ds|)
    ensures ds != [] && ds[0] != 0 ==> Power10(|ds| - 1) <= DigitsValue(ds)
  {
    if |ds| == 1 {
      assert ds[..0] == [];
    } else if ds != [] {
      DigitsBound(ds[..|ds| - 1]);
    }
  }

  /** As many digits stand for one number only. */
  lemma {:induction false} DigitsInjective(a: seq<Digit>, b: seq<Digit>)
    requires |a| == |b| && DigitsValue(a) == DigitsValue(b)
    ensures a == b
  {
    if a != [] {
      var n := |a| - 1;
      assert a[n] == DigitsValue(a) % 10 == DigitsValue(b) % 10 == b[n];
      DigitsInjective(a[..n], b[..n]);
      assert a == a[..n] + [a[n]] && b == b[..n] + [b[n]];
    }
  }
}
