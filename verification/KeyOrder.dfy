/** Array.prototype.sort's default order on strings: by code unit, a prefix first. */
module KeyOrder {
  import opened Json

  predicate KeyBefore(a: JString, b: JString) {
    a == [] || (b != [] && (a[0] < b[0] || (a[0] == b[0] && KeyBefore(a[1..], b[1..]))))
  }

  /** The first code unit in which a and b differ is the i-th, and a's is the smaller. */
  predicate SmallerAt(a: JString, b: JString, i: nat) {
    i < |a| && i < |b| && a[..i] == b[..i] && a[i] < b[i]
  }

  /** Strictly before: a proper prefix, or the smaller code unit where the two first differ. */
  ghost predicate Precedes(a: JString, b: JString) { a < b || exists i: nat :: SmallerAt(a, b, i) }

  lemma SameBefore(a: JString, b: JString, i: nat)
    requires SmallerAt(a, b, i)
    ensures forall j :: 0 <= j < i ==> a[j] == b[j]
  {
    forall j | 0 <= j < i ensures a[j] == b[j] { assert a[..i][j] == b[..i][j]; }
  }

  lemma {:induction false} KeyBeforeIff(a: JString, b: JString)
    ensures KeyBefore(a, b) <==> a == b || Precedes(a, b)
  {
    if a != [] && b != [] && a[0] == b[0] {
      KeyBeforeIff(a[1..], b[1..]);
      assert a == [a[0]] + a[1..] && b == [b[0]] + b[1..];
      if i: nat :| SmallerAt(a[1..], b[1..], i) {
        assert a[..i + 1] == [a[0]] + a[1..][..i] && b[..i + 1] == [b[0]] + b[1..][..i];
        assert SmallerAt(a, b, i + 1);
      }
      if i: nat :| SmallerAt(a, b, i) {
        assert a[1..][..i - 1] == a[..i][1..] && b[1..][..i - 1] == b[..i][1..];
        assert SmallerAt(a[1..], b[1..], i - 1);
      }
    } else if a != [] && b != [] {
      if a[0] < b[0] { assert SmallerAt(a, b, 0); }
      if i: nat :| SmallerAt(a, b, i) { SameBefore(a, b, i); }
    }
  }

  /** It is a total order. */
  lemma {:induction false} TotalOrder(a: JString, b: JString, c: JString)
    ensures KeyBefore(a, b) || KeyBefore(b, a)
    ensures KeyBefore(a, b) && KeyBefore(b, a) ==> a == b
    ensures KeyBefore(a, b) && KeyBefore(b, c) ==> KeyBefore(a, c)
  {
    if a != [] && b != [] {
      TotalOrder(a[1..], b[1..], if c == [] then [] else c[1..]);
      if a[0] == b[0] && a[1..] == b[1..] {
        assert a == [a[0]] + a[1..] && b == [b[0]] + b[1..];
      }
    }
  }

  lemma PrecedesIff(a: JString, b: JString)
    ensures Precedes(a, b) <==> KeyBefore(a, b) && a != b
  {
    KeyBeforeIff(a, b);
    forall i: nat | SmallerAt(a, b, i) ensures a != b {}
  }
}
