/** Reordering the members of an object changes neither lookups nor meaning. */
module MemberOrder {
  import opened Wrappers
  import opened Digits
  import opened Json
  import opened JsonPrinting

  predicate ValuesOk(ms: seq<Member>) {
    forall i :: 0 <= i < |ms| ==> WellFormed(ms[i].value)
  }

  lemma {:induction false} LookupNone(ms: seq<Member>, k: JString)
    ensures Lookup(ms, k).None? <==> forall i :: 0 <= i < |ms| ==> ms[i].key != k
  {
    if ms != [] {
      LookupNone(ms[1..], k);
      assert forall i :: 0 < i < |ms| ==> ms[i] == ms[1..][i - 1];
      assert forall i :: 0 <= i < |ms| - 1 ==> ms[1..][i] == ms[i + 1];
    }
  }

  lemma {:induction false} LookupAt(ms: seq<Member>, i: nat)
    requires DistinctKeys(ms) && i < |ms|
    ensures Lookup(ms, ms[i].key) == Some(ms[i].value)
  {
    if i > 0 { LookupAt(ms[1..], i - 1); }
  }

  lemma {:induction false} LookupOk(ms: seq<Member>, k: JString)
    requires ValuesOk(ms) && Lookup(ms, k).Some?
    ensures WellFormed(Lookup(ms, k).value)
  {
    if ms[0].key != k { LookupOk(ms[1..], k); }
  }

  lemma DistinctCons(m: Member, ms: seq<Member>)
    ensures DistinctKeys([m] + ms) <==> DistinctKeys(ms) && Lookup(ms, m.key).None?
  {
    LookupNone(ms, m.key);
    var all := [m] + ms;
    if DistinctKeys(all) {
      forall i, j | 0 <= i < j < |ms| ensures ms[i].key != ms[j].key {
        assert ms[i] == all[i + 1] && ms[j] == all[j + 1];
      }
      forall i | 0 <= i < |ms| ensures ms[i].key != m.key { assert all[0] == m && all[i + 1] == ms[i]; }
    }
  }

  lemma DistinctHead(ms: seq<Member>)
    requires ms != []
    ensures DistinctKeys(ms) <==> DistinctKeys(ms[1..]) && Lookup(ms[1..], ms[0].key).None?
  {
    assert ms == [ms[0]] + ms[1..];
    DistinctCons(ms[0], ms[1..]);
  }

  /* ---- sorting ---- */

  lemma {:induction false} LookupInsert(m: Member, ms: seq<Member>, before: (JString, JString) -> bool, k: JString)
    requires Lookup(ms, m.key).None?
    ensures Lookup(Insert(m, ms, before), k) == if k == m.key then Some(m.value) else Lookup(ms, k)
  {
    if ms == [] || before(m.key, ms[0].key) {
      assert ([m] + ms)[1..] == ms;
    } else {
      LookupInsert(m, ms[1..], before, k);
      assert Insert(m, ms, before)[1..] == Insert(m, ms[1..], before);
    }
  }

  lemma {:induction false} InsertKeeps(m: Member, ms: seq<Member>, before: (JString, JString) -> bool)
    requires DistinctKeys(ms) && Lookup(ms, m.key).None? && ValuesOk(ms) && WellFormed(m.value)
    ensures DistinctKeys(Insert(m, ms, before)) && ValuesOk(Insert(m, ms, before))
  {
    DistinctCons(m, ms);
    if ms != [] && !before(m.key, ms[0].key) {
      DistinctHead(ms);
      InsertKeeps(m, ms[1..], before);
      LookupInsert(m, ms[1..], before, ms[0].key);
      DistinctCons(ms[0], Insert(m, ms[1..], before));
    }
  }

  lemma {:induction false} LookupSort(ms: seq<Member>, before: (JString, JString) -> bool, k: JString)
    requires DistinctKeys(ms)
    ensures Lookup(Sort(ms, before), k) == Lookup(ms, k)
  {
    if ms != [] {
      DistinctHead(ms);
      LookupSort(ms[1..], before, k);
      LookupSort(ms[1..], before, ms[0].key);
      LookupInsert(ms[0], Sort(ms[1..], before), before, k);
    }
  }

  lemma {:induction false} SortKeeps(ms: seq<Member>, before: (JString, JString) -> bool)
    requires DistinctKeys(ms) && ValuesOk(ms)
    ensures DistinctKeys(Sort(ms, before)) && ValuesOk(Sort(ms, before))
  {
    if ms != [] {
      DistinctHead(ms);
      SortKeeps(ms[1..], before);
      LookupSort(ms[1..], before, ms[0].key);
      InsertKeeps(ms[0], Sort(ms[1..], before), before);
    }
  }

  /* ---- own-key order ---- */

  lemma {:induction false} LookupSplit(ms: seq<Member>, k: JString)
    ensures Lookup(IndexMembers(ms), k) == if ArrayIndex(k) then Lookup(ms, k) else None
    ensures Lookup(NamedMembers(ms), k) == if ArrayIndex(k) then None else Lookup(ms, k)
  {
    if ms != [] {
      LookupSplit(ms[1..], k);
      assert ([ms[0]] + IndexMembers(ms[1..]))[1..] == IndexMembers(ms[1..]);
      assert ([ms[0]] + NamedMembers(ms[1..]))[1..] == NamedMembers(ms[1..]);
    }
  }

  lemma {:induction false} SplitKeeps(ms: seq<Member>)
    requires DistinctKeys(ms) && ValuesOk(ms)
    ensures DistinctKeys(IndexMembers(ms)) && ValuesOk(IndexMembers(ms))
    ensures DistinctKeys(NamedMembers(ms)) && ValuesOk(NamedMembers(ms))
  {
    if ms != [] {
      DistinctHead(ms);
      SplitKeeps(ms[1..]);
      LookupSplit(ms[1..], ms[0].key);
      DistinctCons(ms[0], IndexMembers(ms[1..]));
      DistinctCons(ms[0], NamedMembers(ms[1..]));
    }
  }

  lemma {:induction false} LookupAppend(a: seq<Member>, b: seq<Member>, k: JString)
    ensures Lookup(a + b, k) == if Lookup(a, k).Some? then Lookup(a, k) else Lookup(b, k)
  {
    if a == [] {
      assert a + b == b;
    } else {
      LookupAppend(a[1..], b, k);
      assert (a + b)[1..] == a[1..] + b;
    }
  }

  lemma {:induction false} DistinctAppend(a: seq<Member>, b: seq<Member>)
    requires DistinctKeys(a) && DistinctKeys(b)
    requires forall i :: 0 <= i < |a| ==> Lookup(b, a[i].key).None?
    ensures DistinctKeys(a + b)
  {
    forall i, j | 0 <= i < |a| && 0 <= j < |b| ensures a[i].key != b[j].key {
      LookupNone(b, a[i].key);
    }
  }

  lemma {:induction false} IndexMembersAreIndices(ms: seq<Member>, i: nat)
    requires i < |IndexMembers(ms)|
    ensures ArrayIndex(IndexMembers(ms)[i].key)
  {
    if !ArrayIndex(ms[0].key) {
      IndexMembersAreIndices(ms[1..], i);
    } else if i > 0 {
      IndexMembersAreIndices(ms[1..], i - 1);
    }
  }

  /** Own-key order keeps every lookup, and keys stay distinct. */
  lemma OwnOrderKeeps(ms: seq<Member>)
    requires DistinctKeys(ms) && ValuesOk(ms)
    ensures DistinctKeys(OwnOrder(ms)) && ValuesOk(OwnOrder(ms))
    ensures forall k :: Lookup(OwnOrder(ms), k) == Lookup(ms, k)
  {
    hide IndexMembers, NamedMembers, Sort, Lookup, ArrayIndex;
    var a, b := Sort(IndexMembers(ms), IndexBefore), NamedMembers(ms);
    SplitKeeps(ms);
    SortKeeps(IndexMembers(ms), IndexBefore);
    forall i | 0 <= i < |a| ensures Lookup(b, a[i].key).None? {
      LookupAt(a, i);
      LookupSort(IndexMembers(ms), IndexBefore, a[i].key);
      LookupSplit(ms, a[i].key);
    }
    DistinctAppend(a, b);
    forall k ensures Lookup(a + b, k) == Lookup(ms, k) {
      LookupAppend(a, b, k);
      LookupSort(IndexMembers(ms), IndexBefore, k);
      LookupSplit(ms, k);
    }
  }

  /** Member sequences with the same lookups mean the same object. */
  lemma SameFields(a: seq<Member>, b: seq<Member>)
    requires forall k :: Lookup(a, k) == Lookup(b, k)
    ensures Fields(a) == Fields(b)
  {
    forall k ensures k in Fields(a) <==> k in Fields(b)
             ensures k in Fields(a) ==> Fields(a)[k] == Fields(b)[k]
    {
      LookupFields(a, k);
      LookupFields(b, k);
      assert Lookup(a, k) == Lookup(b, k);
    }
  }

  /* ---- enumeration of a whole value ---- */

  lemma {:induction false} LookupEnumerated(ms: seq<Member>, k: JString)
    ensures Lookup(EnumeratedMembers(ms), k)
            == match Lookup(ms, k) case None => None case Some(x) => Some(Enumerated(x))
  {
    if ms != [] {
      LookupEnumerated(ms[1..], k);
      assert EnumeratedMembers(ms)[1..] == EnumeratedMembers(ms[1..]);
    }
  }

  /** Enumerating in own-key order keeps a value well formed and keeps its meaning. */
  lemma {:induction false} EnumeratedMeans(v: Json)
    requires WellFormed(v)
    ensures WellFormed(Enumerated(v)) && Means(Enumerated(v)) == Means(v)
    decreases v, 1
  {
    match v {
      case Arr(items) =>
        forall i | 0 <= i < |items|
          ensures WellFormed(Enumerated(items[i])) && Means(Enumerated(items[i])) == Means(items[i])
        {
          EnumeratedMeans(items[i]);
        }
      case Obj(ms) =>
        EnumeratedMembersMean(ms);
        OwnOrderKeeps(EnumeratedMembers(ms));
        SameFields(OwnOrder(EnumeratedMembers(ms)), EnumeratedMembers(ms));
      case _ =>
    }
  }

  lemma {:induction false} EnumeratedMembersMean(ms: seq<Member>)
    requires DistinctKeys(ms) && ValuesOk(ms)
    ensures DistinctKeys(EnumeratedMembers(ms)) && ValuesOk(EnumeratedMembers(ms))
    ensures Fields(EnumeratedMembers(ms)) == Fields(ms)
    decreases ms, 0
  {
    if ms != [] {
      DistinctHead(ms);
      EnumeratedMembersMean(ms[1..]);
      EnumeratedMeans(ms[0].value);
      LookupEnumerated(ms[1..], ms[0].key);
      DistinctHead(EnumeratedMembers(ms));
      assert EnumeratedMembers(ms)[1..] == EnumeratedMembers(ms[1..]);
    }
  }

  /* ---- what own-key order is ---- */

  lemma {:induction false} NatDigitsOf(ds: seq<Digit>)
    requires ds != [] && (ds[0] == 0 ==> |ds| == 1)
    ensures NatDigits(DigitsValue(ds)) == ds
  {
    var n := |ds| - 1;
    assert ds == ds[..n] + [ds[n]];
    if n > 0 {
      NatDigitsOf(ds[..n]);
      DigitsBound(ds[..n]);
      assert DigitsValue(ds) / 10 == DigitsValue(ds[..n]) && DigitsValue(ds) % 10 == ds[n];
      PowerPositive(n - 1);
    } else {
      assert ds[..0] == [];
    }
  }

  lemma {:induction false} PowerPositive(n: nat)
    ensures Power10(n) > 0
  {
    if n > 0 { PowerPositive(n - 1); }
  }

  lemma IndexIsNatText(s: JString)
    requires ArrayIndex(s)
    ensures s == NatText(Decimal(s))
  {
    NatDigitsOf(DigitsOf(s));
    assert s == DigitText(DigitsOf(s));
  }

  lemma NatTextIsIndex(n: nat)
    requires n < 0xFFFF_FFFF
    ensures ArrayIndex(NatText(n)) && Decimal(NatText(n)) == n
  {
    NatDigitsBack(n);
    assert DigitsOf(NatText(n)) == NatDigits(n);
    assert NatText(n)[0] == 48 ==> NatDigits(n)[0] == 0;
    hide NatDigits, DigitsValue;
  }

  /** Array indices are the decimal texts of the numbers below 2^32 - 1. */
  lemma ArrayIndexIff(s: JString)
    ensures ArrayIndex(s) <==> exists n: nat :: n < 0xFFFF_FFFF && s == NatText(n)
  {
    if ArrayIndex(s) { IndexIsNatText(s); }
    forall n: nat | n < 0xFFFF_FFFF && s == NatText(n) ensures ArrayIndex(s) { NatTextIsIndex(n); }
    hide NatText;
  }

  /** Index keys come before other keys, in the order of their numbers. */
  predicate IndexFirst(a: JString, b: JString) {
    ArrayIndex(b) ==> ArrayIndex(a) && Decimal(a) < Decimal(b)
  }

  predicate ListedBefore(ms: seq<Member>, a: JString, b: JString) {
    exists p, q :: 0 <= p < q < |ms| && ms[p].key == a && ms[q].key == b
  }

  /** Array indices ascending, then the other keys in the order of ms. */
  ghost predicate InOwnOrder(ms: seq<Member>, r: seq<Member>) {
    forall i, j :: 0 <= i < j < |r| ==>
      IndexFirst(r[i].key, r[j].key)
      && (!ArrayIndex(r[i].key) && !ArrayIndex(r[j].key) ==> ListedBefore(ms, r[i].key, r[j].key))
  }

  predicate Indices(ms: seq<Member>) { forall i :: 0 <= i < |ms| ==> ArrayIndex(ms[i].key) }

  predicate Climbing(ms: seq<Member>)
    requires Indices(ms)
  {
    forall i, j :: 0 <= i < j < |ms| ==> Decimal(ms[i].key) <= Decimal(ms[j].key)
  }

  lemma {:induction false} InsertClimbs(m: Member, ms: seq<Member>)
    requires ArrayIndex(m.key) && Indices(ms) && Climbing(ms)
    ensures Indices(Insert(m, ms, IndexBefore)) && Climbing(Insert(m, ms, IndexBefore))
    ensures forall x :: x in Insert(m, ms, IndexBefore) ==> x == m || x in ms
  {
    hide Decimal;
    if ms != [] && !IndexBefore(m.key, ms[0].key) {
      var rest := Insert(m, ms[1..], IndexBefore);
      InsertClimbs(m, ms[1..]);
      forall j | 0 <= j < |rest| ensures Decimal(ms[0].key) <= Decimal(rest[j].key) {
        assert rest[j] in rest;
      }
    }
  }

  lemma {:induction false} SortClimbs(ms: seq<Member>)
    requires Indices(ms)
    ensures Indices(Sort(ms, IndexBefore)) && Climbing(Sort(ms, IndexBefore))
  {
    hide ArrayIndex, Decimal;
    if ms != [] {
      SortClimbs(ms[1..]);
      InsertClimbs(ms[0], Sort(ms[1..], IndexBefore));
    }
  }

  lemma {:induction false} NamedAsListed(ms: seq<Member>, i: nat, j: nat)
    requires i < j < |NamedMembers(ms)|
    ensures ListedBefore(ms, NamedMembers(ms)[i].key, NamedMembers(ms)[j].key)
  {
    hide ArrayIndex;
    var skip := if ArrayIndex(ms[0].key) then 0 else 1;
    if i < skip {
      var q := NamedPlace(ms[1..], j - 1);
      assert ms[0].key == NamedMembers(ms)[i].key && ms[q + 1].key == NamedMembers(ms)[j].key;
    } else {
      NamedAsListed(ms[1..], i - skip, j - skip);
      var p, q :| 0 <= p < q < |ms[1..]| && ms[1..][p].key == NamedMembers(ms[1..])[i - skip].key
                  && ms[1..][q].key == NamedMembers(ms[1..])[j - skip].key;
      assert ms[p + 1].key == NamedMembers(ms)[i].key && ms[q + 1].key == NamedMembers(ms)[j].key;
    }
  }

  lemma {:induction false} NamedPlace(ms: seq<Member>, j: nat) returns (q: nat)
    requires j < |NamedMembers(ms)|
    ensures q < |ms| && ms[q] == NamedMembers(ms)[j] && !ArrayIndex(ms[q].key)
  {
    if ArrayIndex(ms[0].key) {
      q := NamedPlace(ms[1..], j);
      q := q + 1;
    } else if j == 0 {
      q := 0;
    } else {
      q := NamedPlace(ms[1..], j - 1);
      q := q + 1;
    }
  }

  lemma AreIndices(ms: seq<Member>)
    ensures Indices(IndexMembers(ms))
  {
    forall i: nat | i < |IndexMembers(ms)| ensures ArrayIndex(IndexMembers(ms)[i].key) {
      IndexMembersAreIndices(ms, i);
    }
    hide IndexMembers, ArrayIndex;
  }

  /** The part of own-key order up to the last array index. */
  lemma IndexPart(ms: seq<Member>, i: nat, j: nat)
    requires DistinctKeys(OwnOrder(ms)) && i < j < |OwnOrder(ms)|
    requires j < |Sort(IndexMembers(ms), IndexBefore)|
    ensures var r := OwnOrder(ms);
            ArrayIndex(r[i].key) && ArrayIndex(r[j].key) && Decimal(r[i].key) < Decimal(r[j].key)
  {
    var r := OwnOrder(ms);
    AreIndices(ms);
    SortClimbs(IndexMembers(ms));
    hide Sort, IndexMembers, NamedMembers, NatText;
    IndexIsNatText(r[i].key);
    IndexIsNatText(r[j].key);
    assert r[i].key != r[j].key;
  }

  /** The part after it. */
  lemma NamedPart(ms: seq<Member>, i: nat, j: nat)
    requires i < j < |OwnOrder(ms)| && j >= |Sort(IndexMembers(ms), IndexBefore)|
    ensures var r := OwnOrder(ms);
            !ArrayIndex(r[j].key) && (!ArrayIndex(r[i].key) ==> ListedBefore(ms, r[i].key, r[j].key))
  {
    var n := |Sort(IndexMembers(ms), IndexBefore)|;
    var q := NamedPlace(ms, j - n);
    if i >= n {
      NamedAsListed(ms, i - n, j - n);
    } else {
      AreIndices(ms);
      SortClimbs(IndexMembers(ms));
    }
    hide ArrayIndex, Sort, IndexMembers, NamedMembers, ListedBefore;
  }

  /** Own-key order, declared: it and OwnOrderKeeps leave no choice. */
  lemma OwnOrderOk(ms: seq<Member>)
    requires DistinctKeys(ms) && ValuesOk(ms)
    ensures InOwnOrder(ms, OwnOrder(ms))
  {
    OwnOrderKeeps(ms);
    forall i: nat, j: nat | i < j < |OwnOrder(ms)|
      ensures var r := OwnOrder(ms);
              IndexFirst(r[i].key, r[j].key)
              && (!ArrayIndex(r[i].key) && !ArrayIndex(r[j].key) ==> ListedBefore(ms, r[i].key, r[j].key))
    {
      if j < |Sort(IndexMembers(ms), IndexBefore)| { IndexPart(ms, i, j); } else { NamedPart(ms, i, j); }
      hide ArrayIndex, Decimal, OwnOrder, ListedBefore;
    }
    hide ArrayIndex, Decimal, OwnOrder, ListedBefore, IndexFirst;
  }

  /** w is v with the members of every object in own-key order. */
  ghost predicate Reordered(v: Json, w: Json)
    decreases v
  {
    match v
    case Arr(items) =>
      w.Arr? && |w.items| == |items| && forall i :: 0 <= i < |items| ==> Reordered(items[i], w.items[i])
    case Obj(ms) =>
      w.Obj? && InOwnOrder(ms, w.members)
      && (forall k :: Lookup(w.members, k).Some? <==> Lookup(ms, k).Some?)
      && forall p :: 0 <= p < |ms| ==>
           Lookup(w.members, ms[p].key).Some? && Reordered(ms[p].value, Lookup(w.members, ms[p].key).value)
    case _ => w == v
  }

  lemma {:induction false} EnumeratedAt(ms: seq<Member>, i: nat)
    requires i < |ms|
    ensures |EnumeratedMembers(ms)| == |ms|
    ensures EnumeratedMembers(ms)[i] == Member(ms[i].key, Enumerated(ms[i].value))
  {
    if i > 0 {
      EnumeratedAt(ms[1..], i - 1);
    } else {
      EnumeratedLength(ms);
    }
  }

  lemma {:induction false} EnumeratedLength(ms: seq<Member>)
    ensures |EnumeratedMembers(ms)| == |ms|
  {
    if ms != [] { EnumeratedLength(ms[1..]); }
  }

  lemma SameListing(ms: seq<Member>, a: JString, b: JString)
    ensures ListedBefore(EnumeratedMembers(ms), a, b) ==> ListedBefore(ms, a, b)
  {
    EnumeratedLength(ms);
    if ListedBefore(EnumeratedMembers(ms), a, b) {
      var p, q :| 0 <= p < q < |ms| && EnumeratedMembers(ms)[p].key == a && EnumeratedMembers(ms)[q].key == b;
      EnumeratedAt(ms, p);
      EnumeratedAt(ms, q);
    }
  }

  /** Enumerating puts every object's members, at every depth, in own-key order. */
  lemma {:induction false} EnumeratedReorders(v: Json)
    requires WellFormed(v)
    ensures Reordered(v, Enumerated(v))
    decreases v, 1
  {
    match v {
      case Arr(items) => forall i | 0 <= i < |items| { EnumeratedReorders(items[i]); }
      case Obj(ms) => MembersReordered(ms);
      case _ =>
    }
  }

  lemma ReorderedKeys(ms: seq<Member>)
    requires WellFormed(Obj(ms))
    ensures InOwnOrder(ms, OwnOrder(EnumeratedMembers(ms)))
  {
    var r := OwnOrder(EnumeratedMembers(ms));
    EnumeratedMembersMean(ms);
    OwnOrderOk(EnumeratedMembers(ms));
    hide OwnOrder, EnumeratedMembers, ArrayIndex, Decimal, ListedBefore, IndexFirst, WellFormed;
    forall i, j | 0 <= i < j < |r| && !ArrayIndex(r[i].key) && !ArrayIndex(r[j].key)
      ensures ListedBefore(ms, r[i].key, r[j].key)
    {
      SameListing(ms, r[i].key, r[j].key);
    }
  }

  lemma ReorderedLookup(ms: seq<Member>, k: JString)
    requires WellFormed(Obj(ms))
    ensures Lookup(OwnOrder(EnumeratedMembers(ms)), k)
            == match Lookup(ms, k) case None => None case Some(x) => Some(Enumerated(x))
  {
    EnumeratedMembersMean(ms);
    OwnOrderKeeps(EnumeratedMembers(ms));
    LookupEnumerated(ms, k);
  }

  lemma {:induction false} MembersReordered(ms: seq<Member>)
    requires WellFormed(Obj(ms))
    ensures Reordered(Obj(ms), Enumerated(Obj(ms)))
    decreases ms, 0
  {
    var r := OwnOrder(EnumeratedMembers(ms));
    ReorderedKeys(ms);
    hide OwnOrder, EnumeratedMembers, InOwnOrder;
    forall k ensures Lookup(r, k).Some? <==> Lookup(ms, k).Some? { ReorderedLookup(ms, k); }
    forall p | 0 <= p < |ms|
      ensures Lookup(r, ms[p].key).Some? && Reordered(ms[p].value, Lookup(r, ms[p].key).value)
    {
      ReorderedLookup(ms, ms[p].key);
      LookupAt(ms, p);
      EnumeratedReorders(ms[p].value);
    }
  }
}
