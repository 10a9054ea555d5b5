/**
 * utils/requestHash.js: the canonical text that decides whether a retried request is the same
 * request.  Two bodies have the same canonical text exactly when they differ at most in the order
 * of object members, and in members named __proto__, at any depth.
 */
module RequestHash {
  import opened Wrappers
  import opened Json
  import opened JsonPrinting
  import opened JsonReading
  import opened JsonText
  import opened KeyOrder
  import opened MemberOrder

  /** Assigning to __proto__ sets a prototype and makes no member. */
  function WithoutProto(v: Json): Json {
    match v
    case Arr(items) => Arr(seq(|items|, i requires 0 <= i < |items| => WithoutProto(items[i])))
    case Obj(ms) => Obj(MembersWithoutProto(ms))
    case _ => v
  }

  function MembersWithoutProto(ms: seq<Member>): seq<Member>
    decreases ms
  {
    if ms == [] then []
    else (if ms[0].key == PROTO then [] else [Member(ms[0].key, WithoutProto(ms[0].value))])
         + MembersWithoutProto(ms[1..])
  }

  /** Members in ascending order at every depth. */
  function Sorted(v: Json): Json {
    match v
    case Arr(items) => Arr(seq(|items|, i requires 0 <= i < |items| => Sorted(items[i])))
    case Obj(ms) => Obj(Sort(SortedMembers(ms), KeyBefore))
    case _ => v
  }

  function SortedMembers(ms: seq<Member>): seq<Member>
    decreases ms
  {
    if ms == [] then [] else [Member(ms[0].key, Sorted(ms[0].value))] + SortedMembers(ms[1..])
  }

  /** sortValue: a fresh object filled in ascending key order, __proto__ excepted. */
  function SortValue(v: Json): Json { Sorted(WithoutProto(v)) }

  /** JSON.stringify: members in own-key order, at every depth. */
  function Stringify(v: Json): JString
    requires WellFormed(v)
  {
    EnumeratedMeans(v);
    Text(Enumerated(v))
  }

  function Canonicalize(v: Json): JString
    requires WellFormed(v)
  {
    WithoutProtoOk(v);
    SortedMeans(WithoutProto(v));
    Stringify(SortValue(v))
  }

  /** createRequestHash, for any digest of the text. */
  function CreateRequestHash(digest: JString -> JString, v: Json): JString
    requires WellFormed(v)
  {
    digest(Canonicalize(v))
  }

  /* ---- __proto__ ---- */

  lemma {:induction false} WithoutProtoOk(v: Json)
    requires WellFormed(v)
    ensures WellFormed(WithoutProto(v))
    decreases v, 1
  {
    match v {
      case Arr(items) =>
        forall i | 0 <= i < |items| ensures WellFormed(WithoutProto(items[i])) { WithoutProtoOk(items[i]); }
      case Obj(ms) => MembersWithoutProtoOk(ms);
      case _ =>
    }
  }

  lemma {:induction false} MembersWithoutProtoOk(ms: seq<Member>)
    requires DistinctKeys(ms) && ValuesOk(ms)
    ensures DistinctKeys(MembersWithoutProto(ms)) && ValuesOk(MembersWithoutProto(ms))
    decreases ms, 0
  {
    if ms != [] {
      DistinctHead(ms);
      MembersWithoutProtoOk(ms[1..]);
      if ms[0].key != PROTO {
        WithoutProtoOk(ms[0].value);
        LookupWithoutProto(ms[1..], ms[0].key);
        DistinctCons(Member(ms[0].key, WithoutProto(ms[0].value)), MembersWithoutProto(ms[1..]));
      }
    }
  }

  lemma {:induction false} LookupWithoutProto(ms: seq<Member>, k: JString)
    ensures Lookup(MembersWithoutProto(ms), k)
            == if k == PROTO then None
               else match Lookup(ms, k) case None => None case Some(x) => Some(WithoutProto(x))
  {
    if ms != [] {
      LookupWithoutProto(ms[1..], k);
      var m := Member(ms[0].key, WithoutProto(ms[0].value));
      assert ([m] + MembersWithoutProto(ms[1..]))[1..] == MembersWithoutProto(ms[1..]);
      assert [] + MembersWithoutProto(ms[1..]) == MembersWithoutProto(ms[1..]);
    }
  }

  /** No __proto__ at any depth. */
  predicate ProtoFree(v: Json) {
    match v
    case Arr(items) => forall i :: 0 <= i < |items| ==> ProtoFree(items[i])
    case Obj(ms) => forall i :: 0 <= i < |ms| ==> ms[i].key != PROTO && ProtoFree(ms[i].value)
    case _ => true
  }

  lemma {:induction false} WithoutProtoFixed(v: Json)
    ensures ProtoFree(v) <==> WithoutProto(v) == v
    decreases v, 1
  {
    match v {
      case Arr(items) => forall i | 0 <= i < |items| { WithoutProtoFixed(items[i]); }
        if WithoutProto(v) == v {
          forall i | 0 <= i < |items| ensures ProtoFree(items[i]) { assert WithoutProto(v).items[i] == items[i]; }
        }
      case Obj(ms) => MembersWithoutProtoFixed(ms);
      case _ =>
    }
  }

  lemma {:induction false} MembersWithoutProtoFixed(ms: seq<Member>)
    ensures |MembersWithoutProto(ms)| <= |ms|
    ensures ProtoFree(Obj(ms)) <==> MembersWithoutProto(ms) == ms
    decreases ms, 0
  {
    if ms != [] {
      MembersWithoutProtoFixed(ms[1..]);
      WithoutProtoFixed(ms[0].value);
      var m := Member(ms[0].key, WithoutProto(ms[0].value));
      assert ProtoFree(Obj(ms)) <==> ms[0].key != PROTO && ProtoFree(ms[0].value) && ProtoFree(Obj(ms[1..])) by {
        if ms[0].key != PROTO && ProtoFree(ms[0].value) && ProtoFree(Obj(ms[1..])) {
          forall i | 0 <= i < |ms| ensures ms[i].key != PROTO && ProtoFree(ms[i].value) {
            assert i > 0 ==> ms[1..][i - 1] == ms[i];
          }
        }
        if ProtoFree(Obj(ms)) {
          forall i | 0 <= i < |ms[1..]| ensures ms[1..][i].key != PROTO && ProtoFree(ms[1..][i].value) {
            assert ms[1..][i] == ms[i + 1];
          }
        }
      }
      if ms[0].key != PROTO {
        assert MembersWithoutProto(ms) == [m] + MembersWithoutProto(ms[1..]);
        assert ms == [ms[0]] + ms[1..];
      } else {
        assert [] + MembersWithoutProto(ms[1..]) == MembersWithoutProto(ms[1..]);
      }
    }
  }

  /* ---- Sorted keeps the meaning ---- */

  lemma {:induction false} LookupSorted(ms: seq<Member>, k: JString)
    ensures Lookup(SortedMembers(ms), k)
            == match Lookup(ms, k) case None => None case Some(x) => Some(Sorted(x))
  {
    if ms != [] {
      LookupSorted(ms[1..], k);
      assert SortedMembers(ms)[1..] == SortedMembers(ms[1..]);
    }
  }

  lemma {:induction false} SortedMeans(v: Json)
    requires WellFormed(v)
    ensures WellFormed(Sorted(v)) && Means(Sorted(v)) == Means(v)
    decreases v, 1
  {
    match v {
      case Arr(items) =>
        forall i | 0 <= i < |items|
          ensures WellFormed(Sorted(items[i])) && Means(Sorted(items[i])) == Means(items[i])
        {
          SortedMeans(items[i]);
        }
      case Obj(ms) =>
        SortedMembersMean(ms);
        SortKeeps(SortedMembers(ms), KeyBefore);
        forall k ensures Lookup(Sort(SortedMembers(ms), KeyBefore), k) == Lookup(SortedMembers(ms), k) {
          LookupSort(SortedMembers(ms), KeyBefore, k);
        }
        SameFields(Sort(SortedMembers(ms), KeyBefore), SortedMembers(ms));
      case _ =>
    }
  }

  lemma {:induction false} SortedMembersMean(ms: seq<Member>)
    requires DistinctKeys(ms) && ValuesOk(ms)
    ensures DistinctKeys(SortedMembers(ms)) && ValuesOk(SortedMembers(ms))
    ensures Fields(SortedMembers(ms)) == Fields(ms)
    decreases ms, 0
  {
    if ms != [] {
      DistinctHead(ms);
      SortedMembersMean(ms[1..]);
      SortedMeans(ms[0].value);
      LookupSorted(ms[1..], ms[0].key);
      DistinctHead(SortedMembers(ms));
      assert SortedMembers(ms)[1..] == SortedMembers(ms[1..]);
    }
  }

  /* ---- sorted members ---- */

  /** Strictly ascending keys, head first. */
  predicate Ascending(ms: seq<Member>) {
    ms == [] || (Ascending(ms[1..]) && AllAfter(ms[0].key, ms[1..]))
  }

  predicate AllAfter(k: JString, ms: seq<Member>) {
    forall i :: 0 <= i < |ms| ==> KeyBefore(k, ms[i].key) && k != ms[i].key
  }

  lemma {:induction false} AfterInsert(k: JString, m: Member, ms: seq<Member>)
    requires AllAfter(k, ms) && KeyBefore(k, m.key) && k != m.key
    ensures AllAfter(k, Insert(m, ms, KeyBefore))
  {
    if ms != [] && !KeyBefore(m.key, ms[0].key) {
      AfterInsert(k, m, ms[1..]);
    }
  }

  lemma {:induction false} AfterLater(k: JString, l: JString, ms: seq<Member>)
    requires KeyBefore(k, l) && k != l && AllAfter(l, ms)
    ensures AllAfter(k, ms)
  {
    forall i | 0 <= i < |ms| ensures KeyBefore(k, ms[i].key) && k != ms[i].key {
      TotalOrder(k, l, ms[i].key);
      TotalOrder(l, k, k);
    }
  }

  lemma {:induction false} InsertAscending(m: Member, ms: seq<Member>)
    requires Ascending(ms) && Lookup(ms, m.key).None?
    ensures Ascending(Insert(m, ms, KeyBefore))
  {
    if ms == [] {
      assert Insert(m, ms, KeyBefore)[1..] == [];
    } else if KeyBefore(m.key, ms[0].key) {
      AfterLater(m.key, ms[0].key, ms[1..]);
      assert ms == [ms[0]] + ms[1..];
      assert ([m] + ms)[1..] == ms;
    } else {
      TotalOrder(m.key, ms[0].key, m.key);
      InsertAscending(m, ms[1..]);
      AfterInsert(ms[0].key, m, ms[1..]);
      assert Insert(m, ms, KeyBefore)[1..] == Insert(m, ms[1..], KeyBefore);
    }
  }

  lemma {:induction false} SortAscending(ms: seq<Member>)
    requires DistinctKeys(ms)
    ensures Ascending(Sort(ms, KeyBefore))
  {
    if ms != [] {
      DistinctHead(ms);
      SortAscending(ms[1..]);
      LookupSort(ms[1..], KeyBefore, ms[0].key);
      InsertAscending(ms[0], Sort(ms[1..], KeyBefore));
    }
  }

  lemma AfterLookup(k: JString, ms: seq<Member>)
    requires AllAfter(k, ms)
    ensures Lookup(ms, k).None?
  {
    LookupNone(ms, k);
  }

  lemma {:induction false} FirstIsLeast(ms: seq<Member>, k: JString)
    requires Ascending(ms) && Lookup(ms, k).Some?
    ensures KeyBefore(ms[0].key, k)
  {
    LookupNone(ms, k);
    TotalOrder(k, k, k);
    assert forall i :: 0 < i < |ms| ==> ms[i] == ms[1..][i - 1];
  }

  /** Ascending member sequences with the same lookups are the same sequence. */
  lemma {:induction false} AscendingUnique(a: seq<Member>, b: seq<Member>)
    requires Ascending(a) && Ascending(b)
    requires forall k :: Lookup(a, k) == Lookup(b, k)
    ensures a == b
  {
    assert a == [] <==> b == [] by {
      if a != [] { assert Lookup(a, a[0].key) == Lookup(b, a[0].key); }
      if b != [] { assert Lookup(a, b[0].key) == Lookup(b, b[0].key); }
    }
    if a != [] {
      assert Lookup(a, a[0].key) == Lookup(b, a[0].key) && Lookup(a, b[0].key) == Lookup(b, b[0].key);
      FirstIsLeast(a, b[0].key);
      FirstIsLeast(b, a[0].key);
      TotalOrder(a[0].key, b[0].key, a[0].key);
      forall k ensures Lookup(a[1..], k) == Lookup(b[1..], k) {
        AfterLookup(a[0].key, a[1..]);
        AfterLookup(b[0].key, b[1..]);
        assert Lookup(a, k) == Lookup(b, k);
      }
      AscendingUnique(a[1..], b[1..]);
      assert a == [a[0]] + a[1..] && b == [b[0]] + b[1..];
    }
  }

  /* ---- the canonical form ---- */

  /** Sorted is a canonical form: it depends on the meaning alone. */
  lemma {:induction false} SortedCanonical(v: Json, w: Json)
    requires WellFormed(v) && WellFormed(w) && Means(v) == Means(w)
    ensures Sorted(v) == Sorted(w)
    decreases v
  {
    match v {
      case Arr(items) =>
        var other := w.items;
        assert |Means(v).items| == |Means(w).items|;
        forall i | 0 <= i < |items| ensures Sorted(items[i]) == Sorted(other[i]) {
          assert Means(v).items[i] == Means(w).items[i];
          SortedCanonical(items[i], other[i]);
        }
      case Obj(a) =>
        var b := w.members;
        forall k ensures Lookup(SortedMembers(a), k) == Lookup(SortedMembers(b), k) {
          SameSortedLookup(v, w, k);
        }
        SortsAlike(SortedMembers(a), SortedMembers(b)) by {
          SortedMembersMean(a);
          SortedMembersMean(b);
        }
      case _ =>
    }
  }

  lemma {:induction false} SameSortedLookup(v: Json, w: Json, k: JString)
    requires v.Obj? && w.Obj? && WellFormed(v) && WellFormed(w) && Means(v) == Means(w)
    ensures Lookup(SortedMembers(v.members), k) == Lookup(SortedMembers(w.members), k)
    decreases v, 0
  {
    var a, b := v.members, w.members;
    LookupFields(a, k);
    LookupFields(b, k);
    LookupSorted(a, k);
    LookupSorted(b, k);
    if Lookup(a, k).Some? {
      LookupOk(a, k);
      LookupOk(b, k);
      LookupSmaller(a, k);
      SortedCanonical(Lookup(a, k).value, Lookup(b, k).value);
    }
  }

  lemma {:induction false} LookupSmaller(ms: seq<Member>, k: JString)
    requires Lookup(ms, k).Some?
    ensures exists i :: 0 <= i < |ms| && ms[i].value == Lookup(ms, k).value
  {
    if ms[0].key != k {
      LookupSmaller(ms[1..], k);
      var i :| 0 <= i < |ms[1..]| && ms[1..][i].value == Lookup(ms[1..], k).value;
      assert ms[i + 1].value == Lookup(ms, k).value;
    }
  }

  lemma SortsAlike(a: seq<Member>, b: seq<Member>)
    requires DistinctKeys(a) && DistinctKeys(b)
    requires forall k :: Lookup(a, k) == Lookup(b, k)
    ensures Sort(a, KeyBefore) == Sort(b, KeyBefore)
  {
    SortAscending(a);
    SortAscending(b);
    forall k ensures Lookup(Sort(a, KeyBefore), k) == Lookup(Sort(b, KeyBefore), k) {
      LookupSort(a, KeyBefore, k);
      LookupSort(b, KeyBefore, k);
      assert Lookup(a, k) == Lookup(b, k);
    }
    AscendingUnique(Sort(a, KeyBefore), Sort(b, KeyBefore));
  }

  /** A meaning with no fields named __proto__, at any depth. */
  function Unproto(m: Meaning): Meaning {
    match m
    case MArr(items) => MArr(seq(|items|, i requires 0 <= i < |items| => Unproto(items[i])))
    case MObj(fields) => MObj(map k | k in fields && k != Js("__proto__") :: Unproto(fields[k]))
    case _ => m
  }

  /** Equal up to member order at every depth, not counting __proto__ members. */
  predicate SameRequest(v: Json, w: Json) { Unproto(Means(v)) == Unproto(Means(w)) }

  /** Leaving the members out of the value leaves the fields out of its meaning. */
  lemma {:induction false} WithoutProtoMeans(v: Json)
    ensures Means(WithoutProto(v)) == Unproto(Means(v))
    decreases v, 1
  {
    match v {
      case Arr(items) =>
        forall i | 0 <= i < |items| ensures Means(WithoutProto(items[i])) == Unproto(Means(items[i])) {
          WithoutProtoMeans(items[i]);
        }
        assert Means(WithoutProto(v)).items == Unproto(Means(v)).items;
      case Obj(ms) => MembersWithoutProtoMean(ms);
      case _ =>
    }
  }

  lemma {:induction false} MembersWithoutProtoMean(ms: seq<Member>)
    ensures Means(WithoutProto(Obj(ms))) == Unproto(Means(Obj(ms)))
    decreases ms, 1
  {
    var a, b := Fields(MembersWithoutProto(ms)), Unproto(MObj(Fields(ms))).fields;
    forall k ensures k in a <==> k in b ensures k in a ==> a[k] == b[k] {
      LookupFields(MembersWithoutProto(ms), k);
      LookupFields(ms, k);
      LookupWithoutProto(ms, k);
      if k in a { MemberWithoutProtoMeans(ms, k); }
    }
    assert a == b;
  }

  lemma {:induction false} MemberWithoutProtoMeans(ms: seq<Member>, k: JString)
    requires Lookup(ms, k).Some?
    ensures Means(WithoutProto(Lookup(ms, k).value)) == Unproto(Means(Lookup(ms, k).value))
    decreases ms, 0
  {
    LookupSmaller(ms, k);
    WithoutProtoMeans(Lookup(ms, k).value);
  }

  lemma SameWithoutProto(v: Json, w: Json)
    ensures SameRequest(v, w) <==> Means(WithoutProto(v)) == Means(WithoutProto(w))
  {
    WithoutProtoMeans(v);
    WithoutProtoMeans(w);
  }

  /** Sorting keeps the value, __proto__ members excepted. */
  lemma SortValueMeans(v: Json)
    requires WellFormed(v)
    ensures WellFormed(SortValue(v)) && Means(SortValue(v)) == Unproto(Means(v))
  {
    WithoutProtoOk(v);
    WithoutProtoMeans(v);
    SortedMeans(WithoutProto(v));
  }

  /** The text reads back, by the grammar of RFC 8259, as the value with its members in own-key order. */
  lemma StringifyReads(v: Json)
    requires WellFormed(v)
    ensures ReadText(Stringify(v)) == Some(Enumerated(v)) && Reordered(v, Enumerated(v))
  {
    EnumeratedMeans(v);
    EnumeratedReorders(v);
    ReadsBack(Enumerated(v), []);
    assert Text(Enumerated(v)) + [] == Text(Enumerated(v));
    hide ReadValue, Text, Enumerated, Reordered;
  }

  /** The canonical text reads back as the sorted value, up to own-key order. */
  lemma CanonicalReads(v: Json)
    requires WellFormed(v)
    ensures ReadText(Canonicalize(v)) == Some(Enumerated(SortValue(v)))
    ensures Reordered(SortValue(v), Enumerated(SortValue(v)))
    ensures KeysAscend(SortValue(v)) && Means(SortValue(v)) == Unproto(Means(v))
  {
    SortValueMeans(v);
    SortValueSorted(v);
    StringifyReads(SortValue(v));
    hide ReadText, Stringify, Enumerated, Reordered, SortValue;
  }

  /** Every object's members, at every depth, are strictly ascending by code unit. */
  ghost predicate KeysAscend(v: Json) {
    match v
    case Arr(items) => forall i :: 0 <= i < |items| ==> KeysAscend(items[i])
    case Obj(ms) =>
      (forall i, j :: 0 <= i < j < |ms| ==> Precedes(ms[i].key, ms[j].key))
      && forall i :: 0 <= i < |ms| ==> KeysAscend(ms[i].value)
    case _ => true
  }

  lemma {:induction false} AscendingAt(ms: seq<Member>, i: nat, j: nat)
    requires Ascending(ms) && i < j < |ms|
    ensures Precedes(ms[i].key, ms[j].key)
  {
    if i > 0 {
      AscendingAt(ms[1..], i - 1, j - 1);
    } else {
      assert ms[1..][j - 1] == ms[j];
      PrecedesIff(ms[0].key, ms[j].key);
    }
  }

  lemma {:induction false} InsertedValues(m: Member, ms: seq<Member>)
    ensures forall x :: x in Insert(m, ms, KeyBefore) ==> x == m || x in ms
  {
    if ms != [] && !KeyBefore(m.key, ms[0].key) { InsertedValues(m, ms[1..]); }
  }

  lemma {:induction false} SortedValues(ms: seq<Member>)
    ensures forall x :: x in Sort(ms, KeyBefore) ==> x in ms
  {
    if ms != [] {
      SortedValues(ms[1..]);
      InsertedValues(ms[0], Sort(ms[1..], KeyBefore));
    }
  }

  lemma {:induction false} SortedAscends(v: Json)
    requires WellFormed(v)
    ensures KeysAscend(Sorted(v))
    decreases v, 1
  {
    match v {
      case Arr(items) => forall i | 0 <= i < |items| { SortedAscends(items[i]); }
      case Obj(ms) =>
        var r := Sort(SortedMembers(ms), KeyBefore);
        SortedMembersMean(ms);
        SortAscending(SortedMembers(ms));
        SortedValues(SortedMembers(ms));
        MembersAscend(ms);
        hide Ascending;
        forall i, j | 0 <= i < j < |r| ensures Precedes(r[i].key, r[j].key) { AscendingAt(r, i, j); }
        forall i | 0 <= i < |r| ensures KeysAscend(r[i].value) { assert r[i] in r; }
      case _ =>
    }
  }

  lemma {:induction false} MembersAscend(ms: seq<Member>)
    requires ValuesOk(ms)
    ensures forall x :: x in SortedMembers(ms) ==> KeysAscend(x.value)
    decreases ms, 0
  {
    if ms != [] {
      SortedAscends(ms[0].value);
      MembersAscend(ms[1..]);
    }
  }

  lemma SortValueSorted(v: Json)
    requires WellFormed(v)
    ensures KeysAscend(SortValue(v))
  {
    WithoutProtoOk(v);
    SortedAscends(WithoutProto(v));
  }

  /** JSON.stringify loses nothing but member order. */
  lemma StringifyMeans(v: Json, w: Json)
    requires WellFormed(v) && WellFormed(w) && Stringify(v) == Stringify(w)
    ensures Means(v) == Means(w)
  {
    EnumeratedMeans(v);
    EnumeratedMeans(w);
    assert Text(Enumerated(v)) + [] == Text(Enumerated(w)) + [];
    TextUnique(Enumerated(v), Enumerated(w), [], []);
  }

  /** The sorted value depends on the request alone. */
  lemma SortValueCanonical(v: Json, w: Json)
    requires WellFormed(v) && WellFormed(w) && SameRequest(v, w)
    ensures SortValue(v) == SortValue(w)
  {
    WithoutProtoOk(v);
    WithoutProtoOk(w);
    SameWithoutProto(v, w);
    SortedCanonical(WithoutProto(v), WithoutProto(w));
  }

  /** Same canonical text if and only if equal up to member order at every depth, __proto__ not counted. */
  lemma CanonicalizeIff(v: Json, w: Json)
    requires WellFormed(v) && WellFormed(w)
    ensures Canonicalize(v) == Canonicalize(w) <==> SameRequest(v, w)
  {
    SortValueMeans(v);
    SortValueMeans(w);
    if SameRequest(v, w) {
      SortValueCanonical(v, w);
    }
    if Canonicalize(v) == Canonicalize(w) {
      StringifyMeans(SortValue(v), SortValue(w));
    }
  }

  /** Without __proto__ members, two requests are the same exactly when they mean the same value. */
  lemma PlainRequests(v: Json, w: Json)
    requires ProtoFree(v) && ProtoFree(w)
    ensures SameRequest(v, w) <==> Means(v) == Means(w)
  {
    WithoutProtoFixed(v);
    WithoutProtoFixed(w);
    SameWithoutProto(v, w);
  }

  /** With them the hash can miss a difference. */
  lemma ProtoGoesUnseen(x: Json)
    requires WellFormed(x)
    ensures var v, w := Obj([Member(PROTO, x)]), Obj([]);
            WellFormed(v) && WellFormed(w) && Means(v) != Means(w) && Canonicalize(v) == Canonicalize(w)
  {
    var v, w := Obj([Member(PROTO, x)]), Obj([]);
    assert MembersWithoutProto([Member(PROTO, x)]) == [];
    SameWithoutProto(v, w);
    CanonicalizeIff(v, w);
    LookupFields([Member(PROTO, x)], PROTO);
    LookupFields([], PROTO);
  }

  lemma SortValueIdempotent(v: Json)
    requires WellFormed(v)
    ensures SortValue(SortValue(v)) == SortValue(v)
  {
    var a := WithoutProto(v);
    WithoutProtoOk(v);
    SortedMeans(a);
    WithoutProtoTwice(v);
    SortedProtoFree(a);
    WithoutProtoFixed(Sorted(a));
    SortedCanonical(Sorted(a), a);
  }

  lemma {:induction false} WithoutProtoTwice(v: Json)
    ensures ProtoFree(WithoutProto(v))
    decreases v, 1
  {
    match v {
      case Arr(items) => forall i | 0 <= i < |items| { WithoutProtoTwice(items[i]); }
      case Obj(ms) => MembersWithoutProtoTwice(ms);
      case _ =>
    }
  }

  lemma {:induction false} MembersWithoutProtoTwice(ms: seq<Member>)
    ensures ProtoFree(Obj(MembersWithoutProto(ms)))
    decreases ms, 0
  {
    if ms != [] {
      MembersWithoutProtoTwice(ms[1..]);
      WithoutProtoTwice(ms[0].value);
    }
  }

  lemma {:induction false} SortedProtoFree(v: Json)
    requires ProtoFree(v)
    ensures ProtoFree(Sorted(v))
    decreases v, 1
  {
    match v {
      case Arr(items) => forall i | 0 <= i < |items| { SortedProtoFree(items[i]); }
      case Obj(ms) =>
        SortedMembersProtoFree(ms);
        SortProtoFree(SortedMembers(ms));
      case _ =>
    }
  }

  lemma {:induction false} SortedMembersProtoFree(ms: seq<Member>)
    requires ProtoFree(Obj(ms))
    ensures ProtoFree(Obj(SortedMembers(ms)))
    decreases ms, 0
  {
    if ms != [] {
      assert ProtoFree(Obj(ms[1..])) by {
        forall i | 0 <= i < |ms[1..]| ensures ms[1..][i].key != PROTO && ProtoFree(ms[1..][i].value) {
          assert ms[1..][i] == ms[i + 1];
        }
      }
      SortedMembersProtoFree(ms[1..]);
      SortedProtoFree(ms[0].value);
    }
  }

  lemma {:induction false} SortProtoFree(ms: seq<Member>)
    requires ProtoFree(Obj(ms))
    ensures ProtoFree(Obj(Sort(ms, KeyBefore)))
  {
    if ms != [] {
      assert ProtoFree(Obj(ms[1..])) by {
        forall i | 0 <= i < |ms[1..]| ensures ms[1..][i].key != PROTO && ProtoFree(ms[1..][i].value) {
          assert ms[1..][i] == ms[i + 1];
        }
      }
      SortProtoFree(ms[1..]);
      InsertProtoFree(ms[0], Sort(ms[1..], KeyBefore));
    }
  }

  lemma {:induction false} InsertProtoFree(m: Member, ms: seq<Member>)
    requires m.key != PROTO && ProtoFree(m.value) && ProtoFree(Obj(ms))
    ensures ProtoFree(Obj(Insert(m, ms, KeyBefore)))
  {
    if ms != [] && !KeyBefore(m.key, ms[0].key) {
      assert ProtoFree(Obj(ms[1..])) by {
        forall i | 0 <= i < |ms[1..]| ensures ms[1..][i].key != PROTO && ProtoFree(ms[1..][i].value) {
          assert ms[1..][i] == ms[i + 1];
        }
      }
      InsertProtoFree(m, ms[1..]);
    }
  }

  ghost predicate Injective(digest: JString -> JString) {
    forall s, t :: digest(s) == digest(t) ==> s == t
  }

  /** With a collision-free digest the request hash decides sameness of requests exactly. */
  lemma RequestHashIff(digest: JString -> JString, v: Json, w: Json)
    requires Injective(digest) && WellFormed(v) && WellFormed(w)
    ensures CreateRequestHash(digest, v) == CreateRequestHash(digest, w) <==> SameRequest(v, w)
  {
    CanonicalizeIff(v, w);
  }
}
