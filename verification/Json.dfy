/**
 * JSON values as JavaScript holds them.
 *
 * A string is a sequence of UTF-16 code units.  An object is the sequence of its members in
 * property-creation order.
 * A number is held as the sign, digits and decimal point that Number::toString
 * (section 6.1.6.1.20 of ECMA-262) derives from it; negative zero is the number zero.
 */
module Json {
  import opened Wrappers

  type CodeUnit = u: int | 0 <= u < 0x10000
  type JString = seq<CodeUnit>
  type Digit = d: int | 0 <= d < 10

  datatype Number = Zero | Finite(negative: bool, digits: seq<Digit>, point: int)

  datatype Json =
    | Null
    | Bool(b: bool)
    | Num(n: Number)
    | Str(s: JString)
    | Arr(items: seq<Json>)
    | Obj(members: seq<Member>)

  datatype Member = Member(key: JString, value: Json)

  /** What an object means when member order is forgotten: a finite map. */
  datatype Meaning =
    | MNull
    | MBool(b: bool)
    | MNum(n: Number)
    | MStr(s: JString)
    | MArr(items: seq<Meaning>)
    | MObj(fields: map<JString, Meaning>)

  /** An ASCII literal as a JavaScript string. */
  function Js(s: string): (r: JString)
    requires forall i :: 0 <= i < |s| ==> s[i] < 128 as char
    ensures |r| == |s| && forall i :: 0 <= i < |s| ==> r[i] == s[i] as int
  {
    seq(|s|, i requires 0 <= i < |s| => s[i] as int)
  }

  /** The property name whose assignment sets the prototype of the object instead. */
  const PROTO: JString := Js("__proto__")

  /** Non-zero numbers carry their shortest digits: no leading and no trailing zero. */
  predicate NumberOk(n: Number) {
    n.Finite? ==> |n.digits| > 0 && n.digits[0] != 0 && n.digits[|n.digits| - 1] != 0
  }

  predicate DistinctKeys(ms: seq<Member>) {
    forall i, j :: 0 <= i < j < |ms| ==> ms[i].key != ms[j].key
  }

  predicate WellFormed(v: Json) {
    match v
    case Num(n) => NumberOk(n)
    case Arr(items) => forall i :: 0 <= i < |items| ==> WellFormed(items[i])
    case Obj(ms) => DistinctKeys(ms) && forall i :: 0 <= i < |ms| ==> WellFormed(ms[i].value)
    case _ => true
  }

  function Means(v: Json): Meaning {
    match v
    case Null => MNull
    case Bool(b) => MBool(b)
    case Num(n) => MNum(n)
    case Str(s) => MStr(s)
    case Arr(items) => MArr(seq(|items|, i requires 0 <= i < |items| => Means(items[i])))
    case Obj(ms) => MObj(Fields(ms))
  }

  function Fields(ms: seq<Member>): (m: map<JString, Meaning>)
    decreases ms
  {
    if ms == [] then map[] else Fields(ms[1..])[ms[0].key := Means(ms[0].value)]
  }

  /* ---- property access ---- */

  function Lookup(ms: seq<Member>, k: JString): Option<Json> {
    if ms == [] then None else if ms[0].key == k then Some(ms[0].value) else Lookup(ms[1..], k)
  }

  /** `v[k]` for a JSON value; None is JavaScript's undefined. */
  function Get(v: Json, k: JString): Option<Json> {
    if v.Obj? then Lookup(v.members, k) else None
  }

  /** `obj[k] = x`: an existing property keeps its place, a new one is appended. */
  function Put(ms: seq<Member>, k: JString, x: Json): seq<Member> {
    if ms == [] then [Member(k, x)]
    else if ms[0].key == k then [Member(k, x)] + ms[1..]
    else [ms[0]] + Put(ms[1..], k, x)
  }

  lemma {:induction false} LookupPut(ms: seq<Member>, k: JString, x: Json, q: JString)
    ensures Lookup(Put(ms, k, x), q) == if q == k then Some(x) else Lookup(ms, q)
  {
    if ms != [] && ms[0].key != k {
      LookupPut(ms[1..], k, x, q);
      assert Put(ms, k, x)[1..] == Put(ms[1..], k, x);
    } else if ms != [] {
      assert Put(ms, k, x)[1..] == ms[1..];
    }
  }

  /** An existing property keeps its place, a new one comes last. */
  lemma {:induction false} PutPlace(ms: seq<Member>, k: JString, x: Json)
    ensures Lookup(ms, k).None? ==> Put(ms, k, x) == ms + [Member(k, x)]
    ensures Lookup(ms, k).Some? ==>
              |Put(ms, k, x)| == |ms| && forall i :: 0 <= i < |ms| ==> Put(ms, k, x)[i].key == ms[i].key
  {
    if ms != [] && ms[0].key != k {
      PutPlace(ms[1..], k, x);
      assert ms == [ms[0]] + ms[1..];
    }
  }

  lemma {:induction false} LookupFields(ms: seq<Member>, k: JString)
    ensures k in Fields(ms) <==> Lookup(ms, k).Some?
    ensures k in Fields(ms) ==> Fields(ms)[k] == Means(Lookup(ms, k).value)
  {
    if ms != [] { LookupFields(ms[1..], k); }
  }
}
