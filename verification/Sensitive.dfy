/**
 * utils/sensitiveData.js: removing card and PIN fields from JSON values of any depth.
 *
 * Objects list their members in creation order.  Array-index keys have no creation order of their
 * own, so walking the members as listed builds the same object as Object.entries does.
 */
module Sensitive {
  import opened Wrappers
  import opened Json
  import opened MemberOrder

  /** What the JavaScript host supplies: String(v), Number(v) when finite, and the card HMAC. */
  datatype Host = Host(text: Json -> JString, number: Json -> Option<Number>, hmac: JString -> JString)

  const PIN: JString := Js("pin")
  const CARD_NUMBER: JString := Js("cardNumber")
  const CARD_NUMBER_SNAKE: JString := Js("card_number")
  const CARD_LAST4: JString := Js("cardLast4")
  const CARD_LAST4_SNAKE: JString := Js("card_last4")
  const CARD_FINGERPRINT: JString := Js("cardFingerprint")
  const CARD_FINGERPRINT_SNAKE: JString := Js("card_fingerprint")

  predicate SensitiveKey(k: JString) { k == PIN || k == CARD_NUMBER || k == CARD_NUMBER_SNAKE }

  /** Assigning to __proto__ sets the prototype, so such a member does not come out either. */
  predicate RemovedKey(k: JString) { SensitiveKey(k) || k == PROTO }

  predicate DerivedKey(k: JString) {
    k == CARD_LAST4 || k == CARD_LAST4_SNAKE || k == CARD_FINGERPRINT || k == CARD_FINGERPRINT_SNAKE
  }

  lemma DerivedNotRemoved(k: JString)
    requires DerivedKey(k)
    ensures !RemovedKey(k)
  {
    if |k| == |CARD_LAST4_SNAKE| { assert k == CARD_LAST4_SNAKE; }
    assert CARD_LAST4_SNAKE[4] == 95 && CARD_NUMBER[4] == 78;
    assert PROTO[0] == 95 && CARD_LAST4[0] == 99;
  }

  predicate Truthy(v: Option<Json>) {
    match v
    case None => false
    case Some(Null) => false
    case Some(Bool(b)) => b
    case Some(Num(n)) => n.Finite?
    case Some(Str(s)) => s != []
    case Some(_) => true
  }

  /** What JavaScript takes for false. */
  predicate Falsy(v: Option<Json>) {
    v == None || v == Some(Null) || v == Some(Bool(false)) || v == Some(Num(Zero)) || v == Some(Str([]))
  }

  lemma FalsyIff(v: Option<Json>)
    ensures Truthy(v) <==> !Falsy(v)
  {
  }

  /* ---- removeSensitiveFields ---- */

  function Remove(v: Json): Json {
    match v
    case Arr(items) => Arr(seq(|items|, i requires 0 <= i < |items| => Remove(items[i])))
    case Obj(ms) => Obj(RemoveMembers(ms))
    case _ => v
  }

  function RemoveMembers(ms: seq<Member>): seq<Member>
    decreases ms
  {
    if ms == [] then []
    else (if RemovedKey(ms[0].key) then [] else [Member(ms[0].key, Remove(ms[0].value))])
         + RemoveMembers(ms[1..])
  }

  lemma {:induction false} RemoveMembersSnoc(ms: seq<Member>, m: Member)
    ensures RemoveMembers(ms + [m])
            == RemoveMembers(ms) + if RemovedKey(m.key) then [] else [Member(m.key, Remove(m.value))]
  {
    if ms == [] {
      assert [] + [m] == [m] && [m][1..] == [];
    } else {
      RemoveMembersSnoc(ms[1..], m);
      assert (ms + [m])[1..] == ms[1..] + [m];
    }
  }

  /** The recursive walk as the program does it: a fresh object or array filled entry by entry. */
  method RemoveSensitiveFields(v: Json) returns (r: Json)
    ensures r == Remove(v)
    decreases v
  {
    if v.Arr? {
      var mapped: seq<Json> := [];
      for i := 0 to |v.items|
        invariant |mapped| == i
        invariant forall j :: 0 <= j < i ==> mapped[j] == Remove(v.items[j])
      {
        var item := RemoveSensitiveFields(v.items[i]);
        mapped := mapped + [item];
      }
      return Arr(mapped);
    }
    if !v.Obj? {
      return v;
    }
    var sanitized: seq<Member> := [];
    for i := 0 to |v.members|
      invariant sanitized == RemoveMembers(v.members[..i])
    {
      var entry := v.members[i];
      RemoveMembersSnoc(v.members[..i], entry);
      assert v.members[..i] + [entry] == v.members[..i + 1];
      if SensitiveKey(entry.key) {
        continue;
      }
      var child := RemoveSensitiveFields(entry.value);
      if entry.key != PROTO { sanitized := sanitized + [Member(entry.key, child)]; }
    }
    assert v.members[..|v.members|] == v.members;
    return Obj(sanitized);
  }

  lemma {:induction false} LookupRemoved(ms: seq<Member>, k: JString)
    ensures Lookup(RemoveMembers(ms), k)
            == if RemovedKey(k) then None
               else match Lookup(ms, k) case None => None case Some(x) => Some(Remove(x))
  {
    if ms != [] {
      LookupRemoved(ms[1..], k);
      var m := Member(ms[0].key, Remove(ms[0].value));
      assert ([m] + RemoveMembers(ms[1..]))[1..] == RemoveMembers(ms[1..]);
      assert [] + RemoveMembers(ms[1..]) == RemoveMembers(ms[1..]);
    }
  }

  /** A place inside a value. */
  datatype Hop = Field(k: JString) | Index(i: nat)

  function Child(v: Json, s: Hop): Option<Json> {
    match s
    case Field(k) => Get(v, k)
    case Index(i) => if v.Arr? && i < |v.items| then Some(v.items[i]) else None
  }

  function At(v: Json, path: seq<Hop>): Option<Json>
    decreases |path|
  {
    if path == [] then Some(v)
    else match Child(v, path[0]) case None => None case Some(x) => At(x, path[1..])
  }

  /** The names that may not be stored, and the one that cannot be. */
  predicate Forbidden(k: JString) {
    k == Js("pin") || k == Js("cardNumber") || k == Js("card_number") || k == Js("__proto__")
  }

  predicate PathRemoved(path: seq<Hop>) {
    exists i :: 0 <= i < |path| && path[i].Field? && Forbidden(path[i].k)
  }

  /**
   * Nothing sits under a sensitive key at any depth, and everything else is where it was.
   */
  lemma {:induction false} RemovedAt(v: Json, path: seq<Hop>)
    ensures At(Remove(v), path)
            == if PathRemoved(path) then None
               else match At(v, path) case None => None case Some(x) => Some(Remove(x))
    decreases |path|
  {
    if path != [] {
      if path[0].Field? && v.Obj? { LookupRemoved(v.members, path[0].k); }
      if Child(v, path[0]).Some? { RemovedAt(Child(v, path[0]).value, path[1..]); }
      assert PathRemoved(path) <==> (path[0].Field? && RemovedKey(path[0].k)) || PathRemoved(path[1..]) by {
        if PathRemoved(path[1..]) {
          var i :| 0 <= i < |path[1..]| && path[1..][i].Field? && Forbidden(path[1..][i].k);
          assert path[i + 1] == path[1..][i];
        }
        if PathRemoved(path) {
          var i :| 0 <= i < |path| && path[i].Field? && Forbidden(path[i].k);
          assert i > 0 ==> path[1..][i - 1] == path[i];
        }
      }
    }
  }

  /** No sensitive key anywhere. */
  predicate Clean(v: Json) {
    match v
    case Arr(items) => forall i :: 0 <= i < |items| ==> Clean(items[i])
    case Obj(ms) => forall i :: 0 <= i < |ms| ==> !Forbidden(ms[i].key) && Clean(ms[i].value)
    case _ => true
  }

  lemma {:induction false} RemoveCleans(v: Json)
    ensures Clean(Remove(v))
    decreases v, 1
  {
    match v {
      case Arr(items) => forall i | 0 <= i < |items| { RemoveCleans(items[i]); }
      case Obj(ms) => RemoveMembersCleans(ms);
      case _ =>
    }
  }

  lemma {:induction false} RemoveMembersCleans(ms: seq<Member>)
    ensures Clean(Obj(RemoveMembers(ms)))
    decreases ms, 0
  {
    if ms != [] {
      RemoveCleans(ms[0].value);
      RemoveMembersCleans(ms[1..]);
    }
  }

  lemma {:induction false} CleanUnchanged(v: Json)
    requires Clean(v)
    ensures Remove(v) == v
    decreases v, 1
  {
    match v {
      case Arr(items) => forall i | 0 <= i < |items| { CleanUnchanged(items[i]); }
      case Obj(ms) => CleanMembersUnchanged(ms);
      case _ =>
    }
  }

  lemma {:induction false} CleanMembersUnchanged(ms: seq<Member>)
    requires Clean(Obj(ms))
    ensures RemoveMembers(ms) == ms
    decreases ms, 0
  {
    if ms != [] {
      CleanUnchanged(ms[0].value);
      CleanMembersUnchanged(ms[1..]);
      assert ms == [ms[0]] + ms[1..];
    }
  }

  /* ---- sanitizeTransactionForPersistence and sanitizePayload ---- */

  /** replace(/\D/g, "") */
  function KeepDigits(s: JString): JString {
    if s == [] then [] else (if 48 <= s[0] < 58 then [s[0]] else []) + KeepDigits(s[1..])
  }

  function OnlyDigits(host: Host, v: Option<Json>): JString {
    if Truthy(v) then KeepDigits(host.text(v.value)) else []
  }

  function CardDigits(host: Host, v: Json): JString {
    OnlyDigits(host, if Truthy(Get(v, CARD_NUMBER)) then Get(v, CARD_NUMBER) else Get(v, CARD_NUMBER_SNAKE))
  }

  /** digits.slice(-4) */
  function LastFour(digits: JString): JString {
    if |digits| <= 4 then digits else digits[|digits| - 4..]
  }

  lemma {:induction false} KeepDigitsJoin(a: JString, b: JString)
    ensures KeepDigits(a + b) == KeepDigits(a) + KeepDigits(b)
  {
    if a == [] {
      assert a + b == b;
    } else {
      KeepDigitsJoin(a[1..], b);
      assert (a + b)[1..] == a[1..] + b;
      var first := if 48 <= a[0] < 58 then [a[0]] else [];
      assert first + (KeepDigits(a[1..]) + KeepDigits(b)) == (first + KeepDigits(a[1..])) + KeepDigits(b);
    }
  }

  /** Of a text, its digits are kept, one by one, and nothing else. */
  lemma KeepDigitsUnit(u: CodeUnit)
    ensures KeepDigits([]) == [] && KeepDigits([u]) == if 48 <= u <= 57 then [u] else []
  {
    assert [u][1..] == [];
  }

  /** The card number is cardNumber unless that is falsy, else card_number. */
  lemma CardDigitsOf(host: Host, v: Json)
    ensures var a, b := Get(v, Js("cardNumber")), Get(v, Js("card_number"));
            CardDigits(host, v)
            == if !Falsy(a) then KeepDigits(host.text(a.value))
               else if !Falsy(b) then KeepDigits(host.text(b.value)) else []
  {
    FalsyIff(Get(v, CARD_NUMBER));
    FalsyIff(Get(v, CARD_NUMBER_SNAKE));
    hide KeepDigits, Falsy, Truthy, Get;
  }

  /** The last four digits, or all if there are fewer. */
  predicate LastOf(last: JString, digits: JString) {
    |last| <= |digits| && digits[|digits| - |last|..] == last && |last| == if |digits| < 4 then |digits| else 4
  }

  function AddCardFields(ms: seq<Member>, last4: JString, fingerprint: JString): seq<Member> {
    var a := Put(ms, CARD_LAST4, Str(last4));
    var b := Put(a, CARD_LAST4_SNAKE, Str(last4));
    var c := Put(b, CARD_FINGERPRINT, Str(fingerprint));
    Put(c, CARD_FINGERPRINT_SNAKE, Str(fingerprint))
  }

  function SanitizePayload(host: Host, v: Json): Json {
    var digits := CardDigits(host, v);
    if v.Obj? && digits != [] then
      Obj(AddCardFields(RemoveMembers(v.members), LastFour(digits), host.hmac(digits)))
    else Remove(v)
  }

  lemma {:induction false} PutClean(ms: seq<Member>, k: JString, x: Json)
    requires Clean(Obj(ms)) && !RemovedKey(k) && Clean(x)
    ensures Clean(Obj(Put(ms, k, x)))
  {
    if ms != [] && ms[0].key != k {
      assert Clean(Obj(ms[1..]));
      PutClean(ms[1..], k, x);
    }
  }

  /** Sanitizing leaves no sensitive key at any depth. */
  lemma SanitizeCleans(host: Host, v: Json)
    ensures Clean(SanitizePayload(host, v))
  {
    RemoveCleans(v);
    var digits := CardDigits(host, v);
    if v.Obj? && digits != [] {
      var last4, mark := Str(LastFour(digits)), Str(host.hmac(digits));
      forall k | DerivedKey(k) ensures !RemovedKey(k) { DerivedNotRemoved(k); }
      var a := RemoveMembers(v.members);
      PutClean(a, CARD_LAST4, last4);
      var b := Put(a, CARD_LAST4, last4);
      PutClean(b, CARD_LAST4_SNAKE, last4);
      var c := Put(b, CARD_LAST4_SNAKE, last4);
      PutClean(c, CARD_FINGERPRINT, mark);
      PutClean(Put(c, CARD_FINGERPRINT, mark), CARD_FINGERPRINT_SNAKE, mark);
    }
  }

  lemma CleanLookup(ms: seq<Member>, k: JString)
    requires Clean(Obj(ms)) && RemovedKey(k)
    ensures Lookup(ms, k).None?
  {
    LookupNone(ms, k);
  }

  lemma CleanIsFixed(host: Host, v: Json)
    requires Clean(v)
    ensures SanitizePayload(host, v) == v
  {
    CleanUnchanged(v);
    if v.Obj? {
      CleanLookup(v.members, CARD_NUMBER);
      CleanLookup(v.members, CARD_NUMBER_SNAKE);
    }
  }

  /**
   * One pass is as good as many: the API, store, outbox, worker and dead-letter passes together
   * give what the first pass gives, whatever host (and so whatever card secret) the later ones use.
   */
  lemma SanitizeIdempotent(host: Host, later: Host, v: Json)
    ensures SanitizePayload(later, SanitizePayload(host, v)) == SanitizePayload(host, v)
  {
    SanitizeCleans(host, v);
    CleanIsFixed(later, SanitizePayload(host, v));
  }

  /** What a property of a sanitized object is. */
  lemma SanitizedProperty(host: Host, v: Json, k: JString)
    requires v.Obj?
    ensures Forbidden(k) ==> Get(SanitizePayload(host, v), k).None?
    ensures !Forbidden(k) && (!DerivedKey(k) || CardDigits(host, v) == []) ==>
              Get(SanitizePayload(host, v), k)
              == match Get(v, k) case None => None case Some(x) => Some(Remove(x))
    ensures (k == Js("cardLast4") || k == Js("card_last4")) && CardDigits(host, v) != [] ==>
              exists last :: LastOf(last, CardDigits(host, v)) && Get(SanitizePayload(host, v), k) == Some(Str(last))
    ensures (k == Js("cardFingerprint") || k == Js("card_fingerprint")) && CardDigits(host, v) != [] ==>
              Get(SanitizePayload(host, v), k) == Some(Str(host.hmac(CardDigits(host, v))))
  {
    SanitizeCleans(host, v);
    LookupRemoved(v.members, k);
    if RemovedKey(k) {
      CleanLookup(SanitizePayload(host, v).members, k);
    }
    var digits := CardDigits(host, v);
    if digits != [] {
      var a := RemoveMembers(v.members);
      var last4, mark := Str(LastFour(digits)), Str(host.hmac(digits));
      var b := Put(a, CARD_LAST4, last4);
      var c := Put(b, CARD_LAST4_SNAKE, last4);
      var d := Put(c, CARD_FINGERPRINT, mark);
      LookupPut(a, CARD_LAST4, last4, k);
      LookupPut(b, CARD_LAST4_SNAKE, last4, k);
      LookupPut(c, CARD_FINGERPRINT, mark, k);
      LookupPut(d, CARD_FINGERPRINT_SNAKE, mark, k);
      assert |CARD_FINGERPRINT| != |CARD_LAST4| && |CARD_FINGERPRINT_SNAKE| != |CARD_LAST4|;
      assert |CARD_FINGERPRINT| != |CARD_LAST4_SNAKE| && |CARD_FINGERPRINT_SNAKE| != |CARD_LAST4_SNAKE|;
      assert LastOf(LastFour(digits), digits);
    }
  }

  /** Through a whole sanitized payload: nothing under a sensitive key, all else but the derived fields as it was. */
  lemma SanitizedAt(host: Host, v: Json, path: seq<Hop>)
    requires path != [] && !(path[0].Field? && DerivedKey(path[0].k))
    ensures At(SanitizePayload(host, v), path)
            == if PathRemoved(path) then None
               else match At(v, path) case None => None case Some(x) => Some(Remove(x))
  {
    RemovedAt(v, path);
    if v.Obj? && path[0].Field? {
      SanitizedProperty(host, v, path[0].k);
      LookupRemoved(v.members, path[0].k);
      assert Child(SanitizePayload(host, v), path[0]) == Child(Remove(v), path[0]);
    }
  }
}
