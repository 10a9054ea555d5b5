/**
 * The decision a worker takes on the sanitized payload is the decision the raw request calls for,
 * although the PIN and the card number are gone by then.
 */
module Outcome {
  import opened Wrappers
  import opened Amounts
  import opened Json
  import opened MemberOrder
  import opened Sensitive
  import opened Payments
  import opened Decisions

  /** Number(v) is a number, and of a number that number. */
  ghost predicate HostOk(host: Host) {
    (forall n :: NumberOk(n) ==> host.number(Num(n)) == Some(n))
    && forall v :: host.number(v).Some? ==> NumberOk(host.number(v).value)
  }

  /** What the raw body calls for, as a table over its own fields; a is Number(body.amount). */
  function RawDecision(limits: Limits, body: Json, a: real): Decision {
    if a == 999.0 then Failed("Simulated processor failure")
    else if Get(body, ISSUER_TYPE) == INTERNAL then
      if Get(body, TYPE) == BALANCE_INQUIRY then
        Completed(RouteInternal, SystemResult("BALANCE_SYSTEM", None, Some(limits.inquiryBalance)))
      else if Get(body, PIN) != TEST_PIN then Declined(Some(RouteInternal), "Invalid PIN")
      else if Get(body, TYPE) == REVERSAL then
        Completed(RouteInternal, SystemResult("REVERSAL_SYSTEM", Some("Previous transaction reversed"), None))
      else if a > limits.defaultBalance then Declined(Some(RouteInternal), "Insufficient funds")
      else if Get(body, TYPE) == CASH_WITHDRAWAL then
        Completed(RouteInternal, SystemResult("ATM_CASH_SYSTEM", Some("Cash withdrawal approved"), None))
      else Completed(RouteInternal, SystemResult("PURCHASE_SYSTEM", Some("Purchase approved"), None))
    else if Get(body, NETWORK) == EXTERNAL_PROCESSOR then
      Completed(RouteExternalProcessor,
                SystemResult("EXTERNAL_PROCESSOR", Some("Processed by external issuer processor"), None))
    else
      Completed(RouteCardNetwork, SystemResult("CARD_NETWORK", Some("Routed through card network to issuer"), None))
  }

  /* ---- lookups through the record ---- */

  lemma {:induction false} LookupSpread(ms: seq<Member>, o: seq<Member>, k: JString)
    requires DistinctKeys(o)
    ensures Lookup(Spread(ms, o), k) == if Lookup(o, k).Some? then Lookup(o, k) else Lookup(ms, k)
    decreases |o|
  {
    if o != [] {
      DistinctHead(o);
      LookupSpread(Put(ms, o[0].key, o[0].value), o[1..], k);
      LookupPut(ms, o[0].key, o[0].value, k);
    }
  }

  lemma {:induction false} PutDistinct(ms: seq<Member>, k: JString, x: Json)
    requires DistinctKeys(ms)
    ensures DistinctKeys(Put(ms, k, x))
  {
    if ms == [] {
    } else if ms[0].key == k {
      assert forall i :: 0 <= i < |ms| ==> Put(ms, k, x)[i].key == ms[i].key;
    } else {
      DistinctHead(ms);
      PutDistinct(ms[1..], k, x);
      LookupPut(ms[1..], k, x, ms[0].key);
      DistinctCons(ms[0], Put(ms[1..], k, x));
    }
  }

  /** Length and first code unit tell the property names apart. */
  predicate Named(k: JString, size: nat, first: int) { |k| == size && size > 0 && k[0] == first }

  lemma Names()
    ensures Named(TYPE, 4, 116) && Named(AMOUNT, 6, 97) && Named(ISSUER_TYPE, 10, 105)
    ensures Named(NETWORK, 7, 110) && Named(PIN_VERIFIED, 11, 112)
    ensures Named(ID, 2, 105) && Named(CLIENT_ID, 8, 99) && Named(IDEMPOTENCY_KEY, 14, 105)
    ensures Named(REQUEST_HASH, 11, 114) && Named(STATUS, 6, 115) && Named(RETRY_COUNT, 10, 114)
    ensures Named(CREATED_AT, 9, 99) && Named(UPDATED_AT, 9, 117) && Named(PROCESSING_TIMELINE, 18, 112)
    ensures Named(PIN, 3, 112) && Named(CARD_NUMBER, 10, 99) && Named(CARD_NUMBER_SNAKE, 11, 99)
    ensures Named(CARD_LAST4, 9, 99) && Named(CARD_LAST4_SNAKE, 10, 99)
    ensures Named(CARD_FINGERPRINT, 15, 99) && Named(CARD_FINGERPRINT_SNAKE, 16, 99)
    ensures Named(CHANNEL, 7, 99) && Named(PROTO, 9, 95)
  {
  }

  predicate DecisionKey(k: JString) { k == TYPE || k == AMOUNT || k == ISSUER_TYPE || k == NETWORK }

  lemma DecisionKeyPlain(k: JString)
    requires DecisionKey(k) || k == PIN_VERIFIED
    ensures !RemovedKey(k) && !DerivedKey(k)
  {
    Names();
  }

  /** The record carries the body's own type, amount, issuer and network. */
  lemma FullField(r: Request, txn: Json, k: JString)
    requires txn.Obj? && DistinctKeys(txn.members) && DecisionKey(k)
    ensures Get(FullTransaction(r, txn), k) == Get(txn, k)
  {
    Names();
    var pre, post := Preamble(r), Trailer(r, PinVerified(txn));
    LookupNone(pre, k);
    LookupNone(post, k);
    TrailerDistinct(r, PinVerified(txn));
    LookupSpread(Spread(pre, txn.members), post, k);
    LookupSpread(pre, txn.members, k);
  }

  lemma TrailerDistinct(r: Request, v: bool)
    ensures DistinctKeys(Trailer(r, v))
    ensures Lookup(Trailer(r, v), PIN_VERIFIED) == Some(Bool(v))
  {
    Names();
  }

  lemma FullPinVerified(r: Request, txn: Json)
    requires txn.Obj? && DistinctKeys(txn.members)
    ensures Get(FullTransaction(r, txn), PIN_VERIFIED) == Some(Bool(PinVerified(txn)))
  {
    TrailerDistinct(r, PinVerified(txn));
    LookupSpread(Spread(Preamble(r), txn.members), Trailer(r, PinVerified(txn)), PIN_VERIFIED);
  }

  /** A scalar property survives sanitizing. */
  lemma StoredField(host: Host, v: Json, k: JString)
    requires v.Obj? && !RemovedKey(k) && !DerivedKey(k)
    ensures Get(SanitizePayload(host, v), k)
            == match Get(v, k) case None => None case Some(x) => Some(Remove(x))
  {
    SanitizedProperty(host, v, k);
  }

  lemma ValidFields(host: Host, limits: Limits, body: Json)
    requires Validate(host, limits, body).Valid?
    requires body.Obj? && DistinctKeys(body.members)
    ensures var txn := Validate(host, limits, body).transaction;
            txn.Obj? && DistinctKeys(txn.members)
            && Get(txn, AMOUNT) == Some(Num(host.number(Get(body, AMOUNT).value).value))
            && forall k :: k != AMOUNT ==> Get(txn, k) == Get(body, k)
  {
    Names();
    var n := Num(host.number(Get(body, AMOUNT).value).value);
    var a := Put(body.members, AMOUNT, n);
    PutDistinct(body.members, AMOUNT, n);
    PutDistinct(a, TYPE, Get(body, TYPE).value);
    forall k ensures Lookup(Put(a, TYPE, Get(body, TYPE).value), k)
                     == if k == AMOUNT then Some(n) else Lookup(body.members, k) {
      LookupPut(a, TYPE, Get(body, TYPE).value, k);
      LookupPut(body.members, AMOUNT, n, k);
    }
  }

  lemma MissingEverything(body: Json)
    ensures !body.Obj? ==> MissingFrom(body, REQUIRED_FIELDS) != []
  {
    if !body.Obj? { assert Missing(body, REQUIRED_FIELDS[0]); }
  }

  /** The decision depends on five properties only. */
  lemma DecideOnFields(host: Host, limits: Limits, v: Json, w: Json)
    requires forall k :: DecisionKey(k) || k == PIN_VERIFIED ==> Get(v, k) == Get(w, k)
    ensures Decide(host, limits, v) == Decide(host, limits, w)
  {
    assert Get(v, TYPE) == Get(w, TYPE) && Get(v, AMOUNT) == Get(w, AMOUNT);
    assert Get(v, ISSUER_TYPE) == Get(w, ISSUER_TYPE) && Get(v, NETWORK) == Get(w, NETWORK);
    assert Get(v, PIN_VERIFIED) == Get(w, PIN_VERIFIED);
    hide Get, DecisionKey;
    SystemsOnFields(host, limits, v, w);
    RoutesOnFields(host, v, w);
    hide HandleInternal, HandleExternal, ProcessTransaction, RouteTransaction;
  }

  lemma RoutesOnFields(host: Host, v: Json, w: Json)
    requires Get(v, TYPE) == Get(w, TYPE) && Get(v, AMOUNT) == Get(w, AMOUNT) && Get(v, NETWORK) == Get(w, NETWORK)
    requires Get(v, ISSUER_TYPE) == Get(w, ISSUER_TYPE)
    ensures ProcessTransaction(host, v) == ProcessTransaction(host, w) && RouteTransaction(v) == RouteTransaction(w)
  {
    hide Get, Numeric, Truthy, Value;
  }

  lemma SystemsOnFields(host: Host, limits: Limits, v: Json, w: Json)
    requires Get(v, TYPE) == Get(w, TYPE) && Get(v, AMOUNT) == Get(w, AMOUNT) && Get(v, NETWORK) == Get(w, NETWORK)
    requires Get(v, PIN_VERIFIED) == Get(w, PIN_VERIFIED)
    ensures HandleInternal(host, limits, v) == HandleInternal(host, limits, w) && HandleExternal(v) == HandleExternal(w)
  {
    hide Get, Numeric;
    assert ValidatePin(v) == ValidatePin(w) && HandleExternal(v) == HandleExternal(w);
    BalanceOnFields(host, limits, v, w);
    hide ValidatePin, ValidateBalance, HandleExternal;
  }

  lemma BalanceOnFields(host: Host, limits: Limits, v: Json, w: Json)
    requires Get(v, TYPE) == Get(w, TYPE) && Get(v, AMOUNT) == Get(w, AMOUNT)
    ensures ValidateBalance(host, limits, v) == ValidateBalance(host, limits, w)
  {
    hide Get, Numeric;
  }

  /** A submitted record is the sanitized full record of the validated body. */
  lemma Submitted(host: Host, limits: Limits, r: Request, body: Json)
    requires Pay(host, limits, r, body).Submit?
    ensures body.Obj? && Validate(host, limits, body).Valid?
    ensures var txn := Validate(host, limits, body).transaction;
            Pay(host, limits, r, body).record == SanitizePayload(host, FullTransaction(r, txn))
  {
    hide SanitizePayload, FullTransaction, EvaluateRisk;
    MissingEverything(body);
  }

  lemma StoredDecisionField(host: Host, r: Request, txn: Json, k: JString)
    requires txn.Obj? && DistinctKeys(txn.members) && DecisionKey(k)
    ensures Get(SanitizePayload(host, FullTransaction(r, txn)), k)
            == match Get(txn, k) case None => None case Some(x) => Some(Remove(x))
  {
    hide SanitizePayload, Spread, Get;
    DecisionKeyPlain(k);
    FullIsObject(r, txn);
    StoredField(host, FullTransaction(r, txn), k);
    FullField(r, txn, k);
  }

  /** Type, issuer and a usable network are strings, so sanitizing leaves them alone. */
  lemma ScalarFields(host: Host, limits: Limits, body: Json)
    requires Validate(host, limits, body).Valid?
    ensures forall k :: (k == TYPE || k == ISSUER_TYPE || k == NETWORK) && Get(body, k).Some?
              ==> Remove(Get(body, k).value) == Get(body, k).value
  {
  }

  /** What the worker reads from the stored record. */
  lemma RecordFields(host: Host, limits: Limits, r: Request, body: Json)
    requires HostOk(host) && WellFormed(body) && Pay(host, limits, r, body).Submit?
    ensures var record := Pay(host, limits, r, body).record;
            && body.Obj? && Get(body, AMOUNT).Some? && host.number(Get(body, AMOUNT).value).Some?
            && Get(record, TYPE) == Get(body, TYPE)
            && Get(record, ISSUER_TYPE) == Get(body, ISSUER_TYPE)
            && Get(record, NETWORK) == Get(body, NETWORK)
            && Get(record, AMOUNT) == Some(Num(host.number(Get(body, AMOUNT).value).value))
            && Get(record, PIN_VERIFIED) == Some(Bool(PinVerified(body)))
  {
    hide FullTransaction, SanitizePayload, EvaluateRisk, Pay, Get, Validate;
    Submitted(host, limits, r, body);
    Admitted(host, limits, r, body);
    ValidFields(host, limits, body);
    ScalarFields(host, limits, body);
    KeysApart();
    var txn := Validate(host, limits, body).transaction;
    StoredDecisionField(host, r, txn, TYPE);
    StoredDecisionField(host, r, txn, AMOUNT);
    StoredDecisionField(host, r, txn, ISSUER_TYPE);
    StoredDecisionField(host, r, txn, NETWORK);
    FullIsObject(r, txn);
    DecisionKeyPlain(PIN_VERIFIED);
    StoredField(host, FullTransaction(r, txn), PIN_VERIFIED);
    FullPinVerified(r, txn);
  }

  lemma KeysApart()
    ensures TYPE != AMOUNT && ISSUER_TYPE != AMOUNT && NETWORK != AMOUNT && PIN != AMOUNT
  {
    Names();
  }

  lemma FullIsObject(r: Request, txn: Json)
    requires txn.Obj?
    ensures FullTransaction(r, txn).Obj?
  {
  }

  /** Which requests reach the queue. */
  lemma Admitted(host: Host, limits: Limits, r: Request, body: Json)
    requires HostOk(host) && WellFormed(body) && Pay(host, limits, r, body).Submit?
    ensures Get(body, AMOUNT).Some? && host.number(Get(body, AMOUNT).value).Some?
    ensures Get(body, TYPE) == BALANCE_INQUIRY || Value(host.number(Get(body, AMOUNT).value).value) > 0.0
    ensures Get(body, ISSUER_TYPE) == INTERNAL
            || (Get(body, ISSUER_TYPE) == EXTERNAL && SupportedNetwork(Get(body, NETWORK)))
    ensures SupportedType(Get(body, TYPE))
  {
    hide SanitizePayload, FullTransaction, EvaluateRisk;
    MissingEverything(body);
  }

  lemma {:induction false} PositiveIsTruthy(n: Number)
    requires Value(n) > 0.0
    ensures n.Finite?
  {
  }

  lemma IssuersDiffer()
    ensures INTERNAL != EXTERNAL && EXTERNAL_PROCESSOR != CARD_NETWORK
    ensures BALANCE_INQUIRY != REVERSAL && BALANCE_INQUIRY != CASH_WITHDRAWAL && REVERSAL != CASH_WITHDRAWAL
  {
    assert Js("INTERNAL")[0] == 73 && Js("EXTERNAL")[0] == 69;
    assert |Js("EXTERNAL_PROCESSOR")| == 18 && |Js("CARD_NETWORK")| == 12;
    assert |Js("BALANCE_INQUIRY")| == 15 && |Js("REVERSAL")| == 8;
    assert Js("BALANCE_INQUIRY")[0] == 66 && Js("CASH_WITHDRAWAL")[0] == 67;
  }

  /**
   * For every accepted request, what the worker decides on the stored, sanitized payload (read
   * by any later process, sanitized again) is what the raw body calls for; in particular the
   * branches for a bad amount, an unsupported route and an unsupported network never run.
   */
  lemma OutcomePreserved(host: Host, later: Host, limits: Limits, r: Request, body: Json)
    requires HostOk(host) && HostOk(later) && WellFormed(body) && Pay(host, limits, r, body).Submit?
    ensures var record := Pay(host, limits, r, body).record;
            && SanitizePayload(later, record) == record
            && Get(body, AMOUNT).Some? && host.number(Get(body, AMOUNT).value).Some?
            && Decide(later, limits, record)
               == RawDecision(limits, body, Value(host.number(Get(body, AMOUNT).value).value))
  {
    var record := Pay(host, limits, r, body).record;
    RecordFields(host, limits, r, body);
    Admitted(host, limits, r, body);
    var n := host.number(Get(body, AMOUNT).value).value;
    RecordSanitized(host, later, limits, r, body);
    DecideRecord(later, limits, record, body, n);
  }

  predicate AsksForPin(body: Json) {
    Get(body, Js("issuerType")) == Text("INTERNAL") && Get(body, Js("type")) != Text("BALANCE_INQUIRY")
  }

  predicate WrongPin(body: Json) { Get(body, Js("pin")) != Text("TEST_PIN") }

  predicate TooMuch(limits: Limits, body: Json, n: Number) {
    Get(body, Js("type")) != Text("REVERSAL") && Value(n) > limits.defaultBalance
  }

  /**
   * When the stored record fails, is declined or completes, on the raw body alone; no decline has any
   * other reason.
   */
  lemma OutcomeIff(host: Host, later: Host, limits: Limits, r: Request, body: Json)
    requires HostOk(host) && HostOk(later) && WellFormed(body) && Pay(host, limits, r, body).Submit?
    ensures Get(body, AMOUNT).Some? && host.number(Get(body, AMOUNT).value).Some?
    ensures var d := Decide(later, limits, Pay(host, limits, r, body).record);
            var n := host.number(Get(body, AMOUNT).value).value;
            var fails := n == Finite(false, [9, 9, 9], 3);
            (d.Failed? <==> fails)
            && (d.Declined? <==> !fails && AsksForPin(body) && (WrongPin(body) || TooMuch(limits, body, n)))
            && (d.Declined? ==> d.reason == if WrongPin(body) then "Invalid PIN" else "Insufficient funds")
  {
    OutcomePreserved(host, later, limits, r, body);
    NineHundredNinetyNine(host.number(Get(body, AMOUNT).value).value);
    hide Get, Value, Pay, Decide, HostOk;
  }

  lemma RecordSanitized(host: Host, later: Host, limits: Limits, r: Request, body: Json)
    requires Pay(host, limits, r, body).Submit?
    ensures SanitizePayload(later, Pay(host, limits, r, body).record) == Pay(host, limits, r, body).record
  {
    hide SanitizePayload, FullTransaction, EvaluateRisk;
    SanitizeIdempotent(host, later, FullTransaction(r, Validate(host, limits, body).transaction));
  }

  lemma DecideRecord(host: Host, limits: Limits, record: Json, body: Json, n: Number)
    requires HostOk(host) && NumberOk(n)
    requires Get(record, TYPE) == Get(body, TYPE) && Get(record, ISSUER_TYPE) == Get(body, ISSUER_TYPE)
    requires Get(record, NETWORK) == Get(body, NETWORK) && Get(record, AMOUNT) == Some(Num(n))
    requires Get(record, PIN_VERIFIED) == Some(Bool(PinVerified(body)))
    requires Get(body, TYPE) == BALANCE_INQUIRY || Value(n) > 0.0
    requires Get(body, ISSUER_TYPE) == INTERNAL
             || (Get(body, ISSUER_TYPE) == EXTERNAL && SupportedNetwork(Get(body, NETWORK)))
    ensures Decide(host, limits, record) == RawDecision(limits, body, Value(n))
  {
    hide Get, Value;
    IssuersDiffer();
    if Value(n) > 0.0 { PositiveIsTruthy(n); }
    assert Numeric(host, Get(record, AMOUNT)) == Some(Value(n));
  }

  /**
   * The record is filed under the header's idempotency key, the fresh id and the computed hash
   * exactly when the body, which is spread after them, does not say otherwise.
   */
  lemma RecordIdentity(host: Host, limits: Limits, r: Request, body: Json)
    requires WellFormed(body) && Pay(host, limits, r, body).Submit?
    ensures var record := Pay(host, limits, r, body).record;
            && (Get(record, ID) == Some(Str(r.id))
                <==> Get(body, ID).None? || Remove(Get(body, ID).value) == Str(r.id))
            && (Get(record, IDEMPOTENCY_KEY) == Some(Str(r.idempotencyKey))
                <==> Get(body, IDEMPOTENCY_KEY).None?
                     || Remove(Get(body, IDEMPOTENCY_KEY).value) == Str(r.idempotencyKey))
            && (Get(record, REQUEST_HASH) == Some(Str(r.requestHash))
                <==> Get(body, REQUEST_HASH).None? || Remove(Get(body, REQUEST_HASH).value) == Str(r.requestHash))
  {
    hide FullTransaction, SanitizePayload, EvaluateRisk, Pay, Get, Validate;
    Submitted(host, limits, r, body);
    ValidFields(host, limits, body);
    var txn := Validate(host, limits, body).transaction;
    IdentityField(host, r, txn, ID);
    IdentityField(host, r, txn, IDEMPOTENCY_KEY);
    IdentityField(host, r, txn, REQUEST_HASH);
    IdentityNames(r);
  }

  predicate IdentityKey(k: JString) { k == ID || k == IDEMPOTENCY_KEY || k == REQUEST_HASH }

  lemma IdentityNames(r: Request)
    ensures ID != AMOUNT && IDEMPOTENCY_KEY != AMOUNT && REQUEST_HASH != AMOUNT
    ensures Lookup(Preamble(r), ID) == Some(Str(r.id))
    ensures Lookup(Preamble(r), IDEMPOTENCY_KEY) == Some(Str(r.idempotencyKey))
    ensures Lookup(Preamble(r), REQUEST_HASH) == Some(Str(r.requestHash))
  {
    Names();
    PreambleDistinct(r);
    LookupAt(Preamble(r), 0);
    LookupAt(Preamble(r), 2);
    LookupAt(Preamble(r), 3);
  }

  lemma PreambleDistinct(r: Request)
    ensures DistinctKeys(Preamble(r))
  {
    Names();
  }

  lemma IdentityField(host: Host, r: Request, txn: Json, k: JString)
    requires txn.Obj? && DistinctKeys(txn.members) && IdentityKey(k)
    ensures var found := if Get(txn, k).Some? then Get(txn, k) else Lookup(Preamble(r), k);
            Get(SanitizePayload(host, FullTransaction(r, txn)), k)
            == match found case None => None case Some(x) => Some(Remove(x))
  {
    hide SanitizePayload, Spread;
    Names();
    StoredField(host, FullTransaction(r, txn), k);
    LookupNone(Trailer(r, PinVerified(txn)), k);
    TrailerDistinct(r, PinVerified(txn));
    LookupSpread(Spread(Preamble(r), txn.members), Trailer(r, PinVerified(txn)), k);
    LookupSpread(Preamble(r), txn.members, k);
  }

  /* ---- what the server writes last ---- */

  lemma TrailerFields(r: Request, v: bool)
    ensures DistinctKeys(Trailer(r, v))
    ensures Lookup(Trailer(r, v), STATUS) == Text("ACCEPTED")
    ensures Lookup(Trailer(r, v), RETRY_COUNT) == Some(Num(Zero))
    ensures Lookup(Trailer(r, v), CREATED_AT) == Some(Str(r.now))
    ensures Lookup(Trailer(r, v), UPDATED_AT) == Some(Str(r.now))
    ensures Lookup(Trailer(r, v), PROCESSING_TIMELINE) == Some(Arr([AcceptedMark(r.now)]))
  {
    TrailerDistinct(r, v);
    LookupAt(Trailer(r, v), 1);
    LookupAt(Trailer(r, v), 2);
    LookupAt(Trailer(r, v), 3);
    LookupAt(Trailer(r, v), 4);
    LookupAt(Trailer(r, v), 5);
    hide Lookup, DistinctKeys;
  }

  predicate TrailerKey(k: JString) {
    k == STATUS || k == RETRY_COUNT || k == CREATED_AT || k == UPDATED_AT || k == PROCESSING_TIMELINE
  }

  lemma TrailerKeyPlain(k: JString)
    requires TrailerKey(k)
    ensures !RemovedKey(k) && !DerivedKey(k)
  {
    Names();
    assert CREATED_AT[1] == 114 && CARD_LAST4[1] == 97;
  }

  lemma TrailerField(host: Host, r: Request, txn: Json, k: JString)
    requires txn.Obj? && TrailerKey(k)
    ensures Get(SanitizePayload(host, FullTransaction(r, txn)), k)
            == match Lookup(Trailer(r, PinVerified(txn)), k) case None => None case Some(x) => Some(Remove(x))
  {
    hide SanitizePayload, Spread;
    TrailerKeyPlain(k);
    StoredField(host, FullTransaction(r, txn), k);
    TrailerFields(r, PinVerified(txn));
    LookupSpread(Spread(Preamble(r), txn.members), Trailer(r, PinVerified(txn)), k);
  }

  lemma MarkStays(now: JString)
    ensures Remove(Arr([AcceptedMark(now)])) == Arr([AcceptedMark(now)])
  {
    Names();
    assert |Js("timestamp")| == 9 && Js("timestamp")[0] == 116 && |Js("message")| == 7;
    var ms := AcceptedMark(now).members;
    assert Clean(Obj(ms));
    CleanUnchanged(Arr([AcceptedMark(now)]));
  }

  /** Whatever the body says, the record starts accepted, without retries, at the time of the request. */
  lemma RecordStart(host: Host, limits: Limits, r: Request, body: Json)
    requires Pay(host, limits, r, body).Submit?
    ensures var record := Pay(host, limits, r, body).record;
            && Get(record, STATUS) == Text("ACCEPTED") && Get(record, RETRY_COUNT) == Some(Num(Zero))
            && Get(record, CREATED_AT) == Some(Str(r.now)) && Get(record, UPDATED_AT) == Some(Str(r.now))
            && Get(record, PROCESSING_TIMELINE) == Some(Arr([AcceptedMark(r.now)]))
  {
    Submitted(host, limits, r, body);
    var txn := Validate(host, limits, body).transaction;
    TrailerFields(r, PinVerified(txn));
    TrailerField(host, r, txn, STATUS);
    TrailerField(host, r, txn, RETRY_COUNT);
    TrailerField(host, r, txn, CREATED_AT);
    TrailerField(host, r, txn, UPDATED_AT);
    TrailerField(host, r, txn, PROCESSING_TIMELINE);
    MarkStays(r.now);
    hide FullTransaction, SanitizePayload, EvaluateRisk, Pay, Get, Validate, Trailer, AcceptedMark;
  }

  /** A property that the server neither writes nor removes. */
  predicate BodyKey(k: JString) {
    k != ID && k != CLIENT_ID && k != IDEMPOTENCY_KEY && k != REQUEST_HASH && k != PIN_VERIFIED && !TrailerKey(k)
    && k != AMOUNT && !Forbidden(k) && !DerivedKey(k)
  }

  lemma BodyField(host: Host, r: Request, txn: Json, k: JString)
    requires txn.Obj? && DistinctKeys(txn.members) && BodyKey(k)
    ensures Get(SanitizePayload(host, FullTransaction(r, txn)), k)
            == match Get(txn, k) case None => None case Some(x) => Some(Remove(x))
  {
    hide SanitizePayload, Spread, Remove;
    StoredField(host, FullTransaction(r, txn), k);
    LookupNone(Preamble(r), k);
    LookupNone(Trailer(r, PinVerified(txn)), k);
    TrailerDistinct(r, PinVerified(txn));
    LookupSpread(Spread(Preamble(r), txn.members), Trailer(r, PinVerified(txn)), k);
    LookupSpread(Preamble(r), txn.members, k);
  }

  /** Every other property of the body is in the record, cleaned. */
  lemma RecordRest(host: Host, limits: Limits, r: Request, body: Json, k: JString)
    requires WellFormed(body) && Pay(host, limits, r, body).Submit? && BodyKey(k)
    ensures Get(Pay(host, limits, r, body).record, k)
            == match Get(body, k) case None => None case Some(x) => Some(Remove(x))
  {
    hide FullTransaction, SanitizePayload, EvaluateRisk, Pay, Get, Validate, Remove;
    Submitted(host, limits, r, body);
    ValidFields(host, limits, body);
    BodyField(host, r, Validate(host, limits, body).transaction, k);
  }

  /* ---- any record at all ---- */

  /** No amount, or one that is not above zero, where one is asked for. */
  predicate BadAmount(host: Host, v: Json) {
    Get(v, Js("type")) != Text("BALANCE_INQUIRY")
    && (Falsy(Get(v, Js("amount"))) || AtMost(host, Get(v, Js("amount")), 0.0))
  }

  predicate Is999(v: Json) { Get(v, Js("amount")) == Some(Num(Finite(false, [9, 9, 9], 3))) }

  predicate Internal(v: Json) { Get(v, Js("issuerType")) == Text("INTERNAL") }

  /** The route of a record that is not internal. */
  function ExternalRoute(v: Json): Route {
    if Get(v, Js("network")) == Text("EXTERNAL_PROCESSOR") then RouteExternalProcessor
    else if Get(v, Js("network")) == Text("CARD_NETWORK") then RouteCardNetwork
    else if Get(v, Js("issuerType")) == Text("EXTERNAL") then RouteExternal
    else RouteUnknown
  }

  lemma RawAmount(v: Json)
    requires WellFormed(v)
    ensures Get(v, AMOUNT).Some? && Get(v, AMOUNT).value.Num? ==> NumberOk(Get(v, AMOUNT).value.n)
  {
    if v.Obj? && Lookup(v.members, AMOUNT).Some? { LookupOk(v.members, AMOUNT); }
  }

  lemma AmountTest(v: Json)
    requires WellFormed(v)
    ensures Get(v, AMOUNT).Some? && Get(v, AMOUNT).value.Num? && Value(Get(v, AMOUNT).value.n) == 999.0 <==> Is999(v)
  {
    RawAmount(v);
    if Get(v, AMOUNT).Some? && Get(v, AMOUNT).value.Num? { NineHundredNinetyNine(Get(v, AMOUNT).value.n); }
    NineHundredNinetyNine(Finite(false, [9, 9, 9], 3));
    hide Get, Value;
  }

  /** What is decided about any record, accepted or not, before and by the external systems. */
  lemma AnyRecord(host: Host, limits: Limits, v: Json)
    requires WellFormed(v)
    ensures var d := Decide(host, limits, v);
            (BadAmount(host, v) ==> d == Declined(None, "Invalid amount"))
            && (!BadAmount(host, v) && Is999(v) ==> d == Failed("Simulated processor failure"))
            && (!BadAmount(host, v) && !Is999(v) && !Internal(v) ==> d == ExternalOutcome(v))
  {
    AmountTest(v);
    FalsyIff(Get(v, AMOUNT));
    IssuersDiffer();
    hide Get, Value, AtMost, Falsy, Truthy, Is999, HandleInternal;
  }

  /** The card systems complete what is theirs; anything else is declined. */
  function ExternalOutcome(v: Json): Decision {
    match ExternalRoute(v)
    case RouteExternalProcessor =>
      Completed(RouteExternalProcessor,
                SystemResult("EXTERNAL_PROCESSOR", Some("Processed by external issuer processor"), None))
    case RouteCardNetwork =>
      Completed(RouteCardNetwork, SystemResult("CARD_NETWORK", Some("Routed through card network to issuer"), None))
    case route => Declined(Some(route), "Unsupported route")
  }

  /** What is decided about any internal record. */
  lemma AnyInternalRecord(host: Host, limits: Limits, v: Json)
    requires WellFormed(v) && Internal(v) && !BadAmount(host, v) && !Is999(v)
    ensures var d, kind := Decide(host, limits, v), Get(v, TYPE);
            if kind == BALANCE_INQUIRY then
              d == Completed(RouteInternal, SystemResult("BALANCE_SYSTEM", None, Some(limits.inquiryBalance)))
            else if Get(v, PIN_VERIFIED) != Some(Bool(true)) then d == Declined(Some(RouteInternal), "Invalid PIN")
            else if kind == REVERSAL then
              d == Completed(RouteInternal,
                             SystemResult("REVERSAL_SYSTEM", Some("Previous transaction reversed"), None))
            else if Above(host, Get(v, AMOUNT), limits.defaultBalance) then
              d == Declined(Some(RouteInternal), "Insufficient funds")
            else if kind == CASH_WITHDRAWAL then
              d == Completed(RouteInternal, SystemResult("ATM_CASH_SYSTEM", Some("Cash withdrawal approved"), None))
            else d == Completed(RouteInternal, SystemResult("PURCHASE_SYSTEM", Some("Purchase approved"), None))
  {
    AmountTest(v);
    FalsyIff(Get(v, AMOUNT));
    IssuersDiffer();
    hide Get, Value, AtMost, Above, Falsy, Truthy, Is999;
  }
}
