/**
 * The whole path of a payment: app.js's /pay over the store, and the protocol run with the real
 * sanitizer and the real decision.
 */
module EndToEnd {
  import opened Wrappers
  import A = Amounts
  import opened Json
  import opened MemberOrder
  import opened Sensitive
  import opened Tables
  import opened Invariant
  import H = RequestHash
  import L = Lifecycle
  import O = Outcome
  import G = Reach
  import K = OutboxClaims
  import P = Payments
  import opened Decisions
  import R = Runs
  import S = Store
  import U = Idempotency
  import X = ClaimRefinement
  import opened Protocol

  /** What a JSONB column gives back for what was put in: member order may change, scalars may not. */
  ghost predicate JsonbOk(jsonb: Json -> Json) {
    forall v {:trigger jsonb(v)} ::
      jsonb(jsonb(v)) == jsonb(v)
      && (Clean(v) ==> Clean(jsonb(v)))
      && (v.Obj? && DistinctKeys(v.members) ==>
            forall k :: Scalar(Get(v, k)) ==> Get(jsonb(v), k) == Get(v, k))
  }

  predicate Scalar(v: Option<Json>) { v.Some? ==> !v.value.Arr? && !v.value.Obj? }

  /** The protocol with the code's own sanitizer and decision; payloads are kept in JSONB columns. */
  function Deployed(
      host: Host, limits: P.Limits, jsonb: Json -> Json,
      lease: nat, staleMs: nat, outboxStaleMs: nat, maxRecoveries: nat): Config
  {
    Config(v => jsonb(SanitizePayload(host, v)), v => P.Decide(host, limits, v),
           lease, staleMs, outboxStaleMs, maxRecoveries)
  }

  lemma DeployedOk(
      host: Host, limits: P.Limits, jsonb: Json -> Json,
      lease: nat, staleMs: nat, outboxStaleMs: nat, maxRecoveries: nat)
    requires JsonbOk(jsonb)
    ensures ConfigOk(Deployed(host, limits, jsonb, lease, staleMs, outboxStaleMs, maxRecoveries))
  {
    var c := Deployed(host, limits, jsonb, lease, staleMs, outboxStaleMs, maxRecoveries);
    forall v ensures c.sanitize(c.sanitize(v)) == c.sanitize(v) { StoredFixed(host, jsonb, v); }
  }

  /** What is stored once is a fixed point of sanitizing and storing. */
  lemma StoredFixed(host: Host, jsonb: Json -> Json, v: Json)
    requires JsonbOk(jsonb)
    ensures SanitizePayload(host, jsonb(SanitizePayload(host, v))) == jsonb(SanitizePayload(host, v))
    ensures jsonb(SanitizePayload(host, jsonb(SanitizePayload(host, v)))) == jsonb(SanitizePayload(host, v))
  {
    SanitizeCleans(host, v);
    CleanIsFixed(host, jsonb(SanitizePayload(host, v)));
  }

  /* ---- /pay ---- */

  function TextAt(v: Json, k: JString): JString {
    match Get(v, k)
    case Some(Str(s)) => s
    case _ => []
  }

  function KeyOf(record: Json): Option<Key> {
    if TextAt(record, P.IDEMPOTENCY_KEY) == [] then None else Some(TextAt(record, P.IDEMPOTENCY_KEY))
  }

  /** saveTransactionWithOutbox on a record: the columns are the record's own properties. */
  function PayStep(record: Json): Step {
    Pay(TextAt(record, P.ID), KeyOf(record), TextAt(record, P.REQUEST_HASH), record)
  }

  /** The request as the handler completes it: with the hash of the body. */
  function Received(digest: JString -> JString, r: P.Request, body: Json): P.Request
    requires WellFormed(body)
  {
    r.(requestHash := H.CreateRequestHash(digest, body))
  }

  datatype Response =
    | BadRequest | RiskRefused | UnderReview
    | AcceptedPayment(id: JString) | DuplicateOf(id: JString, status: Option<TxStatus>) | KeyConflict | ServerError

  class Api {
    const store: S.Database

    constructor (store: S.Database)
      ensures this.store == store
    {
      this.store := store;
    }

    /**
     * The handler for a parsed body: hash, checks, then one save; all it stores is one protocol step.
     * The hash that r comes with is not looked at.
     */
    method PostPay(
        host: Host, limits: P.Limits, digest: JString -> JString, c: Config, r: P.Request, body: Json, ghost s: World)
        returns (answer: Response)
      requires WellFormed(body) && store.Valid() && s.db == store.Contents()
      modifies store
      ensures store.Valid()
      ensures store.Contents()
              == match P.Pay(host, limits, Received(digest, r, body), body)
                 case Submit(record) => Apply(c, s, PayStep(record)).db
                 case _ => s.db
      ensures match P.Pay(host, limits, Received(digest, r, body), body)
              case MissingIdempotencyKey => answer == BadRequest
              case Refused(_) => answer == BadRequest
              case RiskRejected => answer == RiskRefused
              case ManualReview => answer == UnderReview
              case Submit(record) =>
                var step := PayStep(record);
                match PayAnswer(c, s, step.id, step.key, step.hash, record)
                case Inserted => answer == AcceptedPayment(r.id)
                case Existing(id, conflict) =>
                  if conflict then answer == KeyConflict
                  else answer == DuplicateOf(id, if id in s.db.txs then Some(s.db.txs[id].status) else None)
                case UniqueViolation => answer == ServerError
    {
      hide P.Pay, H.CreateRequestHash, Get, WellFormed;
      var request := Received(digest, r, body);
      match P.Pay(host, limits, request, body) {
        case MissingIdempotencyKey => answer := BadRequest;
        case Refused(_) => answer := BadRequest;
        case RiskRejected => answer := RiskRefused;
        case ManualReview => answer := UnderReview;
        case Submit(record) =>
          var saved := store.SaveTransactionWithOutbox(
            TextAt(record, P.ID), KeyOf(record), TextAt(record, P.REQUEST_HASH), c.sanitize(c.sanitize(record)));
          match saved {
            case Inserted => answer := AcceptedPayment(r.id);
            case Existing(id, conflict) =>
              answer := if conflict then KeyConflict
                        else DuplicateOf(id, if id in store.txs then Some(store.txs[id].status) else None);
            case UniqueViolation => answer := ServerError;
          }
      }
    }
  }

  /** The body leaves the record's own identity alone. */
  predicate LeavesIdentity(body: Json) {
    Get(body, Js("id")).None? && Get(body, Js("idempotencyKey")).None? && Get(body, Js("requestHash")).None?
  }

  /** /pay submits the record for the body, which leaves the record's identity alone. */
  predicate Submits(host: Host, limits: P.Limits, digest: JString -> JString, r: P.Request, body: Json, record: Json) {
    WellFormed(body) && LeavesIdentity(body) && P.Pay(host, limits, Received(digest, r, body), body) == P.Submit(record)
  }

  /** Such a body is filed under the fresh id, the header's key and its own hash. */
  lemma FiledUnderHeader(
      host: Host, limits: P.Limits, digest: JString -> JString, r: P.Request, body: Json, record: Json)
    requires Submits(host, limits, digest, r, body, record)
    ensures PayStep(record) == Pay(r.id, Some(r.idempotencyKey), H.CreateRequestHash(digest, body), record)
  {
    FiledAs(host, limits, Received(digest, r, body), body);
    hide H.CreateRequestHash, P.Pay;
  }

  lemma FiledAs(host: Host, limits: P.Limits, r: P.Request, body: Json)
    requires WellFormed(body) && LeavesIdentity(body) && P.Pay(host, limits, r, body).Submit?
    ensures var record := P.Pay(host, limits, r, body).record;
            PayStep(record) == Pay(r.id, Some(r.idempotencyKey), r.requestHash, record)
  {
    O.RecordIdentity(host, limits, r, body);
    hide P.Pay, Get, WellFormed, Remove;
  }

  /* ---- the stored record decides like the request ---- */

  lemma {:induction false} RemoveDistinct(ms: seq<Member>)
    requires DistinctKeys(ms)
    ensures DistinctKeys(RemoveMembers(ms))
  {
    if ms != [] {
      DistinctHead(ms);
      RemoveDistinct(ms[1..]);
      if !RemovedKey(ms[0].key) {
        LookupRemoved(ms[1..], ms[0].key);
        DistinctCons(Member(ms[0].key, Remove(ms[0].value)), RemoveMembers(ms[1..]));
      }
    }
  }

  lemma {:induction false} SpreadDistinct(ms: seq<Member>, o: seq<Member>)
    requires DistinctKeys(ms)
    ensures DistinctKeys(P.Spread(ms, o))
    decreases |o|
  {
    if o != [] {
      O.PutDistinct(ms, o[0].key, o[0].value);
      SpreadDistinct(Put(ms, o[0].key, o[0].value), o[1..]);
    }
  }

  lemma RecordDistinct(host: Host, limits: P.Limits, r: P.Request, body: Json)
    requires P.Pay(host, limits, r, body).Submit?
    ensures var record := P.Pay(host, limits, r, body).record; record.Obj? && DistinctKeys(record.members)
  {
    O.Submitted(host, limits, r, body);
    var txn := P.Validate(host, limits, body).transaction;
    O.PreambleDistinct(r);
    SpreadDistinct(P.Preamble(r), txn.members);
    SpreadDistinct(P.Spread(P.Preamble(r), txn.members), P.Trailer(r, P.PinVerified(txn)));
    SanitizedDistinct(host, P.FullTransaction(r, txn));
  }

  lemma SanitizedDistinct(host: Host, v: Json)
    requires v.Obj? && DistinctKeys(v.members)
    ensures var w := SanitizePayload(host, v); w.Obj? && DistinctKeys(w.members)
  {
    var digits := CardDigits(host, v);
    RemoveDistinct(v.members);
    if digits != [] {
      var a := RemoveMembers(v.members);
      var last, finger := Str(LastFour(digits)), Str(host.hmac(digits));
      O.PutDistinct(a, CARD_LAST4, last);
      var b := Put(a, CARD_LAST4, last);
      O.PutDistinct(b, CARD_LAST4_SNAKE, last);
      var d := Put(b, CARD_LAST4_SNAKE, last);
      O.PutDistinct(d, CARD_FINGERPRINT, finger);
      O.PutDistinct(Put(d, CARD_FINGERPRINT, finger), CARD_FINGERPRINT_SNAKE, finger);
    }
  }

  lemma NetworkIsScalar(host: Host, limits: P.Limits, body: Json)
    requires P.Validate(host, limits, body).Valid?
    ensures Scalar(Get(body, P.TYPE)) && Scalar(Get(body, P.ISSUER_TYPE)) && Scalar(Get(body, P.NETWORK))
  {
  }

  /** The payload in the JSONB column, sanitized by any process, decides as the raw body calls for. */
  lemma StoredDecides(
      host: Host, later: Host, limits: P.Limits, jsonb: Json -> Json, r: P.Request, body: Json, record: Json)
    requires O.HostOk(host) && O.HostOk(later) && JsonbOk(jsonb) && WellFormed(body)
    requires P.Pay(host, limits, r, body) == P.Submit(record)
    ensures Get(body, P.AMOUNT).Some? && host.number(Get(body, P.AMOUNT).value).Some?
    ensures P.Decide(later, limits, SanitizePayload(later, jsonb(SanitizePayload(host, record))))
            == O.RawDecision(limits, body, A.Value(host.number(Get(body, P.AMOUNT).value).value))
  {
    O.OutcomePreserved(host, host, limits, r, body);
    O.OutcomePreserved(host, later, limits, r, body);
    O.RecordFields(host, limits, r, body);
    O.Submitted(host, limits, r, body);
    NetworkIsScalar(host, limits, body);
    RecordDistinct(host, limits, r, body);
    hide P.Pay, P.Decide, O.RawDecision, SanitizePayload;
    LaterFixed(host, later, jsonb, record);
    O.DecideOnFields(later, limits, jsonb(record), record);
  }

  lemma LaterFixed(host: Host, later: Host, jsonb: Json -> Json, record: Json)
    requires JsonbOk(jsonb) && SanitizePayload(host, record) == record
    ensures SanitizePayload(later, jsonb(record)) == jsonb(record)
  {
    SanitizeCleans(host, record);
    CleanIsFixed(later, jsonb(record));
  }

  /* ---- histories ---- */

  /** What a submitted request's row keeps, in every run: its key, hash and payload. */
  lemma SubmittedRow(c: Config, steps: seq<Step>, i: nat)
    requires ConfigOk(c) && U.FreshIds(steps) && i < |steps| && steps[i].Pay?
    requires U.DeclaredAnswer(steps[..i], steps[i].key, steps[i].hash).Inserted?
    ensures var s, id := After(c, steps), steps[i].id;
            id in s.db.txs && s.db.txs[id].key == steps[i].key && s.db.txs[id].hash == steps[i].hash
            && id in s.db.events && s.db.events[id].payload == c.sanitize(c.sanitize(steps[i].payload))
  {
    var upto, rest := steps[..i + 1], steps[i + 1..];
    var before, after, id := After(c, steps[..i]), After(c, steps[..i + 1]), steps[i].id;
    assert upto[..i] == steps[..i];
    U.FreshId(c, upto);
    U.EveryAnswerDeclared(c, steps, i);
    R.AfterStep(c, steps, i);
    RunKeeps(c, steps[..i]);
    RunKeeps(c, upto);
    assert IdOk(c, before.now, ViewOf(before, id));
    assert upto + rest == steps;
    R.AfterMore(c, Init(), upto, rest);
    R.RunPersists(c, after, rest, id);
  }

  /**
   * End to end.  In every run, with any crashes, stalls, retries and duplicate deliveries, the
   * payment of a submitted body is filed under its key, and once its row is decided, the row shows
   * what the raw body called for, PIN included, although the PIN was never stored.
   */
  lemma PaymentOutcome(
      host: Host, limits: P.Limits, jsonb: Json -> Json,
      lease: nat, staleMs: nat, outboxStaleMs: nat, maxRecoveries: nat,
      digest: JString -> JString, steps: seq<Step>, i: nat, r: P.Request, body: Json, record: Json)
    requires O.HostOk(host) && JsonbOk(jsonb) && Submits(host, limits, digest, r, body, record)
    requires U.FreshIds(steps) && i < |steps| && steps[i] == PayStep(record)
    requires U.FirstUse(steps[..i], r.idempotencyKey).None?
    ensures Get(body, P.AMOUNT).Some? && host.number(Get(body, P.AMOUNT).value).Some?
    ensures var s := After(Deployed(host, limits, jsonb, lease, staleMs, outboxStaleMs, maxRecoveries), steps);
            r.id in s.db.txs && s.db.txs[r.id].key == Some(r.idempotencyKey)
            && s.db.txs[r.id].hash == H.CreateRequestHash(digest, body)
            && (Final(s.db.txs[r.id].status) ==>
                  L.RowOutcome(s.db.txs[r.id])
                  == Some(O.RawDecision(limits, body, A.Value(host.number(Get(body, P.AMOUNT).value).value))))
  {
    var c := Deployed(host, limits, jsonb, lease, staleMs, outboxStaleMs, maxRecoveries);
    DeployedOk(host, limits, jsonb, lease, staleMs, outboxStaleMs, maxRecoveries);
    FiledUnderHeader(host, limits, digest, r, body, record);
    StoredDecides(host, host, limits, jsonb, Received(digest, r, body), body, record);
    StoredFixed(host, jsonb, record);
    hide P.Pay, Submits, H.CreateRequestHash, PayStep, JsonbOk;
    SubmittedRow(c, steps, i);
    if Final(After(c, steps).db.txs[r.id].status) {
      R.DecidedForever(c, steps, [], r.id);
    }
  }

  lemma {:induction false} FirstUseStays(steps: seq<Step>, i: nat, j: nat, k: Key)
    requires i < j <= |steps| && steps[i].Pay? && steps[i].key == Some(k) && U.FirstUse(steps[..i], k).None?
    ensures U.FirstUse(steps[..j], k) == Some(steps[i])
    decreases j
  {
    assert steps[..j][..j - 1] == steps[..j - 1];
    if i + 1 < j { FirstUseStays(steps, i, j - 1, k); }
  }

  /**
   * A retried key, however much happened in between: the first transaction's id, as a duplicate
   * exactly when the two bodies are equal up to member order, and as a conflict otherwise.
   */
  lemma RetriedKey(c: Config, digest: JString -> JString, steps: seq<Step>, i: nat, j: nat, body: Json, again: Json)
    requires ConfigOk(c) && H.Injective(digest) && U.FreshIds(steps) && i < j < |steps|
    requires WellFormed(body) && WellFormed(again) && steps[i].Pay? && steps[j].Pay?
    requires steps[i].key.Some? && steps[j].key == steps[i].key && U.FirstUse(steps[..i], steps[i].key.value).None?
    requires steps[i].hash == H.CreateRequestHash(digest, body) && steps[j].hash == H.CreateRequestHash(digest, again)
    ensures PayAnswer(c, After(c, steps[..j]), steps[j].id, steps[j].key, steps[j].hash, steps[j].payload)
            == Existing(steps[i].id, !H.SameRequest(body, again))
  {
    FirstUseStays(steps, i, j, steps[i].key.value);
    U.EveryAnswerDeclared(c, steps, j);
    H.RequestHashIff(digest, body, again);
  }

  /** For two bodies that /pay submitted under one key, the second after the first. */
  lemma RetriedPayment(
      host: Host, limits: P.Limits, c: Config, digest: JString -> JString, steps: seq<Step>, i: nat, j: nat,
      r: P.Request, body: Json, record: Json, q: P.Request, again: Json, record': Json)
    requires ConfigOk(c) && H.Injective(digest) && U.FreshIds(steps) && i < j < |steps|
    requires Submits(host, limits, digest, r, body, record) && steps[i] == PayStep(record)
    requires Submits(host, limits, digest, q, again, record') && steps[j] == PayStep(record')
    requires r.idempotencyKey == q.idempotencyKey && U.FirstUse(steps[..i], r.idempotencyKey).None?
    ensures PayAnswer(c, After(c, steps[..j]), steps[j].id, steps[j].key, steps[j].hash, steps[j].payload)
            == Existing(r.id, !H.SameRequest(body, again))
  {
    FiledUnderHeader(host, limits, digest, r, body, record);
    FiledUnderHeader(host, limits, digest, q, again, record');
    hide P.Pay, PayStep, Get, LeavesIdentity, WellFormed, H.CreateRequestHash;
    RetriedKey(c, digest, steps, i, j, body, again);
  }

  /**
   * In every reachable state, such a payment can still be brought to what the raw body called for if
   * and only if CanDecide holds of its row, event, job and handlers.
   */
  lemma PaymentReachableIff(
      host: Host, limits: P.Limits, jsonb: Json -> Json,
      lease: nat, staleMs: nat, outboxStaleMs: nat, maxRecoveries: nat,
      c: Config, digest: JString -> JString, steps: seq<Step>, i: nat, r: P.Request, body: Json, record: Json)
    requires c == Deployed(host, limits, jsonb, lease, staleMs, outboxStaleMs, maxRecoveries)
    requires O.HostOk(host) && JsonbOk(jsonb) && Submits(host, limits, digest, r, body, record)
    requires U.FreshIds(steps) && i < |steps| && steps[i] == PayStep(record)
    requires U.FirstUse(steps[..i], r.idempotencyKey).None?
    ensures Get(body, P.AMOUNT).Some? && host.number(Get(body, P.AMOUNT).value).Some?
    ensures var d := O.RawDecision(limits, body, A.Value(host.number(Get(body, P.AMOUNT).value).value));
            (exists more :: ShowsOutcome(After(c, steps + more), r.id, d)) <==> G.CanDecide(c, After(c, steps), r.id)
  {
    DeployedOk(host, limits, jsonb, lease, staleMs, outboxStaleMs, maxRecoveries);
    FiledUnderHeader(host, limits, digest, r, body, record);
    StoredDecides(host, host, limits, jsonb, Received(digest, r, body), body, record);
    StoredFixed(host, jsonb, record);
    hide P.Pay, Submits, H.CreateRequestHash, PayStep, JsonbOk, P.Decide, O.RawDecision;
    SubmittedRow(c, steps, i);
    G.DecisionReachableIff(c, steps, r.id);
    RunKeeps(c, steps);
    var d := O.RawDecision(limits, body, A.Value(host.number(Get(body, P.AMOUNT).value).value));
    forall more ensures ShowsOutcome(After(c, steps + more), r.id, d) <==> L.Decided(After(c, steps + more), r.id) {
      OutcomeLater(c, steps, more, r.id, d);
    }
    hide G.CanDecide, ShowsOutcome, L.Decided;
  }

  predicate ShowsOutcome(s: World, id: Id, d: Decision) {
    id in s.db.txs && L.RowOutcome(s.db.txs[id]) == Some(d)
  }

  lemma OutcomeLater(c: Config, steps: seq<Step>, more: seq<Step>, id: Id, d: Decision)
    requires ConfigOk(c) && id in After(c, steps).db.txs
    requires id in After(c, steps).db.events && c.decide(After(c, steps).db.events[id].payload) == d
    ensures ShowsOutcome(After(c, steps + more), id, d) <==> L.Decided(After(c, steps + more), id)
  {
    RunKeeps(c, steps);
    R.AfterMore(c, Init(), steps, more);
    R.RunPersists(c, After(c, steps), more, id);
    if L.Decided(After(c, steps + more), id) { R.DecidedForever(c, steps + more, [], id); }
    hide Run;
  }

  /* ---- the outbox with its row locks ---- */

  /** A payload as the outbox table holds it: some record, sanitized and stored. */
  ghost predicate Stored(host: Host, jsonb: Json -> Json, v: Json) {
    exists raw :: v == jsonb(SanitizePayload(host, raw))
  }

  /** With the real sanitizer and columns: every run with row locks is a run of the protocol. */
  lemma DeployedLocksRefine(
      host: Host, limits: P.Limits, jsonb: Json -> Json,
      lease: nat, staleMs: nat, outboxStaleMs: nat, maxRecoveries: nat,
      c: Config, steps: seq<K.Step>)
    requires JsonbOk(jsonb) && c == Deployed(host, limits, jsonb, lease, staleMs, outboxStaleMs, maxRecoveries)
    requires forall i :: 0 <= i < |steps| ==> X.LimitOk(steps[i]) && InsertsStored(host, jsonb, steps[i])
    ensures var s0 := K.Init(c.outboxStaleMs, c.maxRecoveries);
            X.Sim(c, K.Run(s0, steps), After(c, X.Images(s0, steps)))
  {
    hide *;
    forall i | 0 <= i < |steps| ensures X.StepOk(c, steps[i]) {
      DeployedStepOk(host, limits, jsonb, lease, staleMs, outboxStaleMs, maxRecoveries, steps[i]);
    }
    X.LocksRefineProtocol(c, steps);
  }

  ghost predicate InsertsStored(host: Host, jsonb: Json -> Json, step: K.Step) {
    step.Insert? ==> Stored(host, jsonb, step.payload)
  }

  lemma DeployedStepOk(
      host: Host, limits: P.Limits, jsonb: Json -> Json,
      lease: nat, staleMs: nat, outboxStaleMs: nat, maxRecoveries: nat,
      step: K.Step)
    requires JsonbOk(jsonb) && X.LimitOk(step) && InsertsStored(host, jsonb, step)
    ensures X.StepOk(Deployed(host, limits, jsonb, lease, staleMs, outboxStaleMs, maxRecoveries), step)
  {
    if step.Insert? { StoredIsFixed(host, jsonb, step.payload); }
    hide JsonbOk, Stored;
  }

  lemma StoredIsFixed(host: Host, jsonb: Json -> Json, v: Json)
    requires JsonbOk(jsonb) && Stored(host, jsonb, v)
    ensures jsonb(SanitizePayload(host, v)) == v
  {
    var raw :| v == jsonb(SanitizePayload(host, raw));
    StoredFixed(host, jsonb, raw);
  }
}
