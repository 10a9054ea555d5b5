/**
 * The pure part of a payment: what /pay accepts, the record it stores, and what a worker decides
 * about a queued payload (app.js, validation, risk, processor, broker and systems).
 */
module Payments {
  import opened Wrappers
  import opened Amounts
  import opened Json
  import opened MemberOrder
  import opened Sensitive
  import opened Decisions

  /* ---- property names and values ---- */

  const ID: JString := Js("id")
  const CLIENT_ID: JString := Js("clientId")
  const IDEMPOTENCY_KEY: JString := Js("idempotencyKey")
  const REQUEST_HASH: JString := Js("requestHash")
  const AMOUNT: JString := Js("amount")
  const TYPE: JString := Js("type")
  const CHANNEL: JString := Js("channel")
  const ISSUER_TYPE: JString := Js("issuerType")
  const NETWORK: JString := Js("network")
  const FROM_ACCOUNT: JString := Js("fromAccount")
  const TO_ACCOUNT: JString := Js("toAccount")
  const PIN_VERIFIED: JString := Js("pinVerified")
  const STATUS: JString := Js("status")
  const RETRY_COUNT: JString := Js("retryCount")
  const CREATED_AT: JString := Js("createdAt")
  const UPDATED_AT: JString := Js("updatedAt")
  const PROCESSING_TIMELINE: JString := Js("processingTimeline")

  function Text(s: string): Option<Json>
    requires forall i :: 0 <= i < |s| ==> s[i] < 128 as char
  {
    Some(Str(Js(s)))
  }

  const BALANCE_INQUIRY := Text("BALANCE_INQUIRY")
  const REVERSAL := Text("REVERSAL")
  const CASH_WITHDRAWAL := Text("CASH_WITHDRAWAL")
  const PURCHASE := Text("PURCHASE")
  const INTERNAL := Text("INTERNAL")
  const EXTERNAL := Text("EXTERNAL")
  const EXTERNAL_PROCESSOR := Text("EXTERNAL_PROCESSOR")
  const CARD_NETWORK := Text("CARD_NETWORK")
  const TEST_PIN := Text("TEST_PIN")
  const DOMESTIC_ATM := Text("DOMESTIC_ATM")
  const INTERNATIONAL_ATM := Text("INTERNATIONAL_ATM")
  const DOMESTIC_POS := Text("DOMESTIC_POS")
  const INTERNATIONAL_POS := Text("INTERNATIONAL_POS")
  const ECOM := Text("ECOM")

  /** The configured limits; the environment may override these three. */
  datatype Limits = Limits(transactionLimit: real, defaultBalance: real, inquiryBalance: real)

  /* ---- amounts ---- */

  /** JavaScript's relational coercion of a property; None stands for NaN. */
  function Numeric(host: Host, v: Option<Json>): Option<real> {
    if v.None? then None
    else match host.number(v.value) case None => None case Some(n) => Some(Value(n))
  }

  predicate Above(host: Host, v: Option<Json>, limit: real) {
    Numeric(host, v).Some? && Numeric(host, v).value > limit
  }

  predicate AtMost(host: Host, v: Option<Json>, limit: real) {
    Numeric(host, v).Some? && Numeric(host, v).value <= limit
  }

  /* ---- validation/validator.js ---- */

  datatype Refusal =
    | MissingFields(fields: seq<JString>) | AmountNotANumber | AmountNotPositive | AmountOverLimit
    | InvalidType | InvalidIssuer | InvalidChannel | NetworkRequired | InvalidNetwork | CardTooShort

  datatype Validation = Valid(transaction: Json) | Invalid(reason: Refusal)

  const REQUIRED_FIELDS: seq<JString> := [AMOUNT, FROM_ACCOUNT, TO_ACCOUNT, TYPE, CHANNEL, ISSUER_TYPE]

  predicate Missing(txn: Json, field: JString) {
    Get(txn, field).None? || Get(txn, field).value.Null? || Get(txn, field).value == Str([])
  }

  function MissingFrom(txn: Json, fields: seq<JString>): seq<JString> {
    if fields == [] then []
    else (if Missing(txn, fields[0]) then [fields[0]] else []) + MissingFrom(txn, fields[1..])
  }

  predicate SupportedType(t: Option<Json>) {
    t == PURCHASE || t == CASH_WITHDRAWAL || t == BALANCE_INQUIRY || t == REVERSAL
  }

  predicate SupportedChannel(c: Option<Json>) {
    c == DOMESTIC_ATM || c == INTERNATIONAL_ATM || c == DOMESTIC_POS || c == INTERNATIONAL_POS || c == ECOM
  }

  predicate SupportedNetwork(n: Option<Json>) { n == EXTERNAL_PROCESSOR || n == CARD_NETWORK }

  function Validate(host: Host, limits: Limits, txn: Json): (r: Validation)
    ensures r.Valid? ==> r.transaction.Obj?
  {
    var missing := MissingFrom(txn, REQUIRED_FIELDS);
    if missing != [] then Invalid(MissingFields(missing))
    else if Get(txn, AMOUNT).None? || host.number(Get(txn, AMOUNT).value).None? then Invalid(AmountNotANumber)
    else
      var number := host.number(Get(txn, AMOUNT).value).value;
      if Get(txn, TYPE) != BALANCE_INQUIRY && Value(number) <= 0.0 then Invalid(AmountNotPositive)
      else if Value(number) > limits.transactionLimit then Invalid(AmountOverLimit)
      else if !SupportedType(Get(txn, TYPE)) then Invalid(InvalidType)
      else if Get(txn, ISSUER_TYPE) != INTERNAL && Get(txn, ISSUER_TYPE) != EXTERNAL then Invalid(InvalidIssuer)
      else if !SupportedChannel(Get(txn, CHANNEL)) then Invalid(InvalidChannel)
      else if Get(txn, ISSUER_TYPE) == EXTERNAL && !Truthy(Get(txn, NETWORK)) then Invalid(NetworkRequired)
      else if Truthy(Get(txn, NETWORK)) && !SupportedNetwork(Get(txn, NETWORK)) then Invalid(InvalidNetwork)
      else if Truthy(Get(txn, CARD_NUMBER)) && |host.text(Get(txn, CARD_NUMBER).value)| < 4 then Invalid(CardTooShort)
      else Valid(Obj(Put(Put(txn.members, AMOUNT, Num(number)), TYPE, Get(txn, TYPE).value)))
  }

  /* ---- risk/riskEngine.js ---- */

  datatype Risk = Approve | Reject | Review

  function EvaluateRisk(host: Host, txn: Json): Risk {
    if Get(txn, CHANNEL) == INTERNATIONAL_ATM && Above(host, Get(txn, AMOUNT), 1000.0) then Reject
    else if Get(txn, CHANNEL) == ECOM && Above(host, Get(txn, AMOUNT), 5000.0) then Review
    else if Get(txn, CHANNEL) == INTERNATIONAL_POS && Above(host, Get(txn, AMOUNT), 3000.0) then Review
    else Approve
  }

  /* ---- the record that /pay stores ---- */

  /** What the request carries beside the body. */
  datatype Request = Request(
    id: JString, clientId: JString, idempotencyKey: JString, requestHash: JString, now: JString)

  /** Object spread: every member of o assigned in turn. */
  function Spread(ms: seq<Member>, o: seq<Member>): seq<Member>
    decreases |o|
  {
    if o == [] then ms else Spread(Put(ms, o[0].key, o[0].value), o[1..])
  }

  function PinVerified(txn: Json): bool {
    if Get(txn, ISSUER_TYPE) == INTERNAL && Get(txn, TYPE) != BALANCE_INQUIRY
    then Get(txn, PIN) == TEST_PIN else true
  }

  function AcceptedMark(now: JString): Json {
    Obj([Member(STATUS, Str(Js("ACCEPTED"))), Member(Js("timestamp"), Str(now)),
         Member(Js("message"), Str(Js("Transaction accepted by API")))])
  }

  /** The fields written before the body is spread, and those written after it. */
  function Preamble(r: Request): seq<Member> {
    [Member(ID, Str(r.id)), Member(CLIENT_ID, Str(r.clientId)),
     Member(IDEMPOTENCY_KEY, Str(r.idempotencyKey)), Member(REQUEST_HASH, Str(r.requestHash))]
  }

  function Trailer(r: Request, pinVerified: bool): seq<Member> {
    [Member(PIN_VERIFIED, Bool(pinVerified)), Member(STATUS, Str(Js("ACCEPTED"))),
     Member(RETRY_COUNT, Num(Zero)), Member(CREATED_AT, Str(r.now)), Member(UPDATED_AT, Str(r.now)),
     Member(PROCESSING_TIMELINE, Arr([AcceptedMark(r.now)]))]
  }

  function FullTransaction(r: Request, validated: Json): Json
    requires validated.Obj?
  {
    Obj(Spread(Spread(Preamble(r), validated.members), Trailer(r, PinVerified(validated))))
  }

  datatype PayDecision =
    | MissingIdempotencyKey | Refused(reason: Refusal) | RiskRejected | ManualReview
    | Submit(record: Json)

  function Pay(host: Host, limits: Limits, r: Request, body: Json): PayDecision {
    if r.idempotencyKey == [] then MissingIdempotencyKey
    else match Validate(host, limits, body)
      case Invalid(reason) => Refused(reason)
      case Valid(txn) =>
        match EvaluateRisk(host, txn)
        case Reject => RiskRejected
        case Review => ManualReview
        case Approve => Submit(SanitizePayload(host, FullTransaction(r, txn)))
  }

  /* ---- what a worker decides ---- */

  datatype SystemAnswer = Approved | Success(result: SystemResult) | Refusal(reason: string)

  /** processor/processor.js; None is APPROVED. */
  function ProcessTransaction(host: Host, txn: Json): Option<Decision> {
    if Get(txn, TYPE) != BALANCE_INQUIRY
       && (!Truthy(Get(txn, AMOUNT)) || AtMost(host, Get(txn, AMOUNT), 0.0)) then
      Some(Declined(None, "Invalid amount"))
    else if Get(txn, AMOUNT).Some? && Get(txn, AMOUNT).value.Num? && Value(Get(txn, AMOUNT).value.n) == 999.0 then
      Some(Failed("Simulated processor failure"))
    else None
  }

  function RouteTransaction(txn: Json): Route {
    if Get(txn, ISSUER_TYPE) == INTERNAL then RouteInternal
    else if Get(txn, NETWORK) == EXTERNAL_PROCESSOR then RouteExternalProcessor
    else if Get(txn, NETWORK) == CARD_NETWORK then RouteCardNetwork
    else if Get(txn, ISSUER_TYPE) == EXTERNAL then RouteExternal
    else RouteUnknown
  }

  function ValidatePin(txn: Json): SystemAnswer {
    if Get(txn, PIN_VERIFIED) != Some(Bool(true)) then Refusal("Invalid PIN") else Approved
  }

  function ValidateBalance(host: Host, limits: Limits, txn: Json): SystemAnswer {
    if Get(txn, TYPE) == BALANCE_INQUIRY then
      Success(SystemResult("BALANCE_SYSTEM", None, Some(limits.inquiryBalance)))
    else if Get(txn, TYPE) == REVERSAL then
      Success(SystemResult("REVERSAL_SYSTEM", Some("Previous transaction reversed"), None))
    else if Above(host, Get(txn, AMOUNT), limits.defaultBalance) then Refusal("Insufficient funds")
    else Approved
  }

  function HandleInternal(host: Host, limits: Limits, txn: Json): SystemAnswer {
    if Get(txn, TYPE) == BALANCE_INQUIRY then ValidateBalance(host, limits, txn)
    else if ValidatePin(txn).Refusal? then ValidatePin(txn)
    else if ValidateBalance(host, limits, txn).Refusal? then ValidateBalance(host, limits, txn)
    else if Get(txn, TYPE) == REVERSAL then ValidateBalance(host, limits, txn)
    else if Get(txn, TYPE) == CASH_WITHDRAWAL then
      Success(SystemResult("ATM_CASH_SYSTEM", Some("Cash withdrawal approved"), None))
    else Success(SystemResult("PURCHASE_SYSTEM", Some("Purchase approved"), None))
  }

  function HandleExternal(txn: Json): SystemAnswer {
    if Get(txn, NETWORK) == EXTERNAL_PROCESSOR then
      Success(SystemResult("EXTERNAL_PROCESSOR", Some("Processed by external issuer processor"), None))
    else if Get(txn, NETWORK) == CARD_NETWORK then
      Success(SystemResult("CARD_NETWORK", Some("Routed through card network to issuer"), None))
    else Refusal("Unsupported external network")
  }

  /** processClaimedTransaction up to the finalize statement. */
  function Decide(host: Host, limits: Limits, txn: Json): Decision {
    match ProcessTransaction(host, txn)
    case Some(d) => d
    case None =>
      var route := RouteTransaction(txn);
      var answer :=
        if route.RouteInternal? then HandleInternal(host, limits, txn)
        else if route.RouteExternalProcessor? || route.RouteCardNetwork? then HandleExternal(txn)
        else Refusal("Unsupported route");
      match answer
      case Refusal(reason) => Declined(Some(route), reason)
      case Success(result) => Completed(route, result)
      case Approved => Completed(route, SystemResult("", None, None))  // anything but DECLINED completes
  }
}
