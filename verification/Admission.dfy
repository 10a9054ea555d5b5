/** Which requests /pay submits, refuses, rejects or holds, as conditions on the raw body alone. */
module Admission {
  import opened Wrappers
  import opened Amounts
  import opened Json
  import opened MemberOrder
  import opened Sensitive
  import opened Payments
  import opened Outcome

  /** A required field is there: not undefined, null or the empty text. */
  predicate Present(body: Json, k: JString) {
    Get(body, k).Some? && !Get(body, k).value.Null? && Get(body, k).value != Str([])
  }

  /** Number(body.amount) is a finite number. */
  predicate HasAmount(host: Host, body: Json) {
    Get(body, Js("amount")).Some? && host.number(Get(body, Js("amount")).value).Some?
  }

  function Amount(host: Host, body: Json): real
    requires HasAmount(host, body)
  {
    Value(host.number(Get(body, Js("amount")).value).value)
  }

  /** The six required fields are there. */
  predicate Complete(body: Json) {
    Present(body, Js("amount")) && Present(body, Js("fromAccount")) && Present(body, Js("toAccount"))
    && Present(body, Js("type")) && Present(body, Js("channel")) && Present(body, Js("issuerType"))
  }

  predicate KnownType(v: Option<Json>) {
    v == Text("PURCHASE") || v == Text("CASH_WITHDRAWAL") || v == Text("BALANCE_INQUIRY") || v == Text("REVERSAL")
  }

  predicate KnownChannel(v: Option<Json>) {
    v == Text("DOMESTIC_ATM") || v == Text("INTERNATIONAL_ATM") || v == Text("DOMESTIC_POS")
    || v == Text("INTERNATIONAL_POS") || v == Text("ECOM")
  }

  predicate KnownNetwork(v: Option<Json>) { v == Text("EXTERNAL_PROCESSOR") || v == Text("CARD_NETWORK") }

  /** The conditions of validation by number, in the order in which a failure is reported. */
  predicate Passes(host: Host, limits: Limits, body: Json, k: nat) {
    var network, card := Get(body, Js("network")), Get(body, Js("cardNumber"));
    match k
    case 0 => Complete(body)
    case 1 => HasAmount(host, body)
    case 2 => HasAmount(host, body) ==> Amount(host, body) > 0.0 || Get(body, Js("type")) == Text("BALANCE_INQUIRY")
    case 3 => HasAmount(host, body) ==> Amount(host, body) <= limits.transactionLimit
    case 4 => KnownType(Get(body, Js("type")))
    case 5 => Get(body, Js("issuerType")) == Text("INTERNAL") || Get(body, Js("issuerType")) == Text("EXTERNAL")
    case 6 => KnownChannel(Get(body, Js("channel")))
    case 7 => Get(body, Js("issuerType")) == Text("EXTERNAL") ==> !Falsy(network)
    case 8 => Falsy(network) || KnownNetwork(network)
    case 9 => Falsy(card) || |host.text(card.value)| >= 4
    case _ => true
  }

  /** The number of the condition a refusal names. */
  function ConditionOf(reason: Refusal): nat {
    match reason
    case MissingFields(_) => 0
    case AmountNotANumber => 1
    case AmountNotPositive => 2
    case AmountOverLimit => 3
    case InvalidType => 4
    case InvalidIssuer => 5
    case InvalidChannel => 6
    case NetworkRequired => 7
    case InvalidNetwork => 8
    case CardTooShort => 9
  }

  predicate Acceptable(host: Host, limits: Limits, body: Json) {
    forall k :: 0 <= k < 10 ==> Passes(host, limits, body, k)
  }

  predicate TooRisky(host: Host, body: Json)
    requires HasAmount(host, body)
  {
    Get(body, Js("channel")) == Text("INTERNATIONAL_ATM") && Amount(host, body) > 1000.0
  }

  predicate NeedsReview(host: Host, body: Json)
    requires HasAmount(host, body)
  {
    (Get(body, Js("channel")) == Text("ECOM") && Amount(host, body) > 5000.0)
    || (Get(body, Js("channel")) == Text("INTERNATIONAL_POS") && Amount(host, body) > 3000.0)
  }

  /** The absent ones of the six, in the order they are asked for. */
  function AbsentFields(body: Json): seq<JString> {
    Absent(body, Js("amount"))
    + (Absent(body, Js("fromAccount"))
       + (Absent(body, Js("toAccount"))
          + (Absent(body, Js("type")) + (Absent(body, Js("channel")) + (Absent(body, Js("issuerType")) + [])))))
  }

  function Absent(body: Json, k: JString): seq<JString> { if Present(body, k) then [] else [k] }

  /** The reason names a condition that fails, all before it hold, and the fields it lists are the absent ones. */
  predicate FirstFailure(host: Host, limits: Limits, body: Json, reason: Refusal) {
    !Passes(host, limits, body, ConditionOf(reason))
    && (forall k :: 0 <= k < ConditionOf(reason) ==> Passes(host, limits, body, k))
    && (reason.MissingFields? ==> reason.fields == AbsentFields(body))
  }

  lemma {:induction false} MissingIff(body: Json, fields: seq<JString>)
    ensures MissingFrom(body, fields) == [] <==> forall i :: 0 <= i < |fields| ==> Present(body, fields[i])
  {
    if fields != [] {
      MissingIff(body, fields[1..]);
      assert forall i :: 0 < i < |fields| ==> fields[i] == fields[1..][i - 1];
      if MissingFrom(body, fields) == [] {
        forall i | 0 <= i < |fields| ensures Present(body, fields[i]) {
          if i > 0 { assert Present(body, fields[1..][i - 1]); }
        }
      } else if forall i :: 0 <= i < |fields| ==> Present(body, fields[i]) {
        assert Present(body, fields[0]);
        forall i | 0 <= i < |fields[1..]| ensures Present(body, fields[1..][i]) { assert Present(body, fields[i + 1]); }
      }
    }
  }

  lemma CompleteIff(body: Json)
    ensures MissingFrom(body, REQUIRED_FIELDS) == [] <==> Complete(body)
  {
    MissingIff(body, REQUIRED_FIELDS);
    hide Present;
    var f := REQUIRED_FIELDS;
    if MissingFrom(body, f) == [] {
      assert Present(body, f[0]) && Present(body, f[1]) && Present(body, f[2]);
      assert Present(body, f[3]) && Present(body, f[4]) && Present(body, f[5]);
    }
  }

  lemma MissingCons(body: Json, k: JString, rest: seq<JString>)
    ensures MissingFrom(body, [k] + rest) == Absent(body, k) + MissingFrom(body, rest)
  {
    assert ([k] + rest)[1..] == rest;
    assert Missing(body, k) <==> !Present(body, k);
  }

  lemma RequiredFields()
    ensures REQUIRED_FIELDS
            == [AMOUNT] + ([FROM_ACCOUNT] + ([TO_ACCOUNT] + ([TYPE] + ([CHANNEL] + ([ISSUER_TYPE] + [])))))
  {
  }

  lemma MissingAre(body: Json)
    ensures MissingFrom(body, REQUIRED_FIELDS) == AbsentFields(body)
  {
    var e := [ISSUER_TYPE] + [];
    var d := [CHANNEL] + e;
    var c := [TYPE] + d;
    var b := [TO_ACCOUNT] + c;
    MissingCons(body, AMOUNT, [FROM_ACCOUNT] + b);
    MissingCons(body, FROM_ACCOUNT, b);
    MissingCons(body, TO_ACCOUNT, c);
    MissingCons(body, TYPE, d);
    MissingCons(body, CHANNEL, e);
    MissingCons(body, ISSUER_TYPE, []);
    assert MissingFrom(body, []) == [];
    RequiredFields();
    hide MissingFrom, Absent;
  }

  lemma SameWords(v: Option<Json>)
    ensures SupportedType(v) <==> KnownType(v)
    ensures SupportedChannel(v) <==> KnownChannel(v)
    ensures SupportedNetwork(v) <==> KnownNetwork(v)
  {
  }

  lemma FailureRefutes(host: Host, limits: Limits, body: Json, reason: Refusal)
    requires !Passes(host, limits, body, ConditionOf(reason))
    ensures !Acceptable(host, limits, body)
  {
    assert ConditionOf(reason) < 10;
    hide Passes;
  }

  lemma Checked(host: Host, limits: Limits, body: Json)
    ensures match Validate(host, limits, body)
            case Valid(_) => Acceptable(host, limits, body)
            case Invalid(reason) => FirstFailure(host, limits, body, reason)
  {
    CompleteIff(body);
    MissingAre(body);
    IssuersDiffer();
    FalsyIff(Get(body, NETWORK));
    FalsyIff(Get(body, CARD_NUMBER));
    SameWords(Get(body, TYPE));
    SameWords(Get(body, CHANNEL));
    SameWords(Get(body, NETWORK));
    hide Get, Truthy, Falsy, Complete, MissingFrom, AbsentFields, KnownType, KnownChannel, KnownNetwork, SupportedType,
      SupportedChannel, SupportedNetwork, Value;
  }

  /** A refusal names the first condition that fails, and the absent fields if that is the first one. */
  lemma RefusalIff(host: Host, limits: Limits, body: Json)
    ensures match Validate(host, limits, body)
            case Valid(_) => Acceptable(host, limits, body)
            case Invalid(reason) => !Acceptable(host, limits, body) && FirstFailure(host, limits, body, reason)
  {
    Checked(host, limits, body);
    hide Validate, Passes, Acceptable;
    match Validate(host, limits, body) {
      case Invalid(reason) => FailureRefutes(host, limits, body, reason);
      case Valid(_) =>
    }
  }

  lemma ValidIff(host: Host, limits: Limits, body: Json)
    ensures Validate(host, limits, body).Valid? <==> Acceptable(host, limits, body)
  {
    RefusalIff(host, limits, body);
    hide Validate, Passes;
  }

  lemma RiskOnBody(host: Host, limits: Limits, body: Json)
    requires HostOk(host) && body.Obj? && DistinctKeys(body.members) && Validate(host, limits, body).Valid?
    ensures HasAmount(host, body)
    ensures var risk := EvaluateRisk(host, Validate(host, limits, body).transaction);
            (risk.Reject? <==> TooRisky(host, body))
            && (risk.Review? <==> !TooRisky(host, body) && NeedsReview(host, body))
  {
    ValidIff(host, limits, body);
    ValidFields(host, limits, body);
    Names();
    var txn := Validate(host, limits, body).transaction;
    assert Get(txn, CHANNEL) == Get(body, CHANNEL);
    assert Numeric(host, Get(txn, AMOUNT)) == Some(Amount(host, body));
    ChannelsDiffer();
    hide Get, Validate;
  }

  lemma ChannelsDiffer()
    ensures INTERNATIONAL_ATM != ECOM && INTERNATIONAL_ATM != INTERNATIONAL_POS && ECOM != INTERNATIONAL_POS
  {
    assert |Js("ECOM")| == 4 && |Js("INTERNATIONAL_ATM")| == 17 && |Js("INTERNATIONAL_POS")| == 17;
    assert Js("INTERNATIONAL_ATM")[14] == 65 && Js("INTERNATIONAL_POS")[14] == 80;
  }

  /** The four ways /pay may go with a body, each with its exact condition. */
  lemma PayIff(host: Host, limits: Limits, r: Request, body: Json)
    requires HostOk(host) && WellFormed(body)
    ensures var d := Pay(host, limits, r, body);
            (d.MissingIdempotencyKey? <==> r.idempotencyKey == [])
            && (d.Refused? <==> r.idempotencyKey != [] && !Acceptable(host, limits, body))
            && (d.Refused? ==> FirstFailure(host, limits, body, d.reason))
            && (d.RiskRejected? <==> r.idempotencyKey != [] && Acceptable(host, limits, body) && TooRisky(host, body))
            && (d.ManualReview? <==> r.idempotencyKey != [] && Acceptable(host, limits, body)
                                     && !TooRisky(host, body) && NeedsReview(host, body))
            && (d.Submit? <==> r.idempotencyKey != [] && Acceptable(host, limits, body)
                               && !TooRisky(host, body) && !NeedsReview(host, body))
  {
    RefusalIff(host, limits, body);
    MissingEverything(body);
    if Validate(host, limits, body).Valid? { RiskOnBody(host, limits, body); }
    hide FirstFailure, Validate, EvaluateRisk, SanitizePayload, FullTransaction, Acceptable, TooRisky, NeedsReview;
  }
}
