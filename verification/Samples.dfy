/** A concrete payment that meets the conditions of the main results, from the request to the decision. */
module Samples {
  import opened Wrappers
  import opened Amounts
  import opened Digits
  import opened Json
  import opened MemberOrder
  import opened Sensitive
  import opened Payments
  import opened Decisions
  import opened Outcome
  import opened Admission
  import E = EndToEnd
  import G = Reach
  import H = RequestHash
  import M = Protocol
  import T = Tables

  function Purchase(): Json {
    Obj([Member(AMOUNT, Num(Finite(false, [1], 3))),
         Member(FROM_ACCOUNT, Str(Js("A1"))), Member(TO_ACCOUNT, Str(Js("B2"))),
         Member(TYPE, PURCHASE.value), Member(CHANNEL, DOMESTIC_POS.value), Member(ISSUER_TYPE, EXTERNAL.value),
         Member(NETWORK, CARD_NETWORK.value)])
  }

  lemma MoreNames()
    ensures Named(FROM_ACCOUNT, 11, 102) && Named(TO_ACCOUNT, 9, 116)
  {
  }

  lemma PurchaseKeys()
    ensures var ms := Purchase().members;
            |ms| == 7 && |ms[0].key| == 6 && |ms[1].key| == 11 && |ms[2].key| == 9 && |ms[3].key| == 4
                && |ms[4].key| == 7
            && |ms[5].key| == 10 && |ms[6].key| == 7 && ms[4].key != ms[6].key
            && ms[1].key != REQUEST_HASH && ms[5].key != CARD_NUMBER
    ensures |ID| == 2 && |IDEMPOTENCY_KEY| == 14 && |REQUEST_HASH| == 11 && |CARD_NUMBER| == 10
  {
    Names();
    MoreNames();
  }

  lemma PurchaseDistinct()
    ensures DistinctKeys(Purchase().members)
  {
    PurchaseKeys();
    hide Purchase;
  }

  lemma PurchaseWellFormed()
    ensures WellFormed(Purchase())
  {
    PurchaseDistinct();
    hide DistinctKeys;
  }

  lemma PurchaseIdentity()
    ensures Get(Purchase(), ID).None? && Get(Purchase(), IDEMPOTENCY_KEY).None? && Get(Purchase(), REQUEST_HASH).None?
    ensures Get(Purchase(), CARD_NUMBER).None?
  {
    PurchaseKeys();
    assert Purchase().Obj?;
    hide Purchase;
    var ms := Purchase().members;
    LookupNone(ms, ID);
    LookupNone(ms, IDEMPOTENCY_KEY);
    LookupNone(ms, REQUEST_HASH);
    LookupNone(ms, CARD_NUMBER);
  }

  lemma PurchaseFields()
    ensures Get(Purchase(), AMOUNT) == Some(Num(Finite(false, [1], 3)))
    ensures Get(Purchase(), FROM_ACCOUNT) == Some(Str(Js("A1"))) && Get(Purchase(), TO_ACCOUNT) == Some(Str(Js("B2")))
    ensures Get(Purchase(), TYPE) == PURCHASE && Get(Purchase(), CHANNEL) == DOMESTIC_POS
    ensures Get(Purchase(), ISSUER_TYPE) == EXTERNAL && Get(Purchase(), NETWORK) == CARD_NETWORK
  {
    PurchaseDistinct();
    var ms := Purchase().members;
    LookupAt(ms, 0);
    LookupAt(ms, 1);
    LookupAt(ms, 2);
    LookupAt(ms, 3);
    LookupAt(ms, 4);
    LookupAt(ms, 5);
    LookupAt(ms, 6);
  }

  lemma Hundred()
    ensures Value(Finite(false, [1], 3)) == 100.0
  {
    assert DigitsValue([1]) == 1 by { assert [1][..0] == []; }
    assert Pow10(2) == 100.0;
  }

  lemma PurchaseWords()
    ensures Str(Js("A1")) != Str([]) && Str(Js("B2")) != Str([]) && PURCHASE != Some(Str([]))
            && EXTERNAL != Some(Str([]))
    ensures DOMESTIC_POS != Some(Str([])) && DOMESTIC_POS != INTERNATIONAL_POS && DOMESTIC_POS != INTERNATIONAL_ATM
    ensures DOMESTIC_POS != ECOM && PURCHASE.Some? && PURCHASE.value.Str? && DOMESTIC_POS.Some?
            && DOMESTIC_POS.value.Str?
    ensures EXTERNAL.Some? && EXTERNAL.value.Str? && CARD_NETWORK.Some? && Truthy(CARD_NETWORK)
  {
    assert |Js("A1")| == 2 && |Js("B2")| == 2 && |Js("PURCHASE")| == 8 && |Js("EXTERNAL")| == 8;
    assert |Js("DOMESTIC_POS")| == 12 && |Js("INTERNATIONAL_POS")| == 17 && |Js("INTERNATIONAL_ATM")| == 17;
    assert |Js("ECOM")| == 4 && |Js("CARD_NETWORK")| == 12;
  }

  lemma PurchaseAcceptable(host: Host, limits: Limits)
    requires HostOk(host) && limits.transactionLimit >= 100.0
    ensures Acceptable(host, limits, Purchase())
    ensures !TooRisky(host, Purchase()) && !NeedsReview(host, Purchase())
  {
    PurchaseFields();
    PurchaseWords();
    PurchaseIdentity();
    Hundred();
    var body := Purchase();
    assert host.number(Get(body, AMOUNT).value) == Some(Finite(false, [1], 3));
    hide Get, Purchase, Value;
  }

  /** A purchase of 100 over a card network is submitted. */
  lemma PurchaseIsSubmitted(host: Host, limits: Limits, r: Request)
    requires HostOk(host) && limits.transactionLimit >= 100.0 && r.idempotencyKey != []
    ensures WellFormed(Purchase()) && Pay(host, limits, r, Purchase()).Submit?
  {
    PurchaseWellFormed();
    PurchaseAcceptable(host, limits);
    PayIff(host, limits, r, Purchase());
    hide *;
  }

  const APPROVED := Completed(
    RouteCardNetwork, SystemResult("CARD_NETWORK", Some("Routed through card network to issuer"), None))

  lemma PurchaseDecision(host: Host, limits: Limits)
    requires HostOk(host)
    ensures var n := host.number(Get(Purchase(), AMOUNT).value);
            n.Some? && RawDecision(limits, Purchase(), Value(n.value)) == APPROVED
  {
    PurchaseFields();
    Hundred();
    IssuersDiffer();
    hide Get, Purchase, Value;
  }

  lemma PayRun(c: M.Config, record: Json)
    ensures var step := E.PayStep(record); var s := M.After(c, [step]);
            s.queue == map[] && step.id in s.db.events && s.db.events[step.id].status == T.PENDING
  {
    assert [E.PayStep(record)][..0] == [];
    assert M.After(c, []) == M.Init();
    assert M.After(c, [E.PayStep(record)]) == M.Apply(c, M.Init(), E.PayStep(record));
    hide M.Run;
  }

  /** The purchase, filed and then carried through outbox, queue and worker, can complete over the card network. */
  lemma PurchaseCompletes(
      host: Host, limits: Limits, digest: JString -> JString, lease: nat, staleMs: nat, outboxStaleMs: nat,
      maxRecoveries: nat, r: Request)
    requires HostOk(host) && limits.transactionLimit >= 100.0 && r.idempotencyKey != []
    ensures WellFormed(Purchase()) && Pay(host, limits, E.Received(digest, r, Purchase()), Purchase()).Submit?
    ensures var c := E.Deployed(host, limits, v => v, lease, staleMs, outboxStaleMs, maxRecoveries);
            var step := E.PayStep(Pay(host, limits, E.Received(digest, r, Purchase()), Purchase()).record);
            exists more :: E.ShowsOutcome(M.After(c, [step] + more), r.id, APPROVED)
  {
    PurchaseWellFormed();
    PurchaseIdentity();
    PurchaseDecision(host, limits);
    PlainColumns();
    var c := E.Deployed(host, limits, v => v, lease, staleMs, outboxStaleMs, maxRecoveries);
    hide Get, Purchase, RawDecision, Pay, WellFormed, E.Deployed, E.JsonbOk, M.Run, H.CreateRequestHash;
    PurchaseIsSubmitted(host, limits, E.Received(digest, r, Purchase()));
    var record := Pay(host, limits, E.Received(digest, r, Purchase()), Purchase()).record;
    PurchaseSubmits(host, limits, digest, r, record);
    E.FiledUnderHeader(host, limits, digest, r, Purchase(), record);
    PayRun(c, record);
    hide E.PayStep, E.Submits;
    PendingCan(c, [E.PayStep(record)], r.id);
    E.PaymentReachableIff(host, limits, v => v, lease, staleMs, outboxStaleMs, maxRecoveries, c, digest,
                          [E.PayStep(record)], 0, r, Purchase(), record);
  }

  lemma PurchaseSubmits(host: Host, limits: Limits, digest: JString -> JString, r: Request, record: Json)
    requires WellFormed(Purchase()) && E.LeavesIdentity(Purchase())
    requires Pay(host, limits, E.Received(digest, r, Purchase()), Purchase()) == Submit(record)
    ensures E.Submits(host, limits, digest, r, Purchase(), record)
  {
  }

  lemma PendingCan(c: M.Config, steps: seq<M.Step>, id: T.Id)
    requires var s := M.After(c, steps); s.queue == map[] && id in s.db.events && s.db.events[id].status == T.PENDING
    ensures G.CanDecide(c, M.After(c, steps), id)
  {
    hide M.Run;
  }

  lemma PlainColumns()
    ensures E.JsonbOk(v => v)
  {
  }
}
