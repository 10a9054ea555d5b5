/**
 * The protocol refines a tiny specification: an idempotency key is accepted once with one payload,
 * is decided at most once, with the decision its payload calls for, and never changes again.
 */
module Lifecycle {
  import opened Wrappers
  import opened Json
  import opened Tables
  import opened Protocol
  import opened Invariant
  import D = Decisions

  /* ---- the specification ---- */

  datatype Entry = Entry(key: Option<Key>, hash: JString, payload: Json, outcome: Option<D.Decision>)

  type Ledger = map<Id, Entry>

  ghost predicate Accepts(a: Ledger, b: Ledger) {
    exists id, e :: AcceptsOne(a, b, id, e)
  }

  predicate AcceptsOne(a: Ledger, b: Ledger, id: Id, e: Entry) {
    && id !in a && e.outcome.None? && b == a[id := e]
    && (e.key.Some? ==> forall j :: j in a ==> a[j].key != e.key)
  }

  ghost predicate Decides(c: Config, a: Ledger, b: Ledger) {
    exists id :: DecidesOne(c, a, b, id)
  }

  predicate DecidesOne(c: Config, a: Ledger, b: Ledger, id: Id) {
    id in a && a[id].outcome.None? && b == a[id := a[id].(outcome := Some(c.decide(a[id].payload)))]
  }

  ghost predicate SpecStep(c: Config, a: Ledger, b: Ledger) { a == b || Accepts(a, b) || Decides(c, a, b) }

  /* ---- the abstraction ---- */

  function RowOutcome(r: Tx): Option<D.Decision> {
    match r.status
    case COMPLETED => Some(D.Completed(r.route.GetOr(D.RouteUnknown), r.result.GetOr(D.SystemResult("", None, None))))
    case DECLINED => Some(D.Declined(r.route, r.reason.GetOr("")))
    case FAILED => Some(D.Failed(r.reason.GetOr("")))
    case _ => None
  }

  /** What the ledger records for a transaction, read off its view. */
  function EntryOf(v: View): Option<Entry> {
    if v.tx.None? || v.payload.None? then None
    else Some(Entry(v.tx.value.key, v.tx.value.hash, v.payload.value, RowOutcome(v.tx.value)))
  }

  function Abs(s: World): (a: Ledger)
    ensures forall id :: Find(a, id) == EntryOf(ViewOf(s, id))
  {
    map id | id in s.db.txs && id in s.db.events :: EntryOf(ViewOf(s, id)).value
  }

  /* ---- final rows are frozen ---- */

  predicate Decided(s: World, id: Id) { id in s.db.txs && Final(s.db.txs[id].status) }

  /** How a step may change one transaction. */
  predicate Evolves(c: Config, v: View, v': View) {
    || v' == v
    || (v.tx.None? && v'.tx.Some? && !Final(v'.tx.value.status))
    || (&& v.tx.Some? && v'.tx.Some? && v.payload.Some? && v'.payload == v.payload
        && v'.tx.value.key == v.tx.value.key && v'.tx.value.hash == v.tx.value.hash
        && (Final(v.tx.value.status) ==>
              v'.tx == v.tx && (v.tx.value.status == FAILED ==> v'.dead == v.dead && v'.job == v.job))
        && (!Final(v.tx.value.status) ==>
              RowOutcome(v'.tx.value) == None || RowOutcome(v'.tx.value) == Some(c.decide(v.payload.value))))
  }

  lemma {:induction false} StepEvolves(c: Config, s: World, step: Step, id: Id)
    requires ConfigOk(c) && Inv(c, s)
    ensures Evolves(c, ViewOf(s, id), ViewOf(Apply(c, s, step), id))
  {
    assert IdOk(c, s.now, ViewOf(s, id));
    hide ApplyPay, ApplyStart, ApplyThrow, ApplyFinalize, ApplyMarkFailed, ApplyRenew, ApplyEnqueue,
      ApplyDeliver, ApplyReturn, ApplyStall, IdOk, Evolves, ViewOf;
    match step {
      case Pay(_, _, _, _) => PayEvolves(c, s, step, id);
      case Start(w) => StartEvolves(c, s, w, id);
      case Throw(w) => assert WorkerOk(c, s, w); ThrowEvolves(c, s, w, id);
      case Finalize(w) => assert WorkerOk(c, s, w); FinalizeEvolves(c, s, w, id);
      case MarkFailed(w) => assert WorkerOk(c, s, w); MarkFailedEvolves(c, s, w, id);
      case Renew(w, j) => RenewEvolves(c, s, w, j, id);
      case RecoverLeases => RecoverLeasesEvolves(c, s, id);
      case Enqueue(p) => assert SenderOk(s, p); QueueStepEvolves(c, s, step, id);
      case EnqueueFails(p, added) => assert SenderOk(s, p); QueueStepEvolves(c, s, step, id);
      case Deliver(_, _) | Return(_) | Stall(_) => QueueStepEvolves(c, s, step, id);
      case _ => OtherStepEvolves(c, s, step, id); SameViewEvolves(c, ViewOf(s, id));
    }
  }

  lemma SameViewEvolves(c: Config, v: View)
    ensures Evolves(c, v, v)
  {
  }

  lemma OtherStepEvolves(c: Config, s: World, step: Step, id: Id)
    requires step.RecoverOutbox? || step.ClaimOutbox? || step.MarkSent? || step.MarkSentFails? || step.MarkPending?
             || step.CrashSender? || step.Read? || step.CrashWorker? || step.Tick?
    ensures ViewOf(Apply(c, s, step), id) == ViewOf(s, id)
  {
    if step.Read? || step.CrashWorker? || step.Tick? {
      AsideViews(c, s, step, id);
    } else {
      OutboxViews(c, s, step, id);
    }
    hide Apply;
  }

  lemma AsideViews(c: Config, s: World, step: Step, id: Id)
    requires step.Read? || step.CrashWorker? || step.Tick?
    ensures ViewOf(Apply(c, s, step), id) == ViewOf(s, id)
  {
  }

  lemma OutboxViews(c: Config, s: World, step: Step, id: Id)
    requires step.RecoverOutbox? || step.ClaimOutbox? || step.MarkSent? || step.MarkSentFails? || step.MarkPending?
             || step.CrashSender?
    ensures ViewOf(Apply(c, s, step), id) == ViewOf(s, id)
  {
  }

  lemma QueueStepEvolves(c: Config, s: World, step: Step, id: Id)
    requires IdOk(c, s.now, ViewOf(s, id))
    requires step.Enqueue? || step.EnqueueFails? || step.Deliver? || step.Return? || step.Stall?
    requires step.Enqueue? || step.EnqueueFails? ==> SenderOk(s, step.p)
    ensures Evolves(c, ViewOf(s, id), ViewOf(Apply(c, s, step), id))
  {
    match step {
      case Enqueue(p) => EnqueueEvolves(c, s, p, true, Added, id);
      case EnqueueFails(p, added) => EnqueueEvolves(c, s, p, added, Errored, id);
      case Deliver(w, j) => DeliverEvolves(c, s, w, j, id);
      case Return(w) => ReturnEvolves(c, s, w, id);
      case Stall(j) => StallEvolves(c, s, j, id);
    }
    hide IdOk, Evolves, ViewOf, SenderOk, ApplyEnqueue, ApplyDeliver, ApplyReturn, ApplyStall;
  }

  lemma EnqueueEvolves(c: Config, s: World, p: SenderId, added: bool, next: Phase, id: Id)
    requires IdOk(c, s.now, ViewOf(s, id)) && SenderOk(s, p)
    ensures Evolves(c, ViewOf(s, id), ViewOf(ApplyEnqueue(s, p, added, next), id))
  {
    hide RowOk, JobOk;
  }

  lemma DeliverEvolves(c: Config, s: World, w: WorkerId, delivered: Id, id: Id)
    requires IdOk(c, s.now, ViewOf(s, id))
    ensures Evolves(c, ViewOf(s, id), ViewOf(ApplyDeliver(s, w, delivered), id))
  {
    hide JobOk;
  }

  lemma ReturnEvolves(c: Config, s: World, w: WorkerId, id: Id)
    requires IdOk(c, s.now, ViewOf(s, id))
    ensures Evolves(c, ViewOf(s, id), ViewOf(ApplyReturn(s, w), id))
  {
    hide JobOk;
  }

  lemma StallEvolves(c: Config, s: World, stalled: Id, id: Id)
    requires IdOk(c, s.now, ViewOf(s, id))
    ensures Evolves(c, ViewOf(s, id), ViewOf(ApplyStall(s, stalled), id))
  {
    hide JobOk;
  }

  lemma StartEvolves(c: Config, s: World, w: WorkerId, id: Id)
    requires IdOk(c, s.now, ViewOf(s, id))
    ensures Evolves(c, ViewOf(s, id), ViewOf(ApplyStart(c, s, w), id))
  {
  }

  lemma FinalizeEvolves(c: Config, s: World, w: WorkerId, id: Id)
    requires IdOk(c, s.now, ViewOf(s, id)) && WorkerOk(c, s, w)
    ensures Evolves(c, ViewOf(s, id), ViewOf(ApplyFinalize(c, s, w), id))
  {
    var h := WorkerAt(s, w);
    if h.Claimed? && h.id == id && !c.decide(h.data).Failed?
       && FinalizeTx(s.db.txs[id], w, FinalUpdates(c.decide(h.data), h.timeline)).Some? {
      hide IdOk, TimelineOk, LeaseOk, JobOk;
      FinalOutcome(c.decide(h.data), s.db.txs[id], w, h.timeline);
    }
  }

  lemma FinalOutcome(d: D.Decision, r: Tx, w: WorkerId, timeline: seq<TxStatus>)
    requires !d.Failed? && FinalizeTx(r, w, FinalUpdates(d, timeline)).Some? && r.route.None?
    ensures RowOutcome(FinalizeTx(r, w, FinalUpdates(d, timeline)).value) == Some(d)
  {
  }

  lemma ThrowEvolves(c: Config, s: World, w: WorkerId, id: Id)
    requires IdOk(c, s.now, ViewOf(s, id)) && WorkerOk(c, s, w)
    ensures Evolves(c, ViewOf(s, id), ViewOf(ApplyThrow(c, s, w), id))
  {
    var h := WorkerAt(s, w);
    if h.Claimed? && h.id == id && c.decide(h.data).Failed? && Holds(s, w, id) {
      FailingIsOpen(c, s.now, ViewOf(s, id));
      hide IdOk, TimelineOk, LeaseOk, JobOk;
      HeldThrowEvolves(c, s, w);
    } else {
      ThrowElsewhereEvolves(c, s, w, id);
    }
    hide IdOk, ApplyThrow;
  }

  lemma HeldThrowEvolves(c: Config, s: World, w: WorkerId)
    requires WorkerAt(s, w).Claimed? && c.decide(WorkerAt(s, w).data).Failed? && Holds(s, w, WorkerAt(s, w).id)
    requires var v := ViewOf(s, WorkerAt(s, w).id); v.tx.Some? && v.payload.Some? && !Final(v.tx.value.status)
    ensures var id := WorkerAt(s, w).id; Evolves(c, ViewOf(s, id), ViewOf(ApplyThrow(c, s, w), id))
  {
  }

  lemma ThrowElsewhereEvolves(c: Config, s: World, w: WorkerId, id: Id)
    requires var h := WorkerAt(s, w); !(h.Claimed? && h.id == id && c.decide(h.data).Failed? && Holds(s, w, id))
    ensures ViewOf(ApplyThrow(c, s, w), id) == ViewOf(s, id)
  {
    hide UpdateTx;
  }

  lemma MarkFailedEvolves(c: Config, s: World, w: WorkerId, id: Id)
    requires IdOk(c, s.now, ViewOf(s, id)) && WorkerOk(c, s, w)
    ensures Evolves(c, ViewOf(s, id), ViewOf(ApplyMarkFailed(s, w), id))
  {
  }

  lemma PayEvolves(c: Config, s: World, step: Step, id: Id)
    requires step.Pay? && IdOk(c, s.now, ViewOf(s, id))
    ensures Evolves(c, ViewOf(s, id), ViewOf(Apply(c, s, step), id))
  {
  }

  lemma RenewEvolves(c: Config, s: World, w: WorkerId, renewed: Id, id: Id)
    requires IdOk(c, s.now, ViewOf(s, id))
    ensures Evolves(c, ViewOf(s, id), ViewOf(ApplyRenew(c, s, w, renewed), id))
  {
  }

  lemma RecoverLeasesEvolves(c: Config, s: World, id: Id)
    requires IdOk(c, s.now, ViewOf(s, id))
    ensures Evolves(c, ViewOf(s, id), ViewOf(Apply(c, s, RecoverLeases), id))
  {
    RecoveredView(c, s, id);
  }

  /* ---- refinement ---- */

  /** The transaction a step is about. */
  function Subject(s: World, step: Step): Id {
    match step
    case Pay(id, _, _, _) => id
    case Start(w) => HandlerId(WorkerAt(s, w))
    case Throw(w) => HandlerId(WorkerAt(s, w))
    case Finalize(w) => HandlerId(WorkerAt(s, w))
    case MarkFailed(w) => HandlerId(WorkerAt(s, w))
    case _ => []
  }

  lemma OthersSame(c: Config, s: World, step: Step, id: Id)
    requires id != Subject(s, step)
    ensures EntryOf(ViewOf(Apply(c, s, step), id)) == EntryOf(ViewOf(s, id))
  {
    hide EntryOf;
    match step {
      case RecoverLeases => RecoveredEntry(c, s, id);
      case Start(_) | Throw(_) | Finalize(_) | MarkFailed(_) | Renew(_, _) => WorkerStepOthers(c, s, step, id);
      case _ => TablesSame(c, s, step, id); SameRowSameEntry(s, Apply(c, s, step), id);
    }
  }

  lemma RecoveredEntry(c: Config, s: World, id: Id)
    ensures EntryOf(ViewOf(Apply(c, s, RecoverLeases), id)) == EntryOf(ViewOf(s, id))
  {
    RecoveredView(c, s, id);
  }

  lemma WorkerStepOthers(c: Config, s: World, step: Step, id: Id)
    requires step.Start? || step.Throw? || step.Finalize? || step.MarkFailed? || step.Renew?
    requires id != Subject(s, step)
    ensures EntryOf(ViewOf(Apply(c, s, step), id)) == EntryOf(ViewOf(s, id))
  {
    if step.Renew? {
      RenewedEntry(c, s, step.w, step.id, id);
      hide EntryOf, ViewOf;
    } else {
      OtherRowsSame(c, s, step, id);
      WorkersLeaveEvents(c, s, step);
      hide Apply, EntryOf, RowOutcome;
      SameRowSameEntry(s, Apply(c, s, step), id);
    }
  }

  lemma OtherRowsSame(c: Config, s: World, step: Step, id: Id)
    requires step.Start? || step.Throw? || step.Finalize? || step.MarkFailed?
    requires id != Subject(s, step)
    ensures Find(Apply(c, s, step).db.txs, id) == Find(s.db.txs, id)
  {
    hide Set, UpdateTx, FinalizeTx, StartTx;
  }

  lemma RenewedEntry(c: Config, s: World, w: WorkerId, renewed: Id, id: Id)
    ensures EntryOf(ViewOf(ApplyRenew(c, s, w, renewed), id)) == EntryOf(ViewOf(s, id))
  {
  }

  /** Steps of the API, the outbox and the queue leave every other row and payload alone. */
  lemma TablesSame(c: Config, s: World, step: Step, id: Id)
    requires !(step.RecoverLeases? || step.Start? || step.Throw? || step.Finalize? || step.MarkFailed? || step.Renew?)
    requires step.Pay? ==> step.id != id
    ensures Find(Apply(c, s, step).db.txs, id) == Find(s.db.txs, id)
    ensures PayloadAt(Apply(c, s, step), id) == PayloadAt(s, id)
  {
    if WorkerStep(step) { QuietTables(c, s, step); } else { OutboxTables(c, s, step, id); }
    hide Apply;
  }

  lemma QuietTables(c: Config, s: World, step: Step)
    requires step.Read? || step.Return? || step.Deliver?
    ensures Apply(c, s, step).db == s.db
  {
  }

  lemma OutboxTables(c: Config, s: World, step: Step, id: Id)
    requires !WorkerStep(step) && !step.RecoverLeases? && (step.Pay? ==> step.id != id)
    ensures Find(Apply(c, s, step).db.txs, id) == Find(s.db.txs, id)
    ensures PayloadAt(Apply(c, s, step), id) == PayloadAt(s, id)
  {
    match step {
      case Pay(_, _, _, _) => OtherPay(c, s, step, id);
      case CrashWorker(_) | Tick(_) => AsideViews(c, s, step, id);
      case Stall(_) | Enqueue(_) | EnqueueFails(_, _) => QueueTables(c, s, step);
      case _ => OutboxViews(c, s, step, id);
    }
    hide Apply;
  }

  lemma OtherPay(c: Config, s: World, step: Step, id: Id)
    requires step.Pay? && step.id != id
    ensures Find(Apply(c, s, step).db.txs, id) == Find(s.db.txs, id)
    ensures PayloadAt(Apply(c, s, step), id) == PayloadAt(s, id)
  {
  }

  lemma QueueTables(c: Config, s: World, step: Step)
    requires step.Stall? || step.Enqueue? || step.EnqueueFails?
    ensures Apply(c, s, step).db == s.db
  {
  }

  lemma SameRowSameEntry(s: World, s': World, id: Id)
    requires Find(s'.db.txs, id) == Find(s.db.txs, id) && PayloadAt(s', id) == PayloadAt(s, id)
    ensures EntryOf(ViewOf(s', id)) == EntryOf(ViewOf(s, id))
  {
  }

  lemma NewKeyIsFresh(c: Config, s: World, step: Step)
    requires Inv(c, s) && step.Pay? && step.id !in s.db.txs && step.id in Apply(c, s, step).db.txs
    ensures Apply(c, s, step).db.txs[step.id].key == step.key
    ensures step.key.Some? ==> forall j :: j in s.db.txs ==> s.db.txs[j].key != step.key
  {
    hide IdOk, WorkerOk, SenderOk;
    if step.key.Some? {
      forall j | j in s.db.txs ensures s.db.txs[j].key != step.key {
        assert KeyAt(s, j) == Some(s.db.txs[j].key);
      }
    }
  }

  lemma OthersAgree(c: Config, s: World, step: Step)
    ensures forall j :: j != Subject(s, step) ==> Find(Abs(s), j) == Find(Abs(Apply(c, s, step)), j)
  {
    forall j | j != Subject(s, step) ensures Find(Abs(s), j) == Find(Abs(Apply(c, s, step)), j) {
      OthersSame(c, s, step, j);
      hide Apply;
    }
  }

  lemma NewRowAccepts(c: Config, s: World, step: Step)
    requires ConfigOk(c) && Inv(c, s)
    requires ViewOf(s, Subject(s, step)).tx.None? && ViewOf(Apply(c, s, step), Subject(s, step)).tx.Some?
    ensures Accepts(Abs(s), Abs(Apply(c, s, step)))
  {
    var s', id := Apply(c, s, step), Subject(s, step);
    OthersAgree(c, s, step);
    StepEvolves(c, s, step, id);
    StepKeeps(c, s, step);
    OnlyPayInserts(c, s, step, id);
    NewKeyIsFresh(c, s, step);
    hide Apply, Subject, KeysOk, WorkerOk, SenderOk;
    assert IdOk(c, s'.now, ViewOf(s', id));
    hide Inv;
    LedgerUpdate(Abs(s), Abs(s'), id);
    AcceptsNow(Abs(s), Abs(s'), id);
  }

  /** Every step of the protocol is a step of the specification or changes nothing there. */
  lemma StepRefines(c: Config, s: World, step: Step)
    requires ConfigOk(c) && Inv(c, s)
    ensures SpecStep(c, Abs(s), Abs(Apply(c, s, step)))
  {
    var s', id := Apply(c, s, step), Subject(s, step);
    if ViewOf(s, id).tx.None? && ViewOf(s', id).tx.Some? {
      NewRowAccepts(c, s, step);
    } else {
      OthersAgree(c, s, step);
      StepEvolves(c, s, step, id);
      assert IdOk(c, s.now, ViewOf(s, id));
      hide Inv, Apply, Subject;
      OldRowDecides(c, s, s', id);
    }
  }

  lemma OldRowDecides(c: Config, s: World, s': World, id: Id)
    requires IdOk(c, s.now, ViewOf(s, id)) && Evolves(c, ViewOf(s, id), ViewOf(s', id))
    requires ViewOf(s, id).tx.None? ==> ViewOf(s', id).tx.None?
    requires forall j :: j != id ==> Find(Abs(s), j) == Find(Abs(s'), j)
    ensures SpecStep(c, Abs(s), Abs(s'))
  {
    var a, b := Abs(s), Abs(s');
    if EntryOf(ViewOf(s', id)) == EntryOf(ViewOf(s, id)) {
      SameLedger(a, b, id);
    } else {
      LedgerUpdate(a, b, id);
      assert DecidesOne(c, a, b, id);
    }
  }

  lemma OnlyPayInserts(c: Config, s: World, step: Step, id: Id)
    requires ViewOf(s, id).tx.None? && ViewOf(Apply(c, s, step), id).tx.Some?
    ensures step.Pay?
  {
    match step {
      case Start(_) | Throw(_) | Finalize(_) | MarkFailed(_) | Renew(_, _) => WorkersInsertNothing(c, s, step, id);
      case RecoverLeases => RecoveredView(c, s, id);
      case Pay(_, _, _, _) =>
      case _ => TablesSame(c, s, step, id);
    }
    hide Apply;
  }

  lemma WorkersInsertNothing(c: Config, s: World, step: Step, id: Id)
    requires step.Start? || step.Throw? || step.Finalize? || step.MarkFailed? || step.Renew?
    requires id !in s.db.txs
    ensures id !in Apply(c, s, step).db.txs
  {
    match step {
      case Throw(w) => ThrowInsertsNothing(c, s, w, id);
      case _ => hide ApplyThrow, Set, UpdateTx;
    }
  }

  lemma ThrowInsertsNothing(c: Config, s: World, w: WorkerId, id: Id)
    requires id !in s.db.txs
    ensures id !in ApplyThrow(c, s, w).db.txs
  {
    hide UpdateTx;
  }

  lemma SameLedger(a: Ledger, b: Ledger, id: Id)
    requires forall j :: j != id ==> Find(a, j) == Find(b, j)
    requires Find(a, id) == Find(b, id)
    ensures a == b
  {
    forall j ensures j in a <==> j in b ensures j in a ==> a[j] == b[j] { assert Find(a, j) == Find(b, j); }
  }

  lemma LedgerUpdate(a: Ledger, b: Ledger, id: Id)
    requires forall j :: j != id ==> Find(a, j) == Find(b, j)
    requires Find(b, id).Some?
    ensures id in b && b == a[id := b[id]]
  {
    SameLedger(a[id := b[id]], b, id);
  }

  lemma AcceptsNow(a: Ledger, b: Ledger, id: Id)
    requires id !in a && id in b && b == a[id := b[id]] && b[id].outcome.None?
    requires b[id].key.Some? ==> forall j :: j in a ==> a[j].key != b[id].key
    ensures Accepts(a, b)
  {
    assert AcceptsOne(a, b, id, b[id]);
  }
}
