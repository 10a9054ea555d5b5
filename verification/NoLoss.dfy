/**
 * No accepted payment is lost: with any number of outbox processes and workers, crashes of either,
 * and failed or half-failed enqueues, every transaction is final, or still has an unsent outbox
 * event, or has a job that can still be worked on.  Three things are excluded: a job stalls, an
 * expired lease is recovered, and a worker dies between its dead letter and the FAILED status;
 * Losses shows that each of them can lose a payment.
 */
module NoLoss {
  import opened Wrappers
  import opened Json
  import opened Tables
  import opened Protocol
  import opened Invariant
  import opened Lifecycle
  import opened Runs
  import L = OutboxLedger

  /** No active job stalls, no lease is taken back, and nobody dies before writing FAILED. */
  predicate Calm(c: Config, s: World, step: Step) {
    match step
    case Stall(id) => !(id in s.queue && s.queue[id].state.Active?)
    case RecoverLeases => forall id :: id in s.db.txs ==> !LeaseExpired(s.db.txs[id], s.now, c.staleMs)
    case CrashWorker(w) => !WorkerAt(s, w).DeadLettered?
    case _ => true
  }

  predicate CalmRun(c: Config, steps: seq<Step>) {
    forall i :: 0 <= i < |steps| ==> Calm(c, After(c, steps[..i]), steps[i])
  }

  predicate MarksFailure(h: Handler, id: Id) { h.DeadLettered? && h.id == id }

  /** The dead letter is saved and a worker is about to write FAILED. */
  ghost predicate Marking(s: World, id: Id) { exists w :: MarksFailure(WorkerAt(s, w), id) }

  predicate FailedAt(s: World, id: Id) { id in s.queue && s.queue[id].state == JobFailed }

  /** The transaction is final, or its job will be delivered, worked on or marked. */
  ghost predicate Carried(s: World, id: Id) {
    Decided(s, id) || (id in s.queue && (!FailedAt(s, id) || Marking(s, id)))
  }

  predicate ActiveJob(v: View, w: WorkerId) { v.job.Some? && v.job.value.state == Active(w) }

  /** A row in processing has its job in some worker's hands, or failed. */
  predicate IdCalm(v: View) {
    v.tx.Some? && v.tx.value.status == PROCESSING ==> v.job.Some? && v.job.value.state != Waiting
  }

  /** In a calm run a busy handler holds its job, so it is the only one on its transaction. */
  predicate HandlerCalm(w: WorkerId, h: Handler, v: View) {
    match h
    case Delivered(_, _) => ActiveJob(v, w) && v.tx.Some? && v.tx.value.status != PROCESSING
    case Seen(_, _, _) => ActiveJob(v, w) && v.tx.Some? && v.tx.value.status != PROCESSING
    case Claimed(_, _, _, _) =>
      ActiveJob(v, w) && v.tx.Some? && v.tx.value.status == PROCESSING && v.tx.value.claimant == Some(w)
    case Returned(_) => ActiveJob(v, w) && v.tx.Some? && Final(v.tx.value.status)
    case _ => true
  }

  predicate WorkerCalm(s: World, w: WorkerId) {
    HandlerCalm(w, WorkerAt(s, w), ViewOf(s, HandlerId(WorkerAt(s, w))))
  }

  ghost predicate CalmInv(s: World) {
    (forall id :: IdCalm(ViewOf(s, id))) && forall w :: WorkerCalm(s, w)
  }

  /** A sent event, and one whose enqueue has just succeeded, has a carrier. */
  ghost predicate SentCarried(s: World) {
    && (forall id :: id in s.db.events && s.db.events[id].status == SENT ==> Carried(s, id))
    && forall p :: SenderAt(s, p).batch != [] && SenderAt(s, p).phase == Added ==>
       Carried(s, SenderAt(s, p).batch[0].id)
  }

  /* ---- frames ---- */

  /** Either nothing others rely on changes, or w held the job, so there are no others. */
  predicate Exclusive(v: View, v': View, w: WorkerId) {
    || (v'.job == v.job && v'.tx.Some? && v.tx.Some? && v'.tx.value.status == v.tx.value.status
        && v'.tx.value.claimant == v.tx.value.claimant)
    || ActiveJob(v, w)
    || (v.job.None? || !v.job.value.state.Active?)
  }

  lemma ExclusiveKeeps(u: WorkerId, h: Handler, v: View, v': View, w: WorkerId)
    requires u != w && Exclusive(v, v', w) && HandlerCalm(u, h, v)
    ensures HandlerCalm(u, h, v')
  {
  }

  lemma CalmFrame(s: World, s': World, id: Id, w: WorkerId)
    requires CalmInv(s)
    requires forall j :: j != id ==> ViewOf(s', j) == ViewOf(s, j)
    requires forall u :: u != w ==> WorkerAt(s', u) == WorkerAt(s, u)
    requires Exclusive(ViewOf(s, id), ViewOf(s', id), w)
    requires IdCalm(ViewOf(s', id)) && WorkerCalm(s', w)
    ensures CalmInv(s')
  {
    hide ViewOf, IdCalm, HandlerCalm, Exclusive, WorkerAt, HandlerId;
    forall j ensures IdCalm(ViewOf(s', j)) { assert IdCalm(ViewOf(s, j)); }
    forall u ensures WorkerCalm(s', u) {
      assert WorkerCalm(s, u);
      if u != w && HandlerId(WorkerAt(s, u)) == id {
        ExclusiveKeeps(u, WorkerAt(s, u), ViewOf(s, id), ViewOf(s', id), w);
      }
    }
  }

  lemma CalmFrameWorker(s: World, w: WorkerId, h: Handler)
    requires CalmInv(s) && HandlerCalm(w, h, ViewOf(s, HandlerId(h)))
    ensures CalmInv(SetWorker(s, w, h))
  {
    var s' := SetWorker(s, w, h);
    forall j ensures ViewOf(s', j) == ViewOf(s, j) {}
    hide ViewOf, IdCalm, HandlerCalm;
    forall j ensures IdCalm(ViewOf(s', j)) { assert IdCalm(ViewOf(s, j)); }
    forall u ensures WorkerCalm(s', u) { assert WorkerCalm(s, u); }
  }

  lemma CalmSame(s: World, s': World)
    requires CalmInv(s) && s'.workers == s.workers
    requires forall j :: ViewOf(s', j) == ViewOf(s, j)
    ensures CalmInv(s')
  {
    hide ViewOf, IdCalm, HandlerCalm;
    forall j ensures IdCalm(ViewOf(s', j)) { assert IdCalm(ViewOf(s, j)); }
    forall u ensures WorkerCalm(s', u) { assert WorkerCalm(s, u); }
  }

  /* ---- preservation ---- */

  lemma CalmPay(c: Config, s: World, step: Step)
    requires Inv(c, s) && CalmInv(s) && step.Pay?
    ensures CalmInv(Apply(c, s, step))
  {
    var s' := Apply(c, s, step);
    assert IdOk(c, s.now, ViewOf(s, step.id)) && WorkerCalm(s, []) && WorkerOk(c, s, []);
    if Save(s.db, step.id, step.key, step.hash, c.sanitize(c.sanitize(step.payload))).1.Inserted? {
      PayInserts(c, s, step.id, step.key, step.hash, c.sanitize(c.sanitize(step.payload)));
      hide Inv, Save, IdOk, ViewOf;
      CalmFrame(s, s', step.id, []);
    }
  }

  lemma CalmEnqueue(c: Config, s: World, p: SenderId, added: bool, next: Phase)
    requires Inv(c, s) && CalmInv(s)
    ensures CalmInv(ApplyEnqueue(s, p, added, next))
  {
    var x, s' := SenderAt(s, p), ApplyEnqueue(s, p, added, next);
    if x.batch != [] && x.phase == Ready && added && x.batch[0].id !in s.queue {
      var id := x.batch[0].id;
      assert WorkerCalm(s, []) && IdCalm(ViewOf(s, id));
      hide Inv, CalmInv;
      OneView(s, s', id);
      CalmFrame(s, s', id, []);
    } else {
      forall j ensures ViewOf(s', j) == ViewOf(s, j) {}
      CalmSame(s, s');
    }
  }

  lemma CalmDeliver(c: Config, s: World, w: WorkerId, id: Id)
    requires Inv(c, s) && CalmInv(s)
    ensures CalmInv(ApplyDeliver(s, w, id))
  {
    var s' := ApplyDeliver(s, w, id);
    if WorkerAt(s, w) == Idle && id in s.queue && s.queue[id].state == Waiting {
      assert IdOk(c, s.now, ViewOf(s, id)) && IdCalm(ViewOf(s, id));
      hide Inv, CalmInv;
      OneView(s, s', id);
      CalmFrame(s, s', id, w);
    }
  }

  lemma CalmRead(c: Config, s: World, w: WorkerId)
    requires Inv(c, s) && CalmInv(s)
    ensures CalmInv(ApplyRead(c, s, w))
  {
    var h := WorkerAt(s, w);
    if h.Delivered? && h.id in s.db.txs {
      assert WorkerCalm(s, w);
      hide Inv, CalmInv;
      if s.db.txs[h.id].status != ACCEPTED {
        CalmFrameWorker(s, w, Returned(h.id));
      } else {
        CalmFrameWorker(s, w, Seen(h.id, c.sanitize(h.data), s.db.txs[h.id].timeline));
      }
    }
  }

  lemma CalmStart(c: Config, s: World, w: WorkerId)
    requires Inv(c, s) && CalmInv(s)
    ensures CalmInv(ApplyStart(c, s, w))
  {
    var h, s' := WorkerAt(s, w), ApplyStart(c, s, w);
    if h.Seen? && h.id in s.db.txs && h.id in s.starts {
      assert WorkerCalm(s, w);
      hide Inv, CalmInv;
      if s.db.txs[h.id].status == ACCEPTED {
        OneView(s, s', h.id);
        CalmFrame(s, s', h.id, w);
      } else {
        CalmFrameWorker(s, w, Returned(h.id));
      }
    }
  }

  lemma CalmFinalize(c: Config, s: World, w: WorkerId)
    requires Inv(c, s) && CalmInv(s)
    ensures CalmInv(ApplyFinalize(c, s, w))
  {
    var h, s' := WorkerAt(s, w), ApplyFinalize(c, s, w);
    if h.Claimed? && h.id in s.db.txs && !c.decide(h.data).Failed? {
      assert WorkerCalm(s, w);
      hide Inv, CalmInv;
      OneView(s, s', h.id);
      CalmFrame(s, s', h.id, w);
    }
  }

  lemma CalmThrow(c: Config, s: World, w: WorkerId)
    requires Inv(c, s) && CalmInv(s)
    ensures CalmInv(ApplyThrow(c, s, w))
  {
    var h := WorkerAt(s, w);
    if h.Claimed? && h.id in s.db.txs && c.decide(h.data).Failed? {
      assert WorkerCalm(s, w) && Holds(s, w, h.id);
      CalmThrown(c, s, w);
      ThrowViews(c, s, w);
      hide Inv, CalmInv, ApplyThrow;
      CalmFrame(s, ApplyThrow(c, s, w), h.id, w);
    }
  }

  lemma CalmThrown(c: Config, s: World, w: WorkerId)
    requires WorkerAt(s, w).Claimed? && WorkerAt(s, w).id in s.db.txs && c.decide(WorkerAt(s, w).data).Failed?
    requires WorkerCalm(s, w) && Holds(s, w, WorkerAt(s, w).id)
    ensures var s', id := ApplyThrow(c, s, w), WorkerAt(s, w).id;
            Exclusive(ViewOf(s, id), ViewOf(s', id), w) && IdCalm(ViewOf(s', id)) && WorkerCalm(s', w)
  {
  }

  lemma CalmMarkFailed(c: Config, s: World, w: WorkerId)
    requires Inv(c, s) && CalmInv(s)
    ensures CalmInv(ApplyMarkFailed(s, w))
  {
    var h, s' := WorkerAt(s, w), ApplyMarkFailed(s, w);
    if h.DeadLettered? {
      assert WorkerOk(c, s, w);
      hide Inv, CalmInv;
      OneView(s, s', h.id);
      CalmFrame(s, s', h.id, w);
    }
  }

  lemma CalmReturn(c: Config, s: World, w: WorkerId)
    requires Inv(c, s) && CalmInv(s)
    ensures CalmInv(ApplyReturn(s, w))
  {
    var h, s' := WorkerAt(s, w), ApplyReturn(s, w);
    if h.Returned? {
      assert WorkerCalm(s, w);
      hide Inv, CalmInv;
      OneView(s, s', h.id);
      CalmFrame(s, s', h.id, w);
    }
  }

  lemma CalmRenew(c: Config, s: World, w: WorkerId, id: Id)
    requires Inv(c, s) && CalmInv(s)
    ensures CalmInv(ApplyRenew(c, s, w, id))
  {
    var s' := ApplyRenew(c, s, w, id);
    if id in s.db.txs && RenewTx(s.db.txs[id], w, s.now, c.lease).Some? {
      assert IdCalm(ViewOf(s, id)) && WorkerCalm(s, w);
      hide Inv, CalmInv;
      OneView(s, s', id);
      RenewedCalm(c, s, s', w, id);
      CalmFrame(s, s', id, w);
    }
  }

  lemma RenewedCalm(c: Config, s: World, s': World, w: WorkerId, id: Id)
    requires id in s.db.txs && RenewTx(s.db.txs[id], w, s.now, c.lease).Some? && s' == ApplyRenew(c, s, w, id)
    requires WorkerCalm(s, w) && IdCalm(ViewOf(s, id))
    requires forall j :: j != id ==> ViewOf(s', j) == ViewOf(s, j)
    ensures WorkerCalm(s', w) && IdCalm(ViewOf(s', id)) && Exclusive(ViewOf(s, id), ViewOf(s', id), w)
  {
    var r := RenewTx(s.db.txs[id], w, s.now, c.lease);
    var v, v' := ViewOf(s, id), ViewOf(s', id);
    assert v' == v.(tx := r) && WorkerAt(s', w) == WorkerAt(s, w);
    assert r.value.status == v.tx.value.status && r.value.claimant == v.tx.value.claimant;
    hide ViewOf, RenewTx, ApplyRenew, WorkerAt;
    if HandlerId(WorkerAt(s, w)) == id { SameClaim(w, WorkerAt(s, w), v, v'); }
  }

  lemma SameClaim(w: WorkerId, h: Handler, v: View, v': View)
    requires HandlerCalm(w, h, v) && v.tx.Some? && v'.tx.Some? && v'.job == v.job
    requires v'.tx.value.status == v.tx.value.status && v'.tx.value.claimant == v.tx.value.claimant
    ensures HandlerCalm(w, h, v')
  {
  }

  lemma CalmStep(c: Config, s: World, step: Step)
    requires Inv(c, s) && CalmInv(s) && Calm(c, s, step)
    ensures CalmInv(Apply(c, s, step))
  {
    hide Inv, CalmInv, Calm, ApplyEnqueue, ApplyDeliver, ApplyRead, ApplyStart, ApplyFinalize, ApplyThrow,
      ApplyMarkFailed, ApplyReturn, ApplyRenew, ApplyPay;
    match step {
      case Stall(_) | RecoverLeases => CalmRecovery(c, s, step);
      case Pay(_, _, _, _) => CalmPay(c, s, step);
      case Enqueue(p) => CalmEnqueue(c, s, p, true, Added);
      case EnqueueFails(p, added) => CalmEnqueue(c, s, p, added, Errored);
      case Deliver(w, id) => CalmDeliver(c, s, w, id);
      case Read(w) => CalmRead(c, s, w);
      case Start(w) => CalmStart(c, s, w);
      case Finalize(w) => CalmFinalize(c, s, w);
      case Throw(w) => CalmThrow(c, s, w);
      case MarkFailed(w) => CalmMarkFailed(c, s, w);
      case Return(w) => CalmReturn(c, s, w);
      case Renew(w, id) => CalmRenew(c, s, w, id);
      case CrashWorker(w) => CalmFrameWorker(s, w, Dead);
      case _ =>
        AsideKeepsViews(c, s, step);
        CalmSame(s, Apply(c, s, step));
    }
  }

  /** A calm recovery or stall changes nothing. */
  lemma CalmRecovery(c: Config, s: World, step: Step)
    requires Calm(c, s, step) && (step.Stall? || step.RecoverLeases?)
    ensures Apply(c, s, step) == s
  {
    assert step.RecoverLeases? ==> RecoverTxs(s.db.txs, s.now, c.staleMs) == s.db.txs;
  }

  lemma AsideKeepsViews(c: Config, s: World, step: Step)
    requires step.RecoverOutbox? || step.ClaimOutbox? || step.MarkSent? || step.MarkSentFails? || step.MarkPending?
             || step.CrashSender? || step.Tick?
    ensures forall j :: ViewOf(Apply(c, s, step), j) == ViewOf(s, j)
    ensures Apply(c, s, step).workers == s.workers
  {
    forall j ensures ViewOf(Apply(c, s, step), j) == ViewOf(s, j) { OtherStepEvolves(c, s, step, j); }
  }

  /** A worker about to write FAILED writes it, or dies, or is still about to. */
  lemma MarkerAfter(c: Config, s: World, step: Step, w: WorkerId)
    requires WorkerAt(s, w).DeadLettered?
    ensures WorkerAt(Apply(c, s, step), w) == WorkerAt(s, w) || step == MarkFailed(w) || step == CrashWorker(w)
  {
    if Mover(step) == Some(w) { OwnMove(c, s, step); } else { OthersStay(c, s, step, w); }
    hide Apply;
  }

  /** A job is removed by a return alone, and fails only when its holder's throw saves the dead letter. */
  lemma JobAfter(c: Config, s: World, step: Step, id: Id)
    requires id in s.queue && !step.Return?
    ensures id in Apply(c, s, step).queue
    ensures FailedAt(Apply(c, s, step), id) ==>
              FailedAt(s, id) || (step.Throw? && MarksFailure(WorkerAt(Apply(c, s, step), step.w), id))
  {
    if step.Throw? {
      JobAfterThrow(c, s, step.w, id);
      hide ApplyThrow;
    } else {
      hide UpdateTx, FinalizeTx, StartTx, RenewTx, ApplyThrow, WorkerAt, MarksFailure;
    }
  }

  lemma JobAfterThrow(c: Config, s: World, w: WorkerId, id: Id)
    requires id in s.queue
    ensures id in ApplyThrow(c, s, w).queue
    ensures FailedAt(ApplyThrow(c, s, w), id) ==>
              FailedAt(s, id) || MarksFailure(WorkerAt(ApplyThrow(c, s, w), w), id)
  {
    hide UpdateTx;
  }

  lemma MarkedIsDecided(c: Config, s: World, w: WorkerId, id: Id)
    requires MarksFailure(WorkerAt(s, w), id) && id in s.db.txs
    ensures Decided(Apply(c, s, MarkFailed(w)), id)
  {
  }

  /** The last worker that would write FAILED dies. */
  ghost predicate AbandonsFailure(s: World, step: Step, id: Id) {
    && step.CrashWorker? && MarksFailure(WorkerAt(s, step.w), id) && !Decided(s, id)
    && forall v :: v != step.w ==> !MarksFailure(WorkerAt(s, v), id)
  }

  /** In any run: a marker's transaction is marked, or still has a marker, or is abandoned. */
  lemma MarkingAfter(c: Config, s: World, step: Step, id: Id)
    requires Marking(s, id) && id in s.db.txs && !Decided(s, id)
    ensures var s' := Apply(c, s, step);
            if AbandonsFailure(s, step, id) then !Marking(s', id) else Marking(s', id) || Decided(s', id)
  {
    var w :| MarksFailure(WorkerAt(s, w), id);
    if AbandonsFailure(s, step, id) {
      var s' := Apply(c, s, step);
      forall v ensures !MarksFailure(WorkerAt(s', v), id) { assert v != step.w ==> WorkerAt(s', v) == WorkerAt(s, v); }
    } else {
      var v := w;
      if step == CrashWorker(w) { v :| v != w && MarksFailure(WorkerAt(s, v), id); }
      MarkerAfter(c, s, step, v);
      if step == MarkFailed(v) { MarkedIsDecided(c, s, v, id); }
      hide Apply;
      assert WorkerAt(Apply(c, s, step), v) == WorkerAt(s, v) ==> MarksFailure(WorkerAt(Apply(c, s, step), v), id);
    }
  }

  /** A carrier is given up only by a return, or by the death of the last marker. */
  lemma CarriedAfter(c: Config, s: World, step: Step, id: Id)
    requires ConfigOk(c) && Inv(c, s) && Carried(s, id) && !step.Return?
    ensures Carried(Apply(c, s, step), id) <==> !AbandonsFailure(s, step, id)
  {
    if Decided(s, id) {
      StepEvolves(c, s, step, id);
      assert IdOk(c, s.now, ViewOf(s, id));
    } else {
      assert id in s.db.txs by { assert IdOk(c, s.now, ViewOf(s, id)); }
      JobAfter(c, s, step, id);
      if AbandonsFailure(s, step, id) {
        MarkerFails(c, s, step.w, id);
        MarkingAfter(c, s, step, id);
        CrashLeavesRest(c, s, step.w);
      } else if FailedAt(s, id) {
        MarkingAfter(c, s, step, id);
      } else {
        hide Apply, Decided;
      }
    }
  }

  lemma MarkerFails(c: Config, s: World, w: WorkerId, id: Id)
    requires Inv(c, s) && MarksFailure(WorkerAt(s, w), id)
    ensures FailedAt(s, id) && id in s.db.txs
  {
    assert WorkerOk(c, s, w);
  }

  lemma CrashLeavesRest(c: Config, s: World, w: WorkerId)
    ensures Apply(c, s, CrashWorker(w)).db == s.db && Apply(c, s, CrashWorker(w)).queue == s.queue
  {
  }

  /** In a calm run a carrier is never given up. */
  lemma CarriedStays(c: Config, s: World, step: Step, id: Id)
    requires ConfigOk(c) && Inv(c, s) && CalmInv(s) && Calm(c, s, step) && Carried(s, id)
    ensures Carried(Apply(c, s, step), id)
  {
    if step.Return? {
      ReturnCalm(c, s, step.w, id);
    } else {
      CarriedAfter(c, s, step, id);
    }
  }

  lemma ReturnCalm(c: Config, s: World, w: WorkerId, id: Id)
    requires CalmInv(s) && Carried(s, id)
    ensures Carried(ApplyReturn(s, w), id)
  {
    assert WorkerCalm(s, w);
    ReturnQueue(s, w, id);
    ReturnMarking(s, w, id);
    hide CalmInv;
  }

  lemma ReturnMarking(s: World, w: WorkerId, id: Id)
    ensures Marking(s, id) ==> Marking(ApplyReturn(s, w), id)
  {
    if Marking(s, id) {
      var v :| MarksFailure(WorkerAt(s, v), id);
      assert WorkerAt(ApplyReturn(s, w), v) == WorkerAt(s, v);
    }
  }

  /** A failed job has its marker, or the row is final. */
  ghost predicate FailedCarried(s: World) { forall id :: FailedAt(s, id) ==> Carried(s, id) }

  lemma FailedStep(c: Config, s: World, step: Step)
    requires ConfigOk(c) && Inv(c, s) && CalmInv(s) && FailedCarried(s) && Calm(c, s, step)
    ensures FailedCarried(Apply(c, s, step))
  {
    var s' := Apply(c, s, step);
    forall id | FailedAt(s', id) ensures Carried(s', id) {
      if id in s.queue {
        CarriedStays(c, s, step, id);
      } else {
        NewJobWaits(c, s, step, id);
        assert false;
      }
    }
  }

  lemma NewJobWaits(c: Config, s: World, step: Step, id: Id)
    requires id !in s.queue && id in Apply(c, s, step).queue
    ensures !FailedAt(Apply(c, s, step), id)
  {
    hide UpdateTx, FinalizeTx, StartTx, RenewTx;
  }

  lemma SentStep(c: Config, s: World, step: Step)
    requires ConfigOk(c) && Inv(c, s) && CalmInv(s) && SentCarried(s) && FailedCarried(s) && Calm(c, s, step)
    ensures SentCarried(Apply(c, s, step))
  {
    var s' := Apply(c, s, step);
    forall id | id in s'.db.events && s'.db.events[id].status == SENT ensures Carried(s', id) {
      if id in s.db.events {
        L.EventAfter(c, s, step, id);
        if L.MarksHead(s, step, id) { assert Carried(s, id); }
        CarriedStays(c, s, step, id);
      } else {
        L.EventsOnlyByPay(c, s, step, id);
      }
    }
    forall p | SenderAt(s', p).batch != [] && SenderAt(s', p).phase == Added
      ensures Carried(s', SenderAt(s', p).batch[0].id)
    {
      if step == Enqueue(p) && SenderAt(s, p).batch != [] && SenderAt(s, p).phase == Ready {
        EnqueuedNow(s, p);
        FailedStep(c, s, step);
        hide Apply, Inv, CalmInv;
      } else {
        AddedBefore(c, s, step, p);
        CarriedStays(c, s, step, SenderAt(s, p).batch[0].id);
      }
    }
  }

  lemma EnqueuedNow(s: World, p: SenderId)
    requires SenderAt(s, p).batch != [] && SenderAt(s, p).phase == Ready
    ensures var s' := ApplyEnqueue(s, p, true, Added);
            SenderAt(s', p).batch != [] && SenderAt(s', p).batch[0].id in s'.queue
  {
  }

  lemma AddedBefore(c: Config, s: World, step: Step, p: SenderId)
    requires var x := SenderAt(Apply(c, s, step), p); x.batch != [] && x.phase == Added
    requires !(step == Enqueue(p) && SenderAt(s, p).batch != [] && SenderAt(s, p).phase == Ready)
    ensures SenderAt(s, p) == SenderAt(Apply(c, s, step), p)
  {
    match step {
      case Start(_) | Throw(_) | Finalize(_) | MarkFailed(_) | Renew(_, _) | Read(_) | Return(_) | Deliver(_, _) =>
        WorkersLeaveEvents(c, s, step);
      case _ => AddedAside(c, s, step, p);
    }
    hide Apply;
  }

  lemma AddedAside(c: Config, s: World, step: Step, p: SenderId)
    requires !WorkerStep(step)
    requires var x := SenderAt(Apply(c, s, step), p); x.batch != [] && x.phase == Added
    requires !(step == Enqueue(p) && SenderAt(s, p).batch != [] && SenderAt(s, p).phase == Ready)
    ensures SenderAt(s, p) == SenderAt(Apply(c, s, step), p)
  {
  }

  lemma {:induction false} CalmAlways(c: Config, steps: seq<Step>)
    requires ConfigOk(c) && CalmRun(c, steps)
    ensures CalmInv(After(c, steps)) && FailedCarried(After(c, steps)) && SentCarried(After(c, steps))
    decreases |steps|
  {
    if steps != [] {
      var n := |steps| - 1;
      CalmPrefix(c, steps);
      hide Inv, CalmInv, FailedCarried, SentCarried, Apply, ConfigOk, Calm, CalmRun;
      CalmAlways(c, steps[..n]);
      RunKeeps(c, steps[..n]);
      CalmAllStep(c, After(c, steps[..n]), steps[n]);
    } else {
      CalmInit(c);
    }
  }

  lemma CalmInit(c: Config)
    ensures CalmInv(Init()) && FailedCarried(Init()) && SentCarried(Init())
  {
  }

  lemma CalmPrefix(c: Config, steps: seq<Step>)
    requires CalmRun(c, steps) && steps != []
    ensures CalmRun(c, steps[..|steps| - 1]) && Calm(c, After(c, steps[..|steps| - 1]), steps[|steps| - 1])
  {
    hide Calm, Run;
    var n := |steps| - 1;
    forall i | 0 <= i < n ensures Calm(c, After(c, steps[..n][..i]), steps[..n][i]) {
      assert steps[..n][i] == steps[i] && steps[..n][..i] == steps[..i];
    }
  }

  lemma CalmAllStep(c: Config, s: World, step: Step)
    requires ConfigOk(c) && Inv(c, s) && CalmInv(s) && FailedCarried(s) && SentCarried(s) && Calm(c, s, step)
    ensures var s' := Apply(c, s, step); CalmInv(s') && FailedCarried(s') && SentCarried(s')
  {
    hide *;
    CalmStep(c, s, step);
    FailedStep(c, s, step);
    SentStep(c, s, step);
  }

  /** The transaction has a carrier, or no job yet and an event that is not sent. */
  ghost predicate Safe(s: World, id: Id) {
    id in s.db.txs && (Carried(s, id) || (id !in s.queue && id in s.db.events && s.db.events[id].status != SENT))
  }

  /** No accepted payment is lost in a calm run. */
  lemma NothingLost(c: Config, steps: seq<Step>, id: Id)
    requires ConfigOk(c) && CalmRun(c, steps) && id in After(c, steps).db.txs
    ensures Safe(After(c, steps), id)
  {
    CalmAlways(c, steps);
    RunKeeps(c, steps);
    assert IdOk(c, After(c, steps).now, ViewOf(After(c, steps), id));
    hide Run;
  }

  /* ---- any run ---- */

  /** The handler returned without the row being final, and the queue drops the job of a sent event. */
  predicate DropsCarrier(s: World, step: Step, id: Id) {
    && step.Return? && WorkerAt(s, step.w) == Returned(id) && Holds(s, step.w, id) && !Decided(s, id)
    && id in s.db.events && s.db.events[id].status == SENT
  }

  /** An event is marked sent although its job is already gone and the row is not final. */
  predicate MarksUncarried(s: World, step: Step, id: Id) {
    step.MarkSent? && L.MarksHead(s, step, id) && id !in s.queue && !Decided(s, id)
  }

  /** In any run at all, a step loses a payment exactly in these three ways. */
  lemma LosesIff(c: Config, s: World, step: Step, id: Id)
    requires ConfigOk(c) && Inv(c, s) && Safe(s, id)
    ensures !Safe(Apply(c, s, step), id)
            <==> DropsCarrier(s, step, id) || MarksUncarried(s, step, id) || AbandonsFailure(s, step, id)
  {
    RowStays(c, s, step, id);
    if Carried(s, id) {
      if step.Return? {
        ReturnLoses(c, s, step.w, id);
      } else {
        CarriedAfter(c, s, step, id);
        CarriedLoses(c, s, step, id);
      }
    } else {
      UncarriedLoses(c, s, step, id);
    }
    hide Apply, Safe;
  }

  lemma RowStays(c: Config, s: World, step: Step, id: Id)
    requires ConfigOk(c) && Inv(c, s) && id in s.db.txs
    ensures id in Apply(c, s, step).db.txs && id in s.db.events && id in Apply(c, s, step).db.events
  {
    StepEvolves(c, s, step, id);
    assert IdOk(c, s.now, ViewOf(s, id));
    hide Apply;
  }

  lemma ReturnLoses(c: Config, s: World, w: WorkerId, id: Id)
    requires Inv(c, s) && Carried(s, id) && id in s.db.txs && id in s.db.events
    ensures !Safe(ApplyReturn(s, w), id) <==> DropsCarrier(s, Return(w), id)
  {
    ReturnQueue(s, w, id);
    ReturnMarking(s, w, id);
    hide Inv;
  }

  lemma CarriedLoses(c: Config, s: World, step: Step, id: Id)
    requires Inv(c, s) && Carried(s, id) && !step.Return? && id in s.db.txs && id in Apply(c, s, step).db.txs
    requires Carried(Apply(c, s, step), id) <==> !AbandonsFailure(s, step, id)
    ensures !Safe(Apply(c, s, step), id) <==> AbandonsFailure(s, step, id)
    ensures !MarksUncarried(s, step, id)
  {
    if AbandonsFailure(s, step, id) {
      MarkerFails(c, s, step.w, id);
      CrashLeavesRest(c, s, step.w);
    }
    hide Inv, Apply, AbandonsFailure;
  }

  lemma UncarriedLoses(c: Config, s: World, step: Step, id: Id)
    requires ConfigOk(c) && Inv(c, s) && Safe(s, id) && !Carried(s, id) && id in Apply(c, s, step).db.txs
    requires id in s.db.events && id in Apply(c, s, step).db.events
    ensures !Safe(Apply(c, s, step), id) <==> MarksUncarried(s, step, id)
    ensures !AbandonsFailure(s, step, id) && !DropsCarrier(s, step, id)
  {
    if step.CrashWorker? && MarksFailure(WorkerAt(s, step.w), id) {
      MarkerFails(c, s, step.w, id);
      assert false;
    }
    hide Inv;
    if id in Apply(c, s, step).queue {
      QueuedNow(c, s, step, id);
    } else {
      UnqueuedStill(c, s, step, id);
    }
    hide Apply, Carried;
  }

  lemma QueuedNow(c: Config, s: World, step: Step, id: Id)
    requires id !in s.queue && id in Apply(c, s, step).queue && id in Apply(c, s, step).db.txs
    ensures Carried(Apply(c, s, step), id) && !step.MarkSent?
  {
    NewJobWaits(c, s, step, id);
    if step.MarkSent? { MarkLeavesRest(s, step.p); }
    hide Apply;
  }

  lemma UnqueuedStill(c: Config, s: World, step: Step, id: Id)
    requires id !in s.queue && id !in Apply(c, s, step).queue && !Decided(s, id)
    requires id in s.db.txs && id in Apply(c, s, step).db.txs
    requires id in s.db.events && s.db.events[id].status != SENT && id in Apply(c, s, step).db.events
    ensures !Safe(Apply(c, s, step), id) <==> MarksUncarried(s, step, id)
  {
    L.EventAfter(c, s, step, id);
    if step.MarkSent? { MarkLeavesRest(s, step.p); }
    hide Apply;
  }

  lemma ReturnQueue(s: World, w: WorkerId, id: Id)
    ensures var s' := ApplyReturn(s, w);
            && s'.db == s.db
            && (id in s'.queue <==> id in s.queue && !(WorkerAt(s, w) == Returned(id) && Holds(s, w, id)))
            && (id in s'.queue ==> s'.queue[id] == s.queue[id])
  {
  }

  lemma MarkLeavesRest(s: World, p: SenderId)
    ensures ApplyMarkSent(s, p).queue == s.queue && ApplyMarkSent(s, p).db.txs == s.db.txs
  {
  }
}
