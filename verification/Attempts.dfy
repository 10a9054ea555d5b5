/**
 * How many attempts a payment has had: the retry_count column against the queue's own count, and the
 * entries of the timeline against the number of claims.
 */
module Attempts {
  import opened Wrappers
  import opened Json
  import opened Columns
  import opened Tables
  import opened Protocol
  import opened Invariant
  import opened Lifecycle
  import opened NoLoss
  import opened Runs
  import D = Decisions

  /* ---- one heard failure ---- */

  predicate Heard(c: Config, s: World, w: WorkerId) {
    var h := WorkerAt(s, w);
    h.Claimed? && h.id in s.db.txs && c.decide(h.data).Failed? && Holds(s, w, h.id)
  }

  /**
   * A failure the queue hears counts one attempt.  While fewer than three were made, the row is
   * accepted again with the queue's count and the decision's reason; the third leaves a dead letter.
   */
  lemma HeardFailure(c: Config, s: World, w: WorkerId)
    requires Heard(c, s, w)
    ensures var h, s' := WorkerAt(s, w), Apply(c, s, Throw(w));
            var reason := c.decide(h.data).reason;
            && h.id in s'.queue && s'.queue[h.id].attemptsMade == s.queue[h.id].attemptsMade + 1
            && h.id in s'.db.txs
            && if s'.queue[h.id].attemptsMade < 3 then
                 s'.queue[h.id].state == Waiting
                 && Marked(s'.db.txs[h.id], s.db.txs[h.id], ACCEPTED, s'.queue[h.id].attemptsMade, reason)
                 && s'.db.dead == s.db.dead
               else
                 s'.queue[h.id].state == JobFailed && s'.db.txs == s.db.txs && h.id in s'.db.dead
                 && s'.db.dead[h.id].attemptsMade == s'.queue[h.id].attemptsMade && s'.db.dead[h.id].reason == reason
  {
  }

  /** A failure the queue does not hear changes nothing but its handler. */
  lemma Unheard(c: Config, s: World, w: WorkerId, id: Id)
    requires !Heard(c, s, w)
    ensures ViewOf(ApplyThrow(c, s, w), id) == ViewOf(s, id)
  {
    hide UpdateTx;
  }

  /* ---- the row's count and the queue's ---- */

  /** An undecided row and its live job count the same attempts. */
  predicate Agrees(v: View) {
    v.tx.Some? && !Final(v.tx.value.status) && v.job.Some? && v.job.value.state != JobFailed ==>
      v.tx.value.retryCount == v.job.value.attemptsMade
  }

  /** Counts are kept, and a final row stays final. */
  predicate SameCounts(v: View, v': View) {
    && (v.tx.Some? <==> v'.tx.Some?) && (v.job.Some? <==> v'.job.Some?)
    && (v.tx.Some? ==> v'.tx.value.retryCount == v.tx.value.retryCount
                       && (Final(v.tx.value.status) ==> Final(v'.tx.value.status)))
    && (v.job.Some? ==> v'.job.value.attemptsMade == v.job.value.attemptsMade
                        && (v'.job.value.state == JobFailed <==> v.job.value.state == JobFailed))
  }

  predicate CountsStep(step: Step) {
    step.Pay? || step.Enqueue? || step.EnqueueFails? || step.Throw? || step.MarkFailed? || step.Return?
  }

  lemma StartCounts(c: Config, s: World, w: WorkerId, id: Id)
    ensures SameCounts(ViewOf(s, id), ViewOf(ApplyStart(c, s, w), id))
  {
  }

  lemma FinalizeCounts(c: Config, s: World, w: WorkerId, id: Id)
    ensures SameCounts(ViewOf(s, id), ViewOf(ApplyFinalize(c, s, w), id))
  {
  }

  lemma RenewCounts(c: Config, s: World, w: WorkerId, renewed: Id, id: Id)
    ensures SameCounts(ViewOf(s, id), ViewOf(ApplyRenew(c, s, w, renewed), id))
  {
  }

  lemma QueueCounts(c: Config, s: World, step: Step, id: Id)
    requires step.Deliver? || step.Stall?
    ensures SameCounts(ViewOf(s, id), ViewOf(Apply(c, s, step), id))
  {
  }

  lemma OtherCounts(c: Config, s: World, step: Step, id: Id)
    requires !CountsStep(step)
    ensures SameCounts(ViewOf(s, id), ViewOf(Apply(c, s, step), id))
  {
    hide SameCounts, ViewOf, ApplyStart, ApplyFinalize, ApplyRenew, ApplyDeliver, ApplyStall;
    match step {
      case Start(w) => StartCounts(c, s, w, id);
      case Finalize(w) => FinalizeCounts(c, s, w, id);
      case Renew(w, j) => RenewCounts(c, s, w, j, id);
      case RecoverLeases => RecoveredCounts(c, s, id);
      case Deliver(_, _) | Stall(_) => QueueCounts(c, s, step, id);
      case _ =>
        OtherStepEvolves(c, s, step, id);
        KeptCounts(ViewOf(s, id));
    }
  }

  lemma KeptCounts(v: View)
    ensures SameCounts(v, v)
  {
  }

  lemma RecoveredCounts(c: Config, s: World, id: Id)
    ensures SameCounts(ViewOf(s, id), ViewOf(Apply(c, s, RecoverLeases), id))
  {
    RecoveredView(c, s, id);
    hide Apply;
  }

  /** An enqueue puts a fresh job in the queue for a row that has failed attempts behind it. */
  predicate AddsAfresh(s: World, step: Step, id: Id) {
    && (step.Enqueue? || (step.EnqueueFails? && step.added))
    && var x := SenderAt(s, step.p);
    && x.batch != [] && x.phase == Ready && x.batch[0].id == id && id !in s.queue
    && id in s.db.txs && !Final(s.db.txs[id].status) && s.db.txs[id].retryCount != 0
  }

  lemma EnqueueAgrees(c: Config, s: World, p: SenderId, added: bool, next: Phase, step: Step, id: Id)
    requires Agrees(ViewOf(s, id))
    requires (step == Enqueue(p) && added) || step == EnqueueFails(p, added)
    ensures Agrees(ViewOf(ApplyEnqueue(s, p, added, next), id)) <==> !AddsAfresh(s, step, id)
  {
  }

  lemma ThrowAgrees(c: Config, s: World, w: WorkerId, id: Id)
    requires Agrees(ViewOf(s, id))
    ensures Agrees(ViewOf(ApplyThrow(c, s, w), id))
  {
    var h := WorkerAt(s, w);
    if Heard(c, s, w) {
      HeardFailure(c, s, w);
      ThrowViews(c, s, w);
    } else {
      Unheard(c, s, w, id);
    }
    hide ApplyThrow;
  }

  lemma MarkFailedAgrees(c: Config, s: World, w: WorkerId, id: Id)
    requires Agrees(ViewOf(s, id))
    ensures Agrees(ViewOf(ApplyMarkFailed(s, w), id))
  {
  }

  lemma ReturnAgrees(s: World, w: WorkerId, id: Id)
    requires Agrees(ViewOf(s, id))
    ensures Agrees(ViewOf(ApplyReturn(s, w), id))
  {
  }

  lemma PayAgrees(c: Config, s: World, step: Step, id: Id)
    requires step.Pay? && IdOk(c, s.now, ViewOf(s, id)) && Agrees(ViewOf(s, id))
    ensures Agrees(ViewOf(Apply(c, s, step), id))
  {
  }

  lemma CountsAgree(c: Config, s: World, step: Step, id: Id)
    requires CountsStep(step) && IdOk(c, s.now, ViewOf(s, id)) && Agrees(ViewOf(s, id))
    ensures Agrees(ViewOf(Apply(c, s, step), id)) <==> !AddsAfresh(s, step, id)
  {
    hide IdOk, ViewOf, Agrees, ApplyEnqueue, ApplyThrow, ApplyMarkFailed, ApplyReturn, ApplyPay;
    match step {
      case Pay(_, _, _, _) => PayAgrees(c, s, step, id);
      case Enqueue(p) => EnqueueAgrees(c, s, p, true, Added, step, id);
      case EnqueueFails(p, added) => EnqueueAgrees(c, s, p, added, Errored, step, id);
      case Throw(w) => ThrowAgrees(c, s, w, id);
      case MarkFailed(w) => MarkFailedAgrees(c, s, w, id);
      case Return(w) => ReturnAgrees(s, w, id);
    }
  }

  lemma SameCountsAgree(v: View, v': View)
    requires SameCounts(v, v')
    ensures Agrees(v) ==> Agrees(v')
    ensures Counted(v) ==> Counted(v')
  {
  }

  /**
   * The row's count and the live job's count part exactly when a payment with failed attempts
   * behind it is put in the queue again after its job was dropped.
   */
  lemma AgreesIff(c: Config, s: World, step: Step, id: Id)
    requires Inv(c, s) && Agrees(ViewOf(s, id))
    ensures Agrees(ViewOf(Apply(c, s, step), id)) <==> !AddsAfresh(s, step, id)
  {
    assert IdOk(c, s.now, ViewOf(s, id));
    if CountsStep(step) {
      CountsAgree(c, s, step, id);
    } else {
      OtherCounts(c, s, step, id);
      SameCountsAgree(ViewOf(s, id), ViewOf(Apply(c, s, step), id));
    }
    hide Inv, IdOk, ViewOf, Agrees, SameCounts, Apply;
  }

  /** A failure the queue hears brings them together again. */
  lemma FailureAgrees(c: Config, s: World, w: WorkerId)
    requires Heard(c, s, w)
    ensures Agrees(ViewOf(Apply(c, s, Throw(w)), WorkerAt(s, w).id))
  {
    HeardFailure(c, s, w);
    hide Apply;
  }

  /* ---- calm runs ---- */

  /** No attempts without a job, as many as the live job's, one less than the failed job's. */
  predicate Counted(v: View) {
    v.tx.Some? && !Final(v.tx.value.status) ==>
      v.tx.value.retryCount
      == if v.job.None? then 0
         else if v.job.value.state == JobFailed then v.job.value.attemptsMade - 1 else v.job.value.attemptsMade
  }

  lemma EnqueueCounted(s: World, p: SenderId, added: bool, next: Phase, id: Id)
    requires Counted(ViewOf(s, id))
    ensures Counted(ViewOf(ApplyEnqueue(s, p, added, next), id))
  {
  }

  lemma ThrowCounted(c: Config, s: World, w: WorkerId, id: Id)
    requires Counted(ViewOf(s, id))
    ensures Counted(ViewOf(ApplyThrow(c, s, w), id))
  {
    if Heard(c, s, w) {
      HeardFailure(c, s, w);
      ThrowViews(c, s, w);
    } else {
      Unheard(c, s, w, id);
    }
    hide ApplyThrow;
  }

  lemma MarkFailedCounted(c: Config, s: World, w: WorkerId, id: Id)
    requires Counted(ViewOf(s, id))
    ensures Counted(ViewOf(ApplyMarkFailed(s, w), id))
  {
  }

  lemma ReturnCounted(s: World, w: WorkerId, id: Id)
    requires Counted(ViewOf(s, id)) && WorkerCalm(s, w)
    ensures Counted(ViewOf(ApplyReturn(s, w), id))
  {
  }

  lemma PayCounted(c: Config, s: World, step: Step, id: Id)
    requires step.Pay? && IdOk(c, s.now, ViewOf(s, id)) && Counted(ViewOf(s, id))
    ensures Counted(ViewOf(Apply(c, s, step), id))
  {
  }

  lemma CountsCounted(c: Config, s: World, step: Step, id: Id)
    requires CountsStep(step) && IdOk(c, s.now, ViewOf(s, id)) && Counted(ViewOf(s, id))
    requires step.Return? ==> WorkerCalm(s, step.w)
    ensures Counted(ViewOf(Apply(c, s, step), id))
  {
    hide IdOk, ViewOf, Counted, WorkerCalm, ApplyEnqueue, ApplyThrow, ApplyMarkFailed, ApplyReturn, ApplyPay;
    match step {
      case Pay(_, _, _, _) => PayCounted(c, s, step, id);
      case Enqueue(p) => EnqueueCounted(s, p, true, Added, id);
      case EnqueueFails(p, added) => EnqueueCounted(s, p, added, Errored, id);
      case Throw(w) => ThrowCounted(c, s, w, id);
      case MarkFailed(w) => MarkFailedCounted(c, s, w, id);
      case Return(w) => ReturnCounted(s, w, id);
    }
  }

  lemma CountedStep(c: Config, s: World, step: Step, id: Id)
    requires Inv(c, s) && CalmInv(s) && Counted(ViewOf(s, id))
    ensures Counted(ViewOf(Apply(c, s, step), id))
  {
    assert IdOk(c, s.now, ViewOf(s, id)) && (step.Return? ==> WorkerCalm(s, step.w));
    if CountsStep(step) {
      CountsCounted(c, s, step, id);
    } else {
      OtherCounts(c, s, step, id);
      SameCountsAgree(ViewOf(s, id), ViewOf(Apply(c, s, step), id));
    }
    hide Inv, CalmInv, IdOk, ViewOf, WorkerCalm, Counted, SameCounts, Apply;
  }

  /**
   * In the runs of NothingLost the retry_count of an undecided row is the number of attempts the
   * queue has counted: none before the first failure, one less than the failed job's at the end.
   */
  lemma {:induction false} CalmCounts(c: Config, steps: seq<Step>, id: Id)
    requires ConfigOk(c) && CalmRun(c, steps)
    ensures Counted(ViewOf(After(c, steps), id))
    decreases |steps|
  {
    if steps != [] {
      var n := |steps| - 1;
      CalmPrefix(c, steps);
      hide CalmRun;
      CalmCounts(c, steps[..n], id);
      CalmAlways(c, steps[..n]);
      RunKeeps(c, steps[..n]);
      CountedStep(c, After(c, steps[..n]), steps[n], id);
      hide Apply, ViewOf, CalmInv, Inv, Counted;
    }
  }

  /* ---- the timeline ---- */

  /** The entries a row has beyond one for each claim. */
  function Extra(status: TxStatus): nat {
    match status
    case COMPLETED => 3
    case DECLINED => 2
    case _ => 1
  }

  /** No more processing entries than claims, not counting the second one a completion writes. */
  predicate ShortRow(v: View) {
    v.tx.Some? && v.starts.Some? ==> |v.tx.value.timeline| <= v.starts.value + Extra(v.tx.value.status)
  }

  predicate ShortHandler(h: Handler, v: View) {
    match h
    case Seen(_, _, timeline) => v.starts.Some? ==> |timeline| <= v.starts.value + 1
    case Claimed(_, _, timeline, epoch) => |timeline| <= epoch + 1
    case _ => true
  }

  predicate ShortWorker(s: World, w: WorkerId) { ShortHandler(WorkerAt(s, w), ViewOf(s, HandlerId(WorkerAt(s, w)))) }

  ghost predicate Short(s: World) {
    (forall id :: ShortRow(ViewOf(s, id))) && forall w :: ShortWorker(s, w)
  }

  /** Timeline and claims stay, and the status allows as many entries as before. */
  predicate NotLonger(v: View, v': View) {
    && (v.tx.Some? <==> v'.tx.Some?) && v'.starts == v.starts
    && (v.tx.Some? ==> v'.tx.value.timeline == v.tx.value.timeline
                       && Extra(v.tx.value.status) <= Extra(v'.tx.value.status))
  }

  /** A step that is no claim, finalize or request lengthens no timeline. */
  lemma QuietTimeline(c: Config, s: World, step: Step, id: Id)
    requires Inv(c, s) && !step.Pay? && !step.Start? && !step.Finalize?
    ensures NotLonger(ViewOf(s, id), ViewOf(Apply(c, s, step), id))
  {
    assert IdOk(c, s.now, ViewOf(s, id));
    hide Inv, IdOk, ViewOf, NotLonger, ApplyThrow, ApplyMarkFailed, ApplyRenew, ApplyEnqueue, ApplyDeliver, ApplyReturn,
      ApplyStall;
    match step {
      case Throw(w) => ThrowTimeline(c, s, w, id);
      case MarkFailed(w) => MarkTimeline(c, s, w, id);
      case Renew(w, j) => RenewTimeline(c, s, w, j, id);
      case RecoverLeases => RecoverTimeline(c, s, id);
      case Enqueue(_) | EnqueueFails(_, _) | Deliver(_, _) | Return(_) | Stall(_) => QueueTimeline(c, s, step, id);
      case _ =>
        OtherStepEvolves(c, s, step, id);
        SameTimeline(ViewOf(s, id));
    }
  }

  lemma SameTimeline(v: View)
    ensures NotLonger(v, v)
  {
  }

  lemma ThrowTimeline(c: Config, s: World, w: WorkerId, id: Id)
    requires Inv(c, s)
    ensures NotLonger(ViewOf(s, id), ViewOf(ApplyThrow(c, s, w), id))
  {
    assert WorkerOk(c, s, w) && IdOk(c, s.now, ViewOf(s, id));
    hide Inv;
    if Heard(c, s, w) {
      HeardFailure(c, s, w);
      ThrowViews(c, s, w);
      ThrowElsewhere(c, s, w);
      if WorkerAt(s, w).id == id { FailingIsOpen(c, s.now, ViewOf(s, id)); }
    } else {
      Unheard(c, s, w, id);
    }
    hide ApplyThrow, WorkerOk, RowOk;
  }

  lemma MarkTimeline(c: Config, s: World, w: WorkerId, id: Id)
    requires Inv(c, s)
    ensures NotLonger(ViewOf(s, id), ViewOf(ApplyMarkFailed(s, w), id))
  {
    assert WorkerOk(c, s, w) && IdOk(c, s.now, ViewOf(s, id));
    hide Inv;
  }

  lemma RenewTimeline(c: Config, s: World, w: WorkerId, renewed: Id, id: Id)
    ensures NotLonger(ViewOf(s, id), ViewOf(ApplyRenew(c, s, w, renewed), id))
  {
  }

  lemma RecoverTimeline(c: Config, s: World, id: Id)
    ensures NotLonger(ViewOf(s, id), ViewOf(Apply(c, s, RecoverLeases), id))
  {
    RecoveredView(c, s, id);
    hide Apply;
  }

  lemma QueueTimeline(c: Config, s: World, step: Step, id: Id)
    requires step.Enqueue? || step.EnqueueFails? || step.Deliver? || step.Return? || step.Stall?
    ensures NotLonger(ViewOf(s, id), ViewOf(Apply(c, s, step), id))
  {
    hide AddJob;
  }

  lemma NotLongerKeeps(v: View, v': View)
    requires NotLonger(v, v')
    ensures ShortRow(v) ==> ShortRow(v')
    ensures forall h :: ShortHandler(h, v) ==> ShortHandler(h, v')
  {
  }

  /** A claim lengthens the timeline the handler read by one, and counts as one. */
  lemma StartShort(c: Config, s: World, w: WorkerId)
    requires Inv(c, s) && Short(s)
    ensures Short(ApplyStart(c, s, w))
  {
    var h, s' := WorkerAt(s, w), ApplyStart(c, s, w);
    assert ShortWorker(s, w) && WorkerOk(c, s, w);
    if h.Seen? {
      if s.db.txs[h.id].status == ACCEPTED {
        StartViews(c, s, w);
        assert ShortRow(ViewOf(s', h.id)) && ShortWorker(s', w);
        ClaimCounts(c, s, w);
        hide Inv, ViewOf, ApplyStart, Short;
        ShortElsewhere(s, s', h.id, w);
      } else {
        ShortMoves(s, w, Returned(h.id));
      }
    }
  }

  lemma ClaimCounts(c: Config, s: World, w: WorkerId)
    requires WorkerAt(s, w).Seen? && WorkerAt(s, w).id in s.db.txs && WorkerAt(s, w).id in s.starts
    requires s.db.txs[WorkerAt(s, w).id].status == ACCEPTED
    ensures var id := WorkerAt(s, w).id;
            ViewOf(s, id).starts.Some? && ViewOf(ApplyStart(c, s, w), id).starts.Some?
            && ViewOf(ApplyStart(c, s, w), id).starts.value == ViewOf(s, id).starts.value + 1
  {
  }

  /** One view changes, where the claims only grow, and one handler. */
  lemma ShortElsewhere(s: World, s': World, id: Id, w: WorkerId)
    requires Short(s) && ShortRow(ViewOf(s', id)) && ShortWorker(s', w)
    requires forall j :: j != id ==> ViewOf(s', j) == ViewOf(s, j)
    requires forall v :: v != w ==> WorkerAt(s', v) == WorkerAt(s, v)
    requires ViewOf(s, id).starts.Some? && ViewOf(s', id).starts.Some?
    requires ViewOf(s, id).starts.value <= ViewOf(s', id).starts.value
    ensures Short(s')
  {
    hide ViewOf, WorkerAt, HandlerId, ShortRow;
    forall j ensures ShortRow(ViewOf(s', j)) { assert ShortRow(ViewOf(s, j)); }
    forall v ensures ShortWorker(s', v) { assert ShortWorker(s, v); }
  }

  lemma ShortMoves(s: World, w: WorkerId, h: Handler)
    requires Short(s) && ShortHandler(h, ViewOf(s, HandlerId(h)))
    ensures Short(SetWorker(s, w, h))
  {
    var s' := SetWorker(s, w, h);
    forall j ensures ViewOf(s', j) == ViewOf(s, j) {}
    hide ViewOf, HandlerId, ShortRow, ShortHandler;
    forall j ensures ShortRow(ViewOf(s', j)) { assert ShortRow(ViewOf(s, j)); }
    forall v ensures ShortWorker(s', v) { assert ShortWorker(s, v); }
  }

  /** A finalize adds one entry, or two for a completion. */
  lemma FinalizeShort(c: Config, s: World, w: WorkerId)
    requires Inv(c, s) && Short(s)
    ensures Short(ApplyFinalize(c, s, w))
  {
    var h, s' := WorkerAt(s, w), ApplyFinalize(c, s, w);
    assert ShortWorker(s, w) && WorkerOk(c, s, w);
    if h.Claimed? && !c.decide(h.data).Failed? {
      if FinalizeTx(s.db.txs[h.id], w, FinalUpdates(c.decide(h.data), h.timeline)).Some? {
        FinalShort(c, s, w);
        OneView(s, s', h.id);
        FinalizeStarts(c, s, w);
        FinalizeOthers(c, s, w);
        hide Inv, ViewOf, ApplyFinalize, Short, WorkerAt, ShortRow, ShortWorker;
        ShortElsewhere(s, s', h.id, w);
      } else {
        ShortMoves(s, w, Returned(h.id));
      }
    }
  }

  lemma FinalShort(c: Config, s: World, w: WorkerId)
    requires var h := WorkerAt(s, w);
             h.Claimed? && !c.decide(h.data).Failed? && h.id in s.db.txs && h.id in s.starts
             && h.epoch <= s.starts[h.id]
             && |h.timeline| <= h.epoch + 1
    requires ShortRow(ViewOf(s, WorkerAt(s, w).id))
    ensures ShortRow(ViewOf(ApplyFinalize(c, s, w), WorkerAt(s, w).id)) && ShortWorker(ApplyFinalize(c, s, w), w)
  {
  }

  lemma FinalizeStarts(c: Config, s: World, w: WorkerId)
    requires WorkerAt(s, w).Claimed? && WorkerAt(s, w).id in s.starts
    ensures var id := WorkerAt(s, w).id;
            ViewOf(s, id).starts.Some? && ViewOf(ApplyFinalize(c, s, w), id).starts == ViewOf(s, id).starts
  {
    hide FinalizeTx, FinalUpdates;
  }

  lemma FinalizeOthers(c: Config, s: World, w: WorkerId)
    ensures forall v :: v != w ==> WorkerAt(ApplyFinalize(c, s, w), v) == WorkerAt(s, v)
  {
    forall v | v != w ensures WorkerAt(ApplyFinalize(c, s, w), v) == WorkerAt(s, v) { FinalizeStays(c, s, w, v); }
    hide ApplyFinalize;
  }

  lemma PayShort(c: Config, s: World, step: Step)
    requires Inv(c, s) && Short(s) && step.Pay?
    ensures Short(Apply(c, s, step))
  {
    var s' := Apply(c, s, step);
    var p := c.sanitize(c.sanitize(step.payload));
    assert IdOk(c, s.now, ViewOf(s, step.id));
    if Save(s.db, step.id, step.key, step.hash, p).1.Inserted? {
      PayInserts(c, s, step.id, step.key, step.hash, p);
      forall w ensures ShortWorker(s', w) { PayWorkerShort(c, s, step, w); }
      forall j ensures ShortRow(ViewOf(s', j)) { assert ShortRow(ViewOf(s, j)); }
    }
    hide Inv;
  }

  /** A handler is never about a transaction that is not there yet. */
  lemma PayWorkerShort(c: Config, s: World, step: Step, w: WorkerId)
    requires Inv(c, s) && Short(s) && step.Pay? && ViewOf(s, step.id).tx.None?
    requires forall j :: j != step.id ==> ViewOf(Apply(c, s, step), j) == ViewOf(s, j)
    ensures ShortWorker(Apply(c, s, step), w)
  {
    assert WorkerOk(c, s, w) && ShortWorker(s, w);
    hide Inv, ViewOf, Short;
  }

  /** A step that lengthens no timeline and moves one handler, to one that has read the row. */
  lemma QuietShort(c: Config, s: World, step: Step)
    requires Inv(c, s) && Short(s) && !step.Pay? && !step.Start? && !step.Finalize?
    ensures Short(Apply(c, s, step))
  {
    var s' := Apply(c, s, step);
    forall j
      ensures ShortRow(ViewOf(s', j))
      ensures forall h :: ShortHandler(h, ViewOf(s, j)) ==> ShortHandler(h, ViewOf(s', j))
    {
      QuietTimeline(c, s, step, j);
      NotLongerKeeps(ViewOf(s, j), ViewOf(s', j));
      assert ShortRow(ViewOf(s, j));
    }
    forall w ensures ShortWorker(s', w) {
      assert ShortWorker(s, w);
      if Mover(step) == Some(w) { MoverShort(c, s, step); } else { OthersStay(c, s, step, w); }
    }
    hide Inv, ViewOf, Apply, ShortHandler, ShortRow;
  }

  lemma MoverShort(c: Config, s: World, step: Step)
    requires Inv(c, s) && Short(s) && !step.Pay? && !step.Start? && !step.Finalize? && Mover(step).Some?
    ensures ShortWorker(Apply(c, s, step), Mover(step).value)
  {
    var w := Mover(step).value;
    assert ShortWorker(s, w);
    if step.Read? {
      ReadShort(c, s, w);
    } else {
      OwnMove(c, s, step);
      QuietTimeline(c, s, step, HandlerId(WorkerAt(s, w)));
      NotLongerKeeps(ViewOf(s, HandlerId(WorkerAt(s, w))), ViewOf(Apply(c, s, step), HandlerId(WorkerAt(s, w))));
    }
    hide Inv, Short, ViewOf, Apply;
  }

  lemma ReadShort(c: Config, s: World, w: WorkerId)
    requires Inv(c, s) && Short(s)
    ensures ShortWorker(ApplyRead(c, s, w), w)
  {
    var h := WorkerAt(s, w);
    assert ShortWorker(s, w);
    if h.Delivered? {
      assert WorkerOk(c, s, w) && ShortRow(ViewOf(s, h.id));
      assert IdOk(c, s.now, ViewOf(s, h.id));
    }
    hide Inv, Short;
  }

  lemma ShortStep(c: Config, s: World, step: Step)
    requires Inv(c, s) && Short(s)
    ensures Short(Apply(c, s, step))
  {
    hide Inv, Short, ApplyStart, ApplyFinalize;
    match step {
      case Start(w) => StartShort(c, s, w);
      case Finalize(w) => FinalizeShort(c, s, w);
      case Pay(_, _, _, _) => PayShort(c, s, step);
      case _ => QuietShort(c, s, step);
    }
    hide Apply;
  }

  /** After every run, a row's processing entries are at most its claims, but for the second one of a completion. */
  lemma {:induction false} TimelinesAreShort(c: Config, steps: seq<Step>)
    requires ConfigOk(c)
    ensures Short(After(c, steps))
    decreases |steps|
  {
    if steps != [] {
      var n := |steps| - 1;
      TimelinesAreShort(c, steps[..n]);
      RunKeeps(c, steps[..n]);
      ShortStep(c, After(c, steps[..n]), steps[n]);
      hide Apply, Short, Inv;
    } else {
      NothingIsShort(c);
    }
  }

  lemma NothingIsShort(c: Config)
    ensures Short(Init())
  {
  }
}
