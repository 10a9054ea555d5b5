/**
 * From which states a payment can still be decided.  CanDecide is a condition on the tables, the
 * queue and the processes; it holds exactly when some continuation, with any help from further
 * workers, senders, recoveries and time, brings the row to a final status.
 */
module Reach {
  import opened Wrappers
  import opened Sets
  import opened Json
  import opened Tables
  import opened Protocol
  import opened Invariant
  import opened Lifecycle
  import opened Runs
  import opened NoLoss
  import L = OutboxLedger
  import G = Progress

  /* ---- the condition ---- */

  /** A handler without its job that can still finalize, once any other claim is out of the way. */
  predicate OpenHandler(s: World, w: WorkerId, id: Id) {
    var h := WorkerAt(s, w);
    ((h.Delivered? || h.Seen?) && h.id == id) || (h.Claimed? && h.id == id && ClaimOf(s, w, id))
  }

  /** The event can still be enqueued: it is pending, or recovery will make it so. */
  predicate EventLeft(c: Config, s: World, id: Id) {
    id in s.db.events
    && (s.db.events[id].status == PENDING
        || (s.db.events[id].status == CLAIMED && s.db.events[id].recoveryCount + 1 < c.maxRecoveries))
  }

  /** Some sender still has the event in its batch. */
  ghost predicate Held(s: World, id: Id) { exists p :: L.InBatch(SenderAt(s, p), id) }

  /** Some worker can finalize without the queue. */
  ghost predicate Zombie(c: Config, s: World, id: Id) {
    id in s.db.events && !c.decide(s.db.events[id].payload).Failed? && exists w :: OpenHandler(s, w, id)
  }

  ghost predicate CanDecide(c: Config, s: World, id: Id) {
    Carried(s, id) || (id !in s.queue && (EventLeft(c, s, id) || Held(s, id) || Zombie(c, s, id)))
  }

  /* ---- if the condition fails, it fails for ever ---- */

  lemma DecidedBy(c: Config, s: World, step: Step, id: Id)
    requires id in s.db.txs && !Decided(s, id) && Decided(Apply(c, s, step), id)
    ensures (step.MarkFailed? && MarksFailure(WorkerAt(s, step.w), id))
            || (step.Finalize? && Concludes(c, s, step.w, step, id) && ClaimOf(s, step.w, id))
  {
    match step {
      case Throw(_) | MarkFailed(_) | Finalize(_) | Start(_) | Renew(_, _) => DecidedByWorker(c, s, step, id);
      case RecoverLeases => RecoveredView(c, s, id);
      case Pay(_, _, _, _) => EndsByPay(c, s, step, id);
      case _ => EndsElsewhere(c, s, step, id);
    }
    hide Apply;
  }

  lemma EndsElsewhere(c: Config, s: World, step: Step, id: Id)
    requires !(step.RecoverLeases? || step.Start? || step.Throw? || step.Finalize? || step.MarkFailed? || step.Renew?
             || step.Pay?)
    ensures Find(Apply(c, s, step).db.txs, id) == Find(s.db.txs, id)
  {
    TablesSame(c, s, step, id);
    hide Apply;
  }

  lemma DecidedByWorker(c: Config, s: World, step: Step, id: Id)
    requires step.Throw? || step.MarkFailed? || step.Finalize? || step.Start? || step.Renew?
    requires id in s.db.txs && !Decided(s, id) && Decided(Apply(c, s, step), id)
    ensures (step.MarkFailed? && MarksFailure(WorkerAt(s, step.w), id))
            || (step.Finalize? && Concludes(c, s, step.w, step, id) && ClaimOf(s, step.w, id))
  {
    match step {
      case Throw(w) => ThrowUndecided(c, s, w, id);
      case Start(w) => StartUndecided(c, s, w, id);
      case Renew(w, j) => RenewUndecided(c, s, w, j, id);
      case Finalize(w) => DecidedByFinalize(c, s, w, id);
      case MarkFailed(w) =>
    }
    hide ApplyThrow, ApplyStart, ApplyRenew, ApplyFinalize;
  }

  lemma ThrowUndecided(c: Config, s: World, w: WorkerId, id: Id)
    requires id in s.db.txs && !Decided(s, id)
    ensures !Decided(ApplyThrow(c, s, w), id)
  {
  }

  lemma StartUndecided(c: Config, s: World, w: WorkerId, id: Id)
    requires id in s.db.txs && !Decided(s, id)
    ensures !Decided(ApplyStart(c, s, w), id)
  {
  }

  lemma RenewUndecided(c: Config, s: World, w: WorkerId, renewed: Id, id: Id)
    requires id in s.db.txs && !Decided(s, id)
    ensures !Decided(ApplyRenew(c, s, w, renewed), id)
  {
  }

  lemma DecidedByFinalize(c: Config, s: World, w: WorkerId, id: Id)
    requires id in s.db.txs && !Decided(s, id) && Decided(ApplyFinalize(c, s, w), id)
    ensures Concludes(c, s, w, Finalize(w), id) && ClaimOf(s, w, id)
  {
  }

  lemma FailedStays(c: Config, s: World, step: Step, id: Id)
    requires FailedAt(s, id)
    ensures FailedAt(Apply(c, s, step), id)
  {
    hide UpdateTx, FinalizeTx, StartTx, RenewTx;
  }

  lemma MarkerFrom(c: Config, s: World, step: Step, w: WorkerId, id: Id)
    requires MarksFailure(WorkerAt(Apply(c, s, step), w), id)
    ensures MarksFailure(WorkerAt(s, w), id) || (step == Throw(w) && Holds(s, w, id))
  {
    if Mover(step) == Some(w) { OwnMove(c, s, step); } else { OthersStay(c, s, step, w); }
    hide Apply;
  }

  /** A failed job that nobody will mark stays as it is. */
  lemma AbandonedStays(c: Config, s: World, step: Step, id: Id)
    requires Inv(c, s) && id in s.db.txs && FailedAt(s, id) && !Marking(s, id) && !Decided(s, id)
    ensures var s' := Apply(c, s, step); FailedAt(s', id) && !Marking(s', id) && !Decided(s', id)
  {
    var s' := Apply(c, s, step);
    FailedStays(c, s, step, id);
    forall w ensures !MarksFailure(WorkerAt(s', w), id) {
      if MarksFailure(WorkerAt(s', w), id) { MarkerFrom(c, s, step, w, id); }
    }
    DecidedNeeds(c, s, step, id);
    FailedIsFailure(c, s, id);
    hide Apply;
  }

  lemma FailedIsFailure(c: Config, s: World, id: Id)
    requires Inv(c, s) && id in s.db.txs && FailedAt(s, id)
    ensures id in s.db.events && c.decide(s.db.events[id].payload).Failed?
  {
    assert IdOk(c, s.now, ViewOf(s, id));
  }

  /** A row becomes final only through a marker of its failed job, or a handler that can finalize. */
  lemma DecidedNeeds(c: Config, s: World, step: Step, id: Id)
    requires Inv(c, s) && id in s.db.txs && !Decided(s, id)
    ensures Decided(Apply(c, s, step), id) ==> (FailedAt(s, id) && Marking(s, id)) || Zombie(c, s, id)
  {
    if Decided(Apply(c, s, step), id) {
      DecidedBy(c, s, step, id);
      if step.MarkFailed? { MarkerFails(c, s, step.w, id); } else { ConcludingIsZombie(c, s, step.w, id); }
    }
    hide Apply;
  }

  lemma ConcludingIsZombie(c: Config, s: World, w: WorkerId, id: Id)
    requires Inv(c, s) && Concludes(c, s, w, Finalize(w), id) && ClaimOf(s, w, id)
    ensures Zombie(c, s, id)
  {
    assert IdOk(c, s.now, ViewOf(s, id)) && WorkerOk(c, s, w);
    hide Inv, IdOk;
    assert OpenHandler(s, w, id);
  }

  lemma HandlerFrom(c: Config, s: World, step: Step, w: WorkerId, id: Id)
    requires id in s.db.txs && OpenHandler(Apply(c, s, step), w, id)
    ensures OpenHandler(s, w, id) || (id in s.queue && step == Deliver(w, id))
  {
    var h' := WorkerAt(Apply(c, s, step), w);
    if h'.Claimed? {
      ClaimFrom(c, s, step, w, id);
      ClaimedFrom(c, s, step, w, id);
    } else {
      OpenFrom(c, s, step, w, id);
    }
    hide Apply, ClaimOf;
  }

  lemma ClaimFrom(c: Config, s: World, step: Step, w: WorkerId, id: Id)
    requires id in s.db.txs && ClaimOf(Apply(c, s, step), w, id)
    ensures ClaimOf(s, w, id) || (step == Start(w) && WorkerAt(s, w).Seen? && WorkerAt(s, w).id == id)
  {
    match step {
      case Throw(_) | MarkFailed(_) | Finalize(_) | Start(_) | Renew(_, _) => ClaimFromWorker(c, s, step, w, id);
      case RecoverLeases => RecoveredView(c, s, id);
      case Pay(_, _, _, _) => EndsByPay(c, s, step, id);
      case _ => EndsElsewhere(c, s, step, id);
    }
    hide Apply;
  }

  lemma ClaimFromWorker(c: Config, s: World, step: Step, w: WorkerId, id: Id)
    requires step.Throw? || step.MarkFailed? || step.Finalize? || step.Start? || step.Renew?
    requires id in s.db.txs && ClaimOf(Apply(c, s, step), w, id)
    ensures ClaimOf(s, w, id) || (step == Start(w) && WorkerAt(s, w).Seen? && WorkerAt(s, w).id == id)
  {
    match step {
      case Throw(v) => ThrowMakesNoClaim(c, s, v, w, id);
      case MarkFailed(v) => MarkFailedMakesNoClaim(s, v, w, id);
      case Finalize(v) => FinalizeMakesNoClaim(c, s, v, w, id);
      case Renew(v, j) => RenewMakesNoClaim(c, s, v, j, w, id);
      case Start(v) => StartMakesClaim(c, s, v, w, id);
    }
    hide ApplyThrow, ApplyMarkFailed, ApplyFinalize, ApplyRenew, ApplyStart;
  }

  lemma ThrowMakesNoClaim(c: Config, s: World, v: WorkerId, w: WorkerId, id: Id)
    requires id in s.db.txs && ClaimOf(ApplyThrow(c, s, v), w, id)
    ensures ClaimOf(s, w, id)
  {
  }

  lemma MarkFailedMakesNoClaim(s: World, v: WorkerId, w: WorkerId, id: Id)
    requires id in s.db.txs && ClaimOf(ApplyMarkFailed(s, v), w, id)
    ensures ClaimOf(s, w, id)
  {
  }

  lemma FinalizeMakesNoClaim(c: Config, s: World, v: WorkerId, w: WorkerId, id: Id)
    requires id in s.db.txs && ClaimOf(ApplyFinalize(c, s, v), w, id)
    ensures ClaimOf(s, w, id)
  {
  }

  lemma RenewMakesNoClaim(c: Config, s: World, v: WorkerId, renewed: Id, w: WorkerId, id: Id)
    requires id in s.db.txs && ClaimOf(ApplyRenew(c, s, v, renewed), w, id)
    ensures ClaimOf(s, w, id)
  {
  }

  lemma StartMakesClaim(c: Config, s: World, v: WorkerId, w: WorkerId, id: Id)
    requires id in s.db.txs && ClaimOf(ApplyStart(c, s, v), w, id)
    ensures ClaimOf(s, w, id) || (v == w && WorkerAt(s, w).Seen? && WorkerAt(s, w).id == id)
  {
  }

  lemma ClaimedFrom(c: Config, s: World, step: Step, w: WorkerId, id: Id)
    requires WorkerAt(Apply(c, s, step), w).Claimed? && WorkerAt(Apply(c, s, step), w).id == id
    ensures (WorkerAt(s, w).Claimed? || WorkerAt(s, w).Seen?) && WorkerAt(s, w).id == id
    ensures step == Start(w) || WorkerAt(s, w).Claimed?
  {
    if Mover(step) == Some(w) { OwnMove(c, s, step); } else { OthersStay(c, s, step, w); }
    hide Apply;
  }

  lemma OpenFrom(c: Config, s: World, step: Step, w: WorkerId, id: Id)
    requires var h := WorkerAt(Apply(c, s, step), w); (h.Delivered? || h.Seen?) && h.id == id
    ensures ((WorkerAt(s, w).Delivered? || WorkerAt(s, w).Seen?) && WorkerAt(s, w).id == id)
            || (id in s.queue && step == Deliver(w, id))
  {
    if Mover(step) == Some(w) { OwnMove(c, s, step); } else { OthersStay(c, s, step, w); }
    hide Apply;
  }

  lemma BatchFrom(c: Config, s: World, step: Step, p: SenderId, id: Id)
    requires L.InBatch(SenderAt(Apply(c, s, step), p), id)
    ensures L.InBatch(SenderAt(s, p), id) || L.ClaimsIt(s, step, id)
  {
    if WorkerStep(step) { WorkersLeaveEvents(c, s, step); } else { BatchFromSender(c, s, step, p, id); }
    hide Apply;
  }

  lemma BatchFromSender(c: Config, s: World, step: Step, p: SenderId, id: Id)
    requires !WorkerStep(step) && L.InBatch(SenderAt(Apply(c, s, step), p), id)
    ensures L.InBatch(SenderAt(s, p), id) || L.ClaimsIt(s, step, id)
  {
    var b, b' := SenderAt(s, p).batch, SenderAt(Apply(c, s, step), p).batch;
    var i :| 0 <= i < |b'| && b'[i].id == id;
    if !(step.ClaimOutbox? && p == step.p && b == [] && Claimable(s, step.ids)) {
      BatchTail(c, s, step, p);
      hide Apply;
      assert b' == b ==> b[i].id == id;
      assert b != [] && b' == b[1..] ==> b[i + 1].id == id;
    }
  }

  lemma BatchTail(c: Config, s: World, step: Step, p: SenderId)
    requires !WorkerStep(step) && !(step.ClaimOutbox? && p == step.p && SenderAt(s, p).batch == []
             && Claimable(s, step.ids))
    ensures var b, b' := SenderAt(s, p).batch, SenderAt(Apply(c, s, step), p).batch;
            b' == b || b' == [] || (b != [] && b' == b[1..])
  {
  }

  lemma QueueFrom(c: Config, s: World, step: Step, id: Id)
    requires id !in s.queue && id in Apply(c, s, step).queue
    ensures (step.Enqueue? || step.EnqueueFails?) && L.InBatch(SenderAt(s, step.p), id)
  {
    hide UpdateTx, FinalizeTx, StartTx, RenewTx;
    if step.Enqueue? || step.EnqueueFails? { assert SenderAt(s, step.p).batch[0].id == id; }
  }

  lemma UnheldStays(c: Config, s: World, step: Step, id: Id)
    requires id in s.db.events && !EventLeft(c, s, id) && !Held(s, id)
    ensures var s' := Apply(c, s, step); id in s'.db.events && !EventLeft(c, s', id) && !Held(s', id)
  {
    var s' := Apply(c, s, step);
    L.EventAfter(c, s, step, id);
    forall p ensures !L.InBatch(SenderAt(s', p), id) {
      if L.InBatch(SenderAt(s', p), id) { BatchFrom(c, s, step, p, id); }
    }
    hide Apply;
  }

  lemma ZombieFrom(c: Config, s: World, step: Step, id: Id)
    requires ConfigOk(c) && Inv(c, s) && id in s.db.txs && id !in s.queue && Zombie(c, Apply(c, s, step), id)
    ensures Zombie(c, s, id)
  {
    StepEvolves(c, s, step, id);
    assert IdOk(c, s.now, ViewOf(s, id));
    var w :| OpenHandler(Apply(c, s, step), w, id);
    HandlerFrom(c, s, step, w, id);
    hide Apply;
  }

  /** An unqueued payment that nothing can enqueue or finalize stays so. */
  lemma DroppedStays(c: Config, s: World, step: Step, id: Id)
    requires ConfigOk(c) && Inv(c, s) && id in s.db.txs && id !in s.queue && !CanDecide(c, s, id)
    ensures !CanDecide(c, Apply(c, s, step), id)
  {
    var s' := Apply(c, s, step);
    assert IdOk(c, s.now, ViewOf(s, id));
    UnheldStays(c, s, step, id);
    if id in s'.queue {
      QueueFrom(c, s, step, id);
      assert false;
    }
    if Zombie(c, s', id) { ZombieFrom(c, s, step, id); }
    DecidedNeeds(c, s, step, id);
    hide Apply;
  }

  lemma CannotStays(c: Config, s: World, step: Step, id: Id)
    requires ConfigOk(c) && Inv(c, s) && id in s.db.txs && !CanDecide(c, s, id)
    ensures !CanDecide(c, Apply(c, s, step), id)
  {
    if id in s.queue { AbandonedStays(c, s, step, id); } else { DroppedStays(c, s, step, id); }
    hide Apply;
  }

  lemma {:induction false} CannotForever(c: Config, s: World, more: seq<Step>, id: Id)
    requires ConfigOk(c) && Inv(c, s) && id in s.db.txs && !CanDecide(c, s, id)
    ensures !CanDecide(c, Run(c, s, more), id)
    decreases |more|
  {
    if more != [] {
      var n := |more| - 1;
      CannotForever(c, s, more[..n], id);
      RunPersists(c, s, more[..n], id);
      hide Apply, Inv, CanDecide;
      CannotStays(c, Run(c, s, more[..n]), more[n], id);
    }
  }

  /* ---- if it holds, a decision can be reached ---- */

  lemma {:induction false} Longer(ids: set<JString>) returns (n: nat)
    ensures forall x :: x in ids ==> |x| < n
  {
    if ids == {} {
      n := 0;
    } else {
      var y :| y in ids;
      var m := Longer(ids - {y});
      n := if m > |y| then m else |y| + 1;
      forall x | x in ids ensures |x| < n { assert x == y || x in ids - {y}; }
    }
  }

  /** A name nobody has: there is always another worker or sender to start. */
  lemma Fresh(ids: set<JString>) returns (x: JString)
    ensures x !in ids
  {
    var n := Longer(ids);
    x := seq(n, _ => 0);
  }

  function Expiry(c: Config): seq<Step> { [Tick(c.lease + 1), RecoverLeases] }

  /** Waiting and lease recovery free an undecided row. */
  lemma Frees(c: Config, s: World, id: Id)
    requires Inv(c, s) && id in s.db.txs && !Decided(s, id)
    ensures var t := Run(c, s, Expiry(c));
            id in t.db.txs && t.db.txs[id].status == ACCEPTED && t.queue == s.queue && t.workers == s.workers
                && t.starts == s.starts
  {
    RowLease(c, s, id);
    LeaseRunsOut(c, s.now, s.db.txs[id]);
    hide *;
    RunTwo(c, s, Tick(c.lease + 1), RecoverLeases);
    ExpiryWorld(c, s, id);
  }

  lemma ExpiryWorld(c: Config, s: World, id: Id)
    requires id in s.db.txs
    ensures var t := Apply(c, Apply(c, s, Tick(c.lease + 1)), RecoverLeases);
            id in t.db.txs && t.db.txs[id] == RecoverTx(s.db.txs[id], s.now + c.lease + 1, c.staleMs)
            && t.queue == s.queue && t.workers == s.workers && t.starts == s.starts
    ensures Expiry(c) == [Tick(c.lease + 1), RecoverLeases]
  {
    hide RecoverTx;
  }

  lemma RowLease(c: Config, s: World, id: Id)
    requires Inv(c, s) && id in s.db.txs
    ensures LeaseOk(c, s.now, s.db.txs[id])
  {
    assert IdOk(c, s.now, ViewOf(s, id));
  }

  lemma LeaseRunsOut(c: Config, now: nat, r: Tx)
    requires LeaseOk(c, now, r) && !Final(r.status)
    ensures RecoverTx(r, now + c.lease + 1, c.staleMs).status == ACCEPTED
  {
  }

  /** A job that has not failed can be redelivered and worked on. */
  lemma QueuedReaches(c: Config, s: World, id: Id) returns (more: seq<Step>)
    requires ConfigOk(c) && Inv(c, s) && id in s.db.txs && id in s.queue && !FailedAt(s, id) && !Decided(s, id)
    ensures Decided(Run(c, s, more), id)
  {
    var w := Fresh(s.workers.Keys);
    var t := Apply(c, s, Stall(id));
    StepKeeps(c, s, Stall(id));
    assert t.queue[id].state == Waiting && t.db == s.db && t.workers == s.workers;
    Frees(c, t, id);
    var u := Run(c, t, Expiry(c));
    RunPersists(c, t, Expiry(c), id);
    assert G.Ready(u, id, w);
    hide Apply, Inv, G.Ready, Expiry, Run;
    var rest := G.WaitingCanBeDecided(c, u, id, w);
    RunOne(c, s, Stall(id));
    more := [Stall(id)] + (Expiry(c) + rest);
    AfterMore(c, s, [Stall(id)], Expiry(c) + rest);
    AfterMore(c, t, Expiry(c), rest);
  }

  lemma MarkerReaches(c: Config, s: World, id: Id) returns (more: seq<Step>)
    requires Marking(s, id) && id in s.db.txs
    ensures Decided(Run(c, s, more), id)
  {
    var w :| MarksFailure(WorkerAt(s, w), id);
    more := [MarkFailed(w)];
    RunOne(c, s, MarkFailed(w));
    MarkedIsDecided(c, s, w, id);
  }

  function Send(id: Id, p: SenderId): seq<Step> { [ClaimOutbox(p, [id], 0), Enqueue(p)] }

  lemma Sends(c: Config, s: World, id: Id, p: SenderId)
    requires id in s.db.events && s.db.events[id].status == PENDING && id !in s.queue
             && SenderAt(s, p) == Sender([], Protocol.Ready)
    ensures var t := Run(c, s, Send(id, p)); id in t.queue && !FailedAt(t, id) && t.db.txs == s.db.txs
  {
    assert Claimable(s, [id]);
    RunTwo(c, s, ClaimOutbox(p, [id], 0), Enqueue(p));
    hide Run;
  }

  lemma PendingReaches(c: Config, s: World, id: Id) returns (more: seq<Step>)
    requires ConfigOk(c) && Inv(c, s) && id in s.db.txs && !Decided(s, id) && id !in s.queue
    requires id in s.db.events && s.db.events[id].status == PENDING
    ensures Decided(Run(c, s, more), id)
  {
    var p := Fresh(s.senders.Keys);
    Sends(c, s, id, p);
    RunPersists(c, s, Send(id, p), id);
    hide Apply, Inv, Run;
    var rest := QueuedReaches(c, Run(c, s, Send(id, p)), id);
    more := Send(id, p) + rest;
    AfterMore(c, s, Send(id, p), rest);
  }

  lemma Recovers(c: Config, s: World, id: Id, p: SenderId, d: nat)
    requires id in s.db.events && s.db.events[id].status == CLAIMED && s.db.events[id].claimedAt == Some(d)
    requires s.db.events[id].recoveryCount + 1 < c.maxRecoveries && SenderAt(s, p).batch == []
    ensures var t := Run(c, s, [Tick(d + c.outboxStaleMs + 1), RecoverOutbox(p)]);
            id in t.db.events && t.db.events[id].status == PENDING && t.db.txs == s.db.txs && t.queue == s.queue
  {
    RunTwo(c, s, Tick(d + c.outboxStaleMs + 1), RecoverOutbox(p));
    hide Run;
  }

  lemma ClaimedReaches(c: Config, s: World, id: Id) returns (more: seq<Step>)
    requires ConfigOk(c) && Inv(c, s) && id in s.db.txs && !Decided(s, id) && id !in s.queue
    requires id in s.db.events && s.db.events[id].status == CLAIMED && s.db.events[id].claimedAt.Some?
    requires s.db.events[id].recoveryCount + 1 < c.maxRecoveries
    ensures Decided(Run(c, s, more), id)
  {
    var p := Fresh(s.senders.Keys);
    var d := s.db.events[id].claimedAt.value;
    var first := [Tick(d + c.outboxStaleMs + 1), RecoverOutbox(p)];
    Recovers(c, s, id, p, d);
    RunPersists(c, s, first, id);
    hide Apply, Inv, Run;
    var rest := PendingReaches(c, Run(c, s, first), id);
    more := first + rest;
    AfterMore(c, s, first, rest);
  }

  /** Getting the head of a batch marked pending, from any phase. */
  function GiveUp(s: World, p: SenderId): seq<Step> {
    match SenderAt(s, p).phase
    case Ready => [EnqueueFails(p, false), MarkPending(p, "")]
    case Added => [MarkSentFails(p), MarkPending(p, "")]
    case Errored => [MarkPending(p, "")]
  }

  lemma GivesUp(c: Config, s: World, p: SenderId)
    requires SenderAt(s, p).batch != [] && SenderAt(s, p).batch[0].id in s.db.events
    ensures var t, head := Run(c, s, GiveUp(s, p)), SenderAt(s, p).batch[0].id;
            t.db.txs == s.db.txs && t.queue == s.queue
            && head in t.db.events && t.db.events[head].status == PENDING
            && SenderAt(t, p) == Sender(SenderAt(s, p).batch[1..], Protocol.Ready)
  {
    match SenderAt(s, p).phase {
      case Ready => GivesUpReady(c, s, p);
      case Added => GivesUpAdded(c, s, p);
      case Errored => GivesUpErrored(c, s, p);
    }
    hide Run, ReturnedEvent;
  }

  /** The effect of marking the head pending. */
  predicate GivenUpHead(s: World, t: World, p: SenderId)
    requires SenderAt(s, p).batch != [] && SenderAt(s, p).batch[0].id in s.db.events
  {
    var head := SenderAt(s, p).batch[0].id;
    t.db == s.db.(events := s.db.events[head := ReturnedEvent(s.db.events[head], "")]) && t.queue == s.queue
    && SenderAt(t, p) == Sender(SenderAt(s, p).batch[1..], Protocol.Ready)
  }

  lemma GivesUpReady(c: Config, s: World, p: SenderId)
    requires SenderAt(s, p).batch != [] && SenderAt(s, p).batch[0].id in s.db.events
             && SenderAt(s, p).phase == Protocol.Ready
    ensures GivenUpHead(s, Run(c, s, GiveUp(s, p)), p)
  {
    RunTwo(c, s, EnqueueFails(p, false), MarkPending(p, ""));
    hide Run, ReturnedEvent;
  }

  lemma GivesUpAdded(c: Config, s: World, p: SenderId)
    requires SenderAt(s, p).batch != [] && SenderAt(s, p).batch[0].id in s.db.events && SenderAt(s, p).phase == Added
    ensures GivenUpHead(s, Run(c, s, GiveUp(s, p)), p)
  {
    RunTwo(c, s, MarkSentFails(p), MarkPending(p, ""));
    hide Run, ReturnedEvent;
  }

  lemma GivesUpErrored(c: Config, s: World, p: SenderId)
    requires SenderAt(s, p).batch != [] && SenderAt(s, p).batch[0].id in s.db.events && SenderAt(s, p).phase == Errored
    ensures GivenUpHead(s, Run(c, s, GiveUp(s, p)), p)
  {
    RunOne(c, s, MarkPending(p, ""));
    hide Run, ReturnedEvent;
  }

  lemma {:induction false} HeldReaches(c: Config, s: World, id: Id, p: SenderId) returns (more: seq<Step>)
    requires ConfigOk(c) && Inv(c, s) && id in s.db.txs && !Decided(s, id) && id !in s.queue
             && L.InBatch(SenderAt(s, p), id)
    ensures Decided(Run(c, s, more), id)
    decreases |SenderAt(s, p).batch|
  {
    var b := SenderAt(s, p).batch;
    var i :| 0 <= i < |b| && b[i].id == id;
    HeadHasEvent(c, s, p);
    GivesUp(c, s, p);
    RunPersists(c, s, GiveUp(s, p), id);
    hide Apply, Inv, Run, GiveUp;
    var t := Run(c, s, GiveUp(s, p));
    var rest: seq<Step>;
    if i == 0 {
      rest := PendingReaches(c, t, id);
    } else {
      assert SenderAt(t, p).batch[i - 1].id == id;
      rest := HeldReaches(c, t, id, p);
    }
    more := GiveUp(s, p) + rest;
    AfterMore(c, s, GiveUp(s, p), rest);
  }

  lemma HeadHasEvent(c: Config, s: World, p: SenderId)
    requires Inv(c, s) && SenderAt(s, p).batch != []
    ensures SenderAt(s, p).batch[0].id in s.db.events
  {
    assert SenderOk(s, p);
    assert PayloadAt(s, SenderAt(s, p).batch[0].id) == Some(SenderAt(s, p).batch[0].payload);
  }

  /** A handler whose claim is current finalizes. */
  lemma Concluded(c: Config, s: World, w: WorkerId, id: Id)
    requires WorkerAt(s, w).Claimed? && WorkerAt(s, w).id == id && ClaimOf(s, w, id)
             && !c.decide(WorkerAt(s, w).data).Failed?
    ensures Decided(Apply(c, s, Finalize(w)), id)
  {
  }

  lemma StartedClaim(c: Config, s: World, w: WorkerId, id: Id)
    requires WorkerAt(s, w).Seen? && WorkerAt(s, w).id == id && id in s.db.txs && id in s.starts
             && s.db.txs[id].status == ACCEPTED
    ensures var t := Apply(c, s, Start(w));
            WorkerAt(t, w).Claimed? && WorkerAt(t, w).id == id && WorkerAt(t, w).data == WorkerAt(s, w).data
                && ClaimOf(t, w, id)
  {
  }

  lemma ReadSeen(c: Config, s: World, w: WorkerId, id: Id)
    requires WorkerAt(s, w).Delivered? && WorkerAt(s, w).id == id && id in s.db.txs && s.db.txs[id].status == ACCEPTED
    ensures var t := Apply(c, s, Read(w));
            t.db == s.db && t.starts == s.starts
            && WorkerAt(t, w) == Seen(id, c.sanitize(WorkerAt(s, w).data), s.db.txs[id].timeline)
  {
  }

  /** What a delivered or waiting handler still needs, once the row is free. */
  function Rest(s: World, w: WorkerId): seq<Step> {
    if WorkerAt(s, w).Delivered? then [Read(w), Start(w), Finalize(w)] else [Start(w), Finalize(w)]
  }

  lemma RestReaches(c: Config, s: World, w: WorkerId, id: Id)
    requires (WorkerAt(s, w).Delivered? || WorkerAt(s, w).Seen?) && WorkerAt(s, w).id == id
    requires id in s.db.txs && id in s.starts && s.db.txs[id].status == ACCEPTED
    requires var d := WorkerAt(s, w).data; !c.decide(d).Failed? && c.sanitize(d) == d
    ensures Decided(Run(c, s, Rest(s, w)), id)
  {
    if WorkerAt(s, w).Delivered? {
      RunThree(c, s, Read(w), Start(w), Finalize(w));
      ReadSeen(c, s, w, id);
      hide Apply, Run;
      var t := Apply(c, s, Read(w));
      StartedClaim(c, t, w, id);
      Concluded(c, Apply(c, t, Start(w)), w, id);
    } else {
      RunTwo(c, s, Start(w), Finalize(w));
      StartedClaim(c, s, w, id);
      hide Apply, Run;
      Concluded(c, Apply(c, s, Start(w)), w, id);
    }
  }

  lemma OpenData(c: Config, s: World, w: WorkerId, id: Id)
    requires Inv(c, s) && OpenHandler(s, w, id) && id in s.db.txs
    ensures id in s.db.events && id in s.starts && WorkerAt(s, w).data == s.db.events[id].payload
    ensures c.sanitize(s.db.events[id].payload) == s.db.events[id].payload
  {
    assert WorkerOk(c, s, w) && IdOk(c, s.now, ViewOf(s, id));
  }

  lemma ZombieReaches(c: Config, s: World, id: Id) returns (more: seq<Step>)
    requires ConfigOk(c) && Inv(c, s) && id in s.db.txs && !Decided(s, id) && Zombie(c, s, id)
    ensures Decided(Run(c, s, more), id)
  {
    var w :| OpenHandler(s, w, id);
    OpenData(c, s, w, id);
    if WorkerAt(s, w).Claimed? {
      more := [Finalize(w)];
      RunOne(c, s, Finalize(w));
      Concluded(c, s, w, id);
    } else {
      Frees(c, s, id);
      var t := Run(c, s, Expiry(c));
      assert WorkerAt(t, w) == WorkerAt(s, w);
      hide Run, Apply, Inv, Expiry;
      RestReaches(c, t, w, id);
      more := Expiry(c) + Rest(t, w);
      AfterMore(c, s, Expiry(c), Rest(t, w));
    }
  }

  lemma CanReaches(c: Config, s: World, id: Id) returns (more: seq<Step>)
    requires ConfigOk(c) && Inv(c, s) && L.Books(c, s) && id in s.db.txs && CanDecide(c, s, id)
    ensures Decided(Run(c, s, more), id)
  {
    if Decided(s, id) {
      more := [];
    } else if id in s.queue {
      if FailedAt(s, id) { more := MarkerReaches(c, s, id); } else { more := QueuedReaches(c, s, id); }
    } else if id in s.db.events && s.db.events[id].status == PENDING {
      more := PendingReaches(c, s, id);
    } else if EventLeft(c, s, id) {
      assert L.Balanced(c, s.db.events[id], |L.InFlight(s, id)|);
      more := ClaimedReaches(c, s, id);
    } else if Held(s, id) {
      var p :| L.InBatch(SenderAt(s, p), id);
      more := HeldReaches(c, s, id, p);
    } else {
      more := ZombieReaches(c, s, id);
    }
  }

  /* ---- the main results ---- */

  /** In every reachable state, a decision can still be reached if and only if CanDecide holds. */
  lemma DecisionReachableIff(c: Config, steps: seq<Step>, id: Id)
    requires ConfigOk(c) && id in After(c, steps).db.txs
    ensures (exists more :: Decided(After(c, steps + more), id)) <==> CanDecide(c, After(c, steps), id)
  {
    var s := After(c, steps);
    RunKeeps(c, steps);
    L.BooksAlways(c, steps);
    hide Inv, Apply;
    if CanDecide(c, s, id) {
      var more := CanReaches(c, s, id);
      AfterMore(c, Init(), steps, more);
      assert Decided(After(c, steps + more), id);
    } else {
      forall more ensures !Decided(After(c, steps + more), id) {
        CannotForever(c, s, more, id);
        AfterMore(c, Init(), steps, more);
      }
    }
  }

  /** The outbox gave up on the event, or will when its last claim is taken back. */
  predicate GivenUp(c: Config, s: World, id: Id) {
    id !in s.queue && id in s.db.events
    && (s.db.events[id].status == OUTBOX_FAILED
        || (s.db.events[id].status == CLAIMED && s.db.events[id].recoveryCount + 1 >= c.maxRecoveries))
  }

  /** In a calm run every accepted payment can still be decided, unless the outbox gave up on it. */
  lemma CalmCanBeDecided(c: Config, steps: seq<Step>, id: Id)
    requires ConfigOk(c) && CalmRun(c, steps) && id in After(c, steps).db.txs
    ensures CanDecide(c, After(c, steps), id) || GivenUp(c, After(c, steps), id)
  {
    NothingLost(c, steps, id);
    hide Run, CalmRun;
  }
}
