/**
 * Outbox accounting: how an event's attempts, claim_count and recovery_count hang together, for
 * any number of outbox processes, and what is true in addition when only one is live.
 */
module OutboxLedger {
  import opened Wrappers
  import opened Sets
  import opened Json
  import opened Columns
  import opened Tables
  import opened Protocol
  import opened Invariant

  predicate InBatch(x: Sender, id: Id) { exists i :: 0 <= i < |x.batch| && x.batch[i].id == id }

  /** The processes that have claimed an event and not yet marked it. */
  function InFlight(s: World, id: Id): set<SenderId> {
    set p | p in s.senders && InBatch(s.senders[p], id)
  }

  function Bit(b: bool): nat { if b then 1 else 0 }

  predicate Balanced(c: Config, e: Event, inFlight: nat) {
    && e.attempts + inFlight <= e.claimCount <= e.attempts + e.recoveryCount + Bit(e.status == CLAIMED)
    && (e.status == OUTBOX_FAILED ==> e.recoveryCount >= c.maxRecoveries)
    && (e.status == CLAIMED <==> e.claimedAt.Some?) && (e.status == CLAIMED <==> e.lockedBy.Some?)
  }

  ghost predicate Books(c: Config, s: World) {
    forall id :: id in s.db.events ==> Balanced(c, s.db.events[id], |InFlight(s, id)|)
  }

  /* ---- what a step does to one event ---- */

  predicate MarksHead(s: World, step: Step, id: Id) {
    && (step.MarkSent? || step.MarkPending?)
    && var x := SenderAt(s, step.p);
    && x.batch != [] && x.batch[0].id == id && x.batch[0].id in s.db.events
    && (if step.MarkSent? then x.phase == Added else x.phase == Errored)
  }

  predicate ClaimsIt(s: World, step: Step, id: Id) {
    step.ClaimOutbox? && SenderAt(s, step.p).batch == [] && Claimable(s, step.ids) && id in step.ids
  }

  predicate RecoversIt(c: Config, s: World, step: Step, id: Id) {
    step.RecoverOutbox? && SenderAt(s, step.p).batch == [] && id in s.db.events
    && ClaimedLongAgo(s.db.events[id], s.now, c.outboxStaleMs)
  }

  lemma EventAfter(c: Config, s: World, step: Step, id: Id)
    requires id in s.db.events
    ensures var s' := Apply(c, s, step); var e := s.db.events[id];
            && id in s'.db.events
            && s'.db.events[id] ==
               if MarksHead(s, step, id) then (if step.MarkSent? then SentEvent(e) else ReturnedEvent(e, step.error))
               else if ClaimsIt(s, step, id) then ClaimEvent(e, step.p, ClaimTime(s, step.age))
               else if RecoversIt(c, s, step, id) then RecoverEvent(e, s.now, c.outboxStaleMs, c.maxRecoveries)
               else e
  {
    match step {
      case ClaimOutbox(_, _, _) => ClaimEventAfter(c, s, step, id);
      case MarkSent(_) | MarkPending(_, _) => MarkEventAfter(c, s, step, id);
      case RecoverOutbox(_) =>
      case _ => QuietAfter(c, s, step, id);
    }
  }

  /** What a step makes of an event, column by column. */
  lemma EventBecomes(c: Config, s: World, step: Step, id: Id)
    requires id in s.db.events
    ensures var s' := Apply(c, s, step); var e := s.db.events[id];
            && id in s'.db.events
            && (MarksHead(s, step, id) ==>
                  s'.db.events[id]
                  == Event(e.payload, if step.MarkSent? then SENT else PENDING, e.attempts + 1, e.claimCount,
                           e.recoveryCount, None, None, if step.MarkSent? then e.lastError else Some(step.error)))
            && (ClaimsIt(s, step, id) ==>
                  e.status == PENDING && s'.db.events[id] == ClaimedBy(e, step.p, ClaimTime(s, step.age)))
            && (RecoversIt(c, s, step, id) ==> TakenBack(s'.db.events[id], e, c.maxRecoveries))
            && (!MarksHead(s, step, id) && !ClaimsIt(s, step, id) && !RecoversIt(c, s, step, id) ==>
                  s'.db.events[id] == e)
  {
    EventAfter(c, s, step, id);
    hide Apply;
  }

  /** Recovery by an idle process takes a claim back if and only if it is older than the timeout. */
  lemma RecoveryIff(c: Config, s: World, p: SenderId, id: Id, t: nat)
    requires SenderAt(s, p).batch == [] && id in s.db.events
    requires s.db.events[id].status == CLAIMED && s.db.events[id].claimedAt == Some(t)
    ensures var s' := Apply(c, s, RecoverOutbox(p));
            id in s'.db.events && (s'.db.events[id] != s.db.events[id] <==> t + c.outboxStaleMs < s.now)
            && (s'.db.events[id].status == CLAIMED <==> s.now <= t + c.outboxStaleMs)
  {
    EventBecomes(c, s, RecoverOutbox(p), id);
    hide Apply;
  }

  /** Between two states of a run the clock does not go back. */
  lemma TimePasses(c: Config, s: World, step: Step)
    ensures s.now <= Apply(c, s, step).now
  {
    if WorkerStep(step) {
      WorkersLeaveEvents(c, s, step);
      WorkersKeepClock(c, s, step);
    }
    hide UpdateTx, FinalizeTx, StartTx, RenewTx;
  }

  lemma WorkersKeepClock(c: Config, s: World, step: Step)
    requires WorkerStep(step)
    ensures Apply(c, s, step).now == s.now
  {
    hide UpdateTx, FinalizeTx, StartTx, RenewTx;
  }

  /**
   * In every run, as long as the timeout has not passed, a claimed event stays as it is unless a
   * process that has it marks it.
   */
  lemma {:induction false} FreshClaimStays(c: Config, s: World, steps: seq<Step>, id: Id, t: nat)
    requires id in s.db.events && s.db.events[id].status == CLAIMED && s.db.events[id].claimedAt == Some(t)
    requires Run(c, s, steps).now <= t + c.outboxStaleMs
    requires forall k :: 0 <= k < |steps| ==> !MarksHead(Run(c, s, steps[..k]), steps[k], id)
    ensures id in Run(c, s, steps).db.events && Run(c, s, steps).db.events[id] == s.db.events[id]
    decreases |steps|
  {
    if steps != [] {
      var n := |steps| - 1;
      var mid := Run(c, s, steps[..n]);
      TimePasses(c, mid, steps[n]);
      forall k | 0 <= k < n ensures !MarksHead(Run(c, s, steps[..n][..k]), steps[..n][k], id) {
        assert steps[..n][..k] == steps[..k] && steps[..n][k] == steps[k];
      }
      FreshClaimStays(c, s, steps[..n], id, t);
      assert !MarksHead(mid, steps[n], id);
      EventBecomes(c, mid, steps[n], id);
      hide Apply, MarksHead, ClaimsIt;
    }
  }

  lemma ClaimEventAfter(c: Config, s: World, step: Step, id: Id)
    requires id in s.db.events && step.ClaimOutbox?
    ensures var s' := Apply(c, s, step);
            && id in s'.db.events
            && s'.db.events[id]
               == if ClaimsIt(s, step, id) then ClaimEvent(s.db.events[id], step.p, ClaimTime(s, step.age))
                  else s.db.events[id]
  {
  }

  lemma MarkEventAfter(c: Config, s: World, step: Step, id: Id)
    requires id in s.db.events && (step.MarkSent? || step.MarkPending?)
    ensures var s' := Apply(c, s, step); var e := s.db.events[id];
            && id in s'.db.events
            && s'.db.events[id] == if MarksHead(s, step, id)
                                   then (if step.MarkSent? then SentEvent(e) else ReturnedEvent(e, step.error)) else e
  {
  }

  lemma QuietAfter(c: Config, s: World, step: Step, id: Id)
    requires id in s.db.events
    requires !(step.ClaimOutbox? || step.MarkSent? || step.MarkPending? || step.RecoverOutbox?)
    ensures id in Apply(c, s, step).db.events && Apply(c, s, step).db.events[id] == s.db.events[id]
  {
    match step {
      case Start(_) | Throw(_) | Finalize(_) | MarkFailed(_) | Renew(_, _) | Read(_) | Return(_) | Deliver(_, _) =>
        WorkersLeaveEvents(c, s, step);
      case _ =>
    }
  }

  lemma ClaimAfter(s: World, p: SenderId, ids: seq<Id>, age: nat, id: Id)
    requires SenderAt(s, p).batch == [] && Claimable(s, ids)
    ensures InFlight(ApplyClaimOutbox(s, p, ids, age), id)
            == if id in ids then InFlight(s, id) + {p} else InFlight(s, id)
    ensures p !in InFlight(s, id)
  {
    var s' := ApplyClaimOutbox(s, p, ids, age);
    assert InBatch(SenderAt(s', p), id) <==> id in ids by {
      if id in ids {
        var i :| 0 <= i < |ids| && ids[i] == id;
        assert SenderAt(s', p).batch[i].id == id;
      }
    }
    assert !InBatch(SenderAt(s, p), id);
    forall q ensures q in InFlight(s', id) <==> q in InFlight(s, id) || (q == p && id in ids) {}
  }

  lemma MarkAfter(s: World, s': World, p: SenderId, id: Id)
    requires SenderAt(s, p).batch != [] && SenderOk(s, p)
    requires s'.senders == s.senders[p := Sender(SenderAt(s, p).batch[1..], Ready)]
    ensures InFlight(s', id) == if id == SenderAt(s, p).batch[0].id then InFlight(s, id) - {p} else InFlight(s, id)
    ensures id == SenderAt(s, p).batch[0].id ==> p in InFlight(s, id)
  {
    var b := SenderAt(s, p).batch;
    assert InBatch(SenderAt(s, p), b[0].id);
    assert InBatch(Sender(b[1..], Ready), id) <==> InBatch(SenderAt(s, p), id) && id != b[0].id by {
      if InBatch(SenderAt(s, p), id) && id != b[0].id {
        var i :| 0 <= i < |b| && b[i].id == id;
        assert b[1..][i - 1] == b[i];
      }
      if InBatch(Sender(b[1..], Ready), id) {
        var i :| 0 <= i < |b[1..]| && b[1..][i].id == id;
        assert b[i + 1] == b[1..][i];
      }
    }
    forall q ensures q in InFlight(s', id) <==> q in InFlight(s, id) && !(q == p && id == b[0].id) {}
  }

  predicate MarksSome(s: World, step: Step) {
    (step.MarkSent? || step.MarkPending?) && SenderAt(s, step.p).batch != []
    && MarksHead(s, step, SenderAt(s, step.p).batch[0].id)
  }

  predicate ClaimsSome(s: World, step: Step) {
    step.ClaimOutbox? && SenderAt(s, step.p).batch == [] && Claimable(s, step.ids)
  }

  /** Any other step leaves the batch of every process alone, or empties one. */
  lemma OtherAfter(c: Config, s: World, step: Step, id: Id)
    requires !MarksSome(s, step) && !ClaimsSome(s, step)
    ensures InFlight(Apply(c, s, step), id) <= InFlight(s, id)
  {
    match step {
      case Start(_) | Throw(_) | Finalize(_) | MarkFailed(_) | Renew(_, _) | Read(_) | Return(_) | Deliver(_, _) =>
        WorkersLeaveEvents(c, s, step);
      case _ =>
        OutboxAfter(c, s, step, id);
    }
    hide Apply;
  }

  lemma OutboxAfter(c: Config, s: World, step: Step, id: Id)
    requires !WorkerStep(step) && !MarksSome(s, step) && !ClaimsSome(s, step)
    ensures InFlight(Apply(c, s, step), id) <= InFlight(s, id)
  {
    forall q | q in InFlight(Apply(c, s, step), id) ensures q in InFlight(s, id) {}
  }

  /** The books stay balanced whatever step is taken, by whichever process. */
  lemma BooksKept(c: Config, s: World, step: Step)
    requires Inv(c, s) && Books(c, s)
    ensures Books(c, Apply(c, s, step))
  {
    var s' := Apply(c, s, step);
    forall id | id in s'.db.events ensures Balanced(c, s'.db.events[id], |InFlight(s', id)|) {
      if id in s.db.events {
        assert Balanced(c, s.db.events[id], |InFlight(s, id)|);
        assert MarksSome(s, step) ==> SenderOk(s, step.p);
        EventBalanced(c, s, step, id);
      } else {
        EventsOnlyByPay(c, s, step, id);
        NewEventBalanced(c, s, step, id);
      }
    }
  }

  lemma NewEventBalanced(c: Config, s: World, step: Step, id: Id)
    requires Inv(c, s) && step.Pay? && id !in s.db.events && id in Apply(c, s, step).db.events
    ensures Balanced(c, Apply(c, s, step).db.events[id], |InFlight(Apply(c, s, step), id)|)
  {
    EventsOnlyByPay(c, s, step, id);
    forall p | p in s.senders ensures !InBatch(s.senders[p], id) { assert SenderOk(s, p); }
    assert InFlight(s, id) == {};
  }

  lemma EventsOnlyByPay(c: Config, s: World, step: Step, id: Id)
    requires id !in s.db.events && id in Apply(c, s, step).db.events
    ensures step.Pay? && Apply(c, s, step).senders == s.senders
    ensures exists p :: Apply(c, s, step).db.events[id] == NewEvent(p)
  {
    if WorkerStep(step) {
      WorkersLeaveEvents(c, s, step);
      assert false;
    } else if step.Pay? {
      assert Apply(c, s, step).db.events[id] == NewEvent(c.sanitize(c.sanitize(step.payload)));
    } else {
      NoNewEvents(c, s, step, id);
      assert false;
    }
  }

  lemma NoNewEvents(c: Config, s: World, step: Step, id: Id)
    requires !WorkerStep(step) && !step.Pay? && id !in s.db.events
    ensures id !in Apply(c, s, step).db.events
  {
  }

  lemma EventBalanced(c: Config, s: World, step: Step, id: Id)
    requires id in s.db.events && Balanced(c, s.db.events[id], |InFlight(s, id)|)
    requires MarksSome(s, step) ==> SenderOk(s, step.p)
    requires id in Apply(c, s, step).db.events
    ensures Balanced(c, Apply(c, s, step).db.events[id], |InFlight(Apply(c, s, step), id)|)
  {
    hide *;
    var s' := Apply(c, s, step);
    if ClaimsSome(s, step) {
      ClaimBalanced(c, s, step, id);
    } else if MarksSome(s, step) {
      MarkBalanced(c, s, step, id);
    } else {
      OtherEventAfter(c, s, step, id);
      OtherAfter(c, s, step, id);
      SubsetSize(InFlight(s', id), InFlight(s, id));
      RestBalanced(c, s.db.events[id], s.now, |InFlight(s, id)|, |InFlight(s', id)|);
    }
  }

  lemma OtherEventAfter(c: Config, s: World, step: Step, id: Id)
    requires id in s.db.events && !MarksSome(s, step) && !ClaimsSome(s, step)
    ensures var s' := Apply(c, s, step); var e := s.db.events[id];
            && id in s'.db.events
            && (s'.db.events[id] == e
                || s'.db.events[id] == RecoverEvent(e, s.now, c.outboxStaleMs, c.maxRecoveries))
  {
    EventAfter(c, s, step, id);
    hide Apply;
  }

  lemma RestBalanced(c: Config, e: Event, now: nat, n: nat, m: nat)
    requires Balanced(c, e, n) && m <= n
    ensures Balanced(c, e, m) && Balanced(c, RecoverEvent(e, now, c.outboxStaleMs, c.maxRecoveries), m)
  {
  }

  lemma ClaimBalanced(c: Config, s: World, step: Step, id: Id)
    requires id in s.db.events && Balanced(c, s.db.events[id], |InFlight(s, id)|) && ClaimsSome(s, step)
    ensures Balanced(c, Apply(c, s, step).db.events[id], |InFlight(Apply(c, s, step), id)|)
  {
    ClaimEventAfter(c, s, step, id);
    ClaimAfter(s, step.p, step.ids, step.age, id);
    assert id in step.ids ==> s.db.events[id].status == PENDING;
    hide InFlight, Claimable;
  }

  lemma MarkBalanced(c: Config, s: World, step: Step, id: Id)
    requires id in s.db.events && Balanced(c, s.db.events[id], |InFlight(s, id)|) && MarksSome(s, step)
    requires SenderOk(s, step.p)
    ensures Balanced(c, Apply(c, s, step).db.events[id], |InFlight(Apply(c, s, step), id)|)
  {
    MarkEventAfter(c, s, step, id);
    MarkAfter(s, Apply(c, s, step), step.p, id);
    hide InFlight;
  }

  /** Accounting and the failure limit after every run. */
  lemma {:induction false} BooksAlways(c: Config, steps: seq<Step>)
    requires ConfigOk(c)
    ensures Books(c, After(c, steps))
    decreases |steps|
  {
    if steps != [] {
      var n := |steps| - 1;
      BooksAlways(c, steps[..n]);
      RunKeeps(c, steps[..n]);
      BooksKept(c, After(c, steps[..n]), steps[n]);
    }
  }

  /* ---- a single live process ---- */

  predicate OnlySender(p: SenderId, steps: seq<Step>) {
    forall i :: 0 <= i < |steps| ==> OutboxStep(steps[i]) ==> steps[i].p == p
  }

  predicate OutboxStep(step: Step) {
    step.RecoverOutbox? || step.ClaimOutbox? || step.Enqueue? || step.EnqueueFails? || step.MarkSent?
    || step.MarkSentFails? || step.MarkPending? || step.CrashSender?
  }

  /** Exact accounting; the recovery limit is reached exactly by the failed events. */
  predicate Exact(c: Config, e: Event) {
    && e.claimCount == e.attempts + e.recoveryCount + Bit(e.status == CLAIMED)
    && e.recoveryCount <= c.maxRecoveries
    && (e.status == OUTBOX_FAILED <==> e.recoveryCount == c.maxRecoveries)
  }

  ghost predicate SingleOk(c: Config, s: World, p: SenderId) {
    && (forall id :: id in s.db.events ==> Exact(c, s.db.events[id]))
    && (forall q :: q != p ==> SenderAt(s, q).batch == [])
    && forall i :: 0 <= i < |SenderAt(s, p).batch| ==>
         SenderAt(s, p).batch[i].id in s.db.events && s.db.events[SenderAt(s, p).batch[i].id].status == CLAIMED
  }

  lemma SendersAfter(c: Config, s: World, step: Step, p: SenderId, q: SenderId)
    requires OutboxStep(step) ==> step.p == p
    ensures q != p ==> SenderAt(Apply(c, s, step), q) == SenderAt(s, q)
    ensures !OutboxStep(step) ==> SenderAt(Apply(c, s, step), p) == SenderAt(s, p)
  {
    match step {
      case Start(_) | Throw(_) | Finalize(_) | MarkFailed(_) | Renew(_, _) | Read(_) | Return(_) | Deliver(_, _) =>
        WorkersLeaveEvents(c, s, step);
      case _ => SendersAside(c, s, step, p, q);
    }
    hide Apply;
  }

  lemma SendersAside(c: Config, s: World, step: Step, p: SenderId, q: SenderId)
    requires !WorkerStep(step) && (OutboxStep(step) ==> step.p == p)
    ensures q != p ==> SenderAt(Apply(c, s, step), q) == SenderAt(s, q)
    ensures !OutboxStep(step) ==> SenderAt(Apply(c, s, step), p) == SenderAt(s, p)
  {
  }

  lemma SingleKept(c: Config, s: World, step: Step, p: SenderId)
    requires Inv(c, s) && SingleOk(c, s, p) && c.maxRecoveries > 0 && (OutboxStep(step) ==> step.p == p)
    ensures SingleOk(c, Apply(c, s, step), p)
  {
    var s' := Apply(c, s, step);
    assert SenderOk(s, p);
    forall id | id in s'.db.events ensures Exact(c, s'.db.events[id]) {
      if id in s.db.events {
        EventAfter(c, s, step, id);
      } else {
        EventsOnlyByPay(c, s, step, id);
      }
    }
    forall q | q != p ensures SenderAt(s', q).batch == [] { SendersAfter(c, s, step, p, q); }
    hide Inv;
    BatchClaimed(c, s, step, p);
  }

  lemma BatchClaimed(c: Config, s: World, step: Step, p: SenderId)
    requires SenderOk(s, p) && SingleOk(c, s, p) && (OutboxStep(step) ==> step.p == p)
    ensures var s' := Apply(c, s, step);
            forall i :: 0 <= i < |SenderAt(s', p).batch| ==>
              SenderAt(s', p).batch[i].id in s'.db.events
              && s'.db.events[SenderAt(s', p).batch[i].id].status == CLAIMED
  {
    var s' := Apply(c, s, step);
    var b, b' := SenderAt(s, p).batch, SenderAt(s', p).batch;
    SendersAfter(c, s, step, p, p);
    forall i | 0 <= i < |b'| ensures b'[i].id in s'.db.events && s'.db.events[b'[i].id].status == CLAIMED {
      if step.ClaimOutbox? && b == [] {
        ClaimedNow(s, p, step.ids, step.age, i);
      } else {
        BatchAfter(c, s, step, p);
        var j := if b' == b then i else i + 1;
        assert b'[i] == b[j];
        EventAfter(c, s, step, b[j].id);
        assert j > 0 ==> b[0].id != b[j].id;
      }
    }
  }

  lemma ClaimedNow(s: World, p: SenderId, ids: seq<Id>, age: nat, i: nat)
    requires SenderAt(s, p).batch == [] && i < |SenderAt(ApplyClaimOutbox(s, p, ids, age), p).batch|
    ensures var s' := ApplyClaimOutbox(s, p, ids, age); var b := SenderAt(s', p).batch;
            b[i].id in s'.db.events && s'.db.events[b[i].id].status == CLAIMED
  {
  }

  lemma BatchAfter(c: Config, s: World, step: Step, p: SenderId)
    requires !(step.ClaimOutbox? && SenderAt(s, p).batch == []) && (OutboxStep(step) ==> step.p == p)
    ensures var b, b' := SenderAt(s, p).batch, SenderAt(Apply(c, s, step), p).batch;
            || b' == [] || (b' == b && !(b != [] && MarksHead(s, step, b[0].id)))
            || (b != [] && b' == b[1..] && MarksHead(s, step, b[0].id))
  {
    SendersAfter(c, s, step, p, p);
  }

  /**
   * One live process and a positive limit: claim_count is exact, recovery_count never passes the
   * limit, and an event is OUTBOX_FAILED exactly when it has reached it.
   */
  lemma {:induction false} SingleAlways(c: Config, steps: seq<Step>, p: SenderId)
    requires ConfigOk(c) && OnlySender(p, steps) && c.maxRecoveries > 0
    ensures SingleOk(c, After(c, steps), p)
    decreases |steps|
  {
    if steps != [] {
      var n := |steps| - 1;
      assert forall i :: 0 <= i < n ==> steps[..n][i] == steps[i];
      SingleAlways(c, steps[..n], p);
      RunKeeps(c, steps[..n]);
      SingleKept(c, After(c, steps[..n]), steps[n], p);
    }
  }

  /** A step takes an event out of OUTBOX_FAILED exactly when a process that still has it marks it. */
  lemma LeavesFailedIff(c: Config, s: World, step: Step, id: Id)
    requires id in s.db.events && s.db.events[id].status == OUTBOX_FAILED
    ensures id in Apply(c, s, step).db.events
    ensures Apply(c, s, step).db.events[id].status != OUTBOX_FAILED <==> MarksHead(s, step, id)
  {
    EventAfter(c, s, step, id);
  }

  /** With one live process OUTBOX_FAILED is never left. */
  lemma FailedStays(c: Config, steps: seq<Step>, p: SenderId, step: Step, id: Id)
    requires ConfigOk(c) && OnlySender(p, steps) && c.maxRecoveries > 0 && (OutboxStep(step) ==> step.p == p)
    requires id in After(c, steps).db.events && After(c, steps).db.events[id].status == OUTBOX_FAILED
    ensures id in Apply(c, After(c, steps), step).db.events
    ensures Apply(c, After(c, steps), step).db.events[id].status == OUTBOX_FAILED
  {
    SingleAlways(c, steps, p);
    LeavesFailedIff(c, After(c, steps), step, id);
  }
}
