/** Theorems about whole runs of the protocol. */
module Runs {
  import opened Wrappers
  import opened Json
  import opened Columns
  import opened Tables
  import opened Protocol
  import opened Invariant
  import opened Lifecycle
  import D = Decisions

  lemma AfterStep(c: Config, steps: seq<Step>, i: nat)
    requires i < |steps|
    ensures After(c, steps[..i + 1]) == Apply(c, After(c, steps[..i]), steps[i])
  {
    assert steps[..i + 1][..i] == steps[..i];
  }

  lemma {:induction false} AfterMore(c: Config, s: World, steps: seq<Step>, more: seq<Step>)
    ensures Run(c, s, steps + more) == Run(c, Run(c, s, steps), more)
    decreases |more|
  {
    hide Apply;
    if more == [] {
      assert steps + more == steps;
    } else {
      var n := |more| - 1;
      AfterMore(c, s, steps, more[..n]);
      assert (steps + more)[..|steps| + n] == steps + more[..n];
    }
  }

  lemma RunOne(c: Config, s: World, x: Step)
    ensures Run(c, s, [x]) == Apply(c, s, x)
  {
    assert [x][..0] == [];
    assert Run(c, s, []) == s;
  }

  lemma RunTwo(c: Config, s: World, x: Step, y: Step)
    ensures Run(c, s, [x, y]) == Apply(c, Apply(c, s, x), y)
  {
    AfterMore(c, s, [x], [y]);
    RunOne(c, s, x);
    RunOne(c, Run(c, s, [x]), y);
    assert [x] + [y] == [x, y];
  }

  lemma RunThree(c: Config, s: World, x: Step, y: Step, z: Step)
    ensures Run(c, s, [x, y, z]) == Apply(c, Apply(c, Apply(c, s, x), y), z)
  {
    AfterMore(c, s, [x, y], [z]);
    RunTwo(c, s, x, y);
    RunOne(c, Run(c, s, [x, y]), z);
    assert [x, y] + [z] == [x, y, z];
  }

  /** Every run of the protocol is a run of the specification. */
  lemma RunRefines(c: Config, steps: seq<Step>)
    requires ConfigOk(c)
    ensures Abs(After(c, [])) == map[]
    ensures forall i {:trigger steps[..i]} :: 0 <= i < |steps| ==>
              SpecStep(c, Abs(After(c, steps[..i])), Abs(After(c, steps[..i + 1])))
  {
    forall i {:trigger steps[..i]} | 0 <= i < |steps|
      ensures SpecStep(c, Abs(After(c, steps[..i])), Abs(After(c, steps[..i + 1])))
    {
      RunKeeps(c, steps[..i]);
      AfterStep(c, steps, i);
      StepRefines(c, After(c, steps[..i]), steps[i]);
    }
  }

  /** What holds of every transaction after every run: leases, timeline, outcome, retries. */
  lemma ReachableRow(c: Config, steps: seq<Step>, id: Id)
    requires ConfigOk(c) && id in After(c, steps).db.txs
    ensures var s := After(c, steps);
            && id in s.db.events
            && LeaseOk(c, s.now, s.db.txs[id]) && TimelineOk(s.db.txs[id])
            && OutcomeOk(c.decide(s.db.events[id].payload), s.db.txs[id])
            && s.db.txs[id].retryCount <= 3
  {
    RunKeeps(c, steps);
    assert IdOk(c, After(c, steps).now, ViewOf(After(c, steps), id));
  }

  /** How a transaction may have changed over any further run. */
  predicate Persists(v: View, v': View) {
    && v.tx.Some? && v'.tx.Some? && v.payload.Some? && v'.payload == v.payload
    && v'.tx.value.key == v.tx.value.key && v'.tx.value.hash == v.tx.value.hash
    && (Final(v.tx.value.status) ==> v'.tx == v.tx && (v.tx.value.status == FAILED ==> v'.dead == v.dead))
  }

  lemma {:induction false} RunPersists(c: Config, s: World, more: seq<Step>, id: Id)
    requires ConfigOk(c) && Inv(c, s) && id in s.db.txs
    ensures Inv(c, Run(c, s, more)) && Persists(ViewOf(s, id), ViewOf(Run(c, s, more), id))
    decreases |more|
  {
    assert IdOk(c, s.now, ViewOf(s, id));
    if more != [] {
      var mid := Run(c, s, more[..|more| - 1]);
      RunPersists(c, s, more[..|more| - 1], id);
      StepKeeps(c, mid, more[|more| - 1]);
      StepEvolves(c, mid, more[|more| - 1], id);
      hide Inv, ViewOf, IdOk, Apply;
      PersistsThenEvolves(c, ViewOf(s, id), ViewOf(mid, id), ViewOf(Apply(c, mid, more[|more| - 1]), id));
    }
  }

  lemma PersistsThenEvolves(c: Config, u: View, v: View, v': View)
    requires Persists(u, v) && Evolves(c, v, v')
    ensures Persists(u, v')
  {
  }

  /** A decided transaction carries its payload's decision and its row never changes again. */
  lemma DecidedForever(c: Config, steps: seq<Step>, more: seq<Step>, id: Id)
    requires ConfigOk(c) && id in After(c, steps).db.txs && Final(After(c, steps).db.txs[id].status)
    ensures var s, s' := After(c, steps), After(c, steps + more);
            && id in s'.db.txs && s'.db.txs[id] == s.db.txs[id]
            && id in s.db.events && id in s'.db.events && s'.db.events[id].payload == s.db.events[id].payload
            && RowOutcome(s.db.txs[id]) == Some(c.decide(s.db.events[id].payload))
  {
    var s := After(c, steps);
    RunKeeps(c, steps);
    assert IdOk(c, s.now, ViewOf(s, id));
    AfterMore(c, Init(), steps, more);
    RunPersists(c, s, more, id);
    ReachableRow(c, steps, id);
  }

  /** An idempotency key stays with the transaction, hash and payload it was first accepted with. */
  lemma KeyForever(c: Config, steps: seq<Step>, more: seq<Step>, id: Id, k: Key)
    requires ConfigOk(c) && id in After(c, steps).db.txs && After(c, steps).db.txs[id].key == Some(k)
    ensures var s, s' := After(c, steps), After(c, steps + more);
            && id in s'.db.txs && s'.db.txs[id].key == Some(k) && s'.db.txs[id].hash == s.db.txs[id].hash
            && id in s.db.events && id in s'.db.events && s'.db.events[id].payload == s.db.events[id].payload
            && k in s'.db.keys && s'.db.keys[k] == id
            && forall j :: j in s'.db.txs && s'.db.txs[j].key == Some(k) ==> j == id
  {
    var s, s' := After(c, steps), After(c, steps + more);
    RunKeeps(c, steps);
    RunKeeps(c, steps + more);
    AfterMore(c, Init(), steps, more);
    RunPersists(c, s, more, id);
    hide IdOk, WorkerOk, SenderOk;
    assert KeyAt(s', id) == Some(Some(k));
    forall j | j in s'.db.txs && s'.db.txs[j].key == Some(k) ensures j == id {
      assert KeyAt(s', j) == Some(Some(k));
    }
  }

  /* ---- dead letters ---- */

  /** A FAILED transaction has a durable dead letter for all its attempts, and a blocking failed job. */
  lemma FailedHasDeadLetter(c: Config, steps: seq<Step>, id: Id)
    requires ConfigOk(c) && id in After(c, steps).db.txs && After(c, steps).db.txs[id].status == FAILED
    ensures var s := After(c, steps);
            && id in s.db.events && c.decide(s.db.events[id].payload).Failed?
            && id in s.db.dead
            && s.db.dead[id] == DeadLetter(s.db.events[id].payload, c.decide(s.db.events[id].payload).reason, 3)
            && s.db.txs[id].retryCount == 3
            && id in s.queue && s.queue[id].state == JobFailed
  {
    RunKeeps(c, steps);
    assert IdOk(c, After(c, steps).now, ViewOf(After(c, steps), id));
  }

  /** The dead letter was saved before the status was written. */
  lemma DeadLetterFirst(c: Config, s: World, step: Step, id: Id)
    requires ConfigOk(c) && Inv(c, s) && id in s.db.txs && s.db.txs[id].status != FAILED
    requires id in Apply(c, s, step).db.txs && Apply(c, s, step).db.txs[id].status == FAILED
    ensures step.MarkFailed? && id in s.db.dead && s.db.dead[id].attemptsMade == 3
  {
    assert IdOk(c, s.now, ViewOf(s, id));
    if step.MarkFailed? {
      assert WorkerOk(c, s, step.w);
    } else {
      OnlyMarkFailedFails(c, s, step, id);
      assert false;
    }
  }

  lemma OnlyMarkFailedFails(c: Config, s: World, step: Step, id: Id)
    requires id in s.db.txs && s.db.txs[id].status != FAILED && !step.MarkFailed?
    ensures id in Apply(c, s, step).db.txs && Apply(c, s, step).db.txs[id].status != FAILED
  {
    hide LeaseExpired;
    match step {
      case Start(_) | Throw(_) | Finalize(_) | Renew(_, _) => WorkerStepNotFailed(c, s, step, id);
      case RecoverLeases => RecoveredView(c, s, id);
      case Pay(_, _, _, _) =>
      case _ => TablesSame(c, s, step, id);
    }
  }

  predicate NotFailed(s: World, id: Id) { id in s.db.txs && s.db.txs[id].status != FAILED }

  lemma StartNotFailed(c: Config, s: World, w: WorkerId, id: Id)
    requires NotFailed(s, id)
    ensures NotFailed(ApplyStart(c, s, w), id)
  {
  }

  lemma ThrowNotFailed(c: Config, s: World, w: WorkerId, id: Id)
    requires NotFailed(s, id)
    ensures NotFailed(ApplyThrow(c, s, w), id)
  {
  }

  lemma FinalizeNotFailed(c: Config, s: World, w: WorkerId, id: Id)
    requires NotFailed(s, id)
    ensures NotFailed(ApplyFinalize(c, s, w), id)
  {
  }

  lemma WorkerStepNotFailed(c: Config, s: World, step: Step, id: Id)
    requires NotFailed(s, id)
    requires step.Start? || step.Throw? || step.Finalize? || step.Renew?
    ensures NotFailed(Apply(c, s, step), id)
  {
    hide NotFailed, ApplyStart, ApplyThrow, ApplyFinalize, ApplyRenew;
    match step {
      case Start(w) => StartNotFailed(c, s, w, id);
      case Throw(w) => ThrowNotFailed(c, s, w, id);
      case Finalize(w) => FinalizeNotFailed(c, s, w, id);
      case Renew(w, j) => RenewNotFailed(c, s, w, j, id);
    }
  }

  lemma RenewNotFailed(c: Config, s: World, w: WorkerId, renewed: Id, id: Id)
    requires NotFailed(s, id)
    ensures NotFailed(ApplyRenew(c, s, w, renewed), id)
  {
  }

  /* ---- fencing ---- */

  /** A finalize takes effect exactly when the row is PROCESSING in the epoch its own worker opened. */
  lemma FinalizeIffCurrent(c: Config, steps: seq<Step>, w: WorkerId)
    requires ConfigOk(c) && WorkerAt(After(c, steps), w).Claimed?
    requires !c.decide(WorkerAt(After(c, steps), w).data).Failed?
    ensures var s := After(c, steps); var h := WorkerAt(s, w); var s' := Apply(c, s, Finalize(w));
            && h.id in s.db.txs && h.id in s.starts && h.epoch <= s.starts[h.id]
            && (Final(s'.db.txs[h.id].status) && !Final(s.db.txs[h.id].status)
                <==> s.db.txs[h.id].status == PROCESSING && h.epoch == s.starts[h.id])
            && (s'.db != s.db <==> s.db.txs[h.id].status == PROCESSING && h.epoch == s.starts[h.id])
            && (s.db.txs[h.id].status == PROCESSING && h.epoch == s.starts[h.id] ==>
               s.db.txs[h.id].timeline == h.timeline)
  {
    RunKeeps(c, steps);
    var s := After(c, steps);
    assert WorkerOk(c, s, w);
    hide Inv;
    FinalizeLocalIff(c, s, w);
  }

  lemma FinalizeLocalIff(c: Config, s: World, w: WorkerId)
    requires WorkerOk(c, s, w) && WorkerAt(s, w).Claimed? && !c.decide(WorkerAt(s, w).data).Failed?
    ensures var h := WorkerAt(s, w); var s' := Apply(c, s, Finalize(w));
            && (s.db.txs[h.id].status == PROCESSING && h.epoch == s.starts[h.id] ==> Final(s'.db.txs[h.id].status))
            && (!(s.db.txs[h.id].status == PROCESSING && h.epoch == s.starts[h.id]) ==> s'.db == s.db)
  {
  }

  /** The claim w opened, with its handler or the failed callback still under way, was retaken since. */
  predicate Overtaken(s: World, w: WorkerId, id: Id) {
    var h := WorkerAt(s, w);
    (h.Claimed? || h.DeadLettered?) && h.id == id && id in s.starts && h.epoch < s.starts[id]
  }

  predicate StepOf(w: WorkerId, step: Step) {
    (step.Read? || step.Start? || step.Renew? || step.Finalize? || step.Throw? || step.MarkFailed? || step.Return?)
        && step.w == w
  }

  /** The handler throws with the job still held and attempts left: the retry reset. */
  predicate UnfencedReset(c: Config, s: World, w: WorkerId, step: Step) {
    var h := WorkerAt(s, w);
    && step == Throw(w) && h.Claimed? && c.decide(h.data).Failed? && Holds(s, w, h.id)
    && s.queue[h.id].attemptsMade + 1 < ATTEMPTS
  }

  /** The status write that follows the dead letter. */
  predicate UnfencedFailure(s: World, w: WorkerId, step: Step) {
    step == MarkFailed(w) && WorkerAt(s, w).DeadLettered?
  }

  lemma MarkedBy(r: Tx, status: TxStatus, reason: string, attempts: nat)
    ensures Marked(UpdateTx(r, ResetUpdates(status, reason, attempts), true), r, status, attempts, reason)
  {
  }

  /** The row after either of them: what it was, but for status, count, reason and lease. */
  predicate Unfenced(c: Config, s: World, w: WorkerId, step: Step, a: Tx, r: Tx)
    requires UnfencedReset(c, s, w, step) || UnfencedFailure(s, w, step)
  {
    var h := WorkerAt(s, w);
    if step.Throw? then Marked(a, r, ACCEPTED, s.queue[h.id].attemptsMade + 1, c.decide(h.data).reason)
    else Marked(a, r, FAILED, h.attempts, h.reason)
  }

  lemma UnfencedBy(c: Config, s: World, w: WorkerId, step: Step, r: Tx)
    requires UnfencedReset(c, s, w, step) || UnfencedFailure(s, w, step)
    ensures Unfenced(c, s, w, step, UpdateTx(r, UnfencedUpdates(c, s, w, step), true), r)
  {
    var h := WorkerAt(s, w);
    if step.Throw? {
      MarkedBy(r, ACCEPTED, c.decide(h.data).reason, s.queue[h.id].attemptsMade + 1);
    } else {
      MarkedBy(r, FAILED, h.reason, h.attempts);
    }
    hide UpdateTx, ResetUpdates, Marked;
  }

  /** The update either of them makes. */
  function UnfencedUpdates(c: Config, s: World, w: WorkerId, step: Step): Updates
    requires UnfencedReset(c, s, w, step) || UnfencedFailure(s, w, step)
  {
    var h := WorkerAt(s, w);
    if step.Throw? then ResetUpdates(ACCEPTED, c.decide(h.data).reason, s.queue[h.id].attemptsMade + 1)
    else ResetUpdates(FAILED, h.reason, h.attempts)
  }

  /**
   * An overtaken worker leaves the row alone except by the two unguarded updates of the failed
   * callback; it changes somebody's current claim if and only if its step is one of them.
   */
  lemma OvertakenIsFenced(c: Config, s: World, w: WorkerId, id: Id, step: Step)
    requires Inv(c, s) && Overtaken(s, w, id) && StepOf(w, step)
    ensures var unfenced := UnfencedReset(c, s, w, step) || UnfencedFailure(s, w, step);
            id in s.db.txs && id in Apply(c, s, step).db.txs
            && (if unfenced then Unfenced(c, s, w, step, Apply(c, s, step).db.txs[id], s.db.txs[id])
                else Apply(c, s, step).db.txs[id] == s.db.txs[id])
            && (s.db.txs[id].status == PROCESSING ==>
                  s.db.txs[id].claimant != Some(w) && (Apply(c, s, step).db.txs[id] != s.db.txs[id] <==> unfenced))
  {
    OvertakenClaimant(c, s, w, id);
    assert WorkerOk(c, s, w);
    hide Inv;
    OvertakenRow(c, s, w, id, step);
    hide Apply, WorkerOk;
    if UnfencedReset(c, s, w, step) || UnfencedFailure(s, w, step) { UnfencedBy(c, s, w, step, s.db.txs[id]); }
    hide UpdateTx, UnfencedUpdates;
  }

  lemma OvertakenClaimant(c: Config, s: World, w: WorkerId, id: Id)
    requires Inv(c, s) && Overtaken(s, w, id)
    ensures id in s.db.txs && (s.db.txs[id].status == PROCESSING ==> s.db.txs[id].claimant != Some(w))
  {
    assert WorkerOk(c, s, w);
  }

  lemma OvertakenRow(c: Config, s: World, w: WorkerId, id: Id, step: Step)
    requires WorkerOk(c, s, w) && Overtaken(s, w, id) && StepOf(w, step) && id in s.db.txs
    requires s.db.txs[id].status == PROCESSING ==> s.db.txs[id].claimant != Some(w)
    ensures id in Apply(c, s, step).db.txs
    ensures Apply(c, s, step).db.txs[id]
            == if UnfencedReset(c, s, w, step) || UnfencedFailure(s, w, step)
               then UpdateTx(s.db.txs[id], UnfencedUpdates(c, s, w, step), true) else s.db.txs[id]
  {
    match step {
      case Finalize(_) => OvertakenFinalize(c, s, w, id);
      case Renew(_, j) => OvertakenRenew(c, s, w, id, j);
      case Throw(_) => OvertakenThrow(c, s, w, id);
      case MarkFailed(_) => OvertakenMarkFailed(c, s, w, id);
      case _ => OvertakenElse(c, s, w, id, step);
    }
    hide ApplyFinalize, ApplyRenew, ApplyThrow, ApplyMarkFailed, ApplyRead, ApplyStart, ApplyReturn, UpdateTx;
  }

  lemma OvertakenElse(c: Config, s: World, w: WorkerId, id: Id, step: Step)
    requires Overtaken(s, w, id) && StepOf(w, step) && id in s.db.txs
    requires step.Read? || step.Start? || step.Return?
    ensures Apply(c, s, step).db.txs == s.db.txs
  {
    hide StartTx, UpdateTx, RenewTx, FinalizeTx;
  }

  lemma OvertakenFinalize(c: Config, s: World, w: WorkerId, id: Id)
    requires Overtaken(s, w, id) && id in s.db.txs
    requires s.db.txs[id].status == PROCESSING ==> s.db.txs[id].claimant != Some(w)
    ensures ApplyFinalize(c, s, w).db.txs == s.db.txs
  {
  }

  lemma OvertakenRenew(c: Config, s: World, w: WorkerId, id: Id, renewed: Id)
    requires id in s.db.txs && (s.db.txs[id].status == PROCESSING ==> s.db.txs[id].claimant != Some(w))
    ensures id in ApplyRenew(c, s, w, renewed).db.txs && ApplyRenew(c, s, w, renewed).db.txs[id] == s.db.txs[id]
  {
  }

  lemma OvertakenThrow(c: Config, s: World, w: WorkerId, id: Id)
    requires Overtaken(s, w, id) && id in s.db.txs
    ensures var txs := ApplyThrow(c, s, w).db.txs;
            id in txs
            && txs[id] == if UnfencedReset(c, s, w, Throw(w))
                          then UpdateTx(s.db.txs[id], UnfencedUpdates(c, s, w, Throw(w)), true) else s.db.txs[id]
  {
    hide UpdateTx;
  }

  lemma OvertakenMarkFailed(c: Config, s: World, w: WorkerId, id: Id)
    requires Overtaken(s, w, id) && id in s.db.txs
    ensures var txs := ApplyMarkFailed(s, w).db.txs;
            id in txs
            && txs[id] == if UnfencedFailure(s, w, MarkFailed(w))
                          then UpdateTx(s.db.txs[id], UnfencedUpdates(c, s, w, MarkFailed(w)), true) else s.db.txs[id]
  {
    hide UpdateTx;
  }

  /* ---- how a claim ends ---- */

  predicate ClaimOf(s: World, w: WorkerId, id: Id) {
    id in s.db.txs && s.db.txs[id].status == PROCESSING && s.db.txs[id].claimant == Some(w)
  }

  /** The claimant's handler, with a decision that is not a failure, finalizes. */
  predicate Concludes(c: Config, s: World, w: WorkerId, step: Step, id: Id) {
    step == Finalize(w) && WorkerAt(s, w).Claimed? && WorkerAt(s, w).id == id && !c.decide(WorkerAt(s, w).data).Failed?
  }

  /** Some worker's failed callback updates the row, whosever claim it is. */
  predicate ResetBy(c: Config, s: World, step: Step, id: Id) {
    (step.Throw? && HandlerId(WorkerAt(s, step.w)) == id && UnfencedReset(c, s, step.w, step))
    || (step.MarkFailed? && HandlerId(WorkerAt(s, step.w)) == id && UnfencedFailure(s, step.w, step))
  }

  lemma ClaimEnds(c: Config, s: World, w: WorkerId, step: Step, id: Id)
    requires Inv(c, s) && ClaimOf(s, w, id)
    ensures !ClaimOf(Apply(c, s, step), w, id)
            <==> Concludes(c, s, w, step, id)
                 || (step.RecoverLeases? && LeaseExpired(s.db.txs[id], s.now, c.staleMs)) || ResetBy(c, s, step, id)
  {
    hide Inv, ClaimOf, LeaseExpired, ApplyThrow, ApplyMarkFailed, ApplyFinalize, ApplyStart, ApplyRenew, ApplyPay,
      UnfencedReset, UnfencedFailure;
    match step {
      case Throw(v) => EndsByThrow(c, s, w, v, id);
      case MarkFailed(v) => EndsByMarkFailed(c, s, w, v, id);
      case Finalize(v) => EndsByFinalize(c, s, w, v, id);
      case Start(v) => EndsByStart(c, s, w, v, id);
      case Renew(v, j) => EndsByRenew(c, s, w, v, j, id);
      case RecoverLeases => EndsByRecovery(c, s, w, id);
      case _ => EndsByNothing(c, s, w, step, id);
    }
  }

  /**
   * A claim ends exactly by its own finalize, by recovery of its expired lease, or by an unguarded
   * update of the failed callback.
   */
  lemma ClaimEndsIff(c: Config, s: World, w: WorkerId, step: Step, id: Id)
    requires Inv(c, s) && ClaimOf(s, w, id)
    ensures !ClaimOf(Apply(c, s, step), w, id)
            <==> Concludes(c, s, w, step, id)
                 || (step.RecoverLeases? && Overdue(s.db.txs[id], s.now, c.staleMs)) || ResetBy(c, s, step, id)
  {
    ClaimEnds(c, s, w, step, id);
    assert Overdue(s.db.txs[id], s.now, c.staleMs) <==> LeaseExpired(s.db.txs[id], s.now, c.staleMs);
    hide Apply, Inv, ClaimOf, ResetBy, Concludes;
  }

  /** Only payments whose decision is a failure are ever reset: any other claim is out of reach of the callback. */
  lemma OnlyFailuresAreReset(c: Config, s: World, step: Step, id: Id)
    requires Inv(c, s) && id in s.db.txs && ResetBy(c, s, step, id)
    ensures id in s.db.events && c.decide(s.db.events[id].payload).Failed?
  {
    assert IdOk(c, s.now, ViewOf(s, id)) && WorkerOk(c, s, step.w);
  }

  lemma EndsByRecovery(c: Config, s: World, w: WorkerId, id: Id)
    requires ClaimOf(s, w, id)
    ensures !ClaimOf(Apply(c, s, RecoverLeases), w, id) <==> LeaseExpired(s.db.txs[id], s.now, c.staleMs)
  {
    RecoveredView(c, s, id);
  }

  lemma EndsByNothing(c: Config, s: World, w: WorkerId, step: Step, id: Id)
    requires ClaimOf(s, w, id)
    requires !(step.RecoverLeases? || step.Start? || step.Throw? || step.Finalize? || step.MarkFailed? || step.Renew?)
    ensures ClaimOf(Apply(c, s, step), w, id)
  {
    if step.Pay? { EndsByPay(c, s, step, id); } else { TablesSame(c, s, step, id); }
    hide Apply;
  }

  lemma EndsByPay(c: Config, s: World, step: Step, id: Id)
    requires step.Pay? && id in s.db.txs
    ensures Find(Apply(c, s, step).db.txs, id) == Find(s.db.txs, id)
  {
  }

  lemma EndsByThrow(c: Config, s: World, w: WorkerId, v: WorkerId, id: Id)
    requires ClaimOf(s, w, id)
    ensures !ClaimOf(ApplyThrow(c, s, v), w, id) <==> ResetBy(c, s, Throw(v), id)
  {
  }

  lemma EndsByMarkFailed(c: Config, s: World, w: WorkerId, v: WorkerId, id: Id)
    requires ClaimOf(s, w, id)
    ensures !ClaimOf(ApplyMarkFailed(s, v), w, id) <==> ResetBy(c, s, MarkFailed(v), id)
  {
  }

  lemma EndsByFinalize(c: Config, s: World, w: WorkerId, v: WorkerId, id: Id)
    requires ClaimOf(s, w, id)
    ensures !ClaimOf(ApplyFinalize(c, s, v), w, id) <==> Concludes(c, s, w, Finalize(v), id)
  {
  }

  lemma EndsByStart(c: Config, s: World, w: WorkerId, v: WorkerId, id: Id)
    requires ClaimOf(s, w, id)
    ensures ClaimOf(ApplyStart(c, s, v), w, id)
  {
  }

  lemma EndsByRenew(c: Config, s: World, w: WorkerId, v: WorkerId, renewed: Id, id: Id)
    requires ClaimOf(s, w, id)
    ensures ClaimOf(ApplyRenew(c, s, v, renewed), w, id)
  {
  }

  /** Counting the finalizes that took effect on a transaction. */
  function Finalized(c: Config, steps: seq<Step>, id: Id): nat
    decreases |steps|
  {
    if steps == [] then 0
    else
      var n := |steps| - 1;
      var s := After(c, steps[..n]);
      Finalized(c, steps[..n], id)
      + if steps[n].Finalize? && id in s.db.txs && id in Apply(c, s, steps[n]).db.txs
           && Apply(c, s, steps[n]).db.txs[id] != s.db.txs[id] then 1 else 0
  }

  /** At most one finalize ever takes effect, and exactly one if the transaction was not failed. */
  lemma {:induction false} AtMostOneFinalize(c: Config, steps: seq<Step>, id: Id)
    requires ConfigOk(c)
    ensures var s := After(c, steps);
            Finalized(c, steps, id)
            == if id in s.db.txs && (s.db.txs[id].status == COMPLETED || s.db.txs[id].status == DECLINED) then 1 else 0
    decreases |steps|
  {
    if steps != [] {
      var n := |steps| - 1;
      var s, step := After(c, steps[..n]), steps[n];
      AtMostOneFinalize(c, steps[..n], id);
      RunKeeps(c, steps[..n]);
      assert IdOk(c, s.now, ViewOf(s, id));
      StepEvolves(c, s, step, id);
      if step.Finalize? {
        FinalizeChanges(c, s, step.w, id);
      } else {
        OtherStepNotFinal(c, s, step, id);
      }
    }
  }

  lemma FinalizeChanges(c: Config, s: World, w: WorkerId, id: Id)
    ensures var s' := Apply(c, s, Finalize(w));
            && (id in s'.db.txs <==> id in s.db.txs)
            && (id in s.db.txs && s'.db.txs[id] != s.db.txs[id] ==>
                  s.db.txs[id].status == PROCESSING && (s'.db.txs[id].status == COMPLETED
                      || s'.db.txs[id].status == DECLINED))
  {
  }

  predicate SettledByWorker(s: World, id: Id) {
    id in s.db.txs && (s.db.txs[id].status == COMPLETED || s.db.txs[id].status == DECLINED)
  }

  lemma OtherStepNotFinal(c: Config, s: World, step: Step, id: Id)
    requires ConfigOk(c) && Inv(c, s) && !step.Finalize?
    ensures SettledByWorker(Apply(c, s, step), id) <==> SettledByWorker(s, id)
  {
    StepEvolves(c, s, step, id);
    assert IdOk(c, s.now, ViewOf(s, id));
    if !SettledByWorker(s, id) {
      hide Inv, IdOk, Evolves;
      NotSettledByOthers(c, s, step, id);
    }
  }

  lemma NotSettledByOthers(c: Config, s: World, step: Step, id: Id)
    requires !step.Finalize? && !SettledByWorker(s, id)
    ensures !SettledByWorker(Apply(c, s, step), id)
  {
    match step {
      case Start(_) | Throw(_) | MarkFailed(_) | Renew(_, _) => WorkerStepNotSettled(c, s, step, id);
      case RecoverLeases => RecoveredView(c, s, id);
      case Pay(_, _, _, _) =>
      case _ => TablesSame(c, s, step, id);
    }
  }

  lemma WorkerStepNotSettled(c: Config, s: World, step: Step, id: Id)
    requires !SettledByWorker(s, id) && (step.Start? || step.Throw? || step.MarkFailed? || step.Renew?)
    ensures !SettledByWorker(Apply(c, s, step), id)
  {
  }
}
