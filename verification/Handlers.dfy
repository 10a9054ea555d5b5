/**
 * jobs/transactionJobHandler.js and jobs/transactionWorker.js as code over the database.  The handler
 * is cut at its awaits, where any other process may come in between; each piece, in any state the
 * others have left, changes the tables exactly as its protocol step does.
 */
module Handlers {
  import opened Wrappers
  import opened Json
  import opened Columns
  import opened Tables
  import opened Protocol
  import opened Store
  import opened Invariant
  import opened Runs
  import D = Decisions

  /** Where the handler is, with its local variables; epochs belong to the protocol alone. */
  datatype At =
    | Resting
    | AtRead(id: Id, data: Json)
    | AtStart(id: Id, txn: Json, timeline: seq<TxStatus>)
    | AtFinalize(id: Id, txn: Json, timeline: seq<TxStatus>)
    | AtMark(id: Id, reason: string, attempts: nat)
    | Over(id: Id)

  predicate Matches(at: At, h: Handler) {
    match at
    case Resting => h == Idle
    case AtRead(id, data) => h == Delivered(id, data)
    case AtStart(id, txn, timeline) => h == Seen(id, txn, timeline)
    case AtFinalize(id, txn, timeline) => h.Claimed? && h.id == id && h.data == txn && h.timeline == timeline
    case AtMark(id, reason, attempts) => h.DeadLettered? && h.id == id && h.reason == reason && h.attempts == attempts
    case Over(id) => h == Returned(id)
  }

  /** How a handler ends, or that it goes on. */
  datatype Handling =
    | GoesOn | NotFound | Skipped | ClaimLost | FinalizationLost | Done(status: TxStatus) | Thrown(reason: string)

  /** The row after a finalize with decision d: the outcome, the worker number, the longer timeline, no lease. */
  predicate Settled(a: Tx, r: Tx, d: D.Decision, timeline: seq<TxStatus>) {
    && SameIdentity(a, r) && NoLease(a) && a.retryCount == r.retryCount && a.workerId == Some(1)
    && match d
       case Completed(route, result) =>
         a.status == COMPLETED && a.route == Some(route) && a.result == Some(result) && a.reason == r.reason
         && a.timeline == timeline + [PROCESSING, COMPLETED]
       case Declined(via, reason) =>
         a.status == DECLINED && a.route == (if via.Some? then via else r.route) && a.reason == Some(reason)
         && a.result == r.result && a.timeline == timeline + [DECLINED]
       case Failed(_) => false
  }

  /** One row is accepted again with so many attempts and this reason; no other row changes. */
  predicate Reset(was: map<Id, Tx>, txs: map<Id, Tx>, id: Id, attempts: nat, reason: string) {
    id in was && id in txs && txs == was[id := txs[id]] && Marked(txs[id], was[id], ACCEPTED, attempts, reason)
  }

  class Worker {
    const store: Database
    const id: WorkerId
    var at: At

    constructor (store: Database, id: WorkerId)
      ensures this.store == store && this.id == id && at == Resting
    {
      this.store, this.id, at := store, id, Resting;
    }

    ghost predicate Shows(s: World) reads this, store {
      s.db == store.Contents() && s.now == store.now && Matches(at, WorkerAt(s, id))
    }

    /** Up to the first await's reply: getTransaction and the skip rules. */
    method Look(c: Config, ghost s: World) returns (r: Handling)
      requires at.AtRead? && Shows(s)
      modifies this`at
      ensures r == if old(at).id !in store.txs then NotFound
                   else if store.txs[old(at).id].status != ACCEPTED then Skipped else GoesOn
      ensures Shows(if r.NotFound? then s else Apply(c, s, Read(id)))
      ensures !r.NotFound? ==> at == if r.Skipped? then Over(old(at).id)
                                     else AtStart(old(at).id, c.sanitize(old(at).data), store.txs[old(at).id].timeline)
    {
      if at.id !in store.txs { return NotFound; }
      var existing := store.txs[at.id];
      if existing.status != ACCEPTED {
        at := Over(at.id);
        return Skipped;
      }
      at := AtStart(at.id, c.sanitize(at.data), existing.timeline);
      r := GoesOn;
    }

    /** startTransactionProcessing and its reply. */
    method Claim(c: Config, ghost s: World) returns (r: Handling)
      requires at.AtStart? && Shows(s) && at.id in s.db.txs && at.id in s.starts
      modifies this`at, store`txs
      ensures r == if old(store.txs)[old(at).id].status == ACCEPTED then GoesOn else ClaimLost
      ensures Shows(Apply(c, s, Start(id)))
      ensures at == if r.GoesOn? then AtFinalize(old(at).id, old(at).txn, old(at).timeline + [PROCESSING])
                    else Over(old(at).id)
    {
      var timeline := at.timeline + [PROCESSING];
      var row := store.StartTransactionProcessing(at.id, id, Some(timeline), c.lease);
      if row.None? {
        at := Over(at.id);
        return ClaimLost;
      }
      at := AtFinalize(at.id, at.txn, timeline);
      r := GoesOn;
    }

    /** processClaimedTransaction: throw for a failure, otherwise finalize if the claim is still held. */
    method ProcessClaimedTransaction(c: Config, ghost s: World) returns (r: Handling)
      requires at.AtFinalize? && Shows(s) && at.id in s.db.txs
      modifies this`at, store`txs
      ensures r.Thrown? <==> c.decide(old(at).txn).Failed?
      ensures r.Thrown? ==> c.decide(old(at).txn) == D.Failed(r.reason) && at == old(at) && Shows(s)
      ensures !r.Thrown? ==> at == Over(old(at).id) && Shows(Apply(c, s, Finalize(id)))
      ensures !r.Thrown? ==>
                r == if ClaimOf(s, id, old(at).id) then Done(store.txs[old(at).id].status) else FinalizationLost
      ensures r.Done? ==> Final(r.status)
      ensures store.txs.Keys == old(store.txs).Keys
      ensures forall j :: j in store.txs && !(j == old(at).id && r.Done?) ==> store.txs[j] == old(store.txs)[j]
      ensures r.Done? ==>
                Settled(store.txs[old(at).id], old(store.txs)[old(at).id], c.decide(old(at).txn), old(at).timeline)
    {
      var decision := c.decide(at.txn);
      if decision.Failed? { return Thrown(decision.reason); }
      SettledBy(store.txs[at.id], id, decision, at.timeline);
      FinalizeEffect(c, s, id);
      hide Settled, FinalUpdates, Set, Coalesced, Apply;
      var row := store.FinalizeTransactionProcessing(at.id, id, FinalUpdates(decision, at.timeline));
      at := Over(at.id);
      if row.None? { return FinalizationLost; }
      r := Done(row.value.status);
    }

    /** The failed callback after a throw, with the attempt already counted by the queue. */
    method OnFailed(c: Config, data: Json, attemptsMade: nat, reason: string, ghost s: World)
      requires at.AtFinalize? && Shows(s) && at.id in s.db.txs && c.decide(at.txn) == D.Failed(reason)
      requires Protocol.Holds(s, id, at.id) && s.queue[at.id].attemptsMade + 1 == attemptsMade
               && s.queue[at.id].data == data
      modifies this`at, store`txs, store`dead
      ensures Shows(Apply(c, s, Throw(id)))
      ensures at == if attemptsMade < 3 then Resting else AtMark(old(at).id, reason, attemptsMade)
      ensures attemptsMade < 3 ==> Reset(old(store.txs), store.txs, old(at).id, attemptsMade, reason)
      ensures attemptsMade < 3 ==> store.dead == old(store.dead)
      ensures attemptsMade >= 3 ==> store.txs == old(store.txs)
      ensures attemptsMade >= 3 ==>
                store.dead == old(store.dead)[old(at).id := DeadLetter(c.sanitize(data), reason, attemptsMade)]
    {
      hide Apply, Shows, Reset;
      if attemptsMade < ATTEMPTS {
        Accept(c, attemptsMade, reason, s);
      } else {
        Bury(c, data, attemptsMade, reason, s);
      }
    }

    /** The callback before the last attempt. */
    method Accept(c: Config, attemptsMade: nat, reason: string, ghost s: World)
      requires at.AtFinalize? && Shows(s) && at.id in s.db.txs && c.decide(at.txn) == D.Failed(reason)
      requires Protocol.Holds(s, id, at.id) && s.queue[at.id].attemptsMade + 1 == attemptsMade < ATTEMPTS
      modifies this`at, store`txs
      ensures Shows(Apply(c, s, Throw(id))) && at == Resting
      ensures Reset(old(store.txs), store.txs, old(at).id, attemptsMade, reason)
    {
      ThrowEffect(c, s, id);
      MarkedBy(store.txs[at.id], ACCEPTED, reason, attemptsMade);
      hide Apply, UpdateTx, ResetUpdates, Marked, Coalesced;
      var _ := store.UpdateTransaction(at.id, ResetUpdates(ACCEPTED, reason, attemptsMade), true);
      at := Resting;
    }

    /** The callback after the last attempt, up to the dead letter. */
    method Bury(c: Config, data: Json, attemptsMade: nat, reason: string, ghost s: World)
      requires at.AtFinalize? && Shows(s) && at.id in s.db.txs && c.decide(at.txn) == D.Failed(reason)
      requires Protocol.Holds(s, id, at.id) && s.queue[at.id].attemptsMade + 1 == attemptsMade >= ATTEMPTS
               && s.queue[at.id].data == data
      modifies this`at, store`dead
      ensures Shows(Apply(c, s, Throw(id))) && at == AtMark(old(at).id, reason, attemptsMade)
      ensures store.dead == old(store.dead)[old(at).id := DeadLetter(c.sanitize(data), reason, attemptsMade)]
    {
      ThrowEffect(c, s, id);
      hide Apply;
      store.SaveDeadLetterJob(at.id, c.sanitize(data), reason, attemptsMade);
      at := AtMark(at.id, reason, attemptsMade);
    }

    /** The callback's status write, in whatever state the row is by then. */
    method MarkTransactionFailed(c: Config, ghost s: World)
      requires at.AtMark? && Shows(s) && at.id in s.db.txs
      modifies this`at, store`txs
      ensures Shows(Apply(c, s, MarkFailed(id))) && at == Resting
      ensures var was, key := old(store.txs), old(at).id;
              key in was && key in store.txs
              && Marked(store.txs[key], was[key], FAILED, old(at).attempts, old(at).reason)
              && store.txs == was[key := store.txs[key]]
    {
      hide UpdateTx;
      var _ := store.UpdateTransaction(at.id, ResetUpdates(FAILED, at.reason, at.attempts), true);
      at := Resting;
    }

    /**
     * An await: the other processes, and this worker's heartbeat, take any number of steps.  Callers
     * know of them only that they are not the handler's own.
     */
    method Await(c: Config, ghost s: World) returns (ghost others: seq<Step>)
      requires Shows(s)
      modifies store
      ensures at == old(at) && Foreign(id, others) && Shows(Run(c, s, others))
    {
      others := [];
    }

    /** From the claim's reply on. */
    method Conclude(c: Config, ghost s: World) returns (r: Handling, ghost second: seq<Step>)
      requires ConfigOk(c) && Inv(c, s) && at.AtFinalize? && Shows(s) && at.id in s.db.txs
      modifies this`at, store
      ensures Foreign(id, second) && (r.Thrown? || r.Done? || r.FinalizationLost?)
      ensures var t := Run(c, s, second); Shows(if r.Thrown? then t else Apply(c, t, Finalize(id)))
      ensures r.Done? ==> old(at).id in store.txs && store.txs[old(at).id].status == r.status && Final(r.status)
      ensures r.Thrown? ==> c.decide(old(at).txn) == D.Failed(r.reason)
    {
      var txnId := at.id;
      second := Await(c, s);
      Later(c, s, second, txnId);
      FinalizeKeepsRow(c, Run(c, s, second), id, txnId);
      hide Run, Apply, Inv, ConfigOk, ClaimOf;
      r := ProcessClaimedTransaction(c, Run(c, s, second));
    }

    /** From the first read's reply on. */
    method Continue(c: Config, ghost s: World) returns (r: Handling, ghost first: seq<Step>, ghost second: seq<Step>)
      requires ConfigOk(c) && Inv(c, s) && at.AtStart? && Shows(s) && at.id in s.db.txs
      modifies this`at, store
      ensures Foreign(id, first) && Foreign(id, second) && (r.ClaimLost? || r.Thrown? || r.Done? || r.FinalizationLost?)
      ensures Shows(AfterStart(c, s, id, r, first, second))
      ensures r.Done? ==> old(at).id in store.txs && store.txs[old(at).id].status == r.status && Final(r.status)
      ensures r.Thrown? ==> c.decide(old(at).txn) == D.Failed(r.reason)
    {
      var txnId := at.id;
      second := [];
      first := Await(c, s);
      Later(c, s, first, txnId);
      hide Run, Apply, Inv, ConfigOk;
      r := Claim(c, Run(c, s, first));
      if r.GoesOn? {
        KeepsRow(c, Run(c, s, first), Start(id), txnId);
        r, second := Conclude(c, Apply(c, Run(c, s, first), Start(id)));
      }
    }

    /** handleTransactionJob, with anything happening at its awaits. */
    method HandleTransactionJob(c: Config, ghost s: World)
        returns (r: Handling, ghost first: seq<Step>, ghost second: seq<Step>)
      requires ConfigOk(c) && Inv(c, s) && at.AtRead? && Shows(s)
      modifies this`at, store
      ensures Foreign(id, first) && Foreign(id, second) && !r.GoesOn?
      ensures Shows(Run(c, s, Course(id, r, first, second)))
      ensures r.NotFound? <==> old(at).id !in old(store.txs)
      ensures r.Skipped? <==> old(at).id in old(store.txs) && old(store.txs)[old(at).id].status != ACCEPTED
      ensures r.Done? ==> old(at).id in store.txs && store.txs[old(at).id].status == r.status && Final(r.status)
      ensures r.Thrown? ==> c.decide(c.sanitize(old(at).data)) == D.Failed(r.reason)
    {
      first, second := [], [];
      var txnId := at.id;
      r := Look(c, s);
      hide Run, Apply, Inv, ConfigOk;
      if r.GoesOn? {
        KeepsRow(c, s, Read(id), txnId);
        r, first, second := Continue(c, Apply(c, s, Read(id)));
      }
      CourseSteps(c, s, id, r, first, second);
    }
  }

  lemma FinalizeEffect(c: Config, s: World, w: WorkerId)
    requires WorkerAt(s, w).Claimed? && WorkerAt(s, w).id in s.db.txs && !c.decide(WorkerAt(s, w).data).Failed?
    ensures var h, s' := WorkerAt(s, w), Apply(c, s, Finalize(w));
            var row := FinalizeTx(s.db.txs[h.id], w, FinalUpdates(c.decide(h.data), h.timeline));
            s'.db == s.db.(txs := if row.None? then s.db.txs else s.db.txs[h.id := row.value])
            && s'.now == s.now && WorkerAt(s', w) == Returned(h.id)
  {
    hide FinalizeTx, FinalUpdates;
  }

  lemma ThrowEffect(c: Config, s: World, w: WorkerId)
    requires var h := WorkerAt(s, w);
             h.Claimed? && h.id in s.db.txs && c.decide(h.data).Failed? && Protocol.Holds(s, w, h.id)
    ensures var h, s' := WorkerAt(s, w), Apply(c, s, Throw(w));
            var job, reason := s.queue[h.id], c.decide(h.data).reason;
            var n := job.attemptsMade + 1;
            var reset := ResetUpdates(ACCEPTED, reason, n);
            s'.now == s.now
            && if n < ATTEMPTS then
                 s'.db == s.db.(txs := s.db.txs[h.id := UpdateTx(s.db.txs[h.id], reset, true)])
                 && WorkerAt(s', w) == Idle
               else
                 s'.db == s.db.(dead := s.db.dead[h.id := DeadLetter(c.sanitize(job.data), reason, n)])
                 && WorkerAt(s', w) == DeadLettered(h.id, reason, n, h.epoch)
  {
    hide UpdateTx;
  }

  lemma SettledBy(r: Tx, w: WorkerId, d: D.Decision, timeline: seq<TxStatus>)
    requires !d.Failed?
    ensures FinalizeTx(r, w, FinalUpdates(d, timeline)).Some? ==>
              Settled(FinalizeTx(r, w, FinalUpdates(d, timeline)).value, r, d, timeline)
              && Final(FinalizeTx(r, w, FinalUpdates(d, timeline)).value.status)
  {
    assert timeline + [PROCESSING] + [COMPLETED] == timeline + [PROCESSING, COMPLETED];
  }

  /** The world after the claim, and after what follows it. */
  function AfterStart(c: Config, s: World, w: WorkerId, r: Handling, first: seq<Step>, second: seq<Step>): World {
    var claimed := Apply(c, Run(c, s, first), Start(w));
    if r.ClaimLost? then claimed
    else if r.Thrown? then Run(c, claimed, second)
    else Apply(c, Run(c, claimed, second), Finalize(w))
  }

  lemma FinalizeKeepsRow(c: Config, s: World, w: WorkerId, id: Id)
    requires id in s.db.txs
    ensures id in Apply(c, s, Finalize(w)).db.txs
  {
  }

  /** Steps that are not the handler's own; its heartbeat is not counted as such. */
  predicate Foreign(w: WorkerId, steps: seq<Step>) {
    forall k :: 0 <= k < |steps| ==>
      !((steps[k].Deliver? || steps[k].Read? || steps[k].Start? || steps[k].Finalize? || steps[k].Throw?
         || steps[k].MarkFailed? || steps[k].Return? || steps[k].CrashWorker?) && steps[k].w == w)
  }

  /** All steps up to the handler's end. */
  function Course(w: WorkerId, r: Handling, first: seq<Step>, second: seq<Step>): seq<Step> {
    match r
    case GoesOn => []
    case NotFound => []
    case Skipped => [Read(w)]
    case ClaimLost => [Read(w)] + first + [Start(w)]
    case Thrown(_) => [Read(w)] + first + [Start(w)] + second
    case _ => [Read(w)] + first + [Start(w)] + second + [Finalize(w)]
  }

  lemma CourseSteps(c: Config, s: World, w: WorkerId, r: Handling, first: seq<Step>, second: seq<Step>)
    ensures Run(c, s, Course(w, r, first, second))
            == match r
               case GoesOn => s
               case NotFound => s
               case Skipped => Apply(c, s, Read(w))
               case _ => AfterStart(c, Apply(c, s, Read(w)), w, r, first, second)
  {
    RunOne(c, s, Read(w));
    assert Run(c, s, []) == s;
    hide Apply, Run;
    var look := [Read(w)];
    AfterMore(c, s, look, first);
    AfterMore(c, s, look + first, [Start(w)]);
    RunOne(c, Run(c, s, look + first), Start(w));
    AfterMore(c, s, look + first + [Start(w)], second);
    AfterMore(c, s, look + first + [Start(w)] + second, [Finalize(w)]);
    RunOne(c, Run(c, s, look + first + [Start(w)] + second), Finalize(w));
  }

  lemma KeepsRow(c: Config, s: World, step: Step, id: Id)
    requires ConfigOk(c) && Inv(c, s) && id in s.db.txs
    ensures Inv(c, Apply(c, s, step)) && id in Apply(c, s, step).db.txs
  {
    RunPersists(c, s, [step], id);
    RunOne(c, s, step);
    hide Apply, Inv;
  }

  /** Rows outlive whatever happens at an await. */
  lemma Later(c: Config, s: World, steps: seq<Step>, id: Id)
    requires ConfigOk(c) && Inv(c, s) && id in s.db.txs
    ensures var t := Run(c, s, steps); Inv(c, t) && id in t.db.txs && id in t.starts
  {
    RunPersists(c, s, steps, id);
    var t := Run(c, s, steps);
    assert IdOk(c, t.now, ViewOf(t, id));
    hide Run, Inv;
  }
}
