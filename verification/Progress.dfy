/**
 * Carrying a waiting job to its decision: a free worker takes it, and retries it while the decision
 * is a failure and attempts are left.
 */
module Progress {
  import opened Wrappers
  import opened Json
  import opened Tables
  import opened Protocol
  import opened Invariant
  import opened Lifecycle
  import Runs
  import D = Decisions

  /** The payment is accepted, its job waits, and w is free. */
  predicate Ready(s: World, id: Id, w: WorkerId) {
    id in s.db.txs && s.db.txs[id].status == ACCEPTED && id in s.queue && s.queue[id].state == Waiting
    && WorkerAt(s, w) == Idle
  }

  /** After taking the job, w holds it and its claim is current. */
  predicate Taken(s: World, id: Id, w: WorkerId, attempts: nat) {
    var h := WorkerAt(s, w);
    h.Claimed? && h.id == id && id in s.db.txs && s.db.txs[id].status == PROCESSING && s.db.txs[id].claimant == Some(w)
    && Holds(s, w, id) && s.queue[id].attemptsMade == attempts
  }

  function Take(id: Id, w: WorkerId): seq<Step> { [Deliver(w, id), Read(w), Start(w)] }

  lemma Delivers(c: Config, s: World, id: Id, w: WorkerId)
    requires Ready(s, id, w)
    ensures var t := Apply(c, s, Deliver(w, id));
            t.db == s.db && t.starts == s.starts && WorkerAt(t, w) == Delivered(id, s.queue[id].data)
            && Holds(t, w, id) && t.queue[id].attemptsMade == s.queue[id].attemptsMade
  {
  }

  lemma StartedWorld(c: Config, s: World, w: WorkerId)
    requires WorkerAt(s, w).Delivered? && WorkerAt(s, w).id in s.db.txs && WorkerAt(s, w).id in s.starts
    requires s.db.txs[WorkerAt(s, w).id].status == ACCEPTED
    ensures var h := WorkerAt(s, w);
            var s' := Apply(c, Apply(c, s, Read(w)), Start(w));
            var timeline := s.db.txs[h.id].timeline + [PROCESSING];
            WorkerAt(s', w) == Claimed(h.id, c.sanitize(h.data), timeline, s.starts[h.id] + 1)
            && StartTx(s.db.txs[h.id], w, Some(timeline), s.now, c.lease).Some?
            && StartTx(s.db.txs[h.id], w, Some(timeline), s.now, c.lease).value.status == PROCESSING
            && StartTx(s.db.txs[h.id], w, Some(timeline), s.now, c.lease).value.claimant == Some(w)
            && s'.db == s.db.(txs := s.db.txs[h.id := StartTx(s.db.txs[h.id], w, Some(timeline), s.now, c.lease).value])
  {
  }

  lemma Starts(c: Config, s: World, id: Id, w: WorkerId)
    requires WorkerAt(s, w).Delivered? && WorkerAt(s, w).id == id && Holds(s, w, id)
    requires id in s.db.txs && id in s.starts && s.db.txs[id].status == ACCEPTED
    ensures Taken(Apply(c, Apply(c, s, Read(w)), Start(w)), id, w, s.queue[id].attemptsMade)
  {
    StartedWorld(c, s, w);
    assert Apply(c, Apply(c, s, Read(w)), Start(w)).queue == s.queue;
    hide StartTx;
  }

  lemma Takes(c: Config, s: World, id: Id, w: WorkerId)
    requires Inv(c, s) && Ready(s, id, w)
    ensures Taken(Run(c, s, Take(id, w)), id, w, s.queue[id].attemptsMade)
  {
    assert IdOk(c, s.now, ViewOf(s, id));
    assert id in s.starts;
    Delivers(c, s, id, w);
    Runs.RunThree(c, s, Deliver(w, id), Read(w), Start(w));
    hide Inv, Run;
    Starts(c, Apply(c, s, Deliver(w, id)), id, w);
  }

  lemma Finalizes(c: Config, s: World, id: Id, w: WorkerId, attempts: nat)
    requires Taken(s, id, w, attempts) && !c.decide(WorkerAt(s, w).data).Failed?
    ensures Decided(Apply(c, s, Finalize(w)), id)
  {
  }

  lemma Retries(c: Config, s: World, id: Id, w: WorkerId, attempts: nat)
    requires Taken(s, id, w, attempts) && c.decide(WorkerAt(s, w).data).Failed? && attempts + 1 < ATTEMPTS
    ensures var t := Apply(c, s, Throw(w)); Ready(t, id, w) && t.queue[id].attemptsMade == attempts + 1
  {
  }

  lemma FailEffect(c: Config, s: World, w: WorkerId)
    requires var h := WorkerAt(s, w); h.Claimed? && h.id in s.db.txs && c.decide(h.data).Failed? && Holds(s, w, h.id)
    requires s.queue[WorkerAt(s, w).id].attemptsMade + 1 >= ATTEMPTS
    ensures var h := WorkerAt(s, w);
            var reason, attempts := c.decide(h.data).reason, s.queue[h.id].attemptsMade + 1;
            var u := ResetUpdates(FAILED, reason, attempts);
            Run(c, s, [Throw(w), MarkFailed(w)]).db
            == s.db.(txs := s.db.txs[h.id := UpdateTx(s.db.txs[h.id], u, true)],
                     dead := s.db.dead[h.id := DeadLetter(c.sanitize(s.queue[h.id].data), reason, attempts)])
  {
    Runs.RunTwo(c, s, Throw(w), MarkFailed(w));
    hide UpdateTx;
  }

  lemma Fails(c: Config, s: World, id: Id, w: WorkerId, attempts: nat)
    requires Taken(s, id, w, attempts) && c.decide(WorkerAt(s, w).data).Failed? && attempts + 1 >= ATTEMPTS
    ensures Decided(Run(c, s, [Throw(w), MarkFailed(w)]), id)
  {
    FailEffect(c, s, w);
  }

  /** A waiting job can be carried to a decision, through every retry it has left. */
  lemma {:induction false} WaitingCanBeDecided(c: Config, s: World, id: Id, w: WorkerId) returns (more: seq<Step>)
    requires ConfigOk(c) && Inv(c, s) && Ready(s, id, w)
    ensures Decided(Run(c, s, more), id)
    decreases ATTEMPTS - s.queue[id].attemptsMade
  {
    var take, attempts := Take(id, w), s.queue[id].attemptsMade;
    var t := Run(c, s, take);
    Takes(c, s, id, w);
    AttemptsLeft(c, s, id);
    Runs.RunPersists(c, s, take, id);
    hide Run, Apply, Inv, Ready, Taken;
    if !c.decide(WorkerAt(t, w).data).Failed? {
      Finalizes(c, t, id, w, attempts);
      more := take + [Finalize(w)];
      Runs.AfterMore(c, s, take, [Finalize(w)]);
      Runs.RunOne(c, t, Finalize(w));
    } else if attempts + 1 < ATTEMPTS {
      Retries(c, t, id, w, attempts);
      StepKeeps(c, t, Throw(w));
      var rest := WaitingCanBeDecided(c, Apply(c, t, Throw(w)), id, w);
      more := take + ([Throw(w)] + rest);
      Runs.AfterMore(c, s, take, [Throw(w)] + rest);
      Runs.AfterMore(c, t, [Throw(w)], rest);
      Runs.RunOne(c, t, Throw(w));
    } else {
      Fails(c, t, id, w, attempts);
      more := take + [Throw(w), MarkFailed(w)];
      Runs.AfterMore(c, s, take, [Throw(w), MarkFailed(w)]);
    }
  }

  lemma AttemptsLeft(c: Config, s: World, id: Id)
    requires Inv(c, s) && id in s.queue && s.queue[id].state == Waiting
    ensures s.queue[id].attemptsMade < ATTEMPTS
  {
    assert IdOk(c, s.now, ViewOf(s, id));
  }
}
