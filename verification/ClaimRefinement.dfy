/**
 * The outbox processors with their row locks, seen from the protocol.  Every run with locks, with
 * select, update and commit as separate steps, is matched by a run of the protocol, in which a claim
 * is one atomic step taken at the commit.
 */
module ClaimRefinement {
  import opened Wrappers
  import opened Json
  import opened Tables
  import opened OutboxClaims
  import L = OutboxLedger
  import Pr = Protocol
  import R = Runs
  import V = Invariant

  predicate EachRow(rows: map<EventId, Row>, events: map<Id, Event>) {
    forall id :: id in rows ==> rows[id].txn in events && events[rows[id].txn] == rows[id].event
  }

  predicate Covered(rows: map<EventId, Row>, events: map<Id, Event>) {
    forall t :: t in events ==> exists id :: id in rows && rows[id].txn == t
  }

  predicate OneEach(rows: map<EventId, Row>) {
    forall i, j :: i in rows && j in rows && i != j ==> rows[i].txn != rows[j].txn
  }

  /** outbox_events by transaction: one row each. */
  ghost predicate ByTxn(rows: map<EventId, Row>, events: map<Id, Event>) {
    EachRow(rows, events) && Covered(rows, events) && OneEach(rows)
  }

  function Txns(found: seq<Found>): (ids: seq<Id>)
    ensures |ids| == |found| && forall i :: 0 <= i < |ids| ==> ids[i] == found[i].txn
  {
    seq(|found|, i requires 0 <= i < |found| => found[i].txn)
  }

  lemma TxnsHold(rows: map<EventId, Row>, t: Txn, events: map<Id, Event>, id: EventId)
    requires TxnOk(rows, t) && ByTxn(rows, events) && id in rows
    ensures rows[id].txn in Txns(FoundBy(t)) <==> Holds(t, id)
  {
    var ids := Txns(FoundBy(t));
    if rows[id].txn in ids {
      var i :| 0 <= i < |ids| && ids[i] == rows[id].txn;
      assert FoundOk(rows, t.found[i]);
      assert FoundBy(t)[i].id == id;
    }
    if Holds(t, id) {
      var i :| 0 <= i < |FoundBy(t)| && FoundBy(t)[i].id == id;
      assert FoundOk(rows, t.found[i]) && ids[i] == rows[id].txn;
    }
  }

  lemma TxnsClaimable(rows: map<EventId, Row>, t: Txn, w: Pr.World)
    requires TxnOk(rows, t) && ByTxn(rows, w.db.events) && t.Updated? && t.limit <= Pr.CLAIM_LIMIT
    ensures Pr.Claimable(w, Txns(t.found))
  {
    var ids := Txns(t.found);
    forall i | 0 <= i < |ids| ensures ids[i] in w.db.events && w.db.events[ids[i]].status == PENDING {
      assert FoundOk(rows, t.found[i]);
    }
    forall i, j | 0 <= i < j < |ids| ensures ids[i] != ids[j] {
      assert FoundOk(rows, t.found[i]) && FoundOk(rows, t.found[j]);
    }
  }

  lemma CommitIsClaim(c: Pr.Config, s: State, p: SenderId, w: Pr.World)
    requires Inv(s) && TxnAt(s, p).Updated? && TxnAt(s, p).limit <= Pr.CLAIM_LIMIT && TxnAt(s, p).began <= w.now
    requires ByTxn(s.rows, w.db.events) && Pr.SenderAt(w, p).batch == []
    ensures var t := TxnAt(s, p);
            var w' := Pr.Apply(c, w, Pr.ClaimOutbox(p, Txns(t.found), w.now - t.began));
            ByTxn(Apply(s, Commit(p)).rows, w'.db.events)
            && Pr.SenderAt(w', p) == Pr.Sender(BatchItems(t.found), Pr.Ready) && OnlySenderMoves(w, w', p)
  {
    var t := TxnAt(s, p);
    assert TxnOk(s.rows, t);
    CommitRows(s, p);
    hide Inv, Apply;
    TxnsClaimable(s.rows, t, w);
    ProtocolClaims(c, w, p, Txns(t.found), t.began);
    CommittedByTxn(s, t, p, w.db.events);
    FoundPayloads(s.rows, t, w.db.events);
    var w' := Pr.Apply(c, w, Pr.ClaimOutbox(p, Txns(t.found), w.now - t.began));
    hide *;
    assert Pr.SenderAt(w', p).batch == BatchItems(t.found);
  }

  /** The items of a batch as the protocol keeps them. */
  function BatchItems(found: seq<Found>): (items: seq<Pr.Item>)
    ensures |items| == |found| && forall i :: 0 <= i < |items| ==> items[i] == Pr.Item(found[i].txn, found[i].payload)
  {
    seq(|found|, i requires 0 <= i < |found| => Pr.Item(found[i].txn, found[i].payload))
  }

  /** Only events and the state of p may have changed. */
  ghost predicate OnlySenderMoves(w: Pr.World, w': Pr.World, p: SenderId) {
    w'.now == w.now && w'.db.txs == w.db.txs && w'.db.events.Keys == w.db.events.Keys
    && forall q :: q != p ==> Pr.SenderAt(w', q) == Pr.SenderAt(w, q)
  }

  lemma ProtocolClaims(c: Pr.Config, w: Pr.World, p: SenderId, ids: seq<Id>, began: nat)
    requires Pr.Claimable(w, ids) && Pr.SenderAt(w, p).batch == [] && began <= w.now
    ensures var w' := Pr.Apply(c, w, Pr.ClaimOutbox(p, ids, w.now - began));
            w'.db.events == ClaimEvents(w.db.events, ids, p, began) && OnlySenderMoves(w, w', p)
            && Pr.SenderAt(w', p).phase == Pr.Ready && |Pr.SenderAt(w', p).batch| == |ids|
            && forall i :: 0 <= i < |ids| ==>
                 ids[i] in w.db.events && Pr.SenderAt(w', p).batch[i] == Pr.Item(ids[i], w.db.events[ids[i]].payload)
  {
  }

  predicate PayloadOf(events: map<Id, Event>, f: Found) { f.txn in events && events[f.txn].payload == f.payload }

  lemma FoundPayloads(rows: map<EventId, Row>, t: Txn, events: map<Id, Event>)
    requires TxnOk(rows, t) && ByTxn(rows, events) && Claiming(t)
    ensures forall i :: 0 <= i < |t.found| ==> PayloadOf(events, t.found[i])
  {
    forall i | 0 <= i < |t.found| ensures PayloadOf(events, t.found[i]) {
      assert FoundOk(rows, t.found[i]);
    }
  }

  lemma CommittedByTxn(s: State, t: Txn, p: SenderId, events: map<Id, Event>)
    requires TxnOk(s.rows, t) && ByTxn(s.rows, events) && t.Updated?
    ensures ByTxn(Claim(s.rows, t, p, t.began), ClaimEvents(events, Txns(t.found), p, t.began))
  {
    EachRowClaimed(s, t, p, events);
    hide EachRow, Covered, OneEach, Holds, TxnOk;
    ClaimKeepsTxns(s.rows, Claim(s.rows, t, p, t.began), events, ClaimEvents(events, Txns(t.found), p, t.began));
  }

  lemma EachRowClaimed(s: State, t: Txn, p: SenderId, events: map<Id, Event>)
    requires TxnOk(s.rows, t) && ByTxn(s.rows, events) && t.Updated?
    ensures EachRow(Claim(s.rows, t, p, t.began), ClaimEvents(events, Txns(t.found), p, t.began))
  {
    hide Claim, ClaimEvents, TxnOk, ByTxn;
    forall id | id in s.rows
      ensures var rows, events' := Claim(s.rows, t, p, t.began), ClaimEvents(events, Txns(t.found), p, t.began);
              rows[id].txn in events' && events'[rows[id].txn] == rows[id].event
    {
      RowClaimed(s, t, p, events, id);
    }
  }

  lemma RowClaimed(s: State, t: Txn, p: SenderId, events: map<Id, Event>, id: EventId)
    requires TxnOk(s.rows, t) && ByTxn(s.rows, events) && t.Updated? && id in s.rows
    ensures var rows, events' := Claim(s.rows, t, p, t.began), ClaimEvents(events, Txns(t.found), p, t.began);
            id in rows && rows[id].txn in events' && events'[rows[id].txn] == rows[id].event
  {
    TxnsHold(s.rows, t, events, id);
    assert EachRow(s.rows, events);
    hide TxnOk, Covered, OneEach, Holds;
  }

  lemma ClaimKeepsTxns(
      before: map<EventId, Row>, after: map<EventId, Row>, events: map<Id, Event>, events': map<Id, Event>)
    requires Covered(before, events) && OneEach(before) && events'.Keys == events.Keys
    requires after.Keys == before.Keys && forall id :: id in after ==> after[id].txn == before[id].txn
    ensures Covered(after, events') && OneEach(after)
  {
    forall x | x in events' ensures exists id :: id in after && after[id].txn == x {
      assert x in events;
      var id :| id in before && before[id].txn == x;
      assert id in after && after[id].txn == x;
    }
  }

  /* ---- simulation ---- */

  /** What a processor still has to mark. */
  function Batch(t: Txn): seq<Found> { if t.Working? then t.batch else [] }

  /** The rows are the protocol's events, and each processor's batch is its sender's. */
  ghost predicate Sim(c: Pr.Config, s: State, w: Pr.World) {
    && w.now == s.now && c.outboxStaleMs == s.outboxStaleMs && c.maxRecoveries == s.maxRecoveries
    && ByTxn(s.rows, w.db.events) && w.db.txs.Keys == w.db.events.Keys
    && (forall p :: Pr.SenderAt(w, p) == Pr.Sender(BatchItems(Batch(TxnAt(s, p))), Pr.Ready))
    && forall p :: Claiming(TxnAt(s, p)) ==> TxnAt(s, p).limit <= Pr.CLAIM_LIMIT && TxnAt(s, p).began <= s.now
  }

  /** How long ago p's claim began. */
  function Age(s: State, p: SenderId): nat {
    if Claiming(TxnAt(s, p)) && TxnAt(s, p).began <= s.now then s.now - TxnAt(s, p).began else 0
  }

  /** One processor and the rows move, together with the protocol's sender and events. */
  lemma SimMoves(c: Pr.Config, s: State, w: Pr.World, s': State, w': Pr.World, p: SenderId)
    requires Sim(c, s, w) && OnlySenderMoves(w, w', p) && ByTxn(s'.rows, w'.db.events)
    requires s'.now == s.now && s'.outboxStaleMs == s.outboxStaleMs && s'.maxRecoveries == s.maxRecoveries
    requires forall q :: q != p ==> TxnAt(s', q) == TxnAt(s, q)
    requires !Claiming(TxnAt(s', p)) && Pr.SenderAt(w', p) == Pr.Sender(BatchItems(Batch(TxnAt(s', p))), Pr.Ready)
    ensures Sim(c, s', w')
  {
    hide ByTxn;
    forall q ensures Pr.SenderAt(w', q) == Pr.Sender(BatchItems(Batch(TxnAt(s', q))), Pr.Ready) {
      assert q != p ==> Pr.SenderAt(w', q) == Pr.SenderAt(w, q) && TxnAt(s', q) == TxnAt(s, q);
    }
  }

  /** The protocol's steps for one step with locks. */
  ghost function Image(s: State, step: Step): seq<Pr.Step> {
    match step
    case Insert(_, txn, payload) => if Apply(s, step) == s then [] else [Pr.Pay(txn, None, [], payload)]
    case Commit(p) =>
      if TxnAt(s, p).Updated? then [ClaimStep(s, p)] else []
    case Abort(p) => if TxnAt(s, p).Working? then [Pr.CrashSender(p)] else []
    case MarkSent(p) => if MayMark(s, p) then [Pr.Enqueue(p), Pr.MarkSent(p)] else []
    case MarkPending(p, error) => if MayMark(s, p) then [Pr.EnqueueFails(p, false), Pr.MarkPending(p, error)] else []
    case Recover(p) => if TxnAt(s, p).NoTxn? then [Pr.RecoverOutbox(p)] else []
    case Tick(d) => [Pr.Tick(d)]
    case _ => []
  }

  /** The configured limit of a claim. */
  predicate LimitOk(step: Step) { step.Select? ==> step.limit <= Pr.CLAIM_LIMIT }

  /** Rows are inserted with sanitized payloads, which sanitizing leaves alone. */
  predicate StepOk(c: Pr.Config, step: Step) {
    LimitOk(step) && (step.Insert? ==> c.sanitize(step.payload) == step.payload)
  }

  lemma SimInsert(c: Pr.Config, s: State, w: Pr.World, step: Step)
    requires Sim(c, s, w) && step.Insert? && Apply(s, step) != s && c.sanitize(step.payload) == step.payload
    ensures Sim(c, Apply(s, step), Pr.Apply(c, w, Pr.Pay(step.txn, None, [], step.payload)))
  {
    var w' := Pr.Apply(c, w, Pr.Pay(step.txn, None, [], step.payload));
    var s' := Apply(s, step);
    NewRow(s.rows, w.db.events, step.id, Row(step.txn, NewEvent(step.payload)));
    assert step.txn !in w.db.events by { FreshTxn(s.rows, w.db.events, step.txn); }
    assert w'.db.events == w.db.events[step.txn := NewEvent(step.payload)];
    forall p ensures Pr.SenderAt(w', p) == Pr.SenderAt(w, p) && TxnAt(s', p) == TxnAt(s, p) {}
    hide ByTxn, NewEvent;
  }

  lemma FreshTxn(rows: map<EventId, Row>, events: map<Id, Event>, txn: Id)
    requires ByTxn(rows, events) && !exists j :: j in rows && rows[j].txn == txn
    ensures txn !in events
  {
  }

  lemma NewRow(rows: map<EventId, Row>, events: map<Id, Event>, id: EventId, row: Row)
    requires ByTxn(rows, events) && id !in rows && !exists j :: j in rows && rows[j].txn == row.txn
    ensures ByTxn(rows[id := row], events[row.txn := row.event])
  {
    var rows', events' := rows[id := row], events[row.txn := row.event];
    forall t | t in events' ensures exists j :: j in rows' && rows'[j].txn == t {
      if t == row.txn {
        assert id in rows' && rows'[id].txn == t;
      } else {
        var j :| j in rows && rows[j].txn == t;
        assert j in rows' && rows'[j].txn == t;
      }
    }
  }

  /** Updating one row's event updates its transaction's event. */
  lemma OneRow(rows: map<EventId, Row>, events: map<Id, Event>, id: EventId, e: Event)
    requires ByTxn(rows, events) && id in rows
    ensures rows[id].txn in events && events[rows[id].txn] == rows[id].event
    ensures ByTxn(rows[id := rows[id].(event := e)], events[rows[id].txn := e])
  {
    var rows', events' := rows[id := rows[id].(event := e)], events[rows[id].txn := e];
    ClaimKeepsTxns(rows, rows', events, events');
    forall j | j in rows' ensures rows'[j].txn in events' && events'[rows'[j].txn] == rows'[j].event {
      assert j != id ==> rows[j].txn != rows[id].txn;
    }
  }

  lemma SimMark(c: Pr.Config, s: State, w: Pr.World, p: SenderId, sent: bool, error: string)
    requires Inv(s) && Sim(c, s, w) && MayMark(s, p)
    ensures var s' := Mark(s, p, e => if sent then SentEvent(e) else ReturnedEvent(e, error));
            var w1 := Pr.Apply(c, w, if sent then Pr.Enqueue(p) else Pr.EnqueueFails(p, false));
            Sim(c, s', Pr.Apply(c, w1, if sent then Pr.MarkSent(p) else Pr.MarkPending(p, error)))
  {
    var f: Event -> Event := e => if sent then SentEvent(e) else ReturnedEvent(e, error);
    HeadIsRow(s, p);
    SenderIsBatch(c, s, w, p);
    var head := TxnAt(s, p).batch[0];
    OneRow(s.rows, w.db.events, head.id, f(s.rows[head.id].event));
    MarkedWorld(c, w, p, sent, error);
    MarkedBatch(s, p, f);
    hide Inv, Sim, Pr.Apply, ByTxn, SentEvent, ReturnedEvent, Pr.SenderAt, Mark, MayMark;
    var w1 := Pr.Apply(c, w, if sent then Pr.Enqueue(p) else Pr.EnqueueFails(p, false));
    SimMoves(c, s, w, Mark(s, p, f), Pr.Apply(c, w1, if sent then Pr.MarkSent(p) else Pr.MarkPending(p, error)), p);
  }

  lemma HeadIsRow(s: State, p: SenderId)
    requires Inv(s) && MayMark(s, p)
    ensures RowOf(s.rows, TxnAt(s, p).batch[0])
  {
    assert TxnOk(s.rows, TxnAt(s, p));
  }

  lemma SenderIsBatch(c: Pr.Config, s: State, w: Pr.World, p: SenderId)
    requires Sim(c, s, w) && MayMark(s, p)
    ensures ByTxn(s.rows, w.db.events) && Pr.SenderAt(w, p) == Pr.Sender(BatchItems(TxnAt(s, p).batch), Pr.Ready)
  {
    hide ByTxn;
  }

  lemma MarkedBatch(s: State, p: SenderId, f: Event -> Event)
    requires MayMark(s, p)
    ensures var s', batch := Mark(s, p, f), TxnAt(s, p).batch;
            s'.now == s.now && s'.outboxStaleMs == s.outboxStaleMs && s'.maxRecoveries == s.maxRecoveries
            && BatchItems(Batch(TxnAt(s', p))) == BatchItems(batch)[1..] && !Claiming(TxnAt(s', p))
            && (forall q :: q != p ==> TxnAt(s', q) == TxnAt(s, q))
            && s'.rows == s.rows[batch[0].id := s.rows[batch[0].id].(event := f(s.rows[batch[0].id].event))]
  {
  }

  lemma MarkedWorld(c: Pr.Config, w: Pr.World, p: SenderId, sent: bool, error: string)
    requires var x := Pr.SenderAt(w, p); x.batch != [] && x.phase == Pr.Ready && x.batch[0].id in w.db.events
    ensures var w1 := Pr.Apply(c, w, if sent then Pr.Enqueue(p) else Pr.EnqueueFails(p, false));
            var w' := Pr.Apply(c, w1, if sent then Pr.MarkSent(p) else Pr.MarkPending(p, error));
            var head := Pr.SenderAt(w, p).batch[0].id;
            var e := w.db.events[head];
            OnlySenderMoves(w, w', p)
            && Pr.SenderAt(w', p) == Pr.Sender(Pr.SenderAt(w, p).batch[1..], Pr.Ready)
            && w'.db.events == w.db.events[head := if sent then SentEvent(e) else ReturnedEvent(e, error)]
  {
  }

  lemma SimRecover(c: Pr.Config, s: State, w: Pr.World, p: SenderId)
    requires Sim(c, s, w) && TxnAt(s, p).NoTxn?
    ensures Sim(c, s.(rows := RecoverRows(s)), Pr.Apply(c, w, Pr.RecoverOutbox(p)))
  {
    var w' := Pr.Apply(c, w, Pr.RecoverOutbox(p));
    hide ByTxn, RecoverEvents, RecoverRows;
    assert Pr.SenderAt(w, p).batch == [];
    assert w' == w.(db := w.db.(events := RecoverEvents(w.db.events, w.now, c.outboxStaleMs, c.maxRecoveries)));
    RecoveredRows(s, w.db.events);
    forall q ensures Pr.SenderAt(w', q) == Pr.SenderAt(w, q) {}
    hide ByTxn, RecoverEvents, RecoverRows, Pr.Apply;
  }

  lemma RecoveredRows(s: State, events: map<Id, Event>)
    requires ByTxn(s.rows, events)
    ensures var events' := RecoverEvents(events, s.now, s.outboxStaleMs, s.maxRecoveries);
            ByTxn(RecoverRows(s), events') && events'.Keys == events.Keys
  {
    var events' := RecoverEvents(events, s.now, s.outboxStaleMs, s.maxRecoveries);
    ClaimKeepsTxns(s.rows, RecoverRows(s), events, events');
    hide RecoverEvent;
  }

  lemma SimCommit(c: Pr.Config, s: State, w: Pr.World, p: SenderId)
    requires Inv(s) && Sim(c, s, w) && TxnAt(s, p).Updated?
    ensures Sim(c, Apply(s, Commit(p)), Pr.Apply(c, w, ClaimStep(s, p)))
  {
    SimFacts(c, s, w, p);
    CommitFacts(c, s, w, p);
    hide *;
    SimMoves(c, s, w, Apply(s, Commit(p)), Pr.Apply(c, w, ClaimStep(s, p)), p);
  }

  /** The protocol's claim for p's commit. */
  function ClaimStep(s: State, p: SenderId): Pr.Step { Pr.ClaimOutbox(p, Txns(FoundBy(TxnAt(s, p))), Age(s, p)) }

  lemma CommitFacts(c: Pr.Config, s: State, w: Pr.World, p: SenderId)
    requires Inv(s) && TxnAt(s, p).Updated? && ByTxn(s.rows, w.db.events) && Pr.SenderAt(w, p).batch == []
    requires TxnAt(s, p).limit <= Pr.CLAIM_LIMIT && TxnAt(s, p).began <= w.now && Age(s, p) == w.now - TxnAt(s, p).began
    ensures var s', w' := Apply(s, Commit(p)), Pr.Apply(c, w, ClaimStep(s, p));
            OnlySenderMoves(w, w', p) && ByTxn(s'.rows, w'.db.events)
            && s'.now == s.now && s'.outboxStaleMs == s.outboxStaleMs && s'.maxRecoveries == s.maxRecoveries
            && (forall q :: q != p ==> TxnAt(s', q) == TxnAt(s, q))
            && !Claiming(TxnAt(s', p)) && Pr.SenderAt(w', p) == Pr.Sender(BatchItems(Batch(TxnAt(s', p))), Pr.Ready)
  {
    CommitMoves(s, p);
    assert ClaimStep(s, p) == Pr.ClaimOutbox(p, Txns(TxnAt(s, p).found), w.now - TxnAt(s, p).began);
    hide Inv, Apply, ByTxn, Pr.Apply, Pr.SenderAt, ClaimStep, Age, OnlySenderMoves, Batch;
    CommitIsClaim(c, s, p, w);
  }

  lemma SimFacts(c: Pr.Config, s: State, w: Pr.World, p: SenderId)
    requires Sim(c, s, w) && TxnAt(s, p).Updated?
    ensures ByTxn(s.rows, w.db.events) && Pr.SenderAt(w, p).batch == [] && w.now == s.now
    ensures TxnAt(s, p).limit <= Pr.CLAIM_LIMIT && TxnAt(s, p).began <= w.now && Age(s, p) == w.now - TxnAt(s, p).began
  {
    hide ByTxn;
  }

  lemma CommitMoves(s: State, p: SenderId)
    requires TxnAt(s, p).Updated?
    ensures var s' := Apply(s, Commit(p));
            s'.now == s.now && s'.outboxStaleMs == s.outboxStaleMs && s'.maxRecoveries == s.maxRecoveries
            && Batch(TxnAt(s', p)) == TxnAt(s, p).found && !Claiming(TxnAt(s', p))
            && forall q :: q != p ==> TxnAt(s', q) == TxnAt(s, q)
  {
  }

  /** Steps that the protocol does not see: rows and batches stay. */
  lemma SimQuiet(c: Pr.Config, s: State, w: Pr.World, s': State)
    requires Sim(c, s, w) && s'.rows == s.rows && s'.now == s.now
    requires s'.outboxStaleMs == s.outboxStaleMs && s'.maxRecoveries == s.maxRecoveries
    requires forall q :: Batch(TxnAt(s', q)) == Batch(TxnAt(s, q))
    requires forall q :: Claiming(TxnAt(s', q)) ==> TxnAt(s', q).limit <= Pr.CLAIM_LIMIT && TxnAt(s', q).began <= s'.now
    ensures Sim(c, s', w)
  {
    hide ByTxn;
  }

  lemma QuietStep(s: State, step: Step)
    requires LimitOk(step) && (step.Select? || step.Update? || (step.Commit? && !TxnAt(s, step.p).Updated?)
                               || (step.Abort? && !TxnAt(s, step.p).Working?))
    requires forall q :: Claiming(TxnAt(s, q)) ==> TxnAt(s, q).limit <= Pr.CLAIM_LIMIT && TxnAt(s, q).began <= s.now
    ensures var s' := Apply(s, step);
            s'.rows == s.rows && s'.now == s.now && s'.outboxStaleMs == s.outboxStaleMs
                && s'.maxRecoveries == s.maxRecoveries
            && (forall q :: Batch(TxnAt(s', q)) == Batch(TxnAt(s, q)))
            && forall q :: Claiming(TxnAt(s', q)) ==>
                 TxnAt(s', q).limit <= Pr.CLAIM_LIMIT && TxnAt(s', q).began <= s'.now
  {
    hide Pick, Eligible;
  }

  lemma SimCrash(c: Pr.Config, s: State, w: Pr.World, p: SenderId)
    requires Sim(c, s, w) && TxnAt(s, p).Working?
    ensures Sim(c, Apply(s, Abort(p)), Pr.Apply(c, w, Pr.CrashSender(p)))
  {
    var s', w' := Apply(s, Abort(p)), Pr.Apply(c, w, Pr.CrashSender(p));
    assert BatchItems([]) == [] && Pr.SenderAt(w', p) == Pr.Sender([], Pr.Ready);
    assert OnlySenderMoves(w, w', p);
    assert TxnAt(s', p).NoTxn? && forall q :: q != p ==> TxnAt(s', q) == TxnAt(s, q);
    assert s'.rows == s.rows && ByTxn(s.rows, w.db.events);
    hide Sim, ByTxn, Apply, Pr.Apply, Pr.SenderAt;
    SimMoves(c, s, w, s', w', p);
  }

  /** One step with locks is matched by its image. */
  lemma SimStep(c: Pr.Config, s: State, w: Pr.World, step: Step)
    requires Inv(s) && Sim(c, s, w) && StepOk(c, step)
    ensures Sim(c, Apply(s, step), Pr.Run(c, w, Image(s, step)))
  {
    hide Inv, Sim, Pr.Apply;
    match step {
      case Insert(_, txn, payload) =>
        if Apply(s, step) != s {
          R.RunOne(c, w, Pr.Pay(txn, None, [], payload));
          SimInsert(c, s, w, step);
        }
      case Commit(p) =>
        if TxnAt(s, p).Updated? {
          R.RunOne(c, w, ClaimStep(s, p));
          SimCommit(c, s, w, p);
        } else {
          SimQuietStep(c, s, w, step);
        }
      case Abort(p) =>
        if TxnAt(s, p).Working? {
          R.RunOne(c, w, Pr.CrashSender(p));
          SimCrash(c, s, w, p);
        } else {
          SimQuietStep(c, s, w, step);
        }
      case MarkSent(p) =>
        if MayMark(s, p) {
          R.RunTwo(c, w, Pr.Enqueue(p), Pr.MarkSent(p));
          SimMark(c, s, w, p, true, "");
          SameMark(s, p, e => if true then SentEvent(e) else ReturnedEvent(e, ""), e => SentEvent(e));
        }
      case MarkPending(p, error) =>
        if MayMark(s, p) {
          R.RunTwo(c, w, Pr.EnqueueFails(p, false), Pr.MarkPending(p, error));
          SimMark(c, s, w, p, false, error);
          SameMark(s, p, e => if false then SentEvent(e) else ReturnedEvent(e, error), e => ReturnedEvent(e, error));
        }
      case Recover(p) =>
        if TxnAt(s, p).NoTxn? {
          R.RunOne(c, w, Pr.RecoverOutbox(p));
          SimRecover(c, s, w, p);
        }
      case Tick(d) =>
        R.RunOne(c, w, Pr.Tick(d));
        SimTick(c, s, w, d);
      case _ => SimQuietStep(c, s, w, step);
    }
  }

  lemma SameMark(s: State, p: SenderId, f: Event -> Event, g: Event -> Event)
    requires forall e :: f(e) == g(e)
    ensures Mark(s, p, f) == Mark(s, p, g)
  {
  }

  lemma SimTick(c: Pr.Config, s: State, w: Pr.World, d: nat)
    requires Sim(c, s, w)
    ensures Sim(c, s.(now := s.now + d), Pr.Apply(c, w, Pr.Tick(d)))
  {
    var s', w' := s.(now := s.now + d), Pr.Apply(c, w, Pr.Tick(d));
    forall q ensures Pr.SenderAt(w', q) == Pr.SenderAt(w, q) && TxnAt(s', q) == TxnAt(s, q) {}
    hide ByTxn;
  }

  lemma SimQuietStep(c: Pr.Config, s: State, w: Pr.World, step: Step)
    requires Sim(c, s, w) && LimitOk(step)
    requires step.Select? || step.Update? || (step.Commit? && !TxnAt(s, step.p).Updated?)
             || (step.Abort? && !TxnAt(s, step.p).Working?)
    ensures Sim(c, Apply(s, step), w)
  {
    QuietStep(s, step);
    SimQuiet(c, s, w, Apply(s, step));
  }

  /** The protocol's run for a run with locks. */
  ghost function Images(s: State, steps: seq<Step>): seq<Pr.Step>
    decreases |steps|
  {
    if steps == [] then []
    else Images(s, steps[..|steps| - 1]) + Image(Run(s, steps[..|steps| - 1]), steps[|steps| - 1])
  }

  /**
   * Every run with row locks over sanitized payloads, in any interleaving of select, update, commit,
   * marks, recoveries and crashes, is a run of the protocol with atomic claims: same events, same
   * batches, at every point.
   */
  lemma {:induction false} LocksRefineProtocol(c: Pr.Config, steps: seq<Step>)
    requires forall i :: 0 <= i < |steps| ==> StepOk(c, steps[i])
    ensures var s0 := Init(c.outboxStaleMs, c.maxRecoveries);
            Sim(c, Run(s0, steps), Pr.After(c, Images(s0, steps)))
    decreases |steps|
  {
    var s0 := Init(c.outboxStaleMs, c.maxRecoveries);
    if steps != [] {
      var n := |steps| - 1;
      assert forall i :: 0 <= i < n ==> steps[..n][i] == steps[i];
      LocksRefineProtocol(c, steps[..n]);
      Reachable(c.outboxStaleMs, c.maxRecoveries, steps[..n]);
      hide Sim, Inv, Image, Apply, Pr.Apply;
      var before := Images(s0, steps[..n]);
      SimStep(c, Run(s0, steps[..n]), Pr.After(c, before), steps[n]);
      R.AfterMore(c, Pr.Init(), before, Image(Run(s0, steps[..n]), steps[n]));
    }
  }

  /** What holds of the protocol's events holds of the locked rows: here, the outbox accounting. */
  lemma LocksKeepBooks(c: Pr.Config, steps: seq<Step>, id: EventId)
    requires V.ConfigOk(c) && forall i :: 0 <= i < |steps| ==> StepOk(c, steps[i])
    requires id in Run(Init(c.outboxStaleMs, c.maxRecoveries), steps).rows
    ensures var e := Run(Init(c.outboxStaleMs, c.maxRecoveries), steps).rows[id].event;
            exists inFlight: nat :: L.Balanced(c, e, inFlight)
  {
    var s0 := Init(c.outboxStaleMs, c.maxRecoveries);
    LocksRefineProtocol(c, steps);
    L.BooksAlways(c, Images(s0, steps));
    BooksOfRow(c, Run(s0, steps), Pr.After(c, Images(s0, steps)), id);
  }

  lemma BooksOfRow(c: Pr.Config, s: State, w: Pr.World, id: EventId)
    requires Sim(c, s, w) && L.Books(c, w) && id in s.rows
    ensures exists inFlight: nat :: L.Balanced(c, s.rows[id].event, inFlight)
  {
    assert EachRow(s.rows, w.db.events);
    var txn := s.rows[id].txn;
    assert L.Balanced(c, w.db.events[txn], |L.InFlight(w, txn)|);
  }
}
