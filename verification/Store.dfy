/**
 * store/store.js: the functions that change rows, against the tables they change.  Each method is
 * one database transaction, taken at the clock value now.
 */
module Store {
  import opened Wrappers
  import opened Columns
  import opened Json
  import opened Tables

  /** The oldest pending rows of a list, at most limit of them. */
  function FirstPending(order: seq<Id>, events: map<Id, Event>, limit: nat): seq<Id> {
    if order == [] || limit == 0 then []
    else if order[0] in events && events[order[0]].status == PENDING then
      [order[0]] + FirstPending(order[1..], events, limit - 1)
    else FirstPending(order[1..], events, limit)
  }

  /** All pending rows of a list, in its order. */
  function Pendings(order: seq<Id>, events: map<Id, Event>): seq<Id> {
    if order == [] then []
    else
      (if order[0] in events && events[order[0]].status == PENDING then [order[0]] else [])
      + Pendings(order[1..], events)
  }

  /** The order of the list is kept, and every pending row is there. */
  lemma {:induction false} PendingsOk(order: seq<Id>, events: map<Id, Event>)
    requires Distinct(order)
    ensures Distinct(Pendings(order, events))
    ensures forall x :: x in Pendings(order, events) <==> x in order && x in events && events[x].status == PENDING
  {
    if order != [] { PendingsOk(order[1..], events); }
  }

  predicate Follows(order: seq<Id>, a: Id, b: Id) {
    exists p, q :: 0 <= p < q < |order| && order[p] == a && order[q] == b
  }

  lemma {:induction false} PendingsInOrder(order: seq<Id>, events: map<Id, Event>, i: nat, j: nat)
    requires i < j < |Pendings(order, events)|
    ensures Follows(order, Pendings(order, events)[i], Pendings(order, events)[j])
  {
    var a, rest := Pendings(order, events), Pendings(order[1..], events);
    var skip := |a| - |rest|;
    if i < skip {
      PendingIsListed(order[1..], events, j - 1);
      var q :| 0 <= q < |order[1..]| && order[1..][q] == rest[j - 1];
      assert order[0] == a[i] && order[q + 1] == a[j];
    } else {
      PendingsInOrder(order[1..], events, i - skip, j - skip);
      var p, q :| 0 <= p < q < |order[1..]| && order[1..][p] == rest[i - skip] && order[1..][q] == rest[j - skip];
      assert order[p + 1] == a[i] && order[q + 1] == a[j];
    }
  }

  lemma {:induction false} PendingIsListed(order: seq<Id>, events: map<Id, Event>, j: nat)
    requires j < |Pendings(order, events)|
    ensures Pendings(order, events)[j] in order
  {
    var skip := |Pendings(order, events)| - |Pendings(order[1..], events)|;
    if j >= skip { PendingIsListed(order[1..], events, j - skip); }
  }

  function AtMost(a: seq<Id>, limit: nat): seq<Id> { if |a| <= limit then a else a[..limit] }

  lemma {:induction false} FirstPendingIsBeginning(order: seq<Id>, events: map<Id, Event>, limit: nat)
    ensures FirstPending(order, events, limit) == AtMost(Pendings(order, events), limit)
  {
    if order != [] && limit > 0 {
      if order[0] in events && events[order[0]].status == PENDING {
        FirstPendingIsBeginning(order[1..], events, limit - 1);
      } else {
        FirstPendingIsBeginning(order[1..], events, limit);
        assert [] + Pendings(order[1..], events) == Pendings(order[1..], events);
      }
    }
  }

  /** FirstPending is the beginning of all pending rows, in order, cut only at the limit. */
  lemma FirstPendingOk(order: seq<Id>, events: map<Id, Event>, limit: nat)
    requires Distinct(order)
    ensures var ids := FirstPending(order, events, limit);
            ids == AtMost(Pendings(order, events), limit) && |ids| <= limit
            && Distinct(ids) && (forall x :: x in ids ==> x in order && x in events && events[x].status == PENDING)
            && forall i, j :: 0 <= i < j < |ids| ==> Follows(order, ids[i], ids[j])
  {
    PendingsOk(order, events);
    FirstPendingIsBeginning(order, events, limit);
    var all := Pendings(order, events);
    forall i, j | 0 <= i < j < |all| ensures Follows(order, all[i], all[j]) { PendingsInOrder(order, events, i, j); }
    hide Follows;
  }

  lemma FirstPendingFrom(order: seq<Id>, events: map<Id, Event>, i: nat, ids: seq<Id>, limit: nat)
    requires i < |order| && |ids| < limit && order[i] in events
    ensures var found := if events[order[i]].status == PENDING then ids + [order[i]] else ids;
            ids + FirstPending(order[i..], events, limit - |ids|)
            == found + FirstPending(order[i + 1..], events, limit - |found|)
  {
    assert order[i..][1..] == order[i + 1..];
    hide Distinct;
  }

  class Database {
    var now: nat
    var txs: map<Id, Tx>
    var keys: map<Key, Id>
    var events: map<Id, Event>
    var order: seq<Id>  // the outbox rows by serial id
    var dead: map<Id, DeadLetter>

    ghost function Contents(): Db reads this { Db(txs, keys, events, dead) }

    ghost predicate Valid() reads this {
      Distinct(order) && forall id :: id in order <==> id in events
    }

    constructor ()
      ensures Valid() && now == 0 && Contents() == Db(map[], map[], map[], map[])
    {
      now, txs, keys, events, order, dead := 0, map[], map[], map[], [], map[];
    }

    method SaveTransactionWithOutbox(id: Id, key: Option<Key>, hash: JString, payload: Json) returns (r: SaveResult)
      requires Valid()
      modifies this
      ensures Valid() && now == old(now) && dead == old(dead)
      ensures r.Existing? <==> key.Some? && key.value in old(keys)
      ensures r.Existing? ==>
                r.id == old(keys)[key.value] && Contents() == old(Contents())
                && (!r.conflict <==> r.id in old(txs) && old(txs)[r.id].hash == hash)
      ensures r.UniqueViolation? <==> !(key.Some? && key.value in old(keys)) && id in old(txs)
      ensures r.UniqueViolation? ==> Contents() == old(Contents())
      ensures r.Inserted? ==>
                txs == old(txs)[id := FreshRow(key, hash)]
                && keys == (if key.Some? then old(keys)[key.value := id] else old(keys))
                && events == (if id in old(events) then old(events)
                              else old(events)[id := Event(payload, PENDING, 0, 0, 0, None, None, None)])
                && order == (if id in old(events) then old(order) else old(order) + [id])
      ensures (Contents(), r) == Save(old(Contents()), id, key, hash, payload)
    {
      if key.Some? && key.value in keys {
        var existing := keys[key.value];
        return Existing(existing, existing !in txs || txs[existing].hash != hash);
      }
      if id in txs { return UniqueViolation; }
      txs := txs[id := NewTx(key, hash)];
      if key.Some? { keys := keys[key.value := id]; }
      InsertOutboxEvent(id, payload);
      r := Inserted;
    }

    /** ON CONFLICT (txn_id) DO NOTHING */
    method InsertOutboxEvent(id: Id, payload: Json)
      requires Valid()
      modifies this`events, this`order
      ensures Valid()
      ensures events == if id in old(events) then old(events)
                        else old(events)[id := Event(payload, PENDING, 0, 0, 0, None, None, None)]
      ensures order == if id in old(events) then old(order) else old(order) + [id]
    {
      if id !in events {
        events := events[id := NewEvent(payload)];
        order := order + [id];
      }
    }

    /** Insert, or overwrite the letter of the same job. */
    method SaveDeadLetterJob(id: Id, payload: Json, reason: string, attemptsMade: nat)
      modifies this`dead
      ensures dead == old(dead)[id := DeadLetter(payload, reason, attemptsMade)]
    {
      dead := dead[id := DeadLetter(payload, reason, attemptsMade)];
    }

    /** No guard but the id.  A column is kept where the update has none; the lease goes if asked. */
    method UpdateTransaction(id: Id, u: Updates, clearProcessing: bool) returns (row: Option<Tx>)
      modifies this`txs
      ensures row.Some? <==> id in old(txs)
      ensures row.Some? ==>
                var r := old(txs)[id];
                Coalesced(row.value, u, r) && SameIdentity(row.value, r)
                && (if clearProcessing then NoLease(row.value) else SameLease(row.value, r))
      ensures row == if id in old(txs) then Some(UpdateTx(old(txs)[id], u, clearProcessing)) else None
      ensures txs == if row.Some? then old(txs)[id := row.value] else old(txs)
    {
      if id !in txs { return None; }
      row := Some(UpdateTx(txs[id], u, clearProcessing));
      txs := txs[id := row.value];
    }

    /** The claim: only from ACCEPTED; the row goes to w with a fresh lease, and keeps its outcome columns. */
    method StartTransactionProcessing(id: Id, w: WorkerId, timeline: Option<seq<TxStatus>>, lease: nat)
        returns (row: Option<Tx>)
      modifies this`txs
      ensures row.Some? <==> id in old(txs) && old(txs)[id].status == ACCEPTED
      ensures row.Some? ==>
                row.value.status == PROCESSING && row.value.claimant == Some(w)
                && row.value.startedAt == Some(now) && row.value.heartbeatAt == Some(now)
                && row.value.leaseExpiresAt == Some(now + lease)
                && row.value.timeline == timeline.GetOr(old(txs)[id].timeline)
                && SameIdentity(row.value, old(txs)[id]) && SameOutcome(row.value, old(txs)[id])
      ensures row == if id in old(txs) then StartTx(old(txs)[id], w, timeline, now, lease) else None
      ensures txs == if row.Some? then old(txs)[id := row.value] else old(txs)
    {
      if id !in txs { return None; }
      row := StartTx(txs[id], w, timeline, now, lease);
      if row.Some? { txs := txs[id := row.value]; }
    }

    /** The renewal: only for the claimant of a row in processing; it moves heartbeat and lease, nothing else. */
    method RenewTransactionProcessingLease(id: Id, w: WorkerId, lease: nat) returns (renewed: Option<Tx>)
      modifies this`txs
      ensures renewed.Some? <==> id in old(txs) && old(txs)[id].status == PROCESSING && old(txs)[id].claimant == Some(w)
      ensures renewed.Some? ==>
                renewed.value.heartbeatAt == Some(now) && renewed.value.leaseExpiresAt == Some(now + lease)
                && renewed.value.(heartbeatAt := None, leaseExpiresAt := None)
                   == old(txs)[id].(heartbeatAt := None, leaseExpiresAt := None)
      ensures renewed == if id in old(txs) then RenewTx(old(txs)[id], w, now, lease) else None
      ensures txs == if renewed.Some? then old(txs)[id := renewed.value] else old(txs)
    {
      if id !in txs { return None; }
      renewed := RenewTx(txs[id], w, now, lease);
      if renewed.Some? { txs := txs[id := renewed.value]; }
    }

    /** The compare-and-set: only for the claimant of a row in processing; the lease is gone afterwards. */
    method FinalizeTransactionProcessing(id: Id, w: WorkerId, u: Updates) returns (row: Option<Tx>)
      modifies this`txs
      ensures row.Some? <==> id in old(txs) && old(txs)[id].status == PROCESSING && old(txs)[id].claimant == Some(w)
      ensures row.Some? ==>
                Coalesced(row.value, u, old(txs)[id]) && NoLease(row.value) && SameIdentity(row.value, old(txs)[id])
      ensures row == if id in old(txs) then FinalizeTx(old(txs)[id], w, u) else None
      ensures txs == if row.Some? then old(txs)[id := row.value] else old(txs)
    {
      if id !in txs { return None; }
      row := FinalizeTx(txs[id], w, u);
      if row.Some? { txs := txs[id := row.value]; }
    }

    /** The set-wise UPDATE, row by row in no particular order; returns who held each lease taken back. */
    method RecoverStaleProcessingTransactions(staleMs: nat) returns (previous: map<Id, Option<WorkerId>>)
      modifies this`txs
      ensures forall id :: id in previous <==> id in old(txs) && Overdue(old(txs)[id], now, staleMs)
      ensures forall id :: id in previous ==> previous[id] == old(txs)[id].claimant
      ensures txs.Keys == old(txs).Keys && forall id :: id in txs ==>
                txs[id] == if id in previous then TakenFrom(old(txs)[id]) else old(txs)[id]
      ensures txs == RecoverTxs(old(txs), now, staleMs)
    {
      previous := map[];
      var left := txs.Keys;
      while left != {}
        invariant txs.Keys == old(txs).Keys && left <= txs.Keys
        invariant forall id :: id in txs ==>
                    txs[id] == if id in left then old(txs)[id] else RecoverTx(old(txs)[id], now, staleMs)
        invariant forall id :: id in previous <==> id in txs && id !in left && LeaseExpired(old(txs)[id], now, staleMs)
        invariant forall id :: id in previous ==> previous[id] == old(txs)[id].claimant
        decreases |left|
      {
        var id :| id in left;
        if LeaseExpired(txs[id], now, staleMs) {
          previous := previous[id := txs[id].claimant];
          txs := txs[id := RecoverTx(txs[id], now, staleMs)];
        }
        left := left - {id};
      }
    }

    /* ---- outbox_events ---- */

    /** recoverStaleOutboxEvents; returns the rows taken back. */
    method RecoverStaleOutboxEvents(staleMs: nat, maxRecoveries: nat) returns (recovered: set<Id>)
      requires Valid()
      modifies this`events
      ensures forall id :: id in recovered <==> id in old(events) && ClaimedLongAgo(old(events)[id], now, staleMs)
      ensures events.Keys == old(events).Keys && forall id :: id in events ==>
                if id in recovered then TakenBack(events[id], old(events)[id], maxRecoveries)
                else events[id] == old(events)[id]
      ensures Valid() && events == RecoverEvents(old(events), now, staleMs, maxRecoveries)
    {
      hide Distinct;
      recovered := {};
      var left := events.Keys;
      while left != {}
        invariant Valid() && events.Keys == old(events).Keys && left <= events.Keys
        invariant forall id :: id in events ==>
                    events[id] == if id in left then old(events)[id]
                                  else RecoverEvent(old(events)[id], now, staleMs, maxRecoveries)
        invariant forall id :: id in recovered <==>
                    id in events && id !in left && EventStale(old(events)[id], now, staleMs)
        decreases |left|
      {
        var id :| id in left;
        if EventStale(events[id], now, staleMs) {
          recovered := recovered + {id};
          events := events[id := RecoverEvent(events[id], now, staleMs, maxRecoveries)];
        }
        left := left - {id};
      }
    }

    /** The claim's SELECT: ORDER BY id LIMIT. */
    method SelectPending(limit: nat) returns (ids: seq<Id>)
      requires Valid()
      ensures ids == FirstPending(order, events, limit)
    {
      hide Distinct;
      ids := [];
      var i := 0;
      assert order[0..] == order;
      while i < |order| && |ids| < limit
        invariant i <= |order| && |ids| <= limit
        invariant ids + FirstPending(order[i..], events, limit - |ids|) == FirstPending(order, events, limit)
      {
        FirstPendingFrom(order, events, i, ids, limit);
        assert order[i] in order;
        if events[order[i]].status == PENDING { ids := ids + [order[i]]; }
        i := i + 1;
      }
    }

    /** The claim's UPDATE: WHERE id = ANY(ids). */
    method SetProcessing(ids: seq<Id>, p: SenderId)
      requires Valid() && Distinct(ids) && forall id :: id in ids ==> id in events
      modifies this`events
      ensures events.Keys == old(events).Keys && forall id :: id in events ==>
                events[id] == if id in ids then ClaimedBy(old(events)[id], p, now) else old(events)[id]
      ensures Valid() && events == ClaimEvents(old(events), ids, p, now)
    {
      for k := 0 to |ids|
        invariant Valid() && events.Keys == old(events).Keys
        invariant forall id :: id in events ==>
                    events[id] == if id in ids[..k] then ClaimEvent(old(events)[id], p, now) else old(events)[id]
      {
        events := events[ids[k] := ClaimEvent(events[ids[k]], p, now)];
      }
      assert ids[..|ids|] == ids;
    }

    /** claimOutboxEvents with nobody else's locks in the way. */
    method ClaimOutboxEvents(limit: nat, p: SenderId) returns (ids: seq<Id>)
      requires Valid()
      modifies this`events
      ensures Valid() && ids == FirstPending(order, old(events), limit)
      ensures events == ClaimEvents(old(events), ids, p, now)
    {
      ids := SelectPending(limit);
      FirstPendingOk(order, events, limit);
      SetProcessing(ids, p);
    }

    /** The completion, guarded by the id alone: whatever the event was, it is SENT, one attempt more. */
    method MarkSent(id: Id)
      requires Valid()
      modifies this`events
      ensures Valid()
      ensures id in events ==>
                var e := old(events)[id];
                events[id]
                == Event(e.payload, SENT, e.attempts + 1, e.claimCount, e.recoveryCount, None, None, e.lastError)
      ensures events == if id in old(events) then old(events)[id := SentEvent(old(events)[id])] else old(events)
    {
      if id in events { events := events[id := SentEvent(events[id])]; }
    }

    /** The failed completion, guarded by the id alone: the event is PENDING again, one attempt more. */
    method MarkPending(id: Id, error: string)
      requires Valid()
      modifies this`events
      ensures Valid()
      ensures id in events ==>
                var e := old(events)[id];
                events[id]
                == Event(e.payload, PENDING, e.attempts + 1, e.claimCount, e.recoveryCount, None, None, Some(error))
      ensures events == if id in old(events) then old(events)[id := ReturnedEvent(old(events)[id], error)]
              else old(events)
    {
      if id in events { events := events[id := ReturnedEvent(events[id], error)]; }
    }
  }
}
