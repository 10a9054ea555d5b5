/**
 * The rows of transactions, outbox_events and dead_letter_jobs, and what each SQL statement of
 * store/store.js and outbox/outboxProcessor.js does to one row.  Timestamps are milliseconds of
 * the database clock; a timeline keeps the status of each entry.
 */
module Tables {
  import opened Wrappers
  import opened Json
  import D = Decisions

  type Id = JString
  type Key = JString
  type WorkerId = JString
  type SenderId = JString

  datatype TxStatus = ACCEPTED | PROCESSING | COMPLETED | DECLINED | FAILED

  predicate Final(s: TxStatus) { s == COMPLETED || s == DECLINED || s == FAILED }

  datatype Tx = Tx(
    key: Option<Key>, hash: JString, status: TxStatus, retryCount: nat, timeline: seq<TxStatus>,
    claimant: Option<WorkerId>, startedAt: Option<nat>, heartbeatAt: Option<nat>, leaseExpiresAt: Option<nat>,
    workerId: Option<nat>, route: Option<D.Route>, reason: Option<string>, result: Option<D.SystemResult>)

  function NewTx(key: Option<Key>, hash: JString): Tx {
    Tx(key, hash, ACCEPTED, 0, [ACCEPTED], None, None, None, None, None, None, None, None)
  }

  /** The columns a caller may set; None leaves the column as it is (COALESCE). */
  datatype Updates = Updates(
    status: Option<TxStatus>, retryCount: Option<nat>, workerId: Option<nat>, route: Option<D.Route>,
    reason: Option<string>, result: Option<D.SystemResult>, timeline: Option<seq<TxStatus>>)

  function Set(r: Tx, u: Updates): Tx {
    r.(status := u.status.GetOr(r.status),
       retryCount := u.retryCount.GetOr(r.retryCount),
       workerId := if u.workerId.Some? then u.workerId else r.workerId,
       route := if u.route.Some? then u.route else r.route,
       reason := if u.reason.Some? then u.reason else r.reason,
       result := if u.result.Some? then u.result else r.result,
       timeline := u.timeline.GetOr(r.timeline))
  }

  function Released(r: Tx): Tx {
    r.(claimant := None, startedAt := None, heartbeatAt := None, leaseExpiresAt := None)
  }

  /** updateTransaction: no guard on the status. */
  function UpdateTx(r: Tx, u: Updates, clearProcessing: bool): Tx {
    if clearProcessing then Released(Set(r, u)) else Set(r, u)
  }

  /** startTransactionProcessing; None when the guard finds no row. */
  function StartTx(r: Tx, w: WorkerId, timeline: Option<seq<TxStatus>>, now: nat, lease: nat): Option<Tx> {
    if r.status != ACCEPTED then None
    else Some(r.(status := PROCESSING, claimant := Some(w), startedAt := Some(now),
                 timeline := timeline.GetOr(r.timeline), heartbeatAt := Some(now),
                 leaseExpiresAt := Some(now + lease)))
  }

  /** renewTransactionProcessingLease */
  function RenewTx(r: Tx, w: WorkerId, now: nat, lease: nat): Option<Tx> {
    if r.status != PROCESSING || r.claimant != Some(w) then None
    else Some(r.(heartbeatAt := Some(now), leaseExpiresAt := Some(now + lease)))
  }

  /** finalizeTransactionProcessing */
  function FinalizeTx(r: Tx, w: WorkerId, u: Updates): Option<Tx> {
    if r.status != PROCESSING || r.claimant != Some(w) then None else Some(Released(Set(r, u)))
  }

  /** COALESCE(lease_expires_at, processing_started_at + stale) < CURRENT_TIMESTAMP */
  predicate LeaseExpired(r: Tx, now: nat, staleMs: nat) {
    r.status == PROCESSING
    && if r.leaseExpiresAt.Some? then r.leaseExpiresAt.value < now
       else r.startedAt.Some? && r.startedAt.value + staleMs < now
  }

  function RecoverTx(r: Tx, now: nat, staleMs: nat): Tx {
    if LeaseExpired(r, now, staleMs) then
      Released(r).(status := ACCEPTED, reason := Some("Recovered stale PROCESSING transaction"))
    else r
  }

  /** recoverStaleProcessingTransactions over the whole table. */
  function RecoverTxs(txs: map<Id, Tx>, now: nat, staleMs: nat): map<Id, Tx> {
    map id | id in txs :: RecoverTx(txs[id], now, staleMs)
  }

  /* ---- outbox_events; CLAIMED stands for the status text PROCESSING ---- */

  datatype EventStatus = PENDING | CLAIMED | SENT | OUTBOX_FAILED

  datatype Event = Event(
    payload: Json, status: EventStatus, attempts: nat, claimCount: nat, recoveryCount: nat,
    claimedAt: Option<nat>, lockedBy: Option<SenderId>, lastError: Option<string>)

  function NewEvent(payload: Json): Event { Event(payload, PENDING, 0, 0, 0, None, None, None) }

  function ClaimEvent(e: Event, p: SenderId, now: nat): Event {
    e.(status := CLAIMED, claimedAt := Some(now), lockedBy := Some(p), claimCount := e.claimCount + 1)
  }

  function SentEvent(e: Event): Event {
    e.(status := SENT, attempts := e.attempts + 1, claimedAt := None, lockedBy := None)
  }

  function ReturnedEvent(e: Event, error: string): Event {
    e.(status := PENDING, attempts := e.attempts + 1, claimedAt := None, lockedBy := None, lastError := Some(error))
  }

  predicate EventStale(e: Event, now: nat, staleMs: nat) {
    e.status == CLAIMED && e.claimedAt.Some? && e.claimedAt.value < now - staleMs
  }

  function RecoverEvent(e: Event, now: nat, staleMs: nat, maxRecoveries: nat): Event {
    if !EventStale(e, now, staleMs) then e
    else
      var next := e.recoveryCount + 1;
      e.(status := if next >= maxRecoveries then OUTBOX_FAILED else PENDING,
         claimedAt := None, lockedBy := None, recoveryCount := next,
         lastError := if next >= maxRecoveries then Some("Outbox event exceeded max stale recoveries") else e.lastError)
  }

  function RecoverEvents(events: map<Id, Event>, now: nat, staleMs: nat, maxRecoveries: nat): map<Id, Event> {
    map id | id in events :: RecoverEvent(events[id], now, staleMs, maxRecoveries)
  }

  predicate Distinct(ids: seq<Id>) { forall i, j :: 0 <= i < j < |ids| ==> ids[i] != ids[j] }

  function ClaimEvents(events: map<Id, Event>, ids: seq<Id>, p: SenderId, now: nat): map<Id, Event> {
    map id | id in events :: if id in ids then ClaimEvent(events[id], p, now) else events[id]
  }

  /* ---- dead_letter_jobs and the whole database ---- */

  datatype DeadLetter = DeadLetter(payload: Json, reason: string, attemptsMade: nat)

  /** The tables; keys is the partial unique index on transactions.idempotency_key. */
  datatype Db = Db(txs: map<Id, Tx>, keys: map<Key, Id>, events: map<Id, Event>, dead: map<Id, DeadLetter>)

  datatype SaveResult = Inserted | Existing(id: Id, conflict: bool) | UniqueViolation

  /**
   * saveTransactionWithOutbox.  A taken idempotency key inserts nothing; a taken txn_id raises and
   * rolls back; otherwise the transaction and its outbox event appear together.
   */
  function Save(db: Db, id: Id, key: Option<Key>, hash: JString, payload: Json): (Db, SaveResult) {
    if key.Some? && key.value in db.keys then
      var existing := db.keys[key.value];
      (db, Existing(existing, existing !in db.txs || db.txs[existing].hash != hash))
    else if id in db.txs then (db, UniqueViolation)
    else
      (Db(db.txs[id := NewTx(key, hash)],
          if key.Some? then db.keys[key.value := id] else db.keys,
          if id in db.events then db.events else db.events[id := NewEvent(payload)],
          db.dead),
       Inserted)
  }
}
