/**
 * What the statements of store/store.js and outbox/outboxProcessor.js promise of a row, column by
 * column: which rows they touch, what they write and what they keep.
 */
module Columns {
  import opened Wrappers
  import opened Json
  import opened Tables

  /** The columns that say which payment a row is. */
  predicate SameIdentity(a: Tx, b: Tx) { a.key == b.key && a.hash == b.hash }

  /** The columns that an outcome or a failed attempt fills. */
  predicate SameOutcome(a: Tx, b: Tx) {
    a.retryCount == b.retryCount && a.workerId == b.workerId && a.route == b.route && a.reason == b.reason
    && a.result == b.result
  }

  predicate SameLease(a: Tx, b: Tx) {
    a.claimant == b.claimant && a.startedAt == b.startedAt && a.heartbeatAt == b.heartbeatAt
    && a.leaseExpiresAt == b.leaseExpiresAt
  }

  predicate NoLease(r: Tx) {
    r.claimant == None && r.startedAt == None && r.heartbeatAt == None && r.leaseExpiresAt == None
  }

  /** An accepted payment without attempts, claim or outcome. */
  function FreshRow(key: Option<Key>, hash: JString): Tx {
    Tx(key, hash, ACCEPTED, 0, [ACCEPTED], None, None, None, None, None, None, None, None)
  }

  /** Every column an update names has its value, every other one what it had. */
  predicate Coalesced(a: Tx, u: Updates, r: Tx) {
    && a.status == (if u.status.Some? then u.status.value else r.status)
    && a.retryCount == (if u.retryCount.Some? then u.retryCount.value else r.retryCount)
    && a.timeline == (if u.timeline.Some? then u.timeline.value else r.timeline)
    && a.workerId == (if u.workerId.Some? then u.workerId else r.workerId)
    && a.route == (if u.route.Some? then u.route else r.route)
    && a.reason == (if u.reason.Some? then u.reason else r.reason)
    && a.result == (if u.result.Some? then u.result else r.result)
  }

  /** The row after a failed attempt: status, count of attempts and reason written, the lease gone, the rest kept. */
  predicate Marked(a: Tx, r: Tx, status: TxStatus, attempts: nat, reason: string) {
    && SameIdentity(a, r) && NoLease(a) && a.status == status && a.retryCount == attempts && a.reason == Some(reason)
    && a.timeline == r.timeline && a.workerId == r.workerId && a.route == r.route && a.result == r.result
  }

  /** In processing, with the lease, or without one the start plus the timeout, before now. */
  predicate Overdue(r: Tx, now: nat, staleMs: nat) {
    r.status == PROCESSING
    && ((r.leaseExpiresAt.Some? && r.leaseExpiresAt.value < now)
        || (r.leaseExpiresAt.None? && r.startedAt.Some? && r.startedAt.value + staleMs < now))
  }

  /** The row without its claim: accepted again, outcome and timeline kept, with recovery's reason. */
  function TakenFrom(r: Tx): Tx {
    Tx(r.key, r.hash, ACCEPTED, r.retryCount, r.timeline, None, None, None, None, r.workerId, r.route,
       Some("Recovered stale PROCESSING transaction"), r.result)
  }

  /** Claimed longer ago than the timeout. */
  predicate ClaimedLongAgo(e: Event, now: nat, staleMs: nat) {
    e.status == CLAIMED && e.claimedAt.Some? && e.claimedAt.value + staleMs < now
  }

  /** The event in the hands of p since now, with one claim more. */
  function ClaimedBy(e: Event, p: SenderId, now: nat): Event {
    Event(e.payload, CLAIMED, e.attempts, e.claimCount + 1, e.recoveryCount, Some(now), Some(p), e.lastError)
  }

  /** The event after its claim was taken back: pending with one recovery more, or failed at the limit. */
  predicate TakenBack(a: Event, e: Event, maxRecoveries: nat) {
    var fails := e.recoveryCount + 1 >= maxRecoveries;
    && a.status == (if fails then OUTBOX_FAILED else PENDING)
    && a.recoveryCount == e.recoveryCount + 1
    && a.lastError == (if fails then Some("Outbox event exceeded max stale recoveries") else e.lastError)
    && a.claimedAt == None && a.lockedBy == None
    && a.payload == e.payload && a.attempts == e.attempts && a.claimCount == e.claimCount
  }
}
