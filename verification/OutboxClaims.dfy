/**
 * The outbox processors of outbox/outboxProcessor.js under concurrency: SELECT .. FOR UPDATE SKIP
 * LOCKED, UPDATE and COMMIT are separate steps, and the steps of any number of processors, their
 * completion updates, stale recovery and inserts interleave freely.  A statement that would touch
 * a row locked by someone else waits, which here means the step does nothing.
 */
module OutboxClaims {
  import opened Wrappers
  import opened Sets
  import opened Json
  import opened Columns
  import opened Tables

  type EventId = nat

  /** A committed row: the serial id is the key, txn the transaction it belongs to. */
  datatype Row = Row(txn: Id, event: Event)

  /** What the SELECT returned of one row. */
  datatype Found = Found(id: EventId, txn: Id, payload: Json)

  /** A processor: its claiming transaction (began is its CURRENT_TIMESTAMP), or the batch it has to mark. */
  datatype Txn =
    | NoTxn
    | Selected(found: seq<Found>, limit: nat, began: nat)
    | Updated(found: seq<Found>, limit: nat, began: nat)
    | Working(batch: seq<Found>)

  datatype State = State(
    now: nat, rows: map<EventId, Row>, locks: map<EventId, SenderId>, txns: map<SenderId, Txn>,
    outboxStaleMs: nat, maxRecoveries: nat)

  datatype Step =
    | Insert(id: EventId, txn: Id, payload: Json)
    | Select(p: SenderId, limit: nat, only: Option<set<Id>>)
    | Update(p: SenderId)
    | Commit(p: SenderId)
    | Abort(p: SenderId)
    | MarkSent(p: SenderId)
    | MarkPending(p: SenderId, error: string)
    | Recover(p: SenderId)
    | Tick(d: nat)

  function TxnAt(s: State, p: SenderId): Txn { if p in s.txns then s.txns[p] else NoTxn }

  predicate Claiming(t: Txn) { t.Selected? || t.Updated? }

  function FoundBy(t: Txn): seq<Found> { if Claiming(t) then t.found else [] }

  predicate Holds(t: Txn, id: EventId) { exists i :: 0 <= i < |FoundBy(t)| && FoundBy(t)[i].id == id }

  /* ---- the SELECT ---- */

  /** The rows the WHERE clause and SKIP LOCKED leave. */
  ghost function Eligible(s: State, only: Option<set<Id>>): set<EventId> {
    set id | id in s.rows && id !in s.locks && s.rows[id].event.status == PENDING
             && (only.Some? ==> s.rows[id].txn in only.value)
  }

  /** ORDER BY id LIMIT n */
  ghost function Pick(e: set<EventId>, n: nat): seq<EventId>
    decreases n
  {
    if n == 0 || e == {} then [] else [Least(e)] + Pick(e - {Least(e)}, n - 1)
  }

  predicate Ascending(ids: seq<EventId>) { forall i, j :: 0 <= i < j < |ids| ==> ids[i] < ids[j] }

  predicate AllBelow(ids: seq<EventId>, x: EventId) { forall i :: 0 <= i < |ids| ==> ids[i] < x }

  predicate AllAbove(m: EventId, ids: seq<EventId>) { forall i :: 0 <= i < |ids| ==> m < ids[i] }

  /** The lowest of e, in order, at most n: everything left out lies above, and only when n is reached. */
  ghost predicate LowestFew(e: set<EventId>, n: nat, ids: seq<EventId>) {
    Ascending(ids) && |ids| <= n
    && (forall x :: x in ids ==> x in e)
    && forall x :: x in e && x !in ids ==> |ids| == n && AllBelow(ids, x)
  }

  lemma AscendingCons(m: EventId, ids: seq<EventId>)
    ensures Ascending([m] + ids) <==> AllAbove(m, ids) && Ascending(ids)
  {
    if Ascending([m] + ids) {
      forall i | 0 <= i < |ids| ensures m < ids[i] { assert ([m] + ids)[0] < ([m] + ids)[i + 1]; }
      forall i, j | 0 <= i < j < |ids| ensures ids[i] < ids[j] { assert ([m] + ids)[i + 1] < ([m] + ids)[j + 1]; }
    }
  }

  lemma BelowCons(m: EventId, ids: seq<EventId>, x: EventId)
    ensures AllBelow([m] + ids, x) <==> m < x && AllBelow(ids, x)
  {
    if AllBelow([m] + ids, x) {
      assert ([m] + ids)[0] < x;
      forall i | 0 <= i < |ids| ensures ids[i] < x { assert ([m] + ids)[i + 1] < x; }
    }
  }

  lemma LowestCons(e: set<EventId>, n: nat, rest: seq<EventId>)
    requires n > 0 && e != {} && LowestFew(e - {Least(e)}, n - 1, rest)
    ensures LowestFew(e, n, [Least(e)] + rest)
  {
    var m := Least(e);
    forall i | 0 <= i < |rest| ensures m < rest[i] { assert rest[i] in rest; }
    AscendingCons(m, rest);
    forall x | x in e && x !in [m] + rest ensures |rest| + 1 == n && AllBelow([m] + rest, x) {
      assert x in e - {m} && x !in rest;
      BelowCons(m, rest, x);
    }
  }

  lemma {:induction false} PickIsLowest(e: set<EventId>, n: nat)
    ensures LowestFew(e, n, Pick(e, n))
    decreases n
  {
    if n > 0 && e != {} {
      PickIsLowest(e - {Least(e)}, n - 1);
      LowestCons(e, n, Pick(e - {Least(e)}, n - 1));
    }
  }

  /** LowestFew has one solution: the order and the limit decide the claim. */
  lemma {:induction false} LowestFewUnique(e: set<EventId>, n: nat, a: seq<EventId>, b: seq<EventId>)
    requires LowestFew(e, n, a) && LowestFew(e, n, b)
    ensures a == b
    decreases n
  {
    if b != [] { assert b[0] in b; }
    if a != [] {
      assert a[0] in a && |b| > 0;
      FirstIsLowest(e, n, a);
      FirstIsLowest(e, n, b);
      RestIsLowest(e, n, a);
      RestIsLowest(e, n, b);
      LowestFewUnique(e - {a[0]}, n - 1, a[1..], b[1..]);
      assert a == [a[0]] + a[1..] && b == [b[0]] + b[1..];
    }
  }

  lemma FirstIsLowest(e: set<EventId>, n: nat, a: seq<EventId>)
    requires LowestFew(e, n, a) && a != []
    ensures a[0] in e && a[0] == Least(e)
  {
    assert a[0] in a;
    var m := Least(e);
    if m in a {
      var i :| 0 <= i < |a| && a[i] == m;
    }
  }

  lemma RestIsLowest(e: set<EventId>, n: nat, a: seq<EventId>)
    requires LowestFew(e, n, a) && a != []
    ensures LowestFew(e - {a[0]}, n - 1, a[1..])
  {
    assert a == [a[0]] + a[1..];
    AscendingCons(a[0], a[1..]);
    forall x | x in a[1..] ensures x in e - {a[0]} {
      assert x in a;
    }
    forall x | x in e - {a[0]} && x !in a[1..] ensures |a| == n && AllBelow(a[1..], x) {
      BelowCons(a[0], a[1..], x);
    }
  }

  /** Two claims under way at once share out the queue as one larger claim would. */
  lemma {:induction false} ClaimsSplit(e: set<EventId>, m: nat, n: nat)
    ensures Pick(e, m + n) == Pick(e, m) + Pick(e - (set x | x in Pick(e, m)), n)
    decreases m
  {
    hide Least;
    if m == 0 || e == {} {
      assert e - (set x | x in Pick(e, m)) == e;
    } else {
      var low := Least(e);
      ClaimsSplit(e - {low}, m - 1, n);
      var rest := Pick(e - {low}, m - 1);
      assert Pick(e, m) == [low] + rest;
      assert e - (set x | x in Pick(e, m)) == (e - {low}) - (set x | x in rest);
    }
  }

  ghost function Read(s: State, ids: seq<EventId>): (found: seq<Found>)
    requires forall x :: x in ids ==> x in s.rows
    ensures |found| == |ids|
    ensures forall i :: 0 <= i < |ids| ==> found[i] == Found(ids[i], s.rows[ids[i]].txn, s.rows[ids[i]].event.payload)
  {
    seq(|ids|, i requires 0 <= i < |ids| => Found(ids[i], s.rows[ids[i]].txn, s.rows[ids[i]].event.payload))
  }

  /* ---- the steps ---- */

  ghost function ApplySelect(s: State, p: SenderId, limit: nat, only: Option<set<Id>>): State {
    if !TxnAt(s, p).NoTxn? then s
    else
      PickIsLowest(Eligible(s, only), limit);
      var ids := Pick(Eligible(s, only), limit);
      s.(locks := map id | id in s.locks.Keys + (set x | x in ids) :: if id in ids then p else s.locks[id],
         txns := s.txns[p := Selected(Read(s, ids), limit, s.now)])
  }

  /** Release of every lock of p, which goes on with a batch or is free. */
  function End(s: State, p: SenderId, batch: seq<Found>): State {
    s.(locks := map id | id in s.locks && s.locks[id] != p :: s.locks[id],
       txns := s.txns[p := if batch == [] then NoTxn else Working(batch)])
  }

  function ApplyUpdate(s: State, p: SenderId): State {
    match TxnAt(s, p)
    case Selected(found, limit, began) =>
      if found == [] then s else s.(txns := s.txns[p := Updated(found, limit, began)])
    case _ => s
  }

  function Claim(rows: map<EventId, Row>, t: Txn, p: SenderId, began: nat): (claimed: map<EventId, Row>)
    ensures claimed.Keys == rows.Keys && forall id :: id in rows ==> claimed[id].txn == rows[id].txn
  {
    map id | id in rows :: if Holds(t, id) then rows[id].(event := ClaimEvent(rows[id].event, p, began)) else rows[id]
  }

  /** COMMIT makes the update visible; an empty selection commits without an update. */
  function ApplyCommit(s: State, p: SenderId): State {
    match TxnAt(s, p)
    case Updated(found, _, began) => End(s.(rows := Claim(s.rows, TxnAt(s, p), p, began)), p, found)
    case Selected(found, _, _) => if found == [] then End(s, p, []) else s
    case _ => s
  }

  /** The head of p's batch can be updated: nobody has its row locked. */
  predicate MayMark(s: State, p: SenderId) {
    var t := TxnAt(s, p);
    t.Working? && t.batch != [] && t.batch[0].id in s.rows && t.batch[0].id !in s.locks
  }

  function Mark(s: State, p: SenderId, e: Event -> Event): State {
    if !MayMark(s, p) then s
    else
      var batch := TxnAt(s, p).batch;
      var row := s.rows[batch[0].id];
      s.(rows := s.rows[batch[0].id := row.(event := e(row.event))],
         txns := s.txns[p := if |batch| == 1 then NoTxn else Working(batch[1..])])
  }

  function RecoverRows(s: State): map<EventId, Row> {
    map id | id in s.rows ::
      s.rows[id].(event := RecoverEvent(s.rows[id].event, s.now, s.outboxStaleMs, s.maxRecoveries))
  }

  ghost function Apply(s: State, step: Step): State {
    match step
    case Insert(id, txn, payload) =>
      if id in s.rows || (exists j :: j in s.rows && s.rows[j].txn == txn) then s
      else s.(rows := s.rows[id := Row(txn, NewEvent(payload))])
    case Select(p, limit, only) => ApplySelect(s, p, limit, only)
    case Update(p) => ApplyUpdate(s, p)
    case Commit(p) => ApplyCommit(s, p)
    case Abort(p) => End(s, p, [])
    case MarkSent(p) => Mark(s, p, e => SentEvent(e))
    case MarkPending(p, error) => Mark(s, p, e => ReturnedEvent(e, error))
    case Recover(p) => if TxnAt(s, p).NoTxn? then s.(rows := RecoverRows(s)) else s
    case Tick(d) => s.(now := s.now + d)
  }

  function Init(outboxStaleMs: nat, maxRecoveries: nat): State {
    State(0, map[], map[], map[], outboxStaleMs, maxRecoveries)
  }

  ghost function Run(s: State, steps: seq<Step>): State
    decreases |steps|
  {
    if steps == [] then s else Apply(Run(s, steps[..|steps| - 1]), steps[|steps| - 1])
  }

  /* ---- the invariant ---- */

  /** What a transaction found is ascending, within its limit, still pending, and unchanged since. */
  ghost predicate TxnOk(rows: map<EventId, Row>, t: Txn) {
    match t
    case NoTxn => true
    case Working(batch) =>
      (forall i :: 0 <= i < |batch| ==> RowOf(rows, batch[i]))
          && forall i, j :: 0 <= i < j < |batch| ==> batch[i].id < batch[j].id
    case _ =>
      |t.found| <= t.limit
      && (forall i, j :: 0 <= i < j < |t.found| ==> t.found[i].id < t.found[j].id)
      && forall i :: 0 <= i < |t.found| ==> FoundOk(rows, t.found[i])
  }

  predicate RowOf(rows: map<EventId, Row>, f: Found) {
    f.id in rows && rows[f.id].txn == f.txn && rows[f.id].event.payload == f.payload
  }

  predicate FoundOk(rows: map<EventId, Row>, f: Found) { RowOf(rows, f) && rows[f.id].event.status == PENDING }

  /** Exactly the found rows are locked, each by its finder. */
  ghost predicate LocksOk(locks: map<EventId, SenderId>, txns: map<SenderId, Txn>) {
    (forall id :: id in locks ==> locks[id] in txns && Holds(txns[locks[id]], id))
    && forall p, id :: p in txns && Holds(txns[p], id) ==> id in locks && locks[id] == p
  }

  ghost predicate Inv(s: State) {
    LocksOk(s.locks, s.txns) && forall p :: p in s.txns ==> TxnOk(s.rows, s.txns[p])
  }

  /** No row is removed, moved to another transaction, or given another payload. */
  predicate RowsStay(rows: map<EventId, Row>, rows': map<EventId, Row>) {
    forall id :: id in rows ==>
      id in rows' && rows'[id].txn == rows[id].txn && rows'[id].event.payload == rows[id].event.payload
  }

  /** What transactions found, and batches, survive any change of the unlocked rows. */
  lemma RowsKeep(s: State, rows: map<EventId, Row>)
    requires Inv(s) && RowsStay(s.rows, rows)
    requires forall id :: id in s.rows && id in s.locks ==> rows[id] == s.rows[id]
    ensures Inv(s.(rows := rows))
  {
    forall p | p in s.txns ensures TxnOk(rows, s.txns[p]) {
      var t := s.txns[p];
      assert TxnOk(s.rows, t);
      match t {
        case NoTxn =>
        case Working(batch) =>
          forall i | 0 <= i < |batch| ensures RowOf(rows, batch[i]) { assert RowOf(s.rows, batch[i]); }
        case _ =>
          forall i | 0 <= i < |t.found| ensures FoundOk(rows, t.found[i]) {
            assert FoundOk(s.rows, t.found[i]) && FoundBy(t)[i] == t.found[i];
            assert Holds(t, t.found[i].id);
          }
      }
    }
  }

  lemma EndLocks(s: State, p: SenderId, batch: seq<Found>)
    requires LocksOk(s.locks, s.txns)
    ensures LocksOk(End(s, p, batch).locks, End(s, p, batch).txns)
  {
    var s' := End(s, p, batch);
    forall q, id | q in s'.txns && Holds(s'.txns[q], id) ensures id in s'.locks && s'.locks[id] == q {
      if q == p { assert false; }
      assert Holds(s.txns[q], id);
    }
    forall id | id in s'.locks ensures s'.locks[id] in s'.txns && Holds(s'.txns[s'.locks[id]], id) {
      assert id in s.locks;
    }
  }

  lemma EndKeeps(s: State, p: SenderId, batch: seq<Found>)
    requires Inv(s) && TxnOk(s.rows, Working(batch))
    ensures Inv(End(s, p, batch))
  {
    EndLocks(s, p, batch);
    hide LocksOk;
    forall q | q in End(s, p, batch).txns ensures TxnOk(s.rows, End(s, p, batch).txns[q]) {
      if q != p { assert q in s.txns && TxnOk(s.rows, s.txns[q]); }
    }
  }

  /** A processor without locks moves on. */
  lemma WorkKeeps(s: State, p: SenderId, t: Txn)
    requires Inv(s) && p in s.txns && !Claiming(s.txns[p]) && !Claiming(t) && TxnOk(s.rows, t)
    ensures Inv(s.(txns := s.txns[p := t]))
  {
    SameFoundLocks(s, s.txns[p := t]);
    hide LocksOk;
    forall q | q in s.txns ensures TxnOk(s.rows, s.txns[p := t][q]) { assert TxnOk(s.rows, s.txns[q]); }
  }

  lemma UpdateKeeps(s: State, p: SenderId)
    requires Inv(s)
    ensures Inv(ApplyUpdate(s, p))
  {
    var s' := ApplyUpdate(s, p);
    if s' != s {
      forall q | q in s.txns ensures FoundBy(s'.txns[q]) == FoundBy(s.txns[q]) { }
      SameFoundLocks(s, s'.txns);
      hide LocksOk;
      forall q | q in s'.txns ensures TxnOk(s'.rows, s'.txns[q]) {
        assert q in s.txns && TxnOk(s.rows, s.txns[q]);
      }
    }
  }

  lemma SameFoundLocks(s: State, txns: map<SenderId, Txn>)
    requires LocksOk(s.locks, s.txns) && txns.Keys == s.txns.Keys
    requires forall q :: q in txns ==> FoundBy(txns[q]) == FoundBy(s.txns[q])
    ensures LocksOk(s.locks, txns)
  {
    forall q, id | q in txns ensures Holds(txns[q], id) == Holds(s.txns[q], id) { }
  }

  lemma SelectFinds(s: State, p: SenderId, limit: nat, only: Option<set<Id>>, id: EventId)
    requires TxnAt(s, p).NoTxn?
    ensures Holds(TxnAt(ApplySelect(s, p, limit, only), p), id) <==> id in Pick(Eligible(s, only), limit)
  {
    PickIsLowest(Eligible(s, only), limit);
    var ids := Pick(Eligible(s, only), limit);
    var t := TxnAt(ApplySelect(s, p, limit, only), p);
    assert t.found == Read(s, ids);
    if id in ids {
      var i :| 0 <= i < |ids| && ids[i] == id;
      assert FoundBy(t)[i].id == id;
    }
  }

  lemma SelectTxnOk(s: State, p: SenderId, limit: nat, only: Option<set<Id>>)
    requires TxnAt(s, p).NoTxn?
    ensures TxnOk(s.rows, TxnAt(ApplySelect(s, p, limit, only), p))
  {
    PickIsLowest(Eligible(s, only), limit);
    var ids := Pick(Eligible(s, only), limit);
    var t := TxnAt(ApplySelect(s, p, limit, only), p);
    assert t.found == Read(s, ids);
    forall i | 0 <= i < |ids| ensures FoundOk(s.rows, t.found[i]) {
      assert ids[i] in Eligible(s, only);
    }
  }

  lemma SelectLocks(s: State, p: SenderId, limit: nat, only: Option<set<Id>>, id: EventId)
    requires TxnAt(s, p).NoTxn?
    ensures var ids, locks := Pick(Eligible(s, only), limit), ApplySelect(s, p, limit, only).locks;
            (id in ids ==> id !in s.locks && id in locks && locks[id] == p)
            && (id !in ids ==> (id in locks <==> id in s.locks) && (id in locks ==> locks[id] == s.locks[id]))
  {
    PickIsLowest(Eligible(s, only), limit);
    assert id in Pick(Eligible(s, only), limit) ==> id in Eligible(s, only);
  }

  lemma SelectLocksOk(s: State, p: SenderId, limit: nat, only: Option<set<Id>>)
    requires LocksOk(s.locks, s.txns) && TxnAt(s, p).NoTxn?
    ensures var s' := ApplySelect(s, p, limit, only); LocksOk(s'.locks, s'.txns)
  {
    var s' := ApplySelect(s, p, limit, only);
    var ids := Pick(Eligible(s, only), limit);
    assert p in s.txns ==> forall id :: !Holds(s.txns[p], id);
    forall id ensures Holds(s'.txns[p], id) <==> id in ids { SelectFinds(s, p, limit, only, id); }
    forall id
      ensures (id in ids ==> id !in s.locks && id in s'.locks && s'.locks[id] == p)
      ensures (id !in ids ==> (id in s'.locks <==> id in s.locks) && (id in s'.locks ==> s'.locks[id] == s.locks[id]))
    {
      SelectLocks(s, p, limit, only, id);
    }
    assert s'.txns == s.txns[p := s'.txns[p]];
    hide *;
    LocksAdded(s.locks, s.txns, s'.locks, s'.txns[p], p, ids);
  }

  lemma LocksAdded(
      locks: map<EventId, SenderId>, txns: map<SenderId, Txn>, locks': map<EventId, SenderId>, t: Txn, p: SenderId,
      ids: seq<EventId>)
    requires LocksOk(locks, txns) && (p in txns ==> forall id :: !Holds(txns[p], id))
    requires forall id :: Holds(t, id) <==> id in ids
    requires forall id :: id in ids ==> id !in locks && id in locks' && locks'[id] == p
    requires forall id :: id !in ids ==> (id in locks' <==> id in locks) && (id in locks' ==> locks'[id] == locks[id])
    ensures LocksOk(locks', txns[p := t])
  {
    hide Holds, FoundBy;
    var txns' := txns[p := t];
    forall id | id in locks' ensures locks'[id] in txns' && Holds(txns'[locks'[id]], id) {
      if id !in ids { assert id in locks && Holds(txns[locks[id]], id); }
    }
    forall q, id | q in txns' && Holds(txns'[q], id) ensures id in locks' && locks'[id] == q {
      if q != p { assert q in txns && Holds(txns[q], id); }
    }
  }

  lemma SelectKeeps(s: State, p: SenderId, limit: nat, only: Option<set<Id>>)
    requires Inv(s)
    ensures Inv(ApplySelect(s, p, limit, only))
  {
    if TxnAt(s, p).NoTxn? {
      SelectLocksOk(s, p, limit, only);
      SelectTxnOk(s, p, limit, only);
      hide LocksOk, TxnOk;
      var s' := ApplySelect(s, p, limit, only);
      forall q | q in s'.txns ensures TxnOk(s'.rows, s'.txns[q]) {
        if q != p { assert q in s.txns && TxnOk(s.rows, s.txns[q]); }
      }
    }
  }

  lemma ClaimStays(rows: map<EventId, Row>, t: Txn, p: SenderId, began: nat)
    ensures RowsStay(rows, Claim(rows, t, p, began))
  {
  }

  lemma FoundIsBatch(s: State, p: SenderId)
    requires Inv(s) && TxnAt(s, p).Updated?
    ensures TxnOk(s.rows, Working(TxnAt(s, p).found))
  {
    var t := TxnAt(s, p);
    assert TxnOk(s.rows, t);
    forall i | 0 <= i < |t.found| ensures RowOf(s.rows, t.found[i]) { assert FoundOk(s.rows, t.found[i]); }
  }

  lemma CommitKeeps(s: State, p: SenderId)
    requires Inv(s)
    ensures Inv(ApplyCommit(s, p))
  {
    match TxnAt(s, p) {
      case Updated(found, _, began) =>
        var e := End(s, p, found);
        FoundIsBatch(s, p);
        EndKeeps(s, p, found);
        var rows := Claim(s.rows, TxnAt(s, p), p, began);
        ClaimStays(s.rows, TxnAt(s, p), p, began);
        forall id | id in e.rows && id in e.locks ensures id in rows && rows[id] == e.rows[id] {
          assert id in s.locks && s.locks[id] != p;
        }
        RowsKeep(e, rows);
      case Selected(found, _, _) => if found == [] { EndKeeps(s, p, []); }
      case _ =>
    }
  }

  lemma MarkKeeps(s: State, p: SenderId, e: Event -> Event)
    requires Inv(s) && forall x :: e(x).payload == x.payload
    ensures Inv(Mark(s, p, e))
  {
    if MayMark(s, p) {
      var batch := TxnAt(s, p).batch;
      var row := s.rows[batch[0].id];
      var rows := s.rows[batch[0].id := row.(event := e(row.event))];
      assert TxnOk(s.rows, s.txns[p]);
      RowsKeep(s, rows);
      var t := if |batch| == 1 then NoTxn else Working(batch[1..]);
      assert TxnOk(rows, s.txns[p]);
      WorkKeeps(s.(rows := rows), p, t);
    }
  }

  /** Locked rows are pending. */
  lemma LockedIsPending(s: State, id: EventId)
    requires Inv(s) && id in s.locks
    ensures id in s.rows && s.rows[id].event.status == PENDING
  {
    var t := s.txns[s.locks[id]];
    assert Holds(t, id);
    var i :| 0 <= i < |FoundBy(t)| && FoundBy(t)[i].id == id;
    assert FoundOk(s.rows, t.found[i]);
  }

  lemma RecoverKeeps(s: State)
    requires Inv(s)
    ensures Inv(s.(rows := RecoverRows(s)))
  {
    forall id | id in s.rows && id in s.locks ensures RecoverRows(s)[id] == s.rows[id] {
      LockedIsPending(s, id);
    }
    RowsKeep(s, RecoverRows(s));
  }

  lemma StepKeeps(s: State, step: Step)
    requires Inv(s)
    ensures Inv(Apply(s, step))
  {
    match step
    case Insert(id, txn, payload) =>
      if id !in s.rows { RowsKeep(s, s.rows[id := Row(txn, NewEvent(payload))]); }
    case Select(p, limit, only) => SelectKeeps(s, p, limit, only);
    case Update(p) => UpdateKeeps(s, p);
    case Commit(p) => CommitKeeps(s, p);
    case Abort(p) => EndKeeps(s, p, []);
    case MarkSent(p) => MarkKeeps(s, p, e => SentEvent(e));
    case MarkPending(p, error) => MarkKeeps(s, p, e => ReturnedEvent(e, error));
    case Recover(_) => RecoverKeeps(s);
    case Tick(_) =>
  }

  lemma {:induction false} RunKeeps(s: State, steps: seq<Step>)
    requires Inv(s)
    ensures Inv(Run(s, steps))
    decreases |steps|
  {
    if steps != [] {
      RunKeeps(s, steps[..|steps| - 1]);
      StepKeeps(Run(s, steps[..|steps| - 1]), steps[|steps| - 1]);
    }
  }

  lemma Reachable(stale: nat, max: nat, steps: seq<Step>)
    ensures Inv(Run(Init(stale, max), steps))
  {
    RunKeeps(Init(stale, max), steps);
  }

  /* ---- the main results ---- */

  lemma Disjoint(s: State, p: SenderId, q: SenderId)
    requires Inv(s)
    ensures p != q ==> forall id :: !(Holds(TxnAt(s, p), id) && Holds(TxnAt(s, q), id))
    ensures Claiming(TxnAt(s, p)) ==> |FoundBy(TxnAt(s, p))| <= TxnAt(s, p).limit
    ensures forall i, j :: 0 <= i < j < |FoundBy(TxnAt(s, p))| ==>
            FoundBy(TxnAt(s, p))[i].id < FoundBy(TxnAt(s, p))[j].id
  {
    forall r, id | Holds(TxnAt(s, r), id) ensures id in s.locks && s.locks[id] == r {
      if r !in s.txns { assert false; }
    }
    if p != q {
      forall id ensures !(Holds(TxnAt(s, p), id) && Holds(TxnAt(s, q), id)) {
        if Holds(TxnAt(s, p), id) { assert s.locks[id] == p; }
      }
    }
    if p in s.txns { assert TxnOk(s.rows, s.txns[p]); }
  }

  /** In every interleaving, claims under way are pairwise disjoint, ascending and within their limits. */
  lemma ClaimsDisjoint(stale: nat, max: nat, steps: seq<Step>, p: SenderId, q: SenderId)
    ensures var s := Run(Init(stale, max), steps);
            (p != q ==> forall id :: !(Holds(TxnAt(s, p), id) && Holds(TxnAt(s, q), id)))
            && var found := FoundBy(TxnAt(s, p));
               (Claiming(TxnAt(s, p)) ==> |found| <= TxnAt(s, p).limit)
               && forall i, j :: 0 <= i < j < |found| ==> found[i].id < found[j].id
  {
    Reachable(stale, max, steps);
    hide Run, Inv;
    Disjoint(Run(Init(stale, max), steps), p, q);
  }

  /** In every interleaving a claim takes the lowest pending rows that nobody has locked, of the given transactions. */
  lemma ClaimIsLowest(
      s: State, p: SenderId, limit: nat, only: Option<set<Id>>, free: set<EventId>, ids: seq<EventId>)
    requires forall x :: x in free <==> x in s.rows && x !in s.locks && s.rows[x].event.status == PENDING
                                        && (only.None? || s.rows[x].txn in only.value)
    requires TxnAt(s, p).NoTxn? && LowestFew(free, limit, ids)
    ensures var found := FoundBy(TxnAt(Apply(s, Select(p, limit, only)), p));
            |found| == |ids| && forall i :: 0 <= i < |ids| ==> found[i].id == ids[i]
  {
    assert free == Eligible(s, only);
    PickIsLowest(free, limit);
    LowestFewUnique(free, limit, ids, Pick(free, limit));
  }

  /**
   * When a claim commits, in any interleaving, each event it returns was pending until then, is as
   * the SELECT saw it, and becomes PROCESSING under its claimer; no other row changes.
   */
  lemma CommitClaims(stale: nat, max: nat, steps: seq<Step>, p: SenderId, id: EventId)
    requires TxnAt(Run(Init(stale, max), steps), p).Updated?
    ensures var s := Run(Init(stale, max), steps);
            var s' := Apply(s, Commit(p));
            s'.rows.Keys == s.rows.Keys
            && (id in s.rows && !Holds(TxnAt(s, p), id) ==> s'.rows[id] == s.rows[id])
            && (Holds(TxnAt(s, p), id) ==>
                  id in s.rows && s.rows[id].event.status == PENDING
                  && s'.rows[id].txn == s.rows[id].txn && id !in s'.locks
                  && s'.rows[id].event == ClaimedBy(s.rows[id].event, p, TxnAt(s, p).began)
                  && exists f :: f in FoundBy(TxnAt(s, p))
                                 && f == Found(id, s'.rows[id].txn, s'.rows[id].event.payload))
  {
    Reachable(stale, max, steps);
    hide Run, Inv, Apply, Holds;
    CommitRow(Run(Init(stale, max), steps), p, id);
  }

  lemma CommitRow(s: State, p: SenderId, id: EventId)
    requires Inv(s) && TxnAt(s, p).Updated?
    ensures var s' := Apply(s, Commit(p));
            s'.rows.Keys == s.rows.Keys
            && (id in s.rows && !Holds(TxnAt(s, p), id) ==> s'.rows[id] == s.rows[id])
            && (Holds(TxnAt(s, p), id) ==>
                  id in s.rows && s.rows[id].event.status == PENDING
                  && s'.rows[id] == s.rows[id].(event := ClaimEvent(s.rows[id].event, p, TxnAt(s, p).began))
                  && id !in s'.locks
                  && exists f :: f in FoundBy(TxnAt(s, p)) && f == Found(id, s.rows[id].txn, s.rows[id].event.payload))
  {
    var t := TxnAt(s, p);
    CommitRows(s, p);
    CommitUnlocks(s, p);
    hide Apply;
    if Holds(t, id) {
      assert TxnOk(s.rows, t) && s.locks[id] == p;
      hide Inv;
      var i :| 0 <= i < |FoundBy(t)| && FoundBy(t)[i].id == id;
      assert FoundOk(s.rows, t.found[i]) && t.found[i] in FoundBy(t);
    }
  }

  lemma CommitRows(s: State, p: SenderId)
    requires TxnAt(s, p).Updated?
    ensures Apply(s, Commit(p)).rows == Claim(s.rows, TxnAt(s, p), p, TxnAt(s, p).began)
  {
  }

  lemma CommitUnlocks(s: State, p: SenderId)
    requires TxnAt(s, p).Updated?
    ensures forall id :: id in s.locks && s.locks[id] == p ==> id !in Apply(s, Commit(p)).locks
  {
  }

  /**
   * The step gives event id back: its processor's enqueue or completion failed, or recovery takes
   * the stale event back with a retry left.
   */
  predicate GivesBack(s: State, step: Step, id: EventId) {
    match step
    case MarkPending(p, _) => MayMark(s, p) && TxnAt(s, p).batch[0].id == id
    case Recover(p) =>
      TxnAt(s, p).NoTxn? && id in s.rows && ClaimedLongAgo(s.rows[id].event, s.now, s.outboxStaleMs)
      && s.rows[id].event.recoveryCount + 1 < s.maxRecoveries
    case _ => false
  }

  /** An event that is not pending becomes pending exactly when it is given back. */
  lemma PendingIffGivenBack(s: State, step: Step, id: EventId)
    requires id in s.rows && s.rows[id].event.status != PENDING
    ensures id in Apply(s, step).rows
    ensures Apply(s, step).rows[id].event.status == PENDING <==> GivesBack(s, step, id)
  {
  }

  lemma {:induction false} StaysTaken(s: State, steps: seq<Step>, id: EventId)
    requires id in s.rows && s.rows[id].event.status != PENDING
    requires forall k :: 0 <= k < |steps| ==> !GivesBack(Run(s, steps[..k]), steps[k], id)
    ensures id in Run(s, steps).rows && Run(s, steps).rows[id].event.status != PENDING
    decreases |steps|
  {
    if steps != [] {
      var n := |steps| - 1;
      forall k | 0 <= k < n ensures !GivesBack(Run(s, steps[..n][..k]), steps[..n][k], id) {
        assert steps[..n][..k] == steps[..k] && steps[..n][k] == steps[k];
      }
      StaysTaken(s, steps[..n], id);
      PendingIffGivenBack(Run(s, steps[..n]), steps[n], id);
      hide Apply, GivesBack;
    }
  }

  /** No event is handed out twice, to one processor or to two, unless it was itself given back in between. */
  lemma NotTwiceUnlessGivenBack(
      stale: nat, max: nat, first: seq<Step>, p: SenderId, between: seq<Step>, q: SenderId, id: EventId)
    requires var s := Run(Init(stale, max), first); TxnAt(s, p).Updated? && Holds(TxnAt(s, p), id)
    requires var s := Run(Apply(Run(Init(stale, max), first), Commit(p)), between);
             TxnAt(s, q).Updated? && Holds(TxnAt(s, q), id)
    ensures var s := Apply(Run(Init(stale, max), first), Commit(p));
            exists k :: 0 <= k < |between| && GivesBack(Run(s, between[..k]), between[k], id)
  {
    CommitClaims(stale, max, first, p, id);
    Reachable(stale, max, first);
    hide Run, Inv, Apply, Holds, GivesBack;
    StepKeeps(Run(Init(stale, max), first), Commit(p));
    TakenUnlessGivenBack(Apply(Run(Init(stale, max), first), Commit(p)), between, q, id);
  }

  lemma TakenUnlessGivenBack(s: State, steps: seq<Step>, q: SenderId, id: EventId)
    requires Inv(s) && id in s.rows && s.rows[id].event.status != PENDING
    requires Holds(TxnAt(Run(s, steps), q), id)
    ensures exists k :: 0 <= k < |steps| && GivesBack(Run(s, steps[..k]), steps[k], id)
  {
    RunKeeps(s, steps);
    hide Run;
    HeldIsLocked(Run(s, steps), q, id);
    LockedIsPending(Run(s, steps), id);
    hide Inv, Holds;
    if forall k :: 0 <= k < |steps| ==> !GivesBack(Run(s, steps[..k]), steps[k], id) { StaysTaken(s, steps, id); }
  }

  lemma HeldIsLocked(s: State, q: SenderId, id: EventId)
    requires Inv(s) && Holds(TxnAt(s, q), id)
    ensures id in s.locks
  {
  }
}
