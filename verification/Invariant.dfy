/** What every step of the protocol keeps, for every interleaving. */
module Invariant {
  import opened Wrappers
  import opened Json
  import opened Tables
  import opened Protocol
  import D = Decisions

  ghost predicate ConfigOk(c: Config) {
    forall v :: c.sanitize(c.sanitize(v)) == c.sanitize(v)
  }

  /* ---- what the tables and the queue say about one transaction ---- */

  datatype View = View(
    tx: Option<Tx>, payload: Option<Json>, starts: Option<nat>, job: Option<Job>, dead: Option<DeadLetter>)

  function Find<K, V>(m: map<K, V>, k: K): Option<V> { if k in m then Some(m[k]) else None }

  function ViewOf(s: World, id: Id): View {
    View(Find(s.db.txs, id), if id in s.db.events then Some(s.db.events[id].payload) else None,
         Find(s.starts, id), Find(s.queue, id), Find(s.db.dead, id))
  }

  /** PROCESSING exactly when the four lease columns are set, and then in the right relation. */
  predicate LeaseOk(c: Config, now: nat, r: Tx) {
    if r.status == PROCESSING then
      r.claimant.Some? && r.startedAt.Some? && r.heartbeatAt.Some? && r.leaseExpiresAt.Some?
      && r.startedAt.value <= r.heartbeatAt.value <= now
      && r.leaseExpiresAt.value == r.heartbeatAt.value + c.lease
    else r.claimant.None? && r.startedAt.None? && r.heartbeatAt.None? && r.leaseExpiresAt.None?
  }

  /** ACCEPTED PROCESSING^k */
  predicate Opened(t: seq<TxStatus>) {
    |t| >= 1 && t[0] == ACCEPTED && forall i :: 1 <= i < |t| ==> t[i] == PROCESSING
  }

  /** Opened with k >= least, then last. */
  predicate Closed(t: seq<TxStatus>, least: nat, last: TxStatus) {
    |t| >= 2 + least && t[|t| - 1] == last && Opened(t[..|t| - 1])
  }

  predicate TimelineOk(r: Tx) {
    match r.status
    case DECLINED => Closed(r.timeline, 1, DECLINED)
    case COMPLETED => Closed(r.timeline, 2, COMPLETED)
    case PROCESSING => Opened(r.timeline) && |r.timeline| >= 2
    case _ => Opened(r.timeline)
  }

  /** A final row carries the decision on its payload; an undecided one carries none. */
  predicate OutcomeOk(d: D.Decision, r: Tx) {
    match r.status
    case COMPLETED => d.Completed? && r.route == Some(d.route) && r.result == Some(d.result)
    case DECLINED => d.Declined? && r.route == d.via && r.reason == Some(d.reason) && r.result.None?
    case FAILED => d.Failed? && r.reason == Some(d.reason) && r.route.None? && r.result.None?
    case _ => r.route.None? && r.result.None?
  }

  predicate RowOk(c: Config, now: nat, r: Tx, p: Json) {
    && c.sanitize(p) == p
    && LeaseOk(c, now, r)
    && TimelineOk(r)
    && OutcomeOk(c.decide(p), r)
    && r.retryCount <= ATTEMPTS
  }

  /** A failed job has a dead letter with all attempts made; any other job has attempts left. */
  predicate JobOk(c: Config, job: Job, p: Json, dead: Option<DeadLetter>) {
    && job.data == p
    && (job.state == JobFailed ==>
          job.attemptsMade == ATTEMPTS && c.decide(p).Failed?
          && dead == Some(DeadLetter(p, c.decide(p).reason, ATTEMPTS)))
    && (job.state != JobFailed ==> job.attemptsMade < ATTEMPTS)
  }

  predicate FailedJob(v: View) { v.job.Some? && v.job.value.state == JobFailed }

  predicate IdOk(c: Config, now: nat, v: View) {
    if v.tx.None? then v == View(None, None, None, None, None)
    else
      && v.payload.Some? && v.starts.Some?
      && RowOk(c, now, v.tx.value, v.payload.value)
      && (v.job.Some? ==> JobOk(c, v.job.value, v.payload.value, v.dead))
      && (v.tx.value.status == FAILED ==> FailedJob(v) && v.tx.value.retryCount == ATTEMPTS)
  }

  /**
   * A handler against the view of its transaction.  While a row is PROCESSING, the handler whose
   * epoch is current is the claimant, its local timeline is the row's, and no other handler is.
   */
  predicate HandlerOk(c: Config, w: WorkerId, h: Handler, v: View) {
    match h
    case Delivered(_, data) => v.tx.Some? && v.payload == Some(data)
    case Seen(_, data, timeline) => v.tx.Some? && v.payload == Some(data) && Opened(timeline)
    case Claimed(_, data, timeline, epoch) =>
      && v.tx.Some? && v.payload == Some(data) && v.starts.Some?
      && Opened(timeline) && |timeline| >= 2
      && epoch <= v.starts.value
      && (v.tx.value.status == PROCESSING ==>
            (epoch == v.starts.value <==> v.tx.value.claimant == Some(w))
            && (epoch == v.starts.value ==> v.tx.value.timeline == timeline))
    case DeadLettered(_, reason, attempts, epoch) =>
      && v.tx.Some? && FailedJob(v) && v.payload.Some? && v.starts.Some? && epoch <= v.starts.value
      && (v.tx.value.status == PROCESSING ==> (epoch == v.starts.value <==> v.tx.value.claimant == Some(w)))
      && attempts == ATTEMPTS && c.decide(v.payload.value) == D.Failed(reason)
    case Returned(_) => v.tx.Some?
    case _ => true
  }

  function HandlerId(h: Handler): Id {
    if h.Idle? || h.Dead? then [] else h.id
  }

  function PayloadAt(s: World, id: Id): Option<Json> { ViewOf(s, id).payload }

  predicate SenderOk(s: World, p: SenderId) {
    var batch := SenderAt(s, p).batch;
    && (forall i :: 0 <= i < |batch| ==> PayloadAt(s, batch[i].id) == Some(batch[i].payload))
    && forall i, j :: 0 <= i < j < |batch| ==> batch[i].id != batch[j].id
  }

  /** The idempotency key of a row: None if there is no row, Some(None) if the column is null. */
  function KeyAt(s: World, id: Id): Option<Option<Key>> {
    if id in s.db.txs then Some(s.db.txs[id].key) else None
  }

  /** The unique index lists exactly the rows with a key. */
  ghost predicate KeysOk(s: World) {
    && (forall k :: k in s.db.keys ==> KeyAt(s, s.db.keys[k]) == Some(Some(k)))
    && (forall id, k :: KeyAt(s, id) == Some(Some(k)) ==> k in s.db.keys && s.db.keys[k] == id)
  }

  predicate WorkerOk(c: Config, s: World, w: WorkerId) {
    HandlerOk(c, w, WorkerAt(s, w), ViewOf(s, HandlerId(WorkerAt(s, w))))
  }

  ghost predicate Inv(c: Config, s: World) {
    && KeysOk(s)
    && (forall id :: IdOk(c, s.now, ViewOf(s, id)))
    && (forall w :: WorkerOk(c, s, w))
    && (forall p :: SenderOk(s, p))
  }

  /* ---- frames ---- */

  /** Only the view of id and the handler of w change, and they change well. */
  lemma Frame(c: Config, s: World, s': World, id: Id, w: WorkerId)
    requires Inv(c, s) && s'.now == s.now && s'.senders == s.senders && s'.db.keys == s.db.keys
    requires forall j :: j != id ==> ViewOf(s', j) == ViewOf(s, j)
    requires forall j :: KeyAt(s', j) == KeyAt(s, j)
    requires PayloadAt(s', id) == PayloadAt(s, id)
    requires forall v :: v != w ==> WorkerAt(s', v) == WorkerAt(s, v)
    requires IdOk(c, s.now, ViewOf(s', id))
    requires WorkerOk(c, s', w)
    requires forall v :: v != w && HandlerId(WorkerAt(s, v)) == id && HandlerOk(c, v, WorkerAt(s, v), ViewOf(s, id))
               ==> HandlerOk(c, v, WorkerAt(s, v), ViewOf(s', id))
    ensures Inv(c, s')
  {
    hide ViewOf, IdOk, HandlerOk, KeyAt, WorkerAt, SenderAt, HandlerId;
    forall j ensures IdOk(c, s'.now, ViewOf(s', j)) { assert IdOk(c, s.now, ViewOf(s, j)); }
    forall v ensures WorkerOk(c, s', v) {
      assert WorkerOk(c, s, v);
      assert v != w ==> WorkerAt(s', v) == WorkerAt(s, v);
    }
    SendersFrame(s, s');
  }

  lemma SendersFrame(s: World, s': World)
    requires s'.senders == s.senders
    requires forall j :: PayloadAt(s', j) == PayloadAt(s, j) || PayloadAt(s, j).None?
    requires forall p :: SenderOk(s, p)
    ensures forall p :: SenderOk(s', p)
  {
    hide PayloadAt;
    forall p ensures SenderOk(s', p) { assert SenderOk(s, p); }
  }

  /** The case where every other handler on id is indifferent to the change. */
  predicate Indifferent(v: View, v': View) {
    && v.tx.Some? && v'.tx.Some? && v'.payload == v.payload && v'.starts == v.starts
    && (v'.tx.value.status == PROCESSING ==>
          v.tx.value.status == PROCESSING && v'.tx.value.claimant == v.tx.value.claimant
          && v'.tx.value.timeline == v.tx.value.timeline)
    && (FailedJob(v) ==> FailedJob(v'))
  }

  lemma IndifferentKeeps(c: Config, w: WorkerId, h: Handler, v: View, v': View)
    requires Indifferent(v, v') && HandlerOk(c, w, h, v)
    ensures HandlerOk(c, w, h, v')
  {
  }

  lemma FrameIndifferent(c: Config, s: World, s': World, id: Id, w: WorkerId)
    requires Inv(c, s) && s'.now == s.now && s'.senders == s.senders && s'.db.keys == s.db.keys
    requires forall j :: j != id ==> ViewOf(s', j) == ViewOf(s, j)
    requires forall j :: KeyAt(s', j) == KeyAt(s, j)
    requires forall v :: v != w ==> WorkerAt(s', v) == WorkerAt(s, v)
    requires Indifferent(ViewOf(s, id), ViewOf(s', id))
    requires IdOk(c, s.now, ViewOf(s', id))
    requires WorkerOk(c, s', w)
    ensures Inv(c, s')
  {
    hide ViewOf, IdOk, HandlerOk, KeyAt, WorkerAt, SenderAt, HandlerId, WorkerOk, Inv;
    forall v | HandlerOk(c, v, WorkerAt(s, v), ViewOf(s, id)) ensures HandlerOk(c, v, WorkerAt(s, v), ViewOf(s', id)) {
      IndifferentKeeps(c, v, WorkerAt(s, v), ViewOf(s, id), ViewOf(s', id));
    }
    Frame(c, s, s', id, w);
  }

  /** Nothing but one handler changes. */
  lemma FrameWorker(c: Config, s: World, w: WorkerId, h: Handler)
    requires Inv(c, s)
    requires HandlerOk(c, w, h, ViewOf(s, HandlerId(h)))
    ensures Inv(c, SetWorker(s, w, h))
  {
    hide HandlerOk, IdOk;
    var s' := SetWorker(s, w, h);
    forall j ensures ViewOf(s', j) == ViewOf(s, j) && KeyAt(s', j) == KeyAt(s, j) {}
    forall j ensures IdOk(c, s'.now, ViewOf(s', j)) { assert IdOk(c, s.now, ViewOf(s, j)); }
    forall v ensures WorkerOk(c, s', v) { assert WorkerOk(c, s, v); }
    SendersFrame(s, s');
  }

  /** Events are rewritten without touching payloads, and one sender changes. */
  lemma FrameEvents(c: Config, s: World, s': World)
    requires Inv(c, s)
    requires s' == s.(db := s.db.(events := s'.db.events), senders := s'.senders)
    requires forall j :: PayloadAt(s', j) == PayloadAt(s, j)
    requires forall p :: SenderOk(s', p)
    ensures Inv(c, s')
  {
    hide HandlerOk, IdOk;
    forall j ensures ViewOf(s', j) == ViewOf(s, j) { assert PayloadAt(s', j) == PayloadAt(s, j); }
    forall j ensures IdOk(c, s'.now, ViewOf(s', j)) { assert IdOk(c, s.now, ViewOf(s, j)); }
    forall v ensures WorkerOk(c, s', v) { assert WorkerOk(c, s, v); }
    forall j ensures KeyAt(s', j) == KeyAt(s, j) {}
  }

  /* ---- preservation, step by step ---- */

  lemma PayKeeps(c: Config, s: World, id: Id, key: Option<Key>, hash: JString, payload: Json)
    requires ConfigOk(c) && Inv(c, s)
    ensures Inv(c, ApplyPay(c, s, id, key, hash, payload))
  {
    var s' := ApplyPay(c, s, id, key, hash, payload);
    var p := c.sanitize(c.sanitize(payload));
    assert IdOk(c, s.now, ViewOf(s, id));
    if Save(s.db, id, key, hash, p).1.Inserted? {
      PayInserts(c, s, id, key, hash, p);
      assert c.sanitize(p) == p;
      forall j ensures IdOk(c, s'.now, ViewOf(s', j)) {
        assert IdOk(c, s.now, ViewOf(s, j));
      }
      PayHandlers(c, s, s', id);
      SendersFrame(s, s');
      PayKeys(s, s', id, key);
    }
  }

  lemma PayInserts(c: Config, s: World, id: Id, key: Option<Key>, hash: JString, p: Json)
    requires ViewOf(s, id) == View(None, None, None, None, None) && Save(s.db, id, key, hash, p).1.Inserted?
    ensures var s' := s.(db := Save(s.db, id, key, hash, p).0, starts := s.starts[id := 0]);
            && ViewOf(s', id) == View(Some(NewTx(key, hash)), Some(p), Some(0), None, None)
            && (forall j :: j != id ==> ViewOf(s', j) == ViewOf(s, j))
            && KeyAt(s', id) == Some(key) && (forall j :: j != id ==> KeyAt(s', j) == KeyAt(s, j))
  {
  }

  lemma PayHandlers(c: Config, s: World, s': World, id: Id)
    requires s'.workers == s.workers && ViewOf(s, id).tx.None?
    requires forall j :: j != id ==> ViewOf(s', j) == ViewOf(s, j)
    requires forall w :: WorkerOk(c, s, w)
    ensures forall w :: WorkerOk(c, s', w)
  {
    hide ViewOf;
    forall w ensures WorkerOk(c, s', w) { assert WorkerOk(c, s, w); }
  }

  lemma PayKeys(s: World, s': World, id: Id, key: Option<Key>)
    requires KeysOk(s) && KeyAt(s, id).None? && KeyAt(s', id) == Some(key)
    requires forall j :: j != id ==> KeyAt(s', j) == KeyAt(s, j)
    requires key.Some? ==> key.value !in s.db.keys
    requires s'.db.keys == if key.Some? then s.db.keys[key.value := id] else s.db.keys
    ensures KeysOk(s')
  {
    hide KeyAt;
  }

  lemma ClaimOutboxKeeps(c: Config, s: World, p: SenderId, ids: seq<Id>, age: nat)
    requires Inv(c, s)
    ensures Inv(c, ApplyClaimOutbox(s, p, ids, age))
  {
    var s' := ApplyClaimOutbox(s, p, ids, age);
    if s' != s {
      forall q ensures SenderOk(s', q) { assert SenderOk(s, q); }
      FrameEvents(c, s, s');
    }
  }

  lemma RecoverOutboxKeeps(c: Config, s: World, p: SenderId)
    requires Inv(c, s)
    ensures Inv(c, ApplyRecoverOutbox(c, s, p))
  {
    var s' := ApplyRecoverOutbox(c, s, p);
    forall j ensures PayloadAt(s', j) == PayloadAt(s, j) {}
    SendersFrame(s, s');
    FrameEvents(c, s, s');
  }

  lemma MarkKeeps(c: Config, s: World, p: SenderId, e: Event)
    requires Inv(c, s)
    requires var x := SenderAt(s, p);
             x.batch != [] && x.batch[0].id in s.db.events && e.payload == s.db.events[x.batch[0].id].payload
    ensures Inv(c, SetSender(SetEvent(s, SenderAt(s, p).batch[0].id, e), p, Sender(SenderAt(s, p).batch[1..], Ready)))
  {
    var x := SenderAt(s, p);
    var s' := SetSender(SetEvent(s, x.batch[0].id, e), p, Sender(x.batch[1..], Ready));
    forall j ensures PayloadAt(s', j) == PayloadAt(s, j) {}
    assert SenderOk(s, p);
    forall q ensures SenderOk(s', q) { assert SenderOk(s, q); }
    FrameEvents(c, s, s');
  }

  lemma SenderKeeps(c: Config, s: World, p: SenderId, x: Sender)
    requires Inv(c, s) && (x.batch == SenderAt(s, p).batch || x.batch == [])
    ensures Inv(c, SetSender(s, p, x))
  {
    var s' := SetSender(s, p, x);
    forall j ensures PayloadAt(s', j) == PayloadAt(s, j) {}
    forall q ensures SenderOk(s', q) { assert SenderOk(s, q); }
    FrameEvents(c, s, s');
  }

  lemma AddJobKeeps(c: Config, s: World, item: Item)
    requires Inv(c, s) && PayloadAt(s, item.id) == Some(item.payload)
    ensures Inv(c, s.(queue := AddJob(s.queue, item)))
  {
    var s' := s.(queue := AddJob(s.queue, item));
    assert IdOk(c, s.now, ViewOf(s, item.id));
    assert WorkerOk(c, s, []);
    if item.id !in s.queue {
      OneView(s, s', item.id);
      AddedJobOk(c, s.now, ViewOf(s, item.id), Job(Waiting, 0, item.payload));
      assert HandlerId(WorkerAt(s, [])) == item.id ==> Indifferent(ViewOf(s, item.id), ViewOf(s', item.id));
      WorkerIndifferent(c, s, s', item.id, []);
      FrameIndifferent(c, s, s', item.id, []);
    } else {
      assert s' == s;
    }
  }

  lemma AddedJobOk(c: Config, now: nat, v: View, job: Job)
    requires IdOk(c, now, v) && v.payload == Some(job.data) && v.job.None? && job.state == Waiting
             && job.attemptsMade < ATTEMPTS
    ensures IdOk(c, now, v.(job := Some(job))) && Indifferent(v, v.(job := Some(job)))
  {
  }

  /** Tables and queue agree everywhere but at id. */
  lemma OneView(s: World, s': World, id: Id)
    requires forall j :: j != id ==> (Find(s'.db.txs, j) == Find(s.db.txs, j) && Find(s'.starts, j) == Find(s.starts, j)
               && Find(s'.queue, j) == Find(s.queue, j) && Find(s'.db.dead, j) == Find(s.db.dead, j))
    requires s'.db.events == s.db.events
    ensures forall j :: j != id ==> ViewOf(s', j) == ViewOf(s, j)
  {
    forall j | j != id ensures ViewOf(s', j) == ViewOf(s, j) {
      assert Find(s'.db.txs, j) == Find(s.db.txs, j);
    }
  }

  lemma WorkerIndifferent(c: Config, s: World, s': World, id: Id, w: WorkerId)
    requires WorkerOk(c, s, w) && WorkerAt(s', w) == WorkerAt(s, w)
    requires forall j :: j != id ==> ViewOf(s', j) == ViewOf(s, j)
    requires Indifferent(ViewOf(s, id), ViewOf(s', id))
    ensures WorkerOk(c, s', w)
  {
    hide ViewOf, HandlerOk, Indifferent;
    if HandlerId(WorkerAt(s, w)) == id {
      IndifferentKeeps(c, w, WorkerAt(s, w), ViewOf(s, id), ViewOf(s', id));
    }
  }

  lemma EnqueueKeeps(c: Config, s: World, p: SenderId, added: bool, next: Phase)
    requires Inv(c, s)
    ensures Inv(c, ApplyEnqueue(s, p, added, next))
  {
    hide IdOk, WorkerOk, KeysOk;
    var x := SenderAt(s, p);
    if x.batch != [] && x.phase == Ready {
      assert SenderOk(s, p);
      if added {
        AddJobKeeps(c, s, x.batch[0]);
        SenderKeeps(c, s.(queue := AddJob(s.queue, x.batch[0])), p, x.(phase := next));
      } else {
        SenderKeeps(c, s, p, x.(phase := next));
      }
    }
  }

  /** One job changes its state or leaves the queue without being or becoming a failed one. */
  lemma JobKeeps(c: Config, s: World, s': World, id: Id)
    requires Inv(c, s) && id in s.queue && s.queue[id].state != JobFailed
    requires s' == s.(queue := s'.queue)
    requires forall j :: j != id ==> Find(s'.queue, j) == Find(s.queue, j)
    requires id in s'.queue ==> (s'.queue[id].data == s.queue[id].data
               && s'.queue[id].attemptsMade == s.queue[id].attemptsMade && s'.queue[id].state != JobFailed)
    ensures Inv(c, s')
  {
    assert IdOk(c, s.now, ViewOf(s, id)) && WorkerOk(c, s, []);
    hide Inv, WorkerOk, KeysOk, SenderOk;
    OneView(s, s', id);
    WorkerIndifferent(c, s, s', id, []);
    FrameIndifferent(c, s, s', id, []);
  }

  lemma DeliverKeeps(c: Config, s: World, w: WorkerId, id: Id)
    requires Inv(c, s)
    ensures Inv(c, ApplyDeliver(s, w, id))
  {
    if WorkerAt(s, w) == Idle && id in s.queue && s.queue[id].state == Waiting {
      var mid := s.(queue := s.queue[id := s.queue[id].(state := Active(w))]);
      assert IdOk(c, s.now, ViewOf(s, id));
      hide Inv, IdOk;
      JobKeeps(c, s, mid, id);
      HeldData(c, s, id);
      FrameWorker(c, mid, w, Delivered(id, s.queue[id].data));
    }
  }

  lemma HeldData(c: Config, s: World, id: Id)
    requires IdOk(c, s.now, ViewOf(s, id)) && id in s.queue
    ensures id in s.db.txs && PayloadAt(s, id) == Some(s.queue[id].data)
  {
  }

  lemma ReadKeeps(c: Config, s: World, w: WorkerId)
    requires Inv(c, s)
    ensures Inv(c, ApplyRead(c, s, w))
  {
    assert WorkerOk(c, s, w);
    match WorkerAt(s, w) {
      case Delivered(id, data) =>
        assert IdOk(c, s.now, ViewOf(s, id));
        var h := if s.db.txs[id].status != ACCEPTED then Returned(id)
                 else Seen(id, c.sanitize(data), s.db.txs[id].timeline);
        FrameWorker(c, s, w, h);
      case _ =>
    }
  }

  lemma ReturnKeeps(c: Config, s: World, w: WorkerId)
    requires Inv(c, s)
    ensures Inv(c, ApplyReturn(s, w))
  {
    match WorkerAt(s, w) {
      case Returned(id) =>
        var mid := if Holds(s, w, id) then s.(queue := s.queue - {id}) else s;
        if Holds(s, w, id) { JobKeeps(c, s, mid, id); }
        FrameWorker(c, mid, w, Idle);
      case _ =>
    }
  }

  lemma StallKeeps(c: Config, s: World, id: Id)
    requires Inv(c, s)
    ensures Inv(c, ApplyStall(s, id))
  {
    if id in s.queue && s.queue[id].state.Active? { JobKeeps(c, s, ApplyStall(s, id), id); }
  }

  lemma OpenedAppend(t: seq<TxStatus>)
    requires Opened(t)
    ensures Opened(t + [PROCESSING])
    ensures |t| >= 2 ==> Closed(t + [DECLINED], 1, DECLINED)
    ensures |t| >= 2 ==> Closed(t + [PROCESSING] + [COMPLETED], 2, COMPLETED)
  {
    assert (t + [DECLINED])[..|t|] == t;
    assert (t + [PROCESSING] + [COMPLETED])[..|t| + 1] == t + [PROCESSING];
  }

  /** A new claim: the row is PROCESSING for w, and every other handler's epoch is past. */
  lemma StartLocal(c: Config, now: nat, w: WorkerId, h: Handler, v: View)
    requires IdOk(c, now, v) && h.Seen? && HandlerOk(c, w, h, v) && v.tx.value.status == ACCEPTED
    ensures var local := h.timeline + [PROCESSING]; var epoch := v.starts.value + 1;
            var r := StartTx(v.tx.value, w, Some(local), now, c.lease);
            var v' := v.(tx := r, starts := Some(epoch));
            && IdOk(c, now, v') && HandlerOk(c, w, Claimed(h.id, h.data, local, epoch), v')
            && forall u, g :: u != w && HandlerOk(c, u, g, v) ==> HandlerOk(c, u, g, v')
  {
    OpenedAppend(h.timeline);
  }

  lemma StartKeeps(c: Config, s: World, w: WorkerId)
    requires Inv(c, s)
    ensures Inv(c, ApplyStart(c, s, w))
  {
    var h, s' := WorkerAt(s, w), ApplyStart(c, s, w);
    if h.Seen? {
      assert WorkerOk(c, s, w) && IdOk(c, s.now, ViewOf(s, h.id));
      if s.db.txs[h.id].status == ACCEPTED {
        StartLocal(c, s.now, w, h, ViewOf(s, h.id));
        hide Inv, IdOk, HandlerOk;
        StartViews(c, s, w);
        Frame(c, s, s', h.id, w);
      } else {
        FrameWorker(c, s, w, Returned(h.id));
      }
    }
  }

  lemma StartViews(c: Config, s: World, w: WorkerId)
    requires WorkerAt(s, w).Seen? && WorkerAt(s, w).id in s.db.txs
    ensures var s', id := ApplyStart(c, s, w), WorkerAt(s, w).id;
            && (forall j :: j != id ==> ViewOf(s', j) == ViewOf(s, j))
            && (forall j :: KeyAt(s', j) == KeyAt(s, j))
            && (forall v :: v != w ==> WorkerAt(s', v) == WorkerAt(s, v))
            && s'.now == s.now && s'.senders == s.senders && s'.db.keys == s.db.keys
  {
    OneView(s, ApplyStart(c, s, w), WorkerAt(s, w).id);
  }

  lemma RenewKeeps(c: Config, s: World, w: WorkerId, id: Id)
    requires Inv(c, s)
    ensures Inv(c, ApplyRenew(c, s, w, id))
  {
    var s' := ApplyRenew(c, s, w, id);
    if id in s.db.txs && RenewTx(s.db.txs[id], w, s.now, c.lease).Some? {
      assert IdOk(c, s.now, ViewOf(s, id)) && WorkerOk(c, s, w);
      TxChange(c, s, s', id, w);
    }
  }

  /** One row is rewritten in a way other handlers do not notice, and w's handler stays or moves on. */
  lemma TxChange(c: Config, s: World, s': World, id: Id, w: WorkerId)
    requires Inv(c, s) && id in s.db.txs && id in s'.db.txs
    requires s' == s.(db := s.db.(txs := s.db.txs[id := s'.db.txs[id]]), workers := s'.workers)
    requires s'.db.txs[id].key == s.db.txs[id].key
    requires WorkerAt(s', w) == WorkerAt(s, w) || WorkerAt(s', w) == Idle || WorkerAt(s', w) == Returned(id)
    requires forall v :: v != w ==> WorkerAt(s', v) == WorkerAt(s, v)
    requires Indifferent(ViewOf(s, id), ViewOf(s', id))
    requires IdOk(c, s.now, ViewOf(s', id))
    ensures Inv(c, s')
  {
    assert WorkerOk(c, s, w);
    hide Inv, IdOk, KeysOk;
    OneView(s, s', id);
    if WorkerAt(s', w) == WorkerAt(s, w) { WorkerIndifferent(c, s, s', id, w); }
    FrameIndifferent(c, s, s', id, w);
  }

  lemma FinalizeLocal(c: Config, now: nat, w: WorkerId, h: Handler, v: View)
    requires IdOk(c, now, v) && h.Claimed? && HandlerOk(c, w, h, v) && !c.decide(h.data).Failed?
    requires FinalizeTx(v.tx.value, w, FinalUpdates(c.decide(h.data), h.timeline)).Some?
    ensures var v' := v.(tx := FinalizeTx(v.tx.value, w, FinalUpdates(c.decide(h.data), h.timeline)));
            IdOk(c, now, v') && Indifferent(v, v')
  {
    OpenedAppend(h.timeline);
  }

  lemma FinalizeKeeps(c: Config, s: World, w: WorkerId)
    requires Inv(c, s)
    ensures Inv(c, ApplyFinalize(c, s, w))
  {
    var h, s' := WorkerAt(s, w), ApplyFinalize(c, s, w);
    if h.Claimed? && !c.decide(h.data).Failed? {
      assert WorkerOk(c, s, w) && IdOk(c, s.now, ViewOf(s, h.id));
      if FinalizeTx(s.db.txs[h.id], w, FinalUpdates(c.decide(h.data), h.timeline)).Some? {
        FinalizeLocal(c, s.now, w, h, ViewOf(s, h.id));
        hide IdOk, Indifferent, Inv;
        TxChange(c, s, s', h.id, w);
      } else {
        FrameWorker(c, s, w, Returned(h.id));
      }
    }
  }

  lemma RetryLocal(c: Config, now: nat, v: View, reason: string)
    requires IdOk(c, now, v) && v.tx.Some? && !Final(v.tx.value.status) && v.job.Some?
    requires v.job.value.state != JobFailed && v.job.value.attemptsMade + 1 < ATTEMPTS
    ensures var n := v.job.value.attemptsMade + 1;
            var v' := v.(tx := Some(UpdateTx(v.tx.value, ResetUpdates(ACCEPTED, reason, n), true)),
                         job := Some(Job(Waiting, n, v.job.value.data)));
            IdOk(c, now, v') && Indifferent(v, v')
  {
  }

  lemma DeadLetterLocal(c: Config, now: nat, v: View)
    requires IdOk(c, now, v) && v.tx.Some? && v.job.Some? && v.job.value.state != JobFailed
    requires v.job.value.attemptsMade + 1 >= ATTEMPTS && c.decide(v.payload.value).Failed?
    ensures var n := v.job.value.attemptsMade + 1; var reason := c.decide(v.payload.value).reason;
            var v' := v.(job := Some(Job(JobFailed, n, v.job.value.data)),
                         dead := Some(DeadLetter(c.sanitize(v.job.value.data), reason, n)));
            n == ATTEMPTS && IdOk(c, now, v') && Indifferent(v, v') && FailedJob(v')
  {
  }

  /** An undecided row: nobody can have finalized a payload whose decision is a failure. */
  lemma FailingIsOpen(c: Config, now: nat, v: View)
    requires IdOk(c, now, v) && v.tx.Some? && c.decide(v.payload.value).Failed? && !FailedJob(v)
    ensures !Final(v.tx.value.status)
  {
  }

  lemma ThrowKeeps(c: Config, s: World, w: WorkerId)
    requires Inv(c, s)
    ensures Inv(c, ApplyThrow(c, s, w))
  {
    var h, s' := WorkerAt(s, w), ApplyThrow(c, s, w);
    if h.Claimed? && c.decide(h.data).Failed? {
      assert WorkerOk(c, s, w) && IdOk(c, s.now, ViewOf(s, h.id));
      var v := ViewOf(s, h.id);
      if !Holds(s, w, h.id) {
        FrameWorker(c, s, w, Idle);
      } else {
        HeldThrowKeeps(c, s, w);
      }
    }
  }

  lemma HeldThrowKeeps(c: Config, s: World, w: WorkerId)
    requires Inv(c, s) && WorkerAt(s, w).Claimed? && c.decide(WorkerAt(s, w).data).Failed?
             && Holds(s, w, WorkerAt(s, w).id)
    ensures Inv(c, ApplyThrow(c, s, w))
  {
    var h := WorkerAt(s, w);
    assert WorkerOk(c, s, w) && IdOk(c, s.now, ViewOf(s, h.id));
    var v := ViewOf(s, h.id);
    FailingIsOpen(c, s.now, v);
    if s.queue[h.id].attemptsMade + 1 < ATTEMPTS {
      RetryLocal(c, s.now, v, c.decide(h.data).reason);
    } else {
      DeadLetterLocal(c, s.now, v);
    }
    hide IdOk, Indifferent, Inv, KeysOk;
    ThrowViews(c, s, w);
    FrameIndifferent(c, s, ApplyThrow(c, s, w), h.id, w);
  }

  lemma ThrowViews(c: Config, s: World, w: WorkerId)
    requires WorkerAt(s, w).Claimed? && c.decide(WorkerAt(s, w).data).Failed? && Holds(s, w, WorkerAt(s, w).id)
    requires WorkerAt(s, w).id in s.db.txs
    ensures var s', id := ApplyThrow(c, s, w), WorkerAt(s, w).id;
            && (forall j :: j != id ==> ViewOf(s', j) == ViewOf(s, j))
            && (forall j :: KeyAt(s', j) == KeyAt(s, j))
            && (forall v :: v != w ==> WorkerAt(s', v) == WorkerAt(s, v))
            && s'.now == s.now && s'.senders == s.senders && s'.db.keys == s.db.keys
  {
    ThrowLeavesEvents(c, s, w);
    ThrowElsewhere(c, s, w);
    ThrowOthers(c, s, w);
    ThrowKeys(c, s, w);
    hide UpdateTx;
    OneView(s, ApplyThrow(c, s, w), WorkerAt(s, w).id);
    hide ApplyThrow, ViewOf;
  }

  lemma ThrowElsewhere(c: Config, s: World, w: WorkerId)
    requires WorkerAt(s, w).Claimed? && c.decide(WorkerAt(s, w).data).Failed? && Holds(s, w, WorkerAt(s, w).id)
    requires WorkerAt(s, w).id in s.db.txs
    ensures var s' := ApplyThrow(c, s, w);
            s'.starts == s.starts
            && forall j :: j != WorkerAt(s, w).id ==>
                 Find(s'.db.txs, j) == Find(s.db.txs, j) && Find(s'.queue, j) == Find(s.queue, j)
                 && Find(s'.db.dead, j) == Find(s.db.dead, j)
  {
    hide UpdateTx;
  }

  lemma ThrowOthers(c: Config, s: World, w: WorkerId)
    requires WorkerAt(s, w).Claimed? && c.decide(WorkerAt(s, w).data).Failed? && Holds(s, w, WorkerAt(s, w).id)
    requires WorkerAt(s, w).id in s.db.txs
    ensures var s' := ApplyThrow(c, s, w);
            s'.now == s.now && forall v :: v != w ==> WorkerAt(s', v) == WorkerAt(s, v)
  {
    hide UpdateTx;
  }

  lemma ThrowKeys(c: Config, s: World, w: WorkerId)
    requires WorkerAt(s, w).Claimed? && c.decide(WorkerAt(s, w).data).Failed? && Holds(s, w, WorkerAt(s, w).id)
    requires WorkerAt(s, w).id in s.db.txs
    ensures forall j :: KeyAt(ApplyThrow(c, s, w), j) == KeyAt(s, j)
  {
  }

  lemma MarkFailedKeeps(c: Config, s: World, w: WorkerId)
    requires Inv(c, s)
    ensures Inv(c, ApplyMarkFailed(s, w))
  {
    var h, s' := WorkerAt(s, w), ApplyMarkFailed(s, w);
    if h.DeadLettered? {
      assert WorkerOk(c, s, w) && IdOk(c, s.now, ViewOf(s, h.id));
      MarkFailedLocal(c, s.now, ViewOf(s, h.id), w, h);
      hide IdOk, Indifferent, Inv, KeysOk;
      TxChange(c, s, s', h.id, w);
    }
  }

  lemma MarkFailedLocal(c: Config, now: nat, v: View, w: WorkerId, h: Handler)
    requires IdOk(c, now, v) && h.DeadLettered? && HandlerOk(c, w, h, v)
    ensures var v' := v.(tx := Some(UpdateTx(v.tx.value, ResetUpdates(FAILED, h.reason, h.attempts), true)));
            IdOk(c, now, v') && Indifferent(v, v')
  {
  }

  lemma RecoverLocal(c: Config, now: nat, v: View)
    requires IdOk(c, now, v) && v.tx.Some?
    ensures var v' := v.(tx := Some(RecoverTx(v.tx.value, now, c.staleMs)));
            IdOk(c, now, v') && Indifferent(v, v')
  {
  }

  lemma RecoverLeasesKeeps(c: Config, s: World)
    requires Inv(c, s)
    ensures Inv(c, Apply(c, s, RecoverLeases))
  {
    var s' := Apply(c, s, RecoverLeases);
    forall j
      ensures PayloadAt(s', j) == PayloadAt(s, j) && KeyAt(s', j) == KeyAt(s, j)
      ensures IdOk(c, s'.now, ViewOf(s', j))
      ensures ViewOf(s, j).tx.None? ==> ViewOf(s', j) == ViewOf(s, j)
      ensures ViewOf(s, j).tx.Some? ==> Indifferent(ViewOf(s, j), ViewOf(s', j))
    {
      assert IdOk(c, s.now, ViewOf(s, j));
      RecoveredView(c, s, j);
      if j in s.db.txs { RecoverLocal(c, s.now, ViewOf(s, j)); }
    }
    hide IdOk, Indifferent, ViewOf, HandlerOk, KeyAt;
    forall w ensures WorkerOk(c, s', w) {
      assert WorkerOk(c, s, w);
      var j := HandlerId(WorkerAt(s, w));
      if ViewOf(s, j).tx.Some? { IndifferentKeeps(c, w, WorkerAt(s, w), ViewOf(s, j), ViewOf(s', j)); }
    }
    SendersFrame(s, s');
  }

  lemma RecoveredView(c: Config, s: World, j: Id)
    ensures var s' := Apply(c, s, RecoverLeases);
            && KeyAt(s', j) == KeyAt(s, j)
            && ViewOf(s', j)
               == if j in s.db.txs then ViewOf(s, j).(tx := Some(RecoverTx(s.db.txs[j], s.now, c.staleMs)))
                   else ViewOf(s, j)
  {
  }

  lemma TickKeeps(c: Config, s: World, d: nat)
    requires Inv(c, s)
    ensures Inv(c, Apply(c, s, Tick(d)))
  {
    var s' := Apply(c, s, Tick(d));
    forall j ensures ViewOf(s', j) == ViewOf(s, j) && KeyAt(s', j) == KeyAt(s, j) {}
    forall j ensures IdOk(c, s'.now, ViewOf(s', j)) { assert IdOk(c, s.now, ViewOf(s, j)); }
    hide IdOk, ViewOf, HandlerOk;
    forall w ensures WorkerOk(c, s', w) { assert WorkerOk(c, s, w); }
    SendersFrame(s, s');
  }

  lemma OutboxKeeps(c: Config, s: World, step: Step)
    requires Inv(c, s)
    requires step.MarkSent? || step.MarkPending? || step.MarkSentFails? || step.CrashSender?
    ensures Inv(c, Apply(c, s, step))
  {
    hide Inv;
    var x := SenderAt(s, step.p);
    match step {
      case MarkSent(p) =>
        if x.batch != [] && x.phase == Added && x.batch[0].id in s.db.events {
          MarkKeeps(c, s, p, SentEvent(s.db.events[x.batch[0].id]));
        }
      case MarkPending(p, error) =>
        if x.batch != [] && x.phase == Errored && x.batch[0].id in s.db.events {
          MarkKeeps(c, s, p, ReturnedEvent(s.db.events[x.batch[0].id], error));
        }
      case MarkSentFails(p) => SenderKeeps(c, s, p, x.(phase := Errored));
      case CrashSender(p) => SenderKeeps(c, s, p, Sender([], Ready));
    }
  }

  /** Every step keeps the invariant. */
  lemma StepKeeps(c: Config, s: World, step: Step)
    requires ConfigOk(c) && Inv(c, s)
    ensures Inv(c, Apply(c, s, step))
  {
    hide Inv, ConfigOk, ApplyPay, ApplyEnqueue, ApplyDeliver, ApplyRead, ApplyReturn, ApplyStart, ApplyRenew,
      ApplyFinalize, ApplyThrow, ApplyMarkFailed, ApplyStall, ApplyClaimOutbox, ApplyRecoverOutbox;
    match step {
      case Pay(id, key, hash, payload) => PayKeeps(c, s, id, key, hash, payload);
      case RecoverOutbox(p) => RecoverOutboxKeeps(c, s, p);
      case ClaimOutbox(p, ids, age) => ClaimOutboxKeeps(c, s, p, ids, age);
      case MarkSent(_) | MarkPending(_, _) | MarkSentFails(_) | CrashSender(_) => OutboxKeeps(c, s, step);
      case Enqueue(p) => EnqueueKeeps(c, s, p, true, Added);
      case EnqueueFails(p, added) => EnqueueKeeps(c, s, p, added, Errored);
      case Deliver(w, id) => DeliverKeeps(c, s, w, id);
      case Read(w) => ReadKeeps(c, s, w);
      case Return(w) => ReturnKeeps(c, s, w);
      case CrashWorker(w) => FrameWorker(c, s, w, Dead);
      case Start(w) => StartKeeps(c, s, w);
      case Renew(w, id) => RenewKeeps(c, s, w, id);
      case Finalize(w) => FinalizeKeeps(c, s, w);
      case Throw(w) => ThrowKeeps(c, s, w);
      case MarkFailed(w) => MarkFailedKeeps(c, s, w);
      case Stall(id) => StallKeeps(c, s, id);
      case RecoverLeases => RecoverLeasesKeeps(c, s);
      case Tick(d) => TickKeeps(c, s, d);
    }
  }

  lemma InitOk(c: Config)
    ensures Inv(c, Init())
  {
  }

  /** The invariant holds after every run. */
  lemma {:induction false} RunKeeps(c: Config, steps: seq<Step>)
    requires ConfigOk(c)
    ensures Inv(c, After(c, steps))
    decreases |steps|
  {
    if steps == [] {
      InitOk(c);
    } else {
      RunKeeps(c, steps[..|steps| - 1]);
      StepKeeps(c, After(c, steps[..|steps| - 1]), steps[|steps| - 1]);
    }
  }

  /* ---- what worker steps leave alone ---- */

  predicate WorkerStep(step: Step) {
    step.Start? || step.Throw? || step.Finalize? || step.MarkFailed? || step.Renew? || step.Read? || step.Return?
    || step.Deliver?
  }

  /** A worker step touches neither the outbox, nor the senders, nor the unique index. */
  predicate SameOutbox(s: World, s': World) {
    s'.db.events == s.db.events && s'.senders == s.senders && s'.db.keys == s.db.keys
  }

  lemma WorkersLeaveEvents(c: Config, s: World, step: Step)
    requires WorkerStep(step)
    ensures SameOutbox(s, Apply(c, s, step))
  {
    hide SameOutbox, ApplyThrow, ApplyFinalize, ApplyStart, ApplyRenew, ApplyMarkFailed;
    match step {
      case Throw(w) => ThrowLeavesEvents(c, s, w);
      case Finalize(w) => FinalizeLeavesEvents(c, s, w);
      case Start(w) => StartLeavesEvents(c, s, w);
      case Renew(w, id) => RenewLeavesEvents(c, s, w, id);
      case MarkFailed(w) => MarkFailedLeavesEvents(s, w);
      case _ => QuietLeavesEvents(c, s, step);
    }
  }

  lemma QuietLeavesEvents(c: Config, s: World, step: Step)
    requires step.Read? || step.Return? || step.Deliver?
    ensures SameOutbox(s, Apply(c, s, step))
  {
  }

  lemma ThrowLeavesEvents(c: Config, s: World, w: WorkerId)
    ensures SameOutbox(s, ApplyThrow(c, s, w))
  {
    hide UpdateTx;
  }

  lemma FinalizeLeavesEvents(c: Config, s: World, w: WorkerId)
    ensures SameOutbox(s, ApplyFinalize(c, s, w))
  {
    hide FinalizeTx, FinalUpdates;
  }

  lemma StartLeavesEvents(c: Config, s: World, w: WorkerId)
    ensures SameOutbox(s, ApplyStart(c, s, w))
  {
    hide StartTx;
  }

  lemma RenewLeavesEvents(c: Config, s: World, w: WorkerId, id: Id)
    ensures SameOutbox(s, ApplyRenew(c, s, w, id))
  {
    hide RenewTx;
  }

  lemma MarkFailedLeavesEvents(s: World, w: WorkerId)
    ensures SameOutbox(s, ApplyMarkFailed(s, w))
  {
    hide UpdateTx;
  }

  /* ---- handlers move by their own worker's steps ---- */

  /** The worker whose handler a step may move. */
  function Mover(step: Step): Option<WorkerId> {
    match step
    case Deliver(w, _) => Some(w)
    case Read(w) => Some(w)
    case Start(w) => Some(w)
    case Finalize(w) => Some(w)
    case Throw(w) => Some(w)
    case MarkFailed(w) => Some(w)
    case Return(w) => Some(w)
    case CrashWorker(w) => Some(w)
    case _ => None
  }

  lemma OthersStay(c: Config, s: World, step: Step, u: WorkerId)
    requires Mover(step) != Some(u)
    ensures WorkerAt(Apply(c, s, step), u) == WorkerAt(s, u)
  {
    hide ApplyThrow, ApplyFinalize, ApplyStart, ApplyRenew, ApplyMarkFailed, ApplyRead, ApplyDeliver, ApplyReturn;
    match step {
      case Throw(w) => ThrowStays(c, s, w, u);
      case Finalize(w) => FinalizeStays(c, s, w, u);
      case Start(w) => StartStays(c, s, w, u);
      case Renew(w, id) => RenewStays(c, s, w, id, u);
      case MarkFailed(w) => MarkFailedStays(s, w, u);
      case Read(_) | Deliver(_, _) | Return(_) => QuietStays(c, s, step, u);
      case _ => AsideStays(c, s, step, u);
    }
  }

  lemma AsideStays(c: Config, s: World, step: Step, u: WorkerId)
    requires !WorkerStep(step) && Mover(step) != Some(u)
    ensures WorkerAt(Apply(c, s, step), u) == WorkerAt(s, u)
  {
  }

  lemma QuietStays(c: Config, s: World, step: Step, u: WorkerId)
    requires (step.Read? || step.Return? || step.Deliver?) && step.w != u
    ensures WorkerAt(Apply(c, s, step), u) == WorkerAt(s, u)
  {
  }

  lemma ThrowStays(c: Config, s: World, w: WorkerId, u: WorkerId)
    requires u != w
    ensures WorkerAt(ApplyThrow(c, s, w), u) == WorkerAt(s, u)
  {
    hide UpdateTx;
  }

  lemma FinalizeStays(c: Config, s: World, w: WorkerId, u: WorkerId)
    requires u != w
    ensures WorkerAt(ApplyFinalize(c, s, w), u) == WorkerAt(s, u)
  {
    hide FinalizeTx, FinalUpdates;
  }

  lemma StartStays(c: Config, s: World, w: WorkerId, u: WorkerId)
    requires u != w
    ensures WorkerAt(ApplyStart(c, s, w), u) == WorkerAt(s, u)
  {
    hide StartTx;
  }

  lemma RenewStays(c: Config, s: World, w: WorkerId, id: Id, u: WorkerId)
    ensures WorkerAt(ApplyRenew(c, s, w, id), u) == WorkerAt(s, u)
  {
    hide RenewTx;
  }

  lemma MarkFailedStays(s: World, w: WorkerId, u: WorkerId)
    requires u != w
    ensures WorkerAt(ApplyMarkFailed(s, w), u) == WorkerAt(s, u)
  {
    hide UpdateTx;
  }

  /** What a worker's own step makes of its handler. */
  predicate Moves(c: Config, s: World, step: Step, h: Handler, h': Handler)
    requires Mover(step).Some?
  {
    h' == h
    || match step
       case Deliver(w, id) =>
         h.Idle? && id in s.queue && s.queue[id].state == Waiting && h' == Delivered(id, s.queue[id].data)
       case Read(_) => h.Delivered? && (h' == Returned(h.id) || (h'.Seen? && h'.id == h.id))
       case Start(_) => h.Seen? && (h' == Returned(h.id) || (h'.Claimed? && h'.id == h.id && h'.data == h.data))
       case Finalize(_) => h.Claimed? && !c.decide(h.data).Failed? && h' == Returned(h.id)
       case Throw(w) =>
         h.Claimed? && c.decide(h.data).Failed?
         && (h'.Idle? || (h'.DeadLettered? && h'.id == h.id && Holds(s, w, h.id)))
       case MarkFailed(_) => h.DeadLettered? && h'.Idle?
       case Return(_) => h.Returned? && h'.Idle?
       case _ => h'.Dead?
  }

  lemma OwnMove(c: Config, s: World, step: Step)
    requires Mover(step).Some?
    ensures Moves(c, s, step, WorkerAt(s, Mover(step).value), WorkerAt(Apply(c, s, step), Mover(step).value))
  {
    hide ApplyThrow, ApplyFinalize, ApplyStart, ApplyMarkFailed, ApplyRead;
    match step {
      case Throw(w) => ThrowMoves(c, s, w);
      case Finalize(w) => FinalizeMoves(c, s, w);
      case Start(w) => StartMoves(c, s, w);
      case MarkFailed(w) => MarkFailedMoves(c, s, w);
      case Read(w) => ReadMoves(c, s, w);
      case _ =>
    }
  }

  lemma ThrowMoves(c: Config, s: World, w: WorkerId)
    ensures Moves(c, s, Throw(w), WorkerAt(s, w), WorkerAt(ApplyThrow(c, s, w), w))
  {
    hide UpdateTx;
  }

  lemma FinalizeMoves(c: Config, s: World, w: WorkerId)
    ensures Moves(c, s, Finalize(w), WorkerAt(s, w), WorkerAt(ApplyFinalize(c, s, w), w))
  {
    hide FinalizeTx, FinalUpdates;
  }

  lemma StartMoves(c: Config, s: World, w: WorkerId)
    ensures Moves(c, s, Start(w), WorkerAt(s, w), WorkerAt(ApplyStart(c, s, w), w))
  {
    hide StartTx;
  }

  lemma MarkFailedMoves(c: Config, s: World, w: WorkerId)
    ensures Moves(c, s, MarkFailed(w), WorkerAt(s, w), WorkerAt(ApplyMarkFailed(s, w), w))
  {
    hide UpdateTx;
  }

  lemma ReadMoves(c: Config, s: World, w: WorkerId)
    ensures Moves(c, s, Read(w), WorkerAt(s, w), WorkerAt(ApplyRead(c, s, w), w))
  {
  }
}
