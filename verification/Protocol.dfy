/**
 * The payment lifecycle as a state machine over the database, the job queue, the worker processes
 * and the outbox senders.  Apply gives the effect of one atomic step; a step whose guard fails
 * changes nothing, so every sequence of steps is a run.
 *
 * Failure model: a worker's SQL statement takes effect and returns, or is not part of the run; the
 * failed callback's retry reset, and its dead-letter save, are atomic with the queue's own
 * transition; a job is never failed for stalling.  Workers may stall and crash anywhere, senders
 * may crash anywhere and may fail to enqueue with or without effect.
 */
module Protocol {
  import opened Wrappers
  import opened Json
  import opened Tables
  import D = Decisions

  const ATTEMPTS := 3
  const CLAIM_LIMIT := 10

  /** Everything the protocol is parametric in. */
  datatype Config = Config(
    sanitize: Json -> Json, decide: Json -> D.Decision,
    lease: nat, staleMs: nat, outboxStaleMs: nat, maxRecoveries: nat)

  datatype JobState = Waiting | Active(w: WorkerId) | JobFailed

  datatype Job = Job(state: JobState, attemptsMade: nat, data: Json)

  /** Where a worker process is in handling a job; epoch numbers the successful claims of a row. */
  datatype Handler =
    | Idle
    | Delivered(id: Id, data: Json)
    | Seen(id: Id, data: Json, timeline: seq<TxStatus>)
    | Claimed(id: Id, data: Json, timeline: seq<TxStatus>, epoch: nat)
    | DeadLettered(id: Id, reason: string, attempts: nat, epoch: nat)
    | Returned(id: Id)
    | Dead

  datatype Phase = Ready | Added | Errored

  datatype Item = Item(id: Id, payload: Json)

  /** The claimed events an outbox process has yet to mark, first one in progress. */
  datatype Sender = Sender(batch: seq<Item>, phase: Phase)

  datatype World = World(
    now: nat, db: Db, queue: map<Id, Job>, workers: map<WorkerId, Handler>, senders: map<SenderId, Sender>,
    starts: map<Id, nat>)

  datatype Step =
    | Pay(id: Id, key: Option<Key>, hash: JString, payload: Json)
    | RecoverOutbox(p: SenderId)
    | ClaimOutbox(p: SenderId, ids: seq<Id>, age: nat)
    | Enqueue(p: SenderId)
    | EnqueueFails(p: SenderId, added: bool)
    | MarkSent(p: SenderId)
    | MarkSentFails(p: SenderId)
    | MarkPending(p: SenderId, error: string)
    | CrashSender(p: SenderId)
    | Deliver(w: WorkerId, id: Id)
    | Read(w: WorkerId)
    | Start(w: WorkerId)
    | Renew(w: WorkerId, id: Id)
    | Finalize(w: WorkerId)
    | Throw(w: WorkerId)
    | MarkFailed(w: WorkerId)
    | Return(w: WorkerId)
    | Stall(id: Id)
    | CrashWorker(w: WorkerId)
    | RecoverLeases
    | Tick(d: nat)

  function Init(): World { World(0, Db(map[], map[], map[], map[]), map[], map[], map[], map[]) }

  function WorkerAt(s: World, w: WorkerId): Handler { if w in s.workers then s.workers[w] else Idle }

  function SenderAt(s: World, p: SenderId): Sender { if p in s.senders then s.senders[p] else Sender([], Ready) }

  /** The queue still counts w as the holder of the job. */
  predicate Holds(s: World, w: WorkerId, id: Id) { id in s.queue && s.queue[id].state == Active(w) }

  function SetWorker(s: World, w: WorkerId, h: Handler): World { s.(workers := s.workers[w := h]) }

  function SetSender(s: World, p: SenderId, x: Sender): World { s.(senders := s.senders[p := x]) }

  function SetTx(s: World, id: Id, r: Tx): World { s.(db := s.db.(txs := s.db.txs[id := r])) }

  function SetEvent(s: World, id: Id, e: Event): World { s.(db := s.db.(events := s.db.events[id := e])) }

  /* ---- the API ---- */

  function ApplyPay(c: Config, s: World, id: Id, key: Option<Key>, hash: JString, payload: Json): World {
    var (db, outcome) := Save(s.db, id, key, hash, c.sanitize(c.sanitize(payload)));
    if outcome.Inserted? then s.(db := db, starts := s.starts[id := 0]) else s.(db := db)
  }

  /** The answer /pay gives: what saveTransactionWithOutbox returned. */
  function PayAnswer(c: Config, s: World, id: Id, key: Option<Key>, hash: JString, payload: Json): SaveResult {
    Save(s.db, id, key, hash, c.sanitize(c.sanitize(payload))).1
  }

  /* ---- outbox senders ---- */

  function ApplyRecoverOutbox(c: Config, s: World, p: SenderId): World {
    if SenderAt(s, p).batch != [] then s
    else s.(db := s.db.(events := RecoverEvents(s.db.events, s.now, c.outboxStaleMs, c.maxRecoveries)))
  }

  /** The rows a claim may return: distinct pending events, at most the limit. */
  predicate Claimable(s: World, ids: seq<Id>) {
    |ids| <= CLAIM_LIMIT && Distinct(ids)
    && forall i :: 0 <= i < |ids| ==> ids[i] in s.db.events && s.db.events[ids[i]].status == PENDING
  }

  /** What a claim hands out for the given events. */
  function ItemsOf(ids: seq<Id>, events: map<Id, Event>): (items: seq<Item>)
    requires forall x :: x in ids ==> x in events
    ensures |items| == |ids|
    ensures forall i :: 0 <= i < |ids| ==> items[i] == Item(ids[i], events[ids[i]].payload)
  {
    seq(|ids|, i requires 0 <= i < |ids| => Item(ids[i], events[ids[i]].payload))
  }

  /** A claim commits age after its transaction began, and is stamped with the beginning. */
  function ClaimTime(s: World, age: nat): nat { if age <= s.now then s.now - age else 0 }

  function ApplyClaimOutbox(s: World, p: SenderId, ids: seq<Id>, age: nat): World {
    if SenderAt(s, p).batch != [] || !Claimable(s, ids) then s
    else
      var claimed := s.(db := s.db.(events := Tables.ClaimEvents(s.db.events, ids, p, ClaimTime(s, age))));
      SetSender(claimed, p, Sender(ItemsOf(ids, s.db.events), Ready))
  }

  /** transactionQueue.add with a jobId: a job that is already there stays as it is. */
  function AddJob(queue: map<Id, Job>, item: Item): map<Id, Job> {
    if item.id in queue then queue else queue[item.id := Job(Waiting, 0, item.payload)]
  }

  function ApplyEnqueue(s: World, p: SenderId, added: bool, next: Phase): World {
    var x := SenderAt(s, p);
    if x.batch == [] || x.phase != Ready then s
    else SetSender(s.(queue := if added then AddJob(s.queue, x.batch[0]) else s.queue), p, x.(phase := next))
  }

  function ApplyMarkSent(s: World, p: SenderId): World {
    var x := SenderAt(s, p);
    if x.batch == [] || x.phase != Added || x.batch[0].id !in s.db.events then s
    else
      var id := x.batch[0].id;
      SetSender(SetEvent(s, id, SentEvent(s.db.events[id])), p, Sender(x.batch[1..], Ready))
  }

  function ApplyMarkSentFails(s: World, p: SenderId): World {
    var x := SenderAt(s, p);
    if x.batch == [] || x.phase != Added then s else SetSender(s, p, x.(phase := Errored))
  }

  function ApplyMarkPending(s: World, p: SenderId, error: string): World {
    var x := SenderAt(s, p);
    if x.batch == [] || x.phase != Errored || x.batch[0].id !in s.db.events then s
    else
      var id := x.batch[0].id;
      SetSender(SetEvent(s, id, ReturnedEvent(s.db.events[id], error)), p, Sender(x.batch[1..], Ready))
  }

  /* ---- workers ---- */

  function ApplyDeliver(s: World, w: WorkerId, id: Id): World {
    if WorkerAt(s, w) != Idle || id !in s.queue || s.queue[id].state != Waiting then s
    else SetWorker(s.(queue := s.queue[id := s.queue[id].(state := Active(w))]), w, Delivered(id, s.queue[id].data))
  }

  /** getTransaction and the skip rules. */
  function ApplyRead(c: Config, s: World, w: WorkerId): World {
    match WorkerAt(s, w)
    case Delivered(id, data) =>
      if id !in s.db.txs then s
      else if s.db.txs[id].status != ACCEPTED then SetWorker(s, w, Returned(id))
      else SetWorker(s, w, Seen(id, c.sanitize(data), s.db.txs[id].timeline))
    case _ => s
  }

  function ApplyStart(c: Config, s: World, w: WorkerId): World {
    match WorkerAt(s, w)
    case Seen(id, data, timeline) =>
      if id !in s.db.txs || id !in s.starts then s
      else
        var local := timeline + [PROCESSING];
        (match StartTx(s.db.txs[id], w, Some(local), s.now, c.lease)
         case None => SetWorker(s, w, Returned(id))
         case Some(r) =>
           var epoch := s.starts[id] + 1;
           SetWorker(SetTx(s, id, r), w, Claimed(id, data, local, epoch)).(starts := s.starts[id := epoch]))
    case _ => s
  }

  /** A heartbeat may land at any time: clearInterval does not call back a query under way. */
  function ApplyRenew(c: Config, s: World, w: WorkerId, id: Id): World {
    if id !in s.db.txs then s
    else match RenewTx(s.db.txs[id], w, s.now, c.lease)
      case None => s
      case Some(r) => SetTx(s, id, r)
  }

  /** What processClaimedTransaction passes to finalize for a decision. */
  function FinalUpdates(d: D.Decision, timeline: seq<TxStatus>): Updates
    requires !d.Failed?
  {
    match d
    case Completed(route, result) =>
      Updates(Some(COMPLETED), None, Some(1), Some(route), None, Some(result),
              Some(timeline + [PROCESSING] + [COMPLETED]))
    case Declined(via, reason) =>
      Updates(Some(DECLINED), None, Some(1), via, Some(reason), None, Some(timeline + [DECLINED]))
  }

  function ApplyFinalize(c: Config, s: World, w: WorkerId): World {
    match WorkerAt(s, w)
    case Claimed(id, data, timeline, _) =>
      if id !in s.db.txs || c.decide(data).Failed? then s
      else
        (match FinalizeTx(s.db.txs[id], w, FinalUpdates(c.decide(data), timeline))
         case None => SetWorker(s, w, Returned(id))
         case Some(r) => SetWorker(SetTx(s, id, r), w, Returned(id)))
    case _ => s
  }

  function ResetUpdates(status: TxStatus, reason: string, attempts: nat): Updates {
    Updates(Some(status), Some(attempts), None, None, Some(reason), None, None)
  }

  /**
   * The handler throws for a processor failure.  While the worker holds the job, the queue counts
   * an attempt and the failed callback resets the row, or after the last attempt saves a dead
   * letter; a worker that lost the job is not heard.
   */
  function ApplyThrow(c: Config, s: World, w: WorkerId): World {
    match WorkerAt(s, w)
    case Claimed(id, data, _, epoch) =>
      if id !in s.db.txs || !c.decide(data).Failed? then s
      else if !Holds(s, w, id) then SetWorker(s, w, Idle)
      else
        var job, reason := s.queue[id], c.decide(data).reason;
        var attempts := job.attemptsMade + 1;
        if attempts < ATTEMPTS then
          SetWorker(SetTx(s, id, UpdateTx(s.db.txs[id], ResetUpdates(ACCEPTED, reason, attempts), true)), w, Idle)
          .(queue := s.queue[id := Job(Waiting, attempts, job.data)])
        else
          SetWorker(s, w, DeadLettered(id, reason, attempts, epoch))
          .(queue := s.queue[id := Job(JobFailed, attempts, job.data)],
            db := s.db.(dead := s.db.dead[id := DeadLetter(c.sanitize(job.data), reason, attempts)]))
    case _ => s
  }

  function ApplyMarkFailed(s: World, w: WorkerId): World {
    match WorkerAt(s, w)
    case DeadLettered(id, reason, attempts, _) =>
      if id !in s.db.txs then s
      else SetWorker(SetTx(s, id, UpdateTx(s.db.txs[id], ResetUpdates(FAILED, reason, attempts), true)), w, Idle)
    case _ => s
  }

  /** The handler returned: a job still held completes and is removed. */
  function ApplyReturn(s: World, w: WorkerId): World {
    match WorkerAt(s, w)
    case Returned(id) =>
      SetWorker(if Holds(s, w, id) then s.(queue := s.queue - {id}) else s, w, Idle)
    case _ => s
  }

  function ApplyStall(s: World, id: Id): World {
    if id in s.queue && s.queue[id].state.Active? then s.(queue := s.queue[id := s.queue[id].(state := Waiting)]) else s
  }

  function Apply(c: Config, s: World, step: Step): World {
    match step
    case Pay(id, key, hash, payload) => ApplyPay(c, s, id, key, hash, payload)
    case RecoverOutbox(p) => ApplyRecoverOutbox(c, s, p)
    case ClaimOutbox(p, ids, age) => ApplyClaimOutbox(s, p, ids, age)
    case Enqueue(p) => ApplyEnqueue(s, p, true, Added)
    case EnqueueFails(p, added) => ApplyEnqueue(s, p, added, Errored)
    case MarkSent(p) => ApplyMarkSent(s, p)
    case MarkSentFails(p) => ApplyMarkSentFails(s, p)
    case MarkPending(p, error) => ApplyMarkPending(s, p, error)
    case CrashSender(p) => SetSender(s, p, Sender([], Ready))
    case Deliver(w, id) => ApplyDeliver(s, w, id)
    case Read(w) => ApplyRead(c, s, w)
    case Start(w) => ApplyStart(c, s, w)
    case Renew(w, id) => ApplyRenew(c, s, w, id)
    case Finalize(w) => ApplyFinalize(c, s, w)
    case Throw(w) => ApplyThrow(c, s, w)
    case MarkFailed(w) => ApplyMarkFailed(s, w)
    case Return(w) => ApplyReturn(s, w)
    case Stall(id) => ApplyStall(s, id)
    case CrashWorker(w) => SetWorker(s, w, Dead)
    case RecoverLeases => s.(db := s.db.(txs := RecoverTxs(s.db.txs, s.now, c.staleMs)))
    case Tick(d) => s.(now := s.now + d)
  }

  /** The state after a run. */
  function Run(c: Config, s: World, steps: seq<Step>): World
    decreases |steps|
  {
    if steps == [] then s else Apply(c, Run(c, s, steps[..|steps| - 1]), steps[|steps| - 1])
  }

  function After(c: Config, steps: seq<Step>): World { Run(c, Init(), steps) }
}
