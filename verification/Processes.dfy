/**
 * outbox/outboxProcessor.js as code over the database and the queue.  The interval timer's callback
 * is cut into pieces: it fires (recovery and claim), handles one event after the other (enqueue and
 * mark), and finishes; other processes, and further ticks of the timer, may come in between.  Each
 * piece changes the tables and the queue exactly as its protocol steps do.  A piece may hold two
 * awaits; Protocol has a step for each of them and lets the others in there too.
 */
module Processes {
  import opened Wrappers
  import opened Json
  import opened Tables
  import opened Protocol
  import opened Store
  import opened Runs

  class JobQueue {
    var jobs: map<Id, Job>

    /** Adding a job id that is already there changes nothing. */
    method Add(id: Id, data: Json)
      modifies this
      ensures jobs == AddJob(old(jobs), Item(id, data))
    {
      if id !in jobs { jobs := jobs[id := Job(Waiting, 0, data)]; }
    }
  }

  /* ---- the outbox processor ---- */

  /** What the queue and the completion update answer for one event. */
  datatype Reply = Accepted | AddFails(added: bool, addError: string) | MarkFails(markError: string)

  function Handled(p: SenderId, reply: Reply): seq<Step> {
    match reply
    case Accepted => [Enqueue(p), Protocol.Step.MarkSent(p)]
    case AddFails(added, error) => [EnqueueFails(p, added), Protocol.Step.MarkPending(p, error)]
    case MarkFails(error) => [Enqueue(p), MarkSentFails(p), Protocol.Step.MarkPending(p, error)]
  }

  function Script(p: SenderId, replies: seq<Reply>): seq<Step>
    decreases |replies|
  {
    if replies == [] then []
    else Script(p, replies[..|replies| - 1]) + Handled(p, replies[|replies| - 1])
  }

  /** The event after its reply. */
  function Marked(e: Event, reply: Reply): Event {
    match reply
    case Accepted => SentEvent(e)
    case AddFails(_, error) => ReturnedEvent(e, error)
    case MarkFails(error) => ReturnedEvent(e, error)
  }

  function Queued(queue: map<Id, Job>, item: Item, reply: Reply): map<Id, Job> {
    if reply.AddFails? && !reply.added then queue else AddJob(queue, item)
  }

  lemma HandledEffect(c: Config, s: World, p: SenderId, reply: Reply)
    requires SenderAt(s, p).batch != [] && SenderAt(s, p).phase == Ready && SenderAt(s, p).batch[0].id in s.db.events
    ensures var item, s' := SenderAt(s, p).batch[0], Run(c, s, Handled(p, reply));
            s'.db == s.db.(events := s.db.events[item.id := Marked(s.db.events[item.id], reply)])
            && s'.queue == Queued(s.queue, item, reply)
            && SenderAt(s', p) == Sender(SenderAt(s, p).batch[1..], Ready) && s'.now == s.now
  {
    match reply {
      case Accepted => RunTwo(c, s, Enqueue(p), Protocol.Step.MarkSent(p));
      case AddFails(added, error) => RunTwo(c, s, EnqueueFails(p, added), Protocol.Step.MarkPending(p, error));
      case MarkFails(error) => RunThree(c, s, Enqueue(p), MarkSentFails(p), Protocol.Step.MarkPending(p, error));
    }
    hide Run, AddJob, SentEvent, ReturnedEvent;
  }

  lemma BeginEffect(c: Config, s: World, p: SenderId, order: seq<Id>)
    requires Distinct(order) && SenderAt(s, p).batch == []
    ensures var recovered := RecoverEvents(s.db.events, s.now, c.outboxStaleMs, c.maxRecoveries);
            var ids := FirstPending(order, recovered, CLAIM_LIMIT);
            var events := ClaimEvents(recovered, ids, p, s.now);
            var s' := Run(c, s, [RecoverOutbox(p), ClaimOutbox(p, ids, 0)]);
            s'.db == s.db.(events := events) && s'.queue == s.queue && s'.now == s.now
            && (forall x :: x in ids ==> x in events)
            && SenderAt(s', p) == Sender(ItemsOf(ids, events), Ready)
            && ids == Selection(c, order, s) && |ids| <= 10 && s' == Run(c, s, Opening(c, p, order, s))
  {
    var recovered := RecoverEvents(s.db.events, s.now, c.outboxStaleMs, c.maxRecoveries);
    var ids := FirstPending(order, recovered, CLAIM_LIMIT);
    FirstPendingOk(order, recovered, CLAIM_LIMIT);
    RunTwo(c, s, RecoverOutbox(p), ClaimOutbox(p, ids, 0));
    var t := Apply(c, s, RecoverOutbox(p));
    assert t.db == s.db.(events := recovered);
    hide RecoverEvents, FirstPending, Run;
    ClaimEffect(c, t, p, ids);
  }

  lemma ClaimEffect(c: Config, s: World, p: SenderId, ids: seq<Id>)
    requires Distinct(ids) && SenderAt(s, p).batch == [] && |ids| <= CLAIM_LIMIT
    requires forall x :: x in ids ==> x in s.db.events && s.db.events[x].status == PENDING
    ensures var events := ClaimEvents(s.db.events, ids, p, s.now);
            var s' := Apply(c, s, ClaimOutbox(p, ids, 0));
            s'.db == s.db.(events := events) && s'.queue == s.queue && s'.now == s.now
            && (forall x :: x in ids ==> x in events)
            && SenderAt(s', p) == Sender(ItemsOf(ids, events), Ready)
  {
    assert Claimable(s, ids);
    var events := ClaimEvents(s.db.events, ids, p, s.now);
    assert ItemsOf(ids, s.db.events) == ItemsOf(ids, events);
  }

  /** A claim takes ten events, or leaves none pending. */
  lemma NothingLeft(order: seq<Id>, events: map<Id, Event>, p: SenderId, now: nat)
    requires Distinct(order) && forall x :: x in order ==> x in events
    ensures var ids := FirstPending(order, events, CLAIM_LIMIT);
            |ids| <= 10
            && (|ids| == 10 || forall x :: x in order ==> ClaimEvents(events, ids, p, now)[x].status != PENDING)
  {
    PendingsOk(order, events);
    FirstPendingIsBeginning(order, events, CLAIM_LIMIT);
    hide Distinct, Pendings, FirstPending;
  }

  class OutboxProcessor {
    const store: Database
    const queue: JobQueue
    const id: SenderId
    var running: bool
    var batch: seq<Item>  // the claimed events the pass under way has not come to

    /** The flag guards the batch: while no pass is under way, nothing is left to mark. */
    ghost predicate Valid() reads this { !running ==> batch == [] }

    /** The world as this process sees it; its sender is in no state but the batch. */
    ghost predicate Shows(s: World) reads this, store, queue {
      s.db == store.Contents() && s.queue == queue.jobs && s.now == store.now && SenderAt(s, id) == Sender(batch, Ready)
      && forall k :: 0 <= k < |batch| ==> batch[k].id in store.events
    }

    constructor (store: Database, queue: JobQueue, id: SenderId)
      ensures Valid() && !running && this.store == store && this.queue == queue && this.id == id
    {
      this.store, this.queue, this.id := store, queue, id;
      running, batch := false, [];
    }

    /** A pass begins: recovery and the claim. */
    method Begin(c: Config, ghost s: World)
      requires Valid() && store.Valid() && Shows(s) && !running
      modifies this`running, this`batch, store`events
      ensures Valid() && store.Valid() && running
      ensures SenderAt(s, id).batch == [] && |batch| == |Selection(c, store.order, s)| && |batch| <= 10
      ensures Shows(Run(c, s, Opening(c, id, store.order, s)))
    {
      BeginEffect(c, s, id, store.order);
      hide Distinct, Run, FirstPending, RecoverEvents, ClaimEvents, Opening, Selection;
      running := true;
      var _ := store.RecoverStaleOutboxEvents(c.outboxStaleMs, c.maxRecoveries);
      var ids := store.ClaimOutboxEvents(CLAIM_LIMIT, id);
      batch := ItemsOf(ids, store.events);
    }

    /**
     * The timer ticks.  If a pass is running, nothing happens; otherwise a pass starts with recovery
     * and the claim, which the protocol allows because the guard leaves no batch behind.
     */
    method Fire(c: Config, ghost s: World) returns (started: bool, ghost steps: seq<Step>)
      requires Valid() && store.Valid() && Shows(s)
      modifies this`running, this`batch, store`events
      ensures Valid() && store.Valid() && running && started == !old(running)
      ensures steps == if started then Opening(c, id, store.order, s) else []
      ensures started ==> SenderAt(s, id).batch == [] && |batch| == |Selection(c, store.order, s)| && |batch| <= 10
      ensures Shows(Run(c, s, steps))
    {
      assert Run(c, s, []) == s;
      hide Run, Opening, Selection, Distinct;
      steps := [];
      started := !running;
      if started {
        Begin(c, s);
        steps := Opening(c, id, store.order, s);
      }
    }

    /** One event of the pass: enqueue, then mark. */
    method Handle(item: Item, reply: Reply)
      requires store.Valid() && item.id in store.events
      modifies store`events, queue
      ensures store.Valid()
      ensures store.events == old(store.events)[item.id := Marked(old(store.events)[item.id], reply)]
      ensures queue.jobs == Queued(old(queue.jobs), item, reply)
    {
      match reply {
        case Accepted =>
          queue.Add(item.id, item.payload);
          store.MarkSent(item.id);
        case AddFails(added, error) =>
          if added { queue.Add(item.id, item.payload); }
          store.MarkPending(item.id, error);
        case MarkFails(error) =>
          queue.Add(item.id, item.payload);
          store.MarkPending(item.id, error);
      }
    }

    /** The next event of the pass. */
    method Advance(c: Config, reply: Reply, ghost s: World)
      requires Valid() && store.Valid() && Shows(s) && batch != []
      modifies this`batch, store`events, queue
      ensures Valid() && store.Valid() && running && batch == old(batch)[1..]
      ensures Shows(Run(c, s, Handled(id, reply)))
    {
      HandledEffect(c, s, id, reply);
      hide Run, Handled, SenderAt, Distinct, Marked, Queued;
      Handle(batch[0], reply);
      batch := batch[1..];
    }

    /** The pass ends: its loop is over, or one of its statements threw. */
    method Finish(c: Config, ghost s: World)
      requires Valid() && store.Valid() && Shows(s)
      modifies this`running, this`batch
      ensures Valid() && !running
      ensures Shows(Run(c, s, if old(batch) == [] then [] else [CrashSender(id)]))
    {
      RunOne(c, s, CrashSender(id));
      assert Run(c, s, []) == s;
      running, batch := false, [];
    }

    /** The timer's whole callback, processOutboxEvents included, when nobody comes in between. */
    method Callback(c: Config, replies: seq<Reply>, ghost s: World) returns (started: bool)
      requires Valid() && store.Valid() && Shows(s)
      modifies this`running, this`batch, store`events, queue
      ensures Valid() && store.Valid() && started == !old(running)
      ensures Shows(if started then Run(c, s, Pass(c, id, store.order, s, replies)) else s)
      ensures started ==> !running
    {
      ghost var opening: seq<Step>;
      started, opening := Fire(c, s);
      assert Run(c, s, []) == s;
      if started {
        hide Run, Opening, Script, Distinct;
        ghost var w, n := Run(c, s, opening), |batch|;
        var i := 0;
        while i < |replies| && batch != []
          invariant Valid() && store.Valid() && running && i <= |replies| && i + |batch| == n
          invariant w == Run(c, Run(c, s, opening), Script(id, replies[..i])) && Shows(w)
          decreases |replies| - i
        {
          Advance(c, replies[i], w);
          ScriptStep(c, Run(c, s, opening), id, replies, i);
          w := Run(c, w, Handled(id, replies[i]));
          i := i + 1;
        }
        PassEnd(c, id, store.order, s, replies, n, i);
        Finish(c, w);
      }
    }
  }

  /** The first two statements of a pass. */
  function Opening(c: Config, p: SenderId, order: seq<Id>, s: World): seq<Step> {
    [RecoverOutbox(p), ClaimOutbox(p, Selection(c, order, s), 0)]
  }

  /** The oldest pending events after recovery. */
  function Selection(c: Config, order: seq<Id>, s: World): seq<Id> {
    FirstPending(order, RecoverEvents(s.db.events, s.now, c.outboxStaleMs, c.maxRecoveries), CLAIM_LIMIT)
  }

  /** A whole pass; with fewer replies than events it is broken off there. */
  function Pass(c: Config, p: SenderId, order: seq<Id>, s: World, replies: seq<Reply>): seq<Step> {
    var n := |Selection(c, order, s)|;
    Opening(c, p, order, s)
    + if |replies| < n then Script(p, replies) + [CrashSender(p)] else Script(p, replies[..n])
  }

  lemma ScriptStep(c: Config, s: World, p: SenderId, replies: seq<Reply>, i: nat)
    requires i < |replies|
    ensures Run(c, s, Script(p, replies[..i + 1])) == Run(c, Run(c, s, Script(p, replies[..i])), Handled(p, replies[i]))
  {
    assert replies[..i + 1][..i] == replies[..i];
    AfterMore(c, s, Script(p, replies[..i]), Handled(p, replies[i]));
  }

  lemma PassEnd(c: Config, p: SenderId, order: seq<Id>, s: World, replies: seq<Reply>, n: nat, i: nat)
    requires n == |Selection(c, order, s)| && i == if |replies| < n then |replies| else n
    ensures var w := Run(c, Run(c, s, Opening(c, p, order, s)), Script(p, replies[..i]));
            Run(c, s, Pass(c, p, order, s, replies)) == Run(c, w, if i < n then [CrashSender(p)] else [])
  {
    var start := Opening(c, p, order, s);
    RunNone(c, Run(c, Run(c, s, start), Script(p, replies[..i])));
    hide Opening, Selection, Run, Script;
    AfterMore(c, s, start, Script(p, replies[..i]));
    if i < n {
      assert replies[..i] == replies;
      AfterMore(c, s, start + Script(p, replies), [CrashSender(p)]);
      assert start + (Script(p, replies) + [CrashSender(p)]) == start + Script(p, replies) + [CrashSender(p)];
    }
  }

  lemma RunNone(c: Config, s: World)
    ensures Run(c, s, []) == s
  {
  }
}
