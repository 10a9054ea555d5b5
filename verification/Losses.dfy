/**
 * Runs that show the limits of the protocol: what a recovered lease, a stalled job, an overtaken
 * worker that still holds its job, and a second outbox process can do.
 */
module Losses {
  import opened Wrappers
  import opened Json
  import opened Tables
  import opened Protocol
  import opened Invariant
  import opened Lifecycle
  import Runs
  import L = OutboxLedger
  import NoLoss
  import Reach
  import D = Decisions

  const ID: Id := [1]
  const KEY: Key := [2]
  const W: WorkerId := [3]
  const Z: WorkerId := [4]
  const O: SenderId := [5]
  const Q: SenderId := [6]

  /** What a state says about one transaction, two workers and two outbox processes. */
  datatype Scene = Scene(
    now: nat, tx: Tx, event: Event, job: Option<Job>, starts: nat, w: Handler, z: Handler, o: Sender, q: Sender)

  predicate Shows(s: World, x: Scene) {
    && s.now == x.now && Find(s.db.txs, ID) == Some(x.tx) && Find(s.db.events, ID) == Some(x.event)
    && Find(s.queue, ID) == x.job && Find(s.starts, ID) == Some(x.starts)
    && WorkerAt(s, W) == x.w && WorkerAt(s, Z) == x.z && SenderAt(s, O) == x.o && SenderAt(s, Q) == x.q
  }

  const FREE := Sender([], Ready)

  function Accepted(c: Config, p: Json): Scene {
    Scene(0, NewTx(Some(KEY), []), NewEvent(c.sanitize(c.sanitize(p))), None, 0, Idle, Idle, FREE, FREE)
  }

  lemma PayStep(c: Config, p: Json)
    ensures Shows(Apply(c, Init(), Pay(ID, Some(KEY), [], p)), Accepted(c, p))
  {
  }

  lemma ClaimStep(c: Config, s: World, x: Scene)
    requires Shows(s, x) && x.o == FREE && x.event.status == PENDING
    ensures Shows(Apply(c, s, ClaimOutbox(O, [ID], 0)),
                  x.(event := ClaimEvent(x.event, O, x.now), o := Sender([Item(ID, x.event.payload)], Ready)))
  {
    assert Claimable(s, [ID]);
    assert ItemsOf([ID], s.db.events) == [Item(ID, x.event.payload)];
  }

  lemma EnqueueStep(c: Config, s: World, x: Scene)
    requires Shows(s, x) && x.o == Sender([Item(ID, x.event.payload)], Ready) && x.job.None?
    ensures Shows(Apply(c, s, Enqueue(O)), x.(job := Some(Job(Waiting, 0, x.event.payload)), o := x.o.(phase := Added)))
  {
  }

  lemma SentStep(c: Config, s: World, x: Scene)
    requires Shows(s, x) && x.o == Sender([Item(ID, x.event.payload)], Added)
    ensures Shows(Apply(c, s, MarkSent(O)), x.(event := SentEvent(x.event), o := FREE))
  {
    assert [Item(ID, x.event.payload)][1..] == [];
  }

  /** The four steps that bring a payment to the queue. */
  function Queued(c: Config, p: Json): Scene {
    var x := Accepted(c, p);
    x.(event := SentEvent(ClaimEvent(x.event, O, 0)), job := Some(Job(Waiting, 0, x.event.payload)))
  }

  function Opening(p: Json): seq<Step> {
    [Pay(ID, Some(KEY), [], p), ClaimOutbox(O, [ID], 0), Enqueue(O), MarkSent(O)]
  }

  lemma Chain(c: Config, steps: seq<Step>, step: Step)
    ensures After(c, steps + [step]) == Apply(c, After(c, steps), step)
  {
    assert (steps + [step])[..|steps|] == steps;
  }

  lemma OpeningShows(c: Config, p: Json)
    ensures Shows(After(c, Opening(p)), Queued(c, p))
  {
    var a := [Pay(ID, Some(KEY), [], p)];
    var b := a + [ClaimOutbox(O, [ID], 0)];
    var d := b + [Enqueue(O)];
    assert Opening(p) == d + [MarkSent(O)];
    var x := Accepted(c, p);
    var x1 := x.(event := ClaimEvent(x.event, O, 0), o := Sender([Item(ID, x.event.payload)], Ready));
    var x2 := x1.(job := Some(Job(Waiting, 0, x.event.payload)), o := x1.o.(phase := Added));
    hide Shows, Apply;
    PayStep(c, p);
    assert a == [] + a;
    Chain(c, [], a[0]);
    Chain(c, a, ClaimOutbox(O, [ID], 0));
    ClaimStep(c, After(c, a), x);
    Chain(c, b, Enqueue(O));
    EnqueueStep(c, After(c, b), x1);
    Chain(c, d, MarkSent(O));
    SentStep(c, After(c, d), x2);
  }

  /* ---- worker steps for W; Z's are the mirror image ---- */

  lemma DeliverStep(c: Config, s: World, x: Scene, z: bool)
    requires Shows(s, x) && x.job.Some? && x.job.value.state == Waiting && (if z then x.z else x.w) == Idle
    ensures var h := Delivered(ID, x.job.value.data);
            var y := x.(job := Some(x.job.value.(state := Active(if z then Z else W))));
            Shows(Apply(c, s, Deliver(if z then Z else W, ID)), if z then y.(z := h) else y.(w := h))
  {
  }

  lemma ReadStep(c: Config, s: World, x: Scene, z: bool)
    requires Shows(s, x) && (if z then x.z else x.w).Delivered? && (if z then x.z else x.w).id == ID
    ensures var g := if z then x.z else x.w;
            var h := if x.tx.status == ACCEPTED then Seen(ID, c.sanitize(g.data), x.tx.timeline) else Returned(ID);
            Shows(Apply(c, s, Read(if z then Z else W)), if z then x.(z := h) else x.(w := h))
  {
  }

  lemma StartStep(c: Config, s: World, x: Scene, z: bool)
    requires Shows(s, x) && (if z then x.z else x.w).Seen? && (if z then x.z else x.w).id == ID
             && x.tx.status == ACCEPTED
    ensures var g := if z then x.z else x.w;
            var local := g.timeline + [PROCESSING];
            var h := Claimed(ID, g.data, local, x.starts + 1);
            var tx := StartTx(x.tx, if z then Z else W, Some(local), x.now, c.lease).value;
            var y := x.(tx := tx, starts := x.starts + 1);
            Shows(Apply(c, s, Start(if z then Z else W)), if z then y.(z := h) else y.(w := h))
  {
  }

  lemma ExpireSteps(c: Config, s: World, x: Scene)
    requires Shows(s, x)
    ensures Shows(Apply(c, s, Tick(c.lease + 1)), x.(now := x.now + c.lease + 1))
    ensures Shows(Apply(c, s, RecoverLeases), x.(tx := RecoverTx(x.tx, x.now, c.staleMs)))
  {
  }

  lemma StallStep(c: Config, s: World, x: Scene)
    requires Shows(s, x) && x.job.Some? && x.job.value.state.Active?
    ensures Shows(Apply(c, s, Stall(ID)), x.(job := Some(x.job.value.(state := Waiting))))
  {
  }

  lemma ReturnStep(c: Config, s: World, x: Scene, z: bool)
    requires Shows(s, x) && (if z then x.z else x.w) == Returned(ID) && x.job.Some?
    requires x.job.value.state == Active(if z then Z else W)
    ensures var y := x.(job := None);
            Shows(Apply(c, s, Return(if z then Z else W)), if z then y.(z := Idle) else y.(w := Idle))
  {
  }

  lemma LateFinalizeStep(c: Config, s: World, x: Scene)
    requires Shows(s, x) && x.w.Claimed? && x.w.id == ID && !c.decide(x.w.data).Failed? && x.tx.status != PROCESSING
    ensures Shows(Apply(c, s, Finalize(W)), x.(w := Returned(ID)))
  {
  }

  lemma ThrowStep(c: Config, s: World, x: Scene)
    requires Shows(s, x) && x.w.Claimed? && x.w.id == ID && c.decide(x.w.data).Failed? && x.job.Some?
    requires x.job.value.state == Active(W) && x.job.value.attemptsMade + 1 < ATTEMPTS
    ensures var n := x.job.value.attemptsMade + 1;
            Shows(Apply(c, s, Throw(W)),
                  x.(w := Idle, job := Some(Job(Waiting, n, x.job.value.data)),
                     tx := UpdateTx(x.tx, ResetUpdates(ACCEPTED, c.decide(x.w.data).reason, n), true)))
  {
  }

  /* ---- nothing else is going on ---- */

  /** The sender a step belongs to. */
  function SenderOf(step: Step): Option<SenderId> { if L.OutboxStep(step) then Some(step.p) else None }

  /** Only W, Z, O and Q take part. */
  predicate OnlyCast(step: Step) {
    (Mover(step) == None || Mover(step) == Some(W) || Mover(step) == Some(Z))
    && (SenderOf(step) == None || SenderOf(step) == Some(O) || SenderOf(step) == Some(Q))
  }

  predicate Cast(steps: seq<Step>) { forall i :: 0 <= i < |steps| ==> OnlyCast(steps[i]) }

  lemma {:induction false} Untouched(c: Config, steps: seq<Step>, u: WorkerId)
    requires Cast(steps) && u != W && u != Z
    ensures WorkerAt(After(c, steps), u) == Idle
    decreases |steps|
  {
    if steps != [] {
      var n := |steps| - 1;
      assert forall i :: 0 <= i < n ==> steps[..n][i] == steps[i];
      Untouched(c, steps[..n], u);
      OthersStay(c, After(c, steps[..n]), steps[n], u);
      hide Apply;
    }
  }

  lemma {:induction false} NoOtherSender(c: Config, steps: seq<Step>, p: SenderId)
    requires Cast(steps) && p != O && p != Q
    ensures SenderAt(After(c, steps), p).batch == []
    decreases |steps|
  {
    if steps != [] {
      var n := |steps| - 1;
      assert forall i :: 0 <= i < n ==> steps[..n][i] == steps[i];
      NoOtherSender(c, steps[..n], p);
      SenderUntouched(c, After(c, steps[..n]), steps[n], p);
      hide Apply;
    }
  }

  lemma SenderUntouched(c: Config, s: World, step: Step, p: SenderId)
    requires SenderOf(step) != Some(p)
    ensures SenderAt(Apply(c, s, step), p) == SenderAt(s, p)
  {
    if WorkerStep(step) { WorkersLeaveEvents(c, s, step); }
    hide UpdateTx, FinalizeTx, StartTx, RenewTx;
  }

  predicate Quiet(h: Handler) { h.Idle? || h.Dead? }

  /** A sent event without a job, all four processes quiet: the payment is never decided. */
  lemma DroppedForever(c: Config, steps: seq<Step>, x: Scene)
    requires ConfigOk(c) && Cast(steps) && Shows(After(c, steps), x)
    requires x.job.None? && x.event.status == SENT && !Final(x.tx.status)
    requires Quiet(x.w) && Quiet(x.z) && x.o.batch == [] && x.q.batch == []
    ensures ID in After(c, steps).db.txs && !NoLoss.Safe(After(c, steps), ID)
    ensures forall more :: !Decided(After(c, steps + more), ID)
  {
    var s := After(c, steps);
    forall u ensures Quiet(WorkerAt(s, u)) {
      if u != W && u != Z { Untouched(c, steps, u); }
    }
    forall p ensures SenderAt(s, p).batch == [] {
      if p != O && p != Q { NoOtherSender(c, steps, p); }
    }
    Reach.DecisionReachableIff(c, steps, ID);
    hide Run, Cast;
    forall more ensures !Decided(After(c, steps + more), ID) { hide Shows; }
  }

  /* ---- a recovered lease loses a payment ---- */

  function ClaimedBy(c: Config, p: Json): Scene {
    var x := Queued(c, p);
    var data := x.event.payload;
    var local := [ACCEPTED] + [PROCESSING];
    x.(job := Some(Job(Active(W), 0, data)), w := Claimed(ID, c.sanitize(data), local, 1), starts := 1,
       tx := StartTx(x.tx, W, Some(local), 0, c.lease).value)
  }

  const TAKE := [Deliver(W, ID), Read(W), Start(W)]

  lemma TakeShows(c: Config, p: Json)
    ensures Shows(After(c, Opening(p) + TAKE), ClaimedBy(c, p))
  {
    OpeningShows(c, p);
    TakeFrom(c, Opening(p), Queued(c, p));
  }

  /** W takes a waiting job and claims. */
  function Taken(c: Config, x: Scene): Scene
    requires x.job.Some?
  {
    var data, local := x.job.value.data, x.tx.timeline + [PROCESSING];
    x.(job := Some(x.job.value.(state := Active(W))), starts := x.starts + 1,
       tx := StartTx(x.tx, W, Some(local), x.now, c.lease).GetOr(x.tx),
       w := Claimed(ID, c.sanitize(data), local, x.starts + 1))
  }

  lemma TakeFrom(c: Config, o: seq<Step>, x: Scene)
    requires Shows(After(c, o), x) && x.job.Some? && x.job.value.state == Waiting && x.w == Idle
             && x.tx.status == ACCEPTED
    ensures Shows(After(c, o + TAKE), Taken(c, x))
  {
    var a, job := o + [Deliver(W, ID)], x.job.value;
    var x1 := x.(job := Some(job.(state := Active(W))), w := Delivered(ID, job.data));
    var x2 := x1.(w := Seen(ID, c.sanitize(job.data), x.tx.timeline));
    assert x2.(tx := StartTx(x.tx, W, Some(x.tx.timeline + [PROCESSING]), x.now, c.lease).value, starts := x.starts + 1,
               w := Claimed(ID, x2.w.data, x.tx.timeline + [PROCESSING], x.starts + 1)) == Taken(c, x);
    hide Shows, Apply, Run, After, StartTx, Taken;
    assert o + TAKE == a + [Read(W)] + [Start(W)];
    Chain(c, o, Deliver(W, ID));
    DeliverStep(c, After(c, o), x, false);
    Chain(c, a, Read(W));
    ReadStep(c, After(c, a), x1, false);
    Chain(c, a + [Read(W)], Start(W));
    StartStep(c, After(c, a + [Read(W)]), x2, false);
  }

  function RecoverySteps(c: Config, p: Json): seq<Step> {
    Opening(p) + TAKE + [Tick(c.lease + 1)] + [RecoverLeases] + [Finalize(W)] + [Return(W)]
  }

  lemma RecoveredShows(c: Config, p: Json) returns (y: Scene)
    requires !c.decide(c.sanitize(c.sanitize(c.sanitize(p)))).Failed?
    ensures Shows(After(c, RecoverySteps(c, p)), y)
    ensures y.job.None? && y.event.status == SENT && y.tx.status == ACCEPTED && y.w == Idle && y.z == Idle
    ensures y.o.batch == [] && y.q.batch == []
  {
    hide Apply, Run, Shows, After, StartTx, RecoverTx, ClaimedBy, Opening;
    var a := Opening(p) + TAKE;
    var b := a + [Tick(c.lease + 1)];
    var d := b + [RecoverLeases];
    var e := d + [Finalize(W)];
    TakeShows(c, p);
    ClaimedScene(c, p);
    var x := ClaimedBy(c, p);
    var x2 := x.(now := c.lease + 1, tx := RecoverTx(x.tx, c.lease + 1, c.staleMs));
    Chain(c, a, Tick(c.lease + 1));
    ExpireSteps(c, After(c, a), x);
    RecoverShows(c, b, x.(now := c.lease + 1));
    Chain(c, d, Finalize(W));
    LateFinalizeStep(c, After(c, d), x2);
    Chain(c, e, Return(W));
    ReturnStep(c, After(c, e), x2.(w := Returned(ID)), false);
    y := x2.(job := None, w := Idle);
    assert RecoverySteps(c, p) == e + [Return(W)];
  }

  lemma ClaimedScene(c: Config, p: Json)
    ensures var x := ClaimedBy(c, p);
            x.now == 0 && RecoverTx(x.tx, c.lease + 1, c.staleMs).status == ACCEPTED
            && x.w == Claimed(ID, c.sanitize(c.sanitize(c.sanitize(p))), [ACCEPTED] + [PROCESSING], 1)
            && x.job == Some(Job(Active(W), 0, c.sanitize(c.sanitize(p)))) && x.event.status == SENT
            && x.z == Idle && x.o.batch == [] && x.q.batch == []
  {
  }

  /**
   * No stall, no crash: the lease runs out, recovery resets the row, and nothing carries it on.  It
   * stays undecided whatever happens afterwards.
   */
  lemma RecoveredLeaseLoses(c: Config, p: Json)
    requires ConfigOk(c) && !c.decide(c.sanitize(c.sanitize(c.sanitize(p)))).Failed?
    ensures var steps := RecoverySteps(c, p);
            && (forall i :: 0 <= i < |steps| ==> !steps[i].Stall? && !steps[i].CrashWorker? && !steps[i].CrashSender?)
            && ID in After(c, steps).db.txs && After(c, steps).db.txs[ID].status == ACCEPTED
            && !NoLoss.Safe(After(c, steps), ID) && forall more :: !Decided(After(c, steps + more), ID)
  {
    var x := RecoveredShows(c, p);
    RecoveredCast(c, p);
    RecoveredLost(c, RecoverySteps(c, p), x);
    hide Run, Decided;
  }

  lemma RecoveredCast(c: Config, p: Json)
    ensures Cast(RecoverySteps(c, p))
  {
  }

  lemma RecoveredLost(c: Config, steps: seq<Step>, x: Scene)
    requires ConfigOk(c) && Cast(steps) && Shows(After(c, steps), x)
    requires x.job.None? && x.event.status == SENT && x.tx.status == ACCEPTED
    requires Quiet(x.w) && Quiet(x.z) && x.o.batch == [] && x.q.batch == []
    ensures ID in After(c, steps).db.txs && After(c, steps).db.txs[ID].status == ACCEPTED
    ensures !NoLoss.Safe(After(c, steps), ID) && forall more :: !Decided(After(c, steps + more), ID)
  {
    DroppedForever(c, steps, x);
    hide Run;
  }

  lemma CrashStep(c: Config, s: World, x: Scene)
    requires Shows(s, x)
    ensures Shows(Apply(c, s, CrashWorker(W)), x.(w := Dead))
  {
  }

  const DROP := [Stall(ID), Deliver(Z, ID), Read(Z), Return(Z), CrashWorker(W)]

  /**
   * No lease recovery: a stalled job is delivered to another worker, which sees the row in
   * processing and drops the job; then the claimant dies.
   */
  lemma StalledJobLoses(c: Config, p: Json)
    requires ConfigOk(c)
    ensures var steps := Opening(p) + TAKE + DROP;
            && (forall i :: 0 <= i < |steps| ==> !steps[i].RecoverLeases?)
            && ID in After(c, steps).db.txs && After(c, steps).db.txs[ID].status == PROCESSING
            && WorkerAt(After(c, steps), W) == Dead
            && !NoLoss.Safe(After(c, steps), ID) && forall more :: !Decided(After(c, steps + more), ID)
  {
    var x := DroppedShows(c, p);
    DroppedForever(c, Opening(p) + TAKE + DROP, x);
    hide Run;
  }

  lemma DroppedShows(c: Config, p: Json) returns (y: Scene)
    ensures Shows(After(c, Opening(p) + TAKE + DROP), y)
    ensures y.job.None? && y.event.status == SENT && y.tx.status == PROCESSING && y.w == Dead && y.z == Idle
    ensures y.o.batch == [] && y.q.batch == []
  {
    var a := Opening(p) + TAKE;
    var b := a + [Stall(ID)];
    var d := b + [Deliver(Z, ID)];
    var e := d + [Read(Z)];
    var f := e + [Return(Z)];
    assert a + DROP == f + [CrashWorker(W)];
    TakeShows(c, p);
    var x := ClaimedBy(c, p);
    var x1 := x.(job := Some(x.job.value.(state := Waiting)));
    var x2 := x1.(job := Some(x.job.value.(state := Active(Z))), z := Delivered(ID, x.job.value.data));
    var x3 := x2.(z := Returned(ID));
    y := x3.(job := None, z := Idle, w := Dead);
    hide Apply, Run, Shows;
    Chain(c, a, Stall(ID));
    StallStep(c, After(c, a), x);
    Chain(c, b, Deliver(Z, ID));
    DeliverStep(c, After(c, b), x1, true);
    Chain(c, d, Read(Z));
    ReadStep(c, After(c, d), x2, true);
    Chain(c, e, Return(Z));
    ReturnStep(c, After(c, e), x3, true);
    Chain(c, f, CrashWorker(W));
    CrashStep(c, After(c, f), x3.(job := None, z := Idle));
  }

  /* ---- the unguarded updates reach another worker's claim ---- */

  const PEEK := [Deliver(Z, ID), Read(Z), Stall(ID)]

  /** The payment waits with both workers free. */
  predicate Waits(x: Scene) {
    x.job.Some? && x.job.value.state == Waiting && x.w == Idle && x.z == Idle && x.tx.status == ACCEPTED
  }

  /** Z has read the row and stalled. */
  function Peeked(c: Config, x: Scene): (y: Scene)
    requires Waits(x)
    ensures y.job == x.job
  {
    x.(z := Seen(ID, c.sanitize(x.job.value.data), x.tx.timeline))
  }

  lemma PeekShows(c: Config, o: seq<Step>, x: Scene)
    requires Shows(After(c, o), x) && Waits(x)
    ensures Shows(After(c, o + PEEK), Peeked(c, x))
  {
    var a, job := o + [Deliver(Z, ID)], x.job.value;
    var x1 := x.(job := Some(job.(state := Active(Z))), z := Delivered(ID, job.data));
    var x2 := x1.(z := Seen(ID, c.sanitize(job.data), x.tx.timeline));
    assert o + PEEK == a + [Read(Z)] + [Stall(ID)];
    assert x2.(job := Some(job)) == Peeked(c, x);
    hide Shows, Apply, Run;
    Chain(c, o, Deliver(Z, ID));
    DeliverStep(c, After(c, o), x, true);
    Chain(c, a, Read(Z));
    ReadStep(c, After(c, a), x1, true);
    Chain(c, a + [Read(Z)], Stall(ID));
    StallStep(c, After(c, a + [Read(Z)]), x2);
  }

  /** Then W has claimed, its lease has run out, and Z has claimed the row again. */
  function Retaken(c: Config, x: Scene): Scene
    requires Waits(x)
  {
    var y, local := Taken(c, Peeked(c, x)), x.tx.timeline + [PROCESSING];
    var now := x.now + c.lease + 1;
    y.(now := now, tx := StartTx(RecoverTx(y.tx, now, c.staleMs), Z, Some(local), now, c.lease).GetOr(y.tx),
       starts := x.starts + 2, z := Claimed(ID, y.z.data, local, x.starts + 2))
  }

  function Expire(c: Config): seq<Step> { [Tick(c.lease + 1), RecoverLeases, Start(Z)] }

  function RetakeSteps(c: Config): seq<Step> { PEEK + TAKE + Expire(c) }

  lemma RetakeShows(c: Config, o: seq<Step>, x: Scene)
    requires Shows(After(c, o), x) && Waits(x)
    ensures Shows(After(c, o + RetakeSteps(c)), Retaken(c, x))
  {
    PeekShows(c, o, x);
    TakeFrom(c, o + PEEK, Peeked(c, x));
    assert o + RetakeSteps(c) == o + PEEK + TAKE + Expire(c);
    hide Apply, Run, Shows;
    ExpireShows(c, o + PEEK + TAKE, x);
  }

  lemma ExpiredScene(c: Config, x: Scene)
    requires Waits(x)
    ensures var y := Taken(c, Peeked(c, x)); var now := x.now + c.lease + 1; var r := RecoverTx(y.tx, now, c.staleMs);
            y.now == x.now && r.status == ACCEPTED && y.z.Seen? && y.z.id == ID
            && var local := y.z.timeline + [PROCESSING];
               Retaken(c, x)
               == y.(now := now, tx := StartTx(r, Z, Some(local), now, c.lease).value, starts := y.starts + 1,
                     z := Claimed(ID, y.z.data, local, y.starts + 1))
  {
  }

  lemma ExpireShows(c: Config, a: seq<Step>, x: Scene)
    requires Waits(x) && Shows(After(c, a), Taken(c, Peeked(c, x)))
    ensures Shows(After(c, a + Expire(c)), Retaken(c, x))
  {
    hide Apply, Run, Shows, Taken, Peeked, Retaken, StartTx, RecoverTx, After;
    var b := a + [Tick(c.lease + 1)];
    var d := b + [RecoverLeases];
    var y := Taken(c, Peeked(c, x));
    ExpiredScene(c, x);
    Chain(c, a, Tick(c.lease + 1));
    ExpireSteps(c, After(c, a), y);
    RecoverShows(c, b, y.(now := x.now + c.lease + 1));
    var y2 := y.(now := x.now + c.lease + 1, tx := RecoverTx(y.tx, x.now + c.lease + 1, c.staleMs));
    Chain(c, d, Start(Z));
    StartStep(c, After(c, d), y2, true);
    assert a + Expire(c) == d + [Start(Z)];
  }

  lemma RecoverShows(c: Config, o: seq<Step>, x: Scene)
    requires Shows(After(c, o), x)
    ensures Shows(After(c, o + [RecoverLeases]), x.(tx := RecoverTx(x.tx, x.now, c.staleMs)))
  {
    hide Apply, Run, Shows, RecoverTx, After;
    Chain(c, o, RecoverLeases);
    ExpireSteps(c, After(c, o), x);
  }

  /**
   * Z reads the row and stalls; W takes the job, claims, and lets its lease run out; Z claims.  W is
   * overtaken but still holds the job, so its failing handler resets Z's claim.
   */
  lemma ResetReachesAnotherClaim(c: Config, p: Json)
    requires c.decide(c.sanitize(c.sanitize(c.sanitize(p)))).Failed?
    ensures var steps := Opening(p) + RetakeSteps(c);
            var s, s' := After(c, steps), After(c, steps + [Throw(W)]);
            && Runs.Overtaken(s, W, ID) && Runs.UnfencedReset(c, s, W, Throw(W))
            && ID in s.db.txs && s.db.txs[ID].claimant == Some(Z)
            && ID in s'.db.txs && s'.db.txs[ID].status == ACCEPTED
  {
    var x, steps := Queued(c, p), Opening(p) + RetakeSteps(c);
    OpeningShows(c, p);
    RetakeShows(c, Opening(p), x);
    hide Apply, Run;
    Chain(c, steps, Throw(W));
    ThrowStep(c, After(c, steps), Retaken(c, x));
  }

  const ROUND := TAKE + [Throw(W)]

  /** After one more failing attempt of W. */
  function Failing(c: Config, x: Scene): Scene
    requires Waits(x) && c.decide(c.sanitize(x.job.value.data)).Failed?
  {
    var job, local := x.job.value, x.tx.timeline + [PROCESSING];
    var reason, n := c.decide(c.sanitize(job.data)).reason, job.attemptsMade + 1;
    x.(job := Some(Job(Waiting, n, job.data)), starts := x.starts + 1,
       tx := UpdateTx(StartTx(x.tx, W, Some(local), x.now, c.lease).value, ResetUpdates(ACCEPTED, reason, n), true))
  }

  lemma FailingScene(c: Config, x: Scene)
    requires Waits(x) && c.decide(c.sanitize(x.job.value.data)).Failed?
    ensures var y, n := Taken(c, x), x.job.value.attemptsMade + 1;
            Failing(c, x)
            == y.(w := Idle, job := Some(Job(Waiting, n, y.job.value.data)),
                  tx := UpdateTx(y.tx, ResetUpdates(ACCEPTED, c.decide(y.w.data).reason, n), true))
    ensures Waits(Failing(c, x))
  {
  }

  lemma TakenScene(c: Config, x: Scene)
    requires Waits(x)
    ensures var y := Taken(c, x);
            y.w.Claimed? && y.w.id == ID && y.w.data == c.sanitize(x.job.value.data)
            && y.job == Some(x.job.value.(state := Active(W)))
  {
  }

  lemma RoundShows(c: Config, o: seq<Step>, x: Scene)
    requires Shows(After(c, o), x) && Waits(x) && c.decide(c.sanitize(x.job.value.data)).Failed?
    requires x.job.value.attemptsMade + 1 < ATTEMPTS
    ensures Shows(After(c, o + ROUND), Failing(c, x)) && Waits(Failing(c, x))
  {
    FailingScene(c, x);
    hide Shows, Apply, Run, After, StartTx, UpdateTx, Failing, Taken;
    TakenScene(c, x);
    assert o + ROUND == o + TAKE + [Throw(W)];
    TakeFrom(c, o, x);
    Chain(c, o + TAKE, Throw(W));
    ThrowStep(c, After(c, o + TAKE), Taken(c, x));
  }

  /** Two failing attempts, and the third is due. */
  lemma TwoRounds(c: Config, p: Json) returns (x: Scene)
    requires c.decide(c.sanitize(c.sanitize(c.sanitize(p)))).Failed?
    ensures Shows(After(c, Opening(p) + ROUND + ROUND), x) && Waits(x)
    ensures x.job.value.data == c.sanitize(c.sanitize(p)) && x.job.value.attemptsMade == 2 && x.event.status == SENT
  {
    OpeningShows(c, p);
    var x0 := Queued(c, p);
    RoundShows(c, Opening(p), x0);
    RoundShows(c, Opening(p) + ROUND, Failing(c, x0));
    x := Failing(c, Failing(c, x0));
  }

  lemma LastThrowStep(c: Config, s: World, x: Scene)
    requires Shows(s, x) && x.w.Claimed? && x.w.id == ID && c.decide(x.w.data).Failed? && x.job.Some?
    requires x.job.value.state == Active(W) && x.job.value.attemptsMade + 1 == ATTEMPTS
    ensures Shows(Apply(c, s, Throw(W)),
                  x.(w := DeadLettered(ID, c.decide(x.w.data).reason, ATTEMPTS, x.w.epoch),
                     job := Some(Job(JobFailed, ATTEMPTS, x.job.value.data))))
  {
  }

  lemma MarkFailedStep(c: Config, s: World, x: Scene)
    requires Shows(s, x) && x.w.DeadLettered? && x.w.id == ID
    ensures Shows(Apply(c, s, MarkFailed(W)),
                  x.(w := Idle, tx := UpdateTx(x.tx, ResetUpdates(FAILED, x.w.reason, x.w.attempts), true)))
  {
  }

  /**
   * The same on W's last attempt: its throw saves the dead letter and leaves Z's claim alone, and
   * then the status write of the failed callback puts FAILED over it.
   */
  lemma FailureReachesAnotherClaim(c: Config, p: Json)
    requires c.decide(c.sanitize(c.sanitize(c.sanitize(p)))).Failed?
    ensures var steps := Opening(p) + ROUND + ROUND + RetakeSteps(c) + [Throw(W)];
            var s, s' := After(c, steps), After(c, steps + [MarkFailed(W)]);
            && Runs.Overtaken(s, W, ID) && Runs.UnfencedFailure(s, W, MarkFailed(W))
            && ID in s.db.txs && s.db.txs[ID].status == PROCESSING && s.db.txs[ID].claimant == Some(Z)
            && ID in s'.db.txs && s'.db.txs[ID].status == FAILED && s'.db.txs[ID].claimant == None
  {
    var o := Opening(p) + ROUND + ROUND;
    var x := TwoRounds(c, p);
    var a := o + RetakeSteps(c);
    RetakeShows(c, o, x);
    var y := Retaken(c, x);
    assert y.tx.status == PROCESSING && y.tx.claimant == Some(Z);
    hide Apply, Run, RetakeSteps;
    Chain(c, a, Throw(W));
    LastThrowStep(c, After(c, a), y);
    var z := y.(w := DeadLettered(ID, c.decide(y.w.data).reason, ATTEMPTS, y.w.epoch),
                job := Some(Job(JobFailed, ATTEMPTS, y.job.value.data)));
    Chain(c, a + [Throw(W)], MarkFailed(W));
    MarkFailedStep(c, After(c, a + [Throw(W)]), z);
  }

  /* ---- a second outbox process undoes OUTBOX_FAILED ---- */

  /** The claimed event goes stale and is recovered. */
  function GoStale(c: Config): seq<Step> { [Tick(c.outboxStaleMs + 1), RecoverOutbox(Q)] }

  /** Q recovers the stale event, claims it and dies; n times. */
  function StaleRounds(c: Config, n: nat): seq<Step> {
    if n == 0 then [] else StaleRounds(c, n - 1) + GoStale(c) + [ClaimOutbox(Q, [ID], 0)] + [CrashSender(Q)]
  }

  /** How often recovery takes an event back until it gives up. */
  function Recoveries(c: Config): nat { if c.maxRecoveries == 0 then 1 else c.maxRecoveries }

  /** O has enqueued the event and stalls before marking it; n recoveries have happened. */
  predicate Stalled(x: Scene, n: nat) {
    x.event.status == CLAIMED && x.event.claimedAt == Some(x.now) && x.event.recoveryCount == n
    && x.o == Sender([Item(ID, x.event.payload)], Added) && x.q == FREE
  }

  function Sending(p: Json): seq<Step> { [Pay(ID, Some(KEY), [], p)] + [ClaimOutbox(O, [ID], 0)] + [Enqueue(O)] }

  lemma SendingShows(c: Config, p: Json) returns (x: Scene)
    ensures Shows(After(c, Sending(p)), x) && Stalled(x, 0)
    ensures Waits(x) && x.job == Some(Job(Waiting, 0, c.sanitize(c.sanitize(p))))
    ensures x.event.payload == c.sanitize(c.sanitize(p)) && x.tx.retryCount == 0
  {
    var a := [Pay(ID, Some(KEY), [], p)];
    var b := a + [ClaimOutbox(O, [ID], 0)];
    var y := Accepted(c, p);
    var y1 := y.(event := ClaimEvent(y.event, O, 0), o := Sender([Item(ID, y.event.payload)], Ready));
    x := y1.(job := Some(Job(Waiting, 0, y.event.payload)), o := y1.o.(phase := Added));
    PayStep(c, p);
    assert a == [] + a;
    Chain(c, [], a[0]);
    hide Apply, Run, Shows;
    Chain(c, a, ClaimOutbox(O, [ID], 0));
    ClaimStep(c, After(c, a), y);
    Chain(c, b, Enqueue(O));
    EnqueueStep(c, After(c, b), y1);
  }

  /** One recovery of the stale event. */
  function Recovered(c: Config, x: Scene): Scene {
    var now := x.now + c.outboxStaleMs + 1;
    x.(now := now, event := RecoverEvent(x.event, now, c.outboxStaleMs, c.maxRecoveries))
  }

  lemma GoStaleShows(c: Config, o: seq<Step>, x: Scene)
    requires Shows(After(c, o), x) && x.q == FREE
    ensures Shows(After(c, o + GoStale(c)), Recovered(c, x))
  {
    var a := o + [Tick(c.outboxStaleMs + 1)];
    assert o + GoStale(c) == a + [RecoverOutbox(Q)];
    hide Apply, Run, Shows, After, RecoverEvent;
    Chain(c, o, Tick(c.outboxStaleMs + 1));
    TickStep(c, After(c, o), x, c.outboxStaleMs + 1);
    Chain(c, a, RecoverOutbox(Q));
    RecoverOutboxStep(c, After(c, a), x.(now := x.now + c.outboxStaleMs + 1));
  }

  lemma RecoveredScene(c: Config, x: Scene, n: nat)
    requires Stalled(x, n)
    ensures var e := Recovered(c, x).event;
            e.recoveryCount == n + 1 && e.payload == x.event.payload
            && e.status == if n + 1 >= c.maxRecoveries then OUTBOX_FAILED else PENDING
  {
  }

  lemma ClaimAgainStep(c: Config, s: World, x: Scene)
    requires Shows(s, x) && x.q == FREE && x.event.status == PENDING
    ensures Shows(Apply(c, s, ClaimOutbox(Q, [ID], 0)),
                  x.(event := ClaimEvent(x.event, Q, x.now), q := Sender([Item(ID, x.event.payload)], Ready)))
  {
    assert Claimable(s, [ID]);
    assert ItemsOf([ID], s.db.events) == [Item(ID, x.event.payload)];
  }

  lemma CrashSenderStep(c: Config, s: World, x: Scene)
    requires Shows(s, x)
    ensures Shows(Apply(c, s, CrashSender(Q)), x.(q := FREE))
  {
  }

  lemma {:induction false} StaleRoundsShow(c: Config, p: Json, n: nat) returns (x: Scene)
    requires n < Recoveries(c)
    ensures Shows(After(c, Sending(p) + StaleRounds(c, n)), x) && Stalled(x, n)
  {
    if n == 0 {
      x := SendingShows(c, p);
      assert Sending(p) + StaleRounds(c, 0) == Sending(p);
    } else {
      var before := StaleRoundsShow(c, p, n - 1);
      x := StaleRoundShows(c, Sending(p) + StaleRounds(c, n - 1), before, n - 1);
      assert Sending(p) + StaleRounds(c, n)
          == Sending(p) + StaleRounds(c, n - 1) + GoStale(c) + [ClaimOutbox(Q, [ID], 0)] + [CrashSender(Q)];
    }
  }

  lemma StaleRoundShows(c: Config, o: seq<Step>, x: Scene, n: nat) returns (y: Scene)
    requires Shows(After(c, o), x) && Stalled(x, n) && n + 1 < Recoveries(c)
    ensures Shows(After(c, o + GoStale(c) + [ClaimOutbox(Q, [ID], 0)] + [CrashSender(Q)]), y) && Stalled(y, n + 1)
  {
    RecoveredScene(c, x, n);
    GoStaleShows(c, o, x);
    var r, a := Recovered(c, x), o + GoStale(c);
    hide Apply, Run, Shows, After, GoStale, RecoverEvent;
    var claimed := r.(event := ClaimEvent(r.event, Q, r.now), q := Sender([Item(ID, r.event.payload)], Ready));
    Chain(c, a, ClaimOutbox(Q, [ID], 0));
    ClaimAgainStep(c, After(c, a), r);
    Chain(c, a + [ClaimOutbox(Q, [ID], 0)], CrashSender(Q));
    CrashSenderStep(c, After(c, a + [ClaimOutbox(Q, [ID], 0)]), claimed);
    y := claimed.(q := FREE);
  }

  /**
   * For every recovery limit: O stalls after enqueueing, Q recovers and claims the event and dies, again
   * and again, until it is given up for failed; then O marks it sent after all.
   */
  lemma LateMarkUndoesFailure(c: Config, p: Json)
    ensures var steps := Sending(p) + StaleRounds(c, Recoveries(c) - 1) + GoStale(c);
            var s, s' := After(c, steps), After(c, steps + [MarkSent(O)]);
            && ID in s.db.events && s.db.events[ID].status == OUTBOX_FAILED
            && ID in s'.db.events && s'.db.events[ID].status == SENT
  {
    var n := Recoveries(c) - 1;
    var o := Sending(p) + StaleRounds(c, n);
    var x := StaleRoundsShow(c, p, n);
    RecoveredScene(c, x, n);
    GoStaleShows(c, o, x);
    hide Apply, Run, GoStale, RecoverEvent, StaleRounds, Sending;
    Chain(c, o + GoStale(c), MarkSent(O));
    SentStep(c, After(c, o + GoStale(c)), Recovered(c, x));
  }

  lemma TickStep(c: Config, s: World, x: Scene, d: nat)
    requires Shows(s, x)
    ensures Shows(Apply(c, s, Tick(d)), x.(now := x.now + d))
  {
  }

  lemma RecoverOutboxStep(c: Config, s: World, x: Scene)
    requires Shows(s, x) && x.q == FREE
    ensures Shows(Apply(c, s, RecoverOutbox(Q)),
                  x.(event := RecoverEvent(x.event, x.now, c.outboxStaleMs, c.maxRecoveries)))
  {
  }

  /* ---- a worker dies between the dead letter and the status ---- */

  function AbandonSteps(p: Json): seq<Step> { Opening(p) + ROUND + ROUND + TAKE + [Throw(W)] + [CrashWorker(W)] }

  lemma AbandonShows(c: Config, p: Json) returns (x: Scene)
    requires c.decide(c.sanitize(c.sanitize(c.sanitize(p)))).Failed?
    ensures Shows(After(c, AbandonSteps(p)), x)
    ensures x.w == Dead && x.z == Idle && x.tx.status == PROCESSING && x.job.Some? && x.job.value.state == JobFailed
  {
    var o := Opening(p) + ROUND + ROUND;
    var x0 := TwoRounds(c, p);
    TakeFrom(c, o, x0);
    var y := Taken(c, x0);
    hide Shows, Apply, Run, After, Taken;
    Chain(c, o + TAKE, Throw(W));
    LastThrowStep(c, After(c, o + TAKE), y);
    var z := y.(w := DeadLettered(ID, c.decide(y.w.data).reason, ATTEMPTS, y.w.epoch),
                job := Some(Job(JobFailed, ATTEMPTS, y.job.value.data)));
    Chain(c, o + TAKE + [Throw(W)], CrashWorker(W));
    CrashStep(c, After(c, o + TAKE + [Throw(W)]), z);
    x := z.(w := Dead);
  }

  lemma AbandonCast(p: Json)
    ensures Cast(AbandonSteps(p))
  {
  }

  /** A failed job with nobody to write FAILED: the payment is never decided. */
  lemma UnmarkedForever(c: Config, steps: seq<Step>, x: Scene)
    requires ConfigOk(c) && Cast(steps) && Shows(After(c, steps), x)
    requires x.job.Some? && x.job.value.state == JobFailed && !Final(x.tx.status) && Quiet(x.w) && Quiet(x.z)
    ensures ID in After(c, steps).db.txs && !NoLoss.Safe(After(c, steps), ID)
    ensures forall more :: !Decided(After(c, steps + more), ID)
  {
    forall u ensures !NoLoss.MarksFailure(WorkerAt(After(c, steps), u), ID) {
      if u != W && u != Z { Untouched(c, steps, u); }
    }
    Reach.DecisionReachableIff(c, steps, ID);
    hide Run, Cast;
    forall more ensures !Decided(After(c, steps + more), ID) { hide Shows; }
  }

  /**
   * No stall and no lease recovery: W fails three times and saves the dead letter, then dies before
   * the FAILED status.  The payment stays in processing whatever happens afterwards.
   */
  lemma AbandonedFailureLoses(c: Config, p: Json)
    requires ConfigOk(c) && c.decide(c.sanitize(c.sanitize(c.sanitize(p)))).Failed?
    ensures var steps := AbandonSteps(p);
            && (forall i :: 0 <= i < |steps| ==> !steps[i].Stall? && !steps[i].RecoverLeases?)
            && ID in After(c, steps).db.txs && !NoLoss.Safe(After(c, steps), ID)
            && forall more :: !Decided(After(c, steps + more), ID)
  {
    var x := AbandonShows(c, p);
    AbandonCast(p);
    hide Run, Shows, Cast, Decided;
    AbandonCalm(p);
    UnmarkedForever(c, AbandonSteps(p), x);
    hide AbandonSteps;
  }

  lemma AbandonCalm(p: Json)
    ensures var steps := AbandonSteps(p); forall i :: 0 <= i < |steps| ==> !steps[i].Stall? && !steps[i].RecoverLeases?
  {
  }

  /* ---- a payment is queued afresh, with its failed attempts forgotten ---- */

  lemma SentFailsStep(c: Config, s: World, x: Scene)
    requires Shows(s, x) && x.o == Sender([Item(ID, x.event.payload)], Added)
    ensures Shows(Apply(c, s, MarkSentFails(O)), x.(o := x.o.(phase := Errored)))
  {
  }

  lemma PendingStep(c: Config, s: World, x: Scene)
    requires Shows(s, x) && x.o == Sender([Item(ID, x.event.payload)], Errored)
    ensures Shows(Apply(c, s, MarkPending(O, "")), x.(event := ReturnedEvent(x.event, ""), o := FREE))
  {
    assert [Item(ID, x.event.payload)][1..] == [];
  }

  /** The event is handed back and sent once more. */
  const RESEND: seq<Step> := [MarkPending(O, "")] + [ClaimOutbox(O, [ID], 0)] + [Enqueue(O)]

  lemma ResendShows(c: Config, o: seq<Step>, x: Scene) returns (y: Scene)
    requires Shows(After(c, o), x) && x.o == Sender([Item(ID, x.event.payload)], Errored) && x.job.None?
    ensures Shows(After(c, o + RESEND), y) && y.job == Some(Job(Waiting, 0, x.event.payload)) && y.tx == x.tx
  {
    var a := o + [MarkPending(O, "")];
    var b := a + [ClaimOutbox(O, [ID], 0)];
    var x1 := x.(event := ReturnedEvent(x.event, ""), o := FREE);
    var x2 := x1.(event := ClaimEvent(x1.event, O, x.now), o := Sender([Item(ID, x.event.payload)], Ready));
    y := x2.(job := Some(Job(Waiting, 0, x.event.payload)), o := x2.o.(phase := Added));
    assert o + RESEND == b + [Enqueue(O)];
    hide Shows, Apply, Run, After;
    Chain(c, o, MarkPending(O, ""));
    PendingStep(c, After(c, o), x);
    Chain(c, a, ClaimOutbox(O, [ID], 0));
    ClaimStep(c, After(c, a), x1);
    Chain(c, b, Enqueue(O));
    EnqueueStep(c, After(c, b), x2);
  }

  /** The job stalls and is dropped by another worker, which sees the row in processing. */
  const SKIP: seq<Step> := [Stall(ID)] + [Deliver(Z, ID)] + [Read(Z)] + [Return(Z)]

  lemma SkipShows(c: Config, o: seq<Step>, x: Scene) returns (y: Scene)
    requires Shows(After(c, o), x) && x.z == Idle && x.tx.status == PROCESSING && x.job.Some?
             && x.job.value.state == Active(W)
    ensures Shows(After(c, o + SKIP), y) && y == x.(job := None)
  {
    var a := o + [Stall(ID)];
    var b := a + [Deliver(Z, ID)];
    var d := b + [Read(Z)];
    var x1 := x.(job := Some(x.job.value.(state := Waiting)));
    var x2 := x1.(job := Some(x.job.value.(state := Active(Z))), z := Delivered(ID, x.job.value.data));
    var x3 := x2.(z := Returned(ID));
    y := x.(job := None);
    assert x3.(job := None, z := Idle) == y;
    assert o + SKIP == d + [Return(Z)];
    hide Shows, Apply, Run, After;
    Chain(c, o, Stall(ID));
    StallStep(c, After(c, o), x);
    Chain(c, a, Deliver(Z, ID));
    DeliverStep(c, After(c, a), x1, true);
    Chain(c, b, Read(Z));
    ReadStep(c, After(c, b), x2, true);
    Chain(c, d, Return(Z));
    ReturnStep(c, After(c, d), x3, true);
  }

  function ForgetSteps(p: Json): seq<Step> { Sending(p) + [MarkSentFails(O)] + ROUND + TAKE + SKIP + RESEND }

  lemma FailedOnce(c: Config, x: Scene)
    requires Waits(x) && c.decide(c.sanitize(x.job.value.data)).Failed?
    ensures var y := Taken(c, Failing(c, x));
            y.tx.retryCount == x.job.value.attemptsMade + 1 && y.tx.status == PROCESSING && y.z == Idle
            && y.job.Some? && y.job.value.state == Active(W) && y.o == x.o && y.event == x.event
  {
  }

  /**
   * The queue's answer to an enqueue is lost, the payment fails once, its job stalls and is dropped,
   * and the event is sent again: the queue counts from zero, the row from one.
   */
  lemma FreshJobForgets(c: Config, p: Json)
    requires c.decide(c.sanitize(c.sanitize(c.sanitize(p)))).Failed?
    ensures var s := After(c, ForgetSteps(p));
            && ID in s.db.txs && !Final(s.db.txs[ID].status) && s.db.txs[ID].retryCount == 1
            && ID in s.queue && s.queue[ID].state == Waiting && s.queue[ID].attemptsMade == 0
  {
    var x := SendingShows(c, p);
    var a := Sending(p) + [MarkSentFails(O)];
    hide Apply, Run, After, Sending, StartTx, UpdateTx, Taken, Failing;
    Chain(c, Sending(p), MarkSentFails(O));
    SentFailsStep(c, After(c, Sending(p)), x);
    var x1 := x.(o := x.o.(phase := Errored));
    FailedOnce(c, x1);
    RoundShows(c, a, x1);
    TakeFrom(c, a + ROUND, Failing(c, x1));
    var x2 := SkipShows(c, a + ROUND + TAKE, Taken(c, Failing(c, x1)));
    var x3 := ResendShows(c, a + ROUND + TAKE + SKIP, x2);
    assert ForgetSteps(p) == a + ROUND + TAKE + SKIP + RESEND;
  }
}
