/**
 * The heartbeat inside the protocol.  A timed run interleaves the protocol's steps with the timer and
 * the queries of one claim; the claim's renewals are the landings of its queries, and time passes only
 * as the timer and the latencies allow.  The claim is safe from recovery in every such run exactly
 * when the lease covers the longest gap between two renewals.
 */
module HeartbeatRuns {
  import opened Wrappers
  import opened Json
  import opened Tables
  import opened Protocol
  import opened Invariant
  import opened Lifecycle
  import opened Runs
  import B = Heartbeat

  /** The protocol's world and the heartbeat of one claim in it. */
  datatype Timed = Timed(world: World, beat: B.Beat)

  datatype TimedStep = Process(step: Step) | Timer(beat: B.Step)

  function RowIn(s: World, id: Id, r: Tx): Tx { if id in s.db.txs then s.db.txs[id] else r }

  function ApplyTimed(c: Config, t: B.Timing, w: WorkerId, id: Id, x: Timed, step: TimedStep): Timed {
    match step
    case Process(Tick(d)) =>
      if B.MayPass(t, x.beat, d) then Timed(Apply(c, x.world, Tick(d)), B.Apply(t, w, x.beat, B.Pass(d))) else x
    case Process(p) =>
      if p == Renew(w, id) then x  // the worker's renewals are the landings below
      else var s := Apply(c, x.world, p); Timed(s, x.beat.(row := RowIn(s, id, x.beat.row)))
    case Timer(Land) =>
      if x.beat.query.None? || x.beat.query.value.landed then x
      else Timed(Apply(c, x.world, Renew(w, id)), B.Apply(t, w, x.beat, B.Land))
    case Timer(b) =>
      if b.ClaimReply? || b.Tick? || b.Reply? || b.Fail? then Timed(x.world, B.Apply(t, w, x.beat, b)) else x
  }

  function RunTimed(c: Config, t: B.Timing, w: WorkerId, id: Id, x: Timed, steps: seq<TimedStep>): Timed
    decreases |steps|
  {
    if steps == [] then x else RunTimed(c, t, w, id, ApplyTimed(c, t, w, id, x, steps[0]), steps[1..])
  }

  /** The handler has not finalized, and its process lives. */
  predicate GoesOn(w: WorkerId, steps: seq<TimedStep>) {
    forall i :: 0 <= i < |steps| ==> steps[i] != Process(Finalize(w)) && steps[i] != Process(CrashWorker(w))
  }

  /** A worker about to claim an accepted payment whose decision is not a failure. */
  predicate Claims(c: Config, s: World, w: WorkerId, id: Id) {
    var h := WorkerAt(s, w);
    h.Seen? && h.id == id && id in s.db.txs && id in s.starts && s.db.txs[id].status == ACCEPTED
        && !c.decide(h.data).Failed?
  }

  /** The moment the claim takes effect. */
  function Begin(c: Config, t: B.Timing, s: World, w: WorkerId, id: Id): Timed
    requires Claims(c, s, w, id)
  {
    Timed(Apply(c, s, Start(w)), B.Claim(t, w, s.db.txs[id], WorkerAt(s, w).timeline + [PROCESSING], s.now))
  }

  predicate Fits(c: Config, t: B.Timing) { t.interval > 0 && t.lease == c.lease && t.staleMs == c.staleMs }

  /* ---- the invariant ---- */

  /** The beat is the beat of this world's row, and the claim is well. */
  ghost predicate TimedOk(c: Config, t: B.Timing, w: WorkerId, id: Id, x: Timed, timeline: seq<TxStatus>) {
    var h := WorkerAt(x.world, w);
    Inv(c, x.world) && ClaimOf(x.world, w, id) && h.Claimed? && h.id == id && !c.decide(h.data).Failed?
    && x.beat.now == x.world.now && x.beat.row == x.world.db.txs[id] && B.Ok(t, w, x.beat, timeline)
  }

  lemma NotExpired(c: Config, t: B.Timing, w: WorkerId, id: Id, x: Timed, timeline: seq<TxStatus>)
    requires Fits(c, t) && TimedOk(c, t, w, id, x, timeline)
    ensures !LeaseExpired(x.world.db.txs[id], x.world.now, c.staleMs)
  {
    B.GapHolds(t, w, x.beat, timeline);
  }

  /** While the claim lasts, nobody but its worker changes the row. */
  lemma RowUnderClaim(c: Config, s: World, w: WorkerId, step: Step, id: Id)
    requires ClaimOf(s, w, id) && ClaimOf(Apply(c, s, step), w, id) && step != Renew(w, id)
    ensures Apply(c, s, step).db.txs[id] == s.db.txs[id]
  {
    match step {
      case Throw(v) => ThrowUnderClaim(c, s, w, v, id);
      case MarkFailed(v) => MarkFailedUnderClaim(s, w, v, id);
      case Finalize(v) => FinalizeUnderClaim(c, s, w, v, id);
      case Start(v) => StartUnderClaim(c, s, w, v, id);
      case Renew(v, j) => RenewUnderClaim(c, s, w, v, j, id);
      case RecoverLeases => RecoveredView(c, s, id);
      case Pay(_, _, _, _) => EndsByPay(c, s, step, id);
      case _ => TablesSame(c, s, step, id);
    }
    hide ApplyThrow, ApplyMarkFailed, ApplyFinalize, ApplyStart, ApplyRenew, ApplyPay;
  }

  lemma ThrowUnderClaim(c: Config, s: World, w: WorkerId, v: WorkerId, id: Id)
    requires ClaimOf(s, w, id) && ClaimOf(ApplyThrow(c, s, v), w, id)
    ensures ApplyThrow(c, s, v).db.txs[id] == s.db.txs[id]
  {
  }

  lemma MarkFailedUnderClaim(s: World, w: WorkerId, v: WorkerId, id: Id)
    requires ClaimOf(s, w, id) && ClaimOf(ApplyMarkFailed(s, v), w, id)
    ensures ApplyMarkFailed(s, v).db.txs[id] == s.db.txs[id]
  {
  }

  lemma FinalizeUnderClaim(c: Config, s: World, w: WorkerId, v: WorkerId, id: Id)
    requires ClaimOf(s, w, id) && ClaimOf(ApplyFinalize(c, s, v), w, id)
    ensures ApplyFinalize(c, s, v).db.txs[id] == s.db.txs[id]
  {
  }

  lemma StartUnderClaim(c: Config, s: World, w: WorkerId, v: WorkerId, id: Id)
    requires ClaimOf(s, w, id)
    ensures id in ApplyStart(c, s, v).db.txs && ApplyStart(c, s, v).db.txs[id] == s.db.txs[id]
  {
  }

  lemma RenewUnderClaim(c: Config, s: World, w: WorkerId, v: WorkerId, renewed: Id, id: Id)
    requires ClaimOf(s, w, id) && !(v == w && renewed == id)
    ensures id in ApplyRenew(c, s, v, renewed).db.txs && ApplyRenew(c, s, v, renewed).db.txs[id] == s.db.txs[id]
  {
  }

  /** The handler with the claim stays where it is. */
  lemma ClaimedStays(c: Config, s: World, w: WorkerId, step: Step)
    requires WorkerAt(s, w).Claimed? && !c.decide(WorkerAt(s, w).data).Failed?
    requires step != Finalize(w) && step != CrashWorker(w)
    ensures WorkerAt(Apply(c, s, step), w) == WorkerAt(s, w)
  {
    if Mover(step) == Some(w) { OwnMove(c, s, step); } else { OthersStay(c, s, step, w); }
    hide Apply;
  }

  lemma NowStays(c: Config, s: World, step: Step)
    requires !step.Tick?
    ensures Apply(c, s, step).now == s.now
  {
    if WorkerStep(step) { WorkersKeepTime(c, s, step); }
    hide UpdateTx, FinalizeTx, StartTx, RenewTx;
  }

  lemma WorkersKeepTime(c: Config, s: World, step: Step)
    requires WorkerStep(step)
    ensures Apply(c, s, step).now == s.now
  {
    hide UpdateTx, FinalizeTx, StartTx, RenewTx;
  }

  /** No payment that is not to fail is ever reset under its claim. */
  lemma ClaimSurvives(c: Config, t: B.Timing, w: WorkerId, id: Id, x: Timed, timeline: seq<TxStatus>, step: Step)
    requires Fits(c, t) && TimedOk(c, t, w, id, x, timeline) && step != Finalize(w)
    ensures ClaimOf(Apply(c, x.world, step), w, id)
  {
    NotExpired(c, t, w, id, x, timeline);
    ClaimEndsIff(c, x.world, w, step, id);
    NoReset(c, x.world, w, step, id);
    hide Apply, Inv, ResetBy, B.Ok, LeaseExpired, ClaimOf;
  }

  lemma NoReset(c: Config, s: World, w: WorkerId, step: Step, id: Id)
    requires Inv(c, s) && id in s.db.txs
    requires WorkerAt(s, w).Claimed? && WorkerAt(s, w).id == id && !c.decide(WorkerAt(s, w).data).Failed?
    ensures !ResetBy(c, s, step, id)
  {
    assert WorkerOk(c, s, w);
    if ResetBy(c, s, step, id) { OnlyFailuresAreReset(c, s, step, id); }
    hide Inv, ResetBy;
  }

  lemma ProcessKeeps(c: Config, t: B.Timing, w: WorkerId, id: Id, x: Timed, timeline: seq<TxStatus>, step: Step)
    requires ConfigOk(c) && Fits(c, t) && TimedOk(c, t, w, id, x, timeline)
    requires !step.Tick? && step != Finalize(w) && step != CrashWorker(w) && step != Renew(w, id)
    ensures TimedOk(c, t, w, id, ApplyTimed(c, t, w, id, x, Process(step)), timeline)
  {
    ClaimSurvives(c, t, w, id, x, timeline, step);
    hide Inv, ConfigOk, Apply, B.Ok, ClaimOf;
    StepKeeps(c, x.world, step);
    RowUnderClaim(c, x.world, w, step, id);
    ClaimedStays(c, x.world, w, step);
    NowStays(c, x.world, step);
    assert ClaimOf(x.world, w, id) ==> id in x.world.db.txs by { RowOfClaim(x.world, w, id); }
    RowOfClaim(Apply(c, x.world, step), w, id);
  }

  lemma RowOfClaim(s: World, w: WorkerId, id: Id)
    ensures ClaimOf(s, w, id) ==> id in s.db.txs
  {
  }

  lemma TimeKeeps(c: Config, t: B.Timing, w: WorkerId, id: Id, x: Timed, timeline: seq<TxStatus>, d: nat)
    requires ConfigOk(c) && Fits(c, t) && TimedOk(c, t, w, id, x, timeline) && B.MayPass(t, x.beat, d)
    ensures TimedOk(c, t, w, id, ApplyTimed(c, t, w, id, x, Process(Tick(d))), timeline)
  {
    StepKeeps(c, x.world, Tick(d));
    B.StepKeeps(t, w, x.beat, timeline, B.Pass(d));
    hide Inv, B.Ok;
  }

  lemma LandKeeps(c: Config, t: B.Timing, w: WorkerId, id: Id, x: Timed, timeline: seq<TxStatus>)
    requires ConfigOk(c) && Fits(c, t) && TimedOk(c, t, w, id, x, timeline)
    requires x.beat.query.Some? && !x.beat.query.value.landed
    ensures TimedOk(c, t, w, id, ApplyTimed(c, t, w, id, x, Timer(B.Land)), timeline)
  {
    StepKeeps(c, x.world, Renew(w, id));
    B.StepKeeps(t, w, x.beat, timeline, B.Land);
    hide Inv, B.Ok;
  }

  lemma TimerKeeps(c: Config, t: B.Timing, w: WorkerId, id: Id, x: Timed, timeline: seq<TxStatus>, step: B.Step)
    requires TimedOk(c, t, w, id, x, timeline) && (step.ClaimReply? || step.Tick? || step.Reply? || step.Fail?)
    ensures TimedOk(c, t, w, id, ApplyTimed(c, t, w, id, x, Timer(step)), timeline)
  {
    B.StepKeeps(t, w, x.beat, timeline, step);
    hide Inv, B.Ok;
  }

  lemma TimedStepKeeps(c: Config, t: B.Timing, w: WorkerId, id: Id, x: Timed, timeline: seq<TxStatus>, step: TimedStep)
    requires ConfigOk(c) && Fits(c, t) && TimedOk(c, t, w, id, x, timeline)
    requires step != Process(Finalize(w)) && step != Process(CrashWorker(w))
    ensures TimedOk(c, t, w, id, ApplyTimed(c, t, w, id, x, step), timeline)
  {
    hide TimedOk, Fits, B.MayPass;
    match step {
      case Process(Tick(d)) => if B.MayPass(t, x.beat, d) { TimeKeeps(c, t, w, id, x, timeline, d); }
      case Process(p) => if p != Renew(w, id) { ProcessKeeps(c, t, w, id, x, timeline, p); }
      case Timer(Land) =>
        if x.beat.query.Some? && !x.beat.query.value.landed { LandKeeps(c, t, w, id, x, timeline); }
      case Timer(b) =>
        if b.ClaimReply? || b.Tick? || b.Reply? || b.Fail? { TimerKeeps(c, t, w, id, x, timeline, b); }
    }
    hide ApplyTimed;
  }

  lemma {:induction false} TimedRunKeeps(
      c: Config, t: B.Timing, w: WorkerId, id: Id, x: Timed, timeline: seq<TxStatus>, steps: seq<TimedStep>)
    requires ConfigOk(c) && Fits(c, t) && TimedOk(c, t, w, id, x, timeline) && GoesOn(w, steps)
    ensures TimedOk(c, t, w, id, RunTimed(c, t, w, id, x, steps), timeline)
    decreases |steps|
  {
    hide TimedOk, Fits, ApplyTimed;
    if steps != [] {
      TimedStepKeeps(c, t, w, id, x, timeline, steps[0]);
      assert GoesOn(w, steps[1..]);
      TimedRunKeeps(c, t, w, id, ApplyTimed(c, t, w, id, x, steps[0]), timeline, steps[1..]);
    }
  }

  lemma BeginOk(c: Config, t: B.Timing, s: World, w: WorkerId, id: Id)
    requires ConfigOk(c) && Fits(c, t) && B.LongestGap(t) <= t.lease && Inv(c, s) && Claims(c, s, w, id)
    ensures TimedOk(c, t, w, id, Begin(c, t, s, w, id), WorkerAt(s, w).timeline + [PROCESSING])
  {
    StepKeeps(c, s, Start(w));
    hide Inv;
    StartedRow(c, s, w, id);
    hide Apply;
  }

  lemma StartedRow(c: Config, s: World, w: WorkerId, id: Id)
    requires Claims(c, s, w, id)
    ensures var s', timeline := Apply(c, s, Start(w)), WorkerAt(s, w).timeline + [PROCESSING];
            s'.now == s.now && id in s'.db.txs
            && Some(s'.db.txs[id]) == StartTx(s.db.txs[id], w, Some(timeline), s.now, c.lease) && ClaimOf(s', w, id)
            && WorkerAt(s', w).Claimed? && WorkerAt(s', w).id == id && WorkerAt(s', w).data == WorkerAt(s, w).data
  {
  }

  /* ---- the main results ---- */

  /**
   * If the lease covers the longest gap, then in every timed run, whatever recovery, other workers,
   * senders and requests do, the claim stays, its renewals are never further apart than the gap, and
   * its finalize decides the row.
   */
  lemma HeartbeatKeepsClaim(c: Config, t: B.Timing, s: World, w: WorkerId, id: Id, steps: seq<TimedStep>)
    requires ConfigOk(c) && Fits(c, t) && B.LongestGap(t) <= t.lease && Inv(c, s) && Claims(c, s, w, id)
    requires GoesOn(w, steps)
    ensures var s' := RunTimed(c, t, w, id, Begin(c, t, s, w, id), steps).world;
            ClaimOf(s', w, id) && s'.db.txs[id].heartbeatAt.Some?
            && s'.now <= s'.db.txs[id].heartbeatAt.value + B.LongestGap(t)
            && Decided(Apply(c, s', Finalize(w)), id)
  {
    var timeline := WorkerAt(s, w).timeline + [PROCESSING];
    var x := RunTimed(c, t, w, id, Begin(c, t, s, w, id), steps);
    BeginOk(c, t, s, w, id);
    TimedRunKeeps(c, t, w, id, Begin(c, t, s, w, id), timeline, steps);
    hide RunTimed, Begin, Inv;
    B.GapHolds(t, w, x.beat, timeline);
    Finalizes(c, x.world, w, id);
    hide Apply;
  }

  lemma Finalizes(c: Config, s: World, w: WorkerId, id: Id)
    requires WorkerAt(s, w).Claimed? && WorkerAt(s, w).id == id && ClaimOf(s, w, id)
             && !c.decide(WorkerAt(s, w).data).Failed?
    ensures Decided(Apply(c, s, Finalize(w)), id)
  {
  }

  /** The heartbeat's own run as a timed run. */
  function Alongside(steps: seq<B.Step>): seq<TimedStep>
    decreases |steps|
  {
    if steps == [] then []
    else
      [match steps[0] case Pass(d) => Process(Tick(d)) case Recover => Process(RecoverLeases) case b => Timer(b)]
      + Alongside(steps[1..])
  }

  predicate InStep(s: World, id: Id, b: B.Beat) { id in s.db.txs && s.db.txs[id] == b.row && s.now == b.now }

  lemma AlongsideStep(c: Config, t: B.Timing, w: WorkerId, id: Id, x: Timed, step: B.Step)
    requires Fits(c, t) && InStep(x.world, id, x.beat) && B.Alone([step])
    ensures var y := ApplyTimed(c, t, w, id, x, Alongside([step])[0]);
            y.beat == B.Apply(t, w, x.beat, step) && InStep(y.world, id, y.beat)
  {
    assert [step][1..] == [] && [step][0] == step;
    assert !(step.OtherStart? || step.OtherRenew? || step.OtherFinalize? || step.OtherReset?);
    if step.Recover? { RecoveredView(c, x.world, id); }
  }

  lemma {:induction false} AlongsideRun(c: Config, t: B.Timing, w: WorkerId, id: Id, x: Timed, steps: seq<B.Step>)
    requires Fits(c, t) && InStep(x.world, id, x.beat) && B.Alone(steps)
    ensures var y := RunTimed(c, t, w, id, x, Alongside(steps));
            y.beat == B.Run(t, w, x.beat, steps) && InStep(y.world, id, y.beat)
    ensures GoesOn(w, Alongside(steps))
    decreases |steps|
  {
    if steps != [] {
      AlongsideStep(c, t, w, id, x, steps[0]);
      assert Alongside([steps[0]])[0] == Alongside(steps)[0] && Alongside(steps)[1..] == Alongside(steps[1..]);
      assert B.Alone(steps[1..]);
      hide ApplyTimed, InStep, Fits, B.Apply;
      AlongsideRun(c, t, w, id, ApplyTimed(c, t, w, id, x, Alongside(steps)[0]), steps[1..]);
    }
  }

  /** The claim has survived the run. */
  predicate Survives(c: Config, t: B.Timing, s: World, w: WorkerId, id: Id, steps: seq<TimedStep>)
    requires Claims(c, s, w, id)
  {
    ClaimOf(RunTimed(c, t, w, id, Begin(c, t, s, w, id), steps).world, w, id)
  }

  /** In the protocol, the claim is safe in every timed run if and only if the lease covers the longest gap. */
  lemma ClaimSafeIff(c: Config, t: B.Timing, s: World, w: WorkerId, id: Id)
    requires ConfigOk(c) && Fits(c, t) && Inv(c, s) && Claims(c, s, w, id)
    ensures (forall steps :: GoesOn(w, steps) ==> Survives(c, t, s, w, id, steps)) <==> B.LongestGap(t) <= t.lease
  {
    if B.LongestGap(t) <= t.lease {
      forall steps | GoesOn(w, steps) ensures Survives(c, t, s, w, id, steps) {
        HeartbeatKeepsClaim(c, t, s, w, id, steps);
      }
    } else {
      ShortLeaseLoses(c, t, s, w, id);
    }
    hide Inv, Survives, Claims;
  }

  lemma ShortLeaseLoses(c: Config, t: B.Timing, s: World, w: WorkerId, id: Id)
    requires Fits(c, t) && Claims(c, s, w, id) && t.lease < B.LongestGap(t)
    ensures exists steps :: GoesOn(w, steps) && !Survives(c, t, s, w, id, steps)
  {
    var timeline := WorkerAt(s, w).timeline + [PROCESSING];
    var claim := B.Claim(t, w, s.db.txs[id], timeline, s.now);
    B.ShortLeaseIsLost(t, w, s.db.txs[id], timeline, s.now);
    var steps :| B.Alone(steps) && B.Run(t, w, claim, steps).row.claimant != Some(w);
    StartedRow(c, s, w, id);
    hide Apply, B.Run, RunTimed, B.LongestGap;
    AlongsideRun(c, t, w, id, Begin(c, t, s, w, id), steps);
    assert !Survives(c, t, s, w, id, Alongside(steps));
  }
}
