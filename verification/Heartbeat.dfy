/**
 * The heartbeat of a claim (setInterval with a skip-while-running guard) against lease recovery.
 * The claim is safe in every run exactly when the lease covers the longest possible gap between
 * two renewals.
 */
module Heartbeat {
  import opened Wrappers
  import opened Tables

  /**
   * interval between ticks, the longest time a query takes, the most renewals that fail in a row,
   * the lease, and the fallback timeout of recovery.
   */
  datatype Timing = Timing(interval: nat, latency: nat, failures: nat, lease: nat, staleMs: nat)

  /** Pending until the claim's own reply arrives; Cleared by clearInterval. */
  datatype Timer = Pending | Ticking(next: nat) | Cleared

  datatype Query = Query(begin: nat, landed: bool)

  /**
   * One claimed row and its heartbeat.  base is when the last successful query, at first the claim,
   * was issued; failed counts the failures since; query is the one under way (heartbeatRunning).
   */
  datatype Beat = Beat(now: nat, row: Tx, timer: Timer, query: Option<Query>, base: nat, failed: nat)

  datatype Step =
    | Pass(d: nat)
    | ClaimReply
    | Tick
    | Land
    | Reply
    | Fail
    | Recover
    | OtherStart(v: WorkerId)
    | OtherRenew(v: WorkerId)
    | OtherFinalize(v: WorkerId, u: Updates)
    | OtherReset(u: Updates)

  /** Time stops at the next tick and at the latest reply of a query under way. */
  predicate MayPass(t: Timing, b: Beat, d: nat) {
    && (b.timer.Pending? ==> b.now + d <= b.base + t.latency)
    && (b.timer.Ticking? ==> b.now + d <= b.timer.next)
    && (b.query.Some? ==> b.now + d <= b.query.value.begin + t.latency)
  }

  function Apply(t: Timing, w: WorkerId, b: Beat, step: Step): Beat {
    match step
    case Pass(d) => if MayPass(t, b, d) then b.(now := b.now + d) else b
    case ClaimReply => if b.timer.Pending? then b.(timer := Ticking(b.now + t.interval)) else b
    case Tick =>
      if b.timer != Ticking(b.now) then b
      else b.(timer := Ticking(b.now + t.interval),
              query := if b.query.Some? then b.query else Some(Query(b.now, false)))
    case Land =>
      if b.query.None? || b.query.value.landed then b
      else (match RenewTx(b.row, w, b.now, t.lease)
            case None => b.(timer := Cleared, query := None)
            case Some(r) => b.(row := r, query := Some(b.query.value.(landed := true))))
    case Reply =>
      if b.query.None? || !b.query.value.landed then b
      else b.(query := None, base := b.query.value.begin, failed := 0)
    case Fail =>
      if b.query.None? || b.query.value.landed || b.failed >= t.failures then b
      else b.(query := None, failed := b.failed + 1)
    case Recover => b.(row := RecoverTx(b.row, b.now, t.staleMs))
    case OtherStart(v) =>
      if v == w then b else b.(row := StartTx(b.row, v, None, b.now, t.lease).GetOr(b.row))
    case OtherRenew(v) =>
      if v == w then b else b.(row := RenewTx(b.row, v, b.now, t.lease).GetOr(b.row))
    case OtherFinalize(v, u) =>
      if v == w then b else b.(row := FinalizeTx(b.row, v, u).GetOr(b.row))
    case OtherReset(u) => b.(row := UpdateTx(b.row, u, true))
  }

  function Run(t: Timing, w: WorkerId, b: Beat, steps: seq<Step>): Beat
    decreases |steps|
  {
    if steps == [] then b else Run(t, w, Apply(t, w, b, steps[0]), steps[1..])
  }

  /** The moment the claim takes effect on an accepted row. */
  function Claim(t: Timing, w: WorkerId, row: Tx, timeline: seq<TxStatus>, now: nat): Beat
    requires row.status == ACCEPTED
  {
    Beat(now, StartTx(row, w, Some(timeline), now, t.lease).value, Pending, None, now, 0)
  }

  /* ---- the longest gap ---- */

  /** From one tick that starts a query to the next tick after its latest reply. */
  function Round(t: Timing): nat
    requires t.interval > 0
  {
    (t.latency / t.interval + 1) * t.interval
  }

  /** How late, after base, the n-th failure may leave the start of the next query. */
  function Worst(t: Timing, n: nat): nat
    requires t.interval > 0
  {
    if n == 0 then t.latency + t.interval else Worst(t, n - 1) + Round(t)
  }

  /** The longest time a renewal may take to follow the one before it. */
  function LongestGap(t: Timing): nat
    requires t.interval > 0
  {
    Worst(t, t.failures) + t.latency
  }

  lemma DivisionBounds(a: nat, h: nat)
    requires h > 0
    ensures a / h * h <= a < (a / h + 1) * h
  {
  }

  lemma RoundBounds(t: Timing)
    requires t.interval > 0
    ensures t.latency < Round(t) <= t.latency + t.interval
  {
    DivisionBounds(t.latency, t.interval);
  }

  lemma {:induction false} WorstGrows(t: Timing, n: nat, m: nat)
    requires t.interval > 0 && n <= m
    ensures Worst(t, n) <= Worst(t, m)
    decreases m
  {
    if n < m { WorstGrows(t, n, m - 1); }
  }

  /** The gap in closed form is at most (f + 1) * (H + D) + D. */
  lemma {:induction false} GapAtMost(t: Timing, n: nat)
    requires t.interval > 0
    ensures Worst(t, n) <= (n + 1) * (t.interval + t.latency)
  {
    RoundBounds(t);
    if n > 0 { GapAtMost(t, n - 1); }
  }

  /** Ticks lie on a grid of the interval, so the next one after a reply is at most a round away. */
  lemma OnGrid(t: Timing, begin: nat, next: nat, k: nat)
    requires t.interval > 0 && next == begin + k * t.interval && next <= begin + t.latency + t.interval
    ensures next <= begin + Round(t)
  {
    var m := t.latency / t.interval;
    DivisionBounds(t.latency, t.interval);
    Distribute(m + 1, t.interval);
    if k > m + 1 {
      ProductMonotone(m + 2, k, t.interval);
      assert false;
    }
    ProductMonotone(k, m + 1, t.interval);
  }

  lemma ProductMonotone(a: nat, b: nat, h: nat)
    requires a <= b
    ensures a * h <= b * h
  {
  }

  lemma Distribute(a: nat, h: nat)
    ensures (a + 1) * h == a * h + h
  {
  }

  /* ---- the invariant ---- */

  ghost predicate Grid(t: Timing, begin: nat, next: nat) {
    exists k: nat :: next == begin + k * t.interval
  }

  predicate Held(t: Timing, w: WorkerId, b: Beat, timeline: seq<TxStatus>) {
    && b.row.status == PROCESSING && b.row.claimant == Some(w) && b.row.timeline == timeline
    && b.row.heartbeatAt.Some? && b.base <= b.row.heartbeatAt.value <= b.now
    && b.row.leaseExpiresAt == Some(b.row.heartbeatAt.value + t.lease)
  }

  ghost predicate Timely(t: Timing, b: Beat)
    requires t.interval > 0
  {
    && b.failed <= t.failures
    && match b.timer
       case Cleared => false
       case Pending => b.query.None? && b.failed == 0 && b.now <= b.base + t.latency
       case Ticking(next) =>
         b.now <= next <= b.now + t.interval
         && match b.query
            case None => next <= b.base + Worst(t, b.failed)
            case Some(q) =>
              && q.begin <= b.now <= q.begin + t.latency && q.begin <= b.base + Worst(t, b.failed)
              && Grid(t, q.begin, next)
              && (q.landed ==> b.row.heartbeatAt.Some? && q.begin <= b.row.heartbeatAt.value)
  }

  ghost predicate Ok(t: Timing, w: WorkerId, b: Beat, timeline: seq<TxStatus>) {
    t.interval > 0 && LongestGap(t) <= t.lease && Held(t, w, b, timeline) && Timely(t, b)
  }

  lemma GapHolds(t: Timing, w: WorkerId, b: Beat, timeline: seq<TxStatus>)
    requires t.interval > 0 && Held(t, w, b, timeline) && Timely(t, b)
    ensures b.now <= b.row.heartbeatAt.value + LongestGap(t)
  {
    WorstGrows(t, 0, b.failed);
    WorstGrows(t, b.failed, t.failures);
  }

  lemma TickKeeps(t: Timing, w: WorkerId, b: Beat, timeline: seq<TxStatus>)
    requires Ok(t, w, b, timeline)
    ensures Ok(t, w, Apply(t, w, b, Tick), timeline)
  {
    if b.timer == Ticking(b.now) {
      var b' := Apply(t, w, b, Tick);
      if b.query.None? {
        assert b.now + t.interval == b.now + 1 * t.interval;
        assert Grid(t, b.now, b.now + t.interval);
      } else {
        var q := b.query.value;
        var k: nat :| b.now == q.begin + k * t.interval;
        assert b.now + t.interval == q.begin + (k + 1) * t.interval;
        assert Grid(t, q.begin, b.now + t.interval);
      }
    }
  }

  lemma AnswerKeeps(t: Timing, w: WorkerId, b: Beat, timeline: seq<TxStatus>, step: Step)
    requires Ok(t, w, b, timeline) && (step.Reply? || step.Fail?)
    ensures Ok(t, w, Apply(t, w, b, step), timeline)
  {
    if b.query.Some? && b.timer.Ticking? {
      var q := b.query.value;
      var k: nat :| b.timer.next == q.begin + k * t.interval;
      OnGrid(t, q.begin, b.timer.next, k);
      RoundBounds(t);
    }
  }

  lemma StepKeeps(t: Timing, w: WorkerId, b: Beat, timeline: seq<TxStatus>, step: Step)
    requires Ok(t, w, b, timeline) && !step.OtherReset?
    ensures Ok(t, w, Apply(t, w, b, step), timeline)
  {
    GapHolds(t, w, b, timeline);
    match step {
      case Tick => TickKeeps(t, w, b, timeline);
      case Reply => AnswerKeeps(t, w, b, timeline, step);
      case Fail => AnswerKeeps(t, w, b, timeline, step);
      case ClaimReply => WorstGrows(t, 0, t.failures);
      case Pass(_) | Land =>
      case _ => OthersKeep(t, w, b, timeline, step);
    }
  }

  lemma OthersKeep(t: Timing, w: WorkerId, b: Beat, timeline: seq<TxStatus>, step: Step)
    requires Ok(t, w, b, timeline) && b.now <= b.row.heartbeatAt.value + LongestGap(t)
    requires step.Recover? || step.OtherStart? || step.OtherRenew? || step.OtherFinalize?
    ensures Apply(t, w, b, step) == b
  {
    hide Timely;
  }

  /** No failed callback of another worker updates the row. */
  predicate Unreset(steps: seq<Step>) { forall i :: 0 <= i < |steps| ==> !steps[i].OtherReset? }

  lemma {:induction false} RunKeeps(t: Timing, w: WorkerId, b: Beat, timeline: seq<TxStatus>, steps: seq<Step>)
    requires Ok(t, w, b, timeline) && Unreset(steps)
    ensures Ok(t, w, Run(t, w, b, steps), timeline)
    decreases |steps|
  {
    if steps != [] {
      StepKeeps(t, w, b, timeline, steps[0]);
      RunKeeps(t, w, Apply(t, w, b, steps[0]), timeline, steps[1..]);
    }
  }

  /**
   * If the lease covers the longest gap and no failed callback updates the row, then whatever
   * recovery and other workers do, the claim stays, renewals are never further apart than the gap,
   * and finalize succeeds.
   */
  lemma ClaimIsKept(t: Timing, w: WorkerId, row: Tx, timeline: seq<TxStatus>, now: nat, steps: seq<Step>, u: Updates)
    requires t.interval > 0 && row.status == ACCEPTED && LongestGap(t) <= t.lease && Unreset(steps)
    ensures var b := Run(t, w, Claim(t, w, row, timeline, now), steps);
            && b.row.status == PROCESSING && b.row.claimant == Some(w) && b.row.timeline == timeline
            && b.row.heartbeatAt.Some? && b.now <= b.row.heartbeatAt.value + LongestGap(t)
            && !LeaseExpired(b.row, b.now, t.staleMs)
            && FinalizeTx(b.row, w, u).Some?
  {
    var b := Claim(t, w, row, timeline, now);
    RunKeeps(t, w, b, timeline, steps);
    GapHolds(t, w, Run(t, w, b, steps), timeline);
  }

  /** A claim that is gone does not come back to this handler. */
  lemma {:induction false} NeverBack(t: Timing, w: WorkerId, b: Beat, steps: seq<Step>)
    requires b.row.claimant != Some(w)
    ensures Run(t, w, b, steps).row.claimant != Some(w)
    decreases |steps|
  {
    if steps != [] { NeverBack(t, w, Apply(t, w, b, steps[0]), steps[1..]); }
  }

  lemma {:induction false} ResetTakes(t: Timing, w: WorkerId, b: Beat, steps: seq<Step>)
    requires !Unreset(steps)
    ensures Run(t, w, b, steps).row.claimant != Some(w)
    decreases |steps|
  {
    var next := Apply(t, w, b, steps[0]);
    if steps[0].OtherReset? { NeverBack(t, w, next, steps[1..]); } else { ResetTakes(t, w, next, steps[1..]); }
  }

  /** With such a lease the claim is lost exactly in the runs in which a failed callback updates the row. */
  lemma ClaimKeptIff(t: Timing, w: WorkerId, row: Tx, timeline: seq<TxStatus>, now: nat, steps: seq<Step>)
    requires t.interval > 0 && row.status == ACCEPTED && LongestGap(t) <= t.lease
    ensures Run(t, w, Claim(t, w, row, timeline, now), steps).row.claimant == Some(w) <==> Unreset(steps)
  {
    if Unreset(steps) {
      ClaimIsKept(t, w, row, timeline, now, steps, Updates(None, None, None, None, None, None, None));
    } else {
      ResetTakes(t, w, Claim(t, w, row, timeline, now), steps);
    }
  }

  /** The bound on intervals as it is usually computed is enough. */
  lemma SimpleBoundIsEnough(t: Timing)
    requires t.interval > 0 && (t.failures + 1) * (t.interval + t.latency) + t.latency <= t.lease
    ensures LongestGap(t) <= t.lease
  {
    GapAtMost(t, t.failures);
  }

  /* ---- the gap is reached ---- */

  lemma {:induction false} RunAppend(t: Timing, w: WorkerId, b: Beat, x: seq<Step>, y: seq<Step>)
    ensures Run(t, w, b, x + y) == Run(t, w, Run(t, w, b, x), y)
    decreases |x|
  {
    if x == [] {
      assert x + y == y;
    } else {
      assert (x + y)[0] == x[0] && (x + y)[1..] == x[1..] + y;
      RunAppend(t, w, Apply(t, w, b, x[0]), x[1..], y);
    }
  }

  /** Ticks that find the query still running. */
  function Skips(t: Timing, k: nat): seq<Step> {
    if k == 0 then [] else [Pass(t.interval), Tick] + Skips(t, k - 1)
  }

  lemma {:induction false} SkipsRun(t: Timing, w: WorkerId, b: Beat, k: nat)
    requires t.interval > 0 && b.timer == Ticking(b.now + t.interval) && b.query.Some?
    requires b.now + k * t.interval <= b.query.value.begin + t.latency
    ensures Run(t, w, b, Skips(t, k))
            == b.(now := b.now + k * t.interval, timer := Ticking(b.now + k * t.interval + t.interval))
    decreases k
  {
    if k > 0 {
      assert k * t.interval == t.interval + (k - 1) * t.interval;
      var b1 := b.(now := b.now + t.interval, timer := Ticking(b.now + t.interval + t.interval));
      assert Run(t, w, b, [Pass(t.interval), Tick]) == b1 by {
        TwoSteps(t, w, b, Pass(t.interval), Tick);
      }
      RunAppend(t, w, b, [Pass(t.interval), Tick], Skips(t, k - 1));
      SkipsRun(t, w, b1, k - 1);
    }
  }

  lemma TwoSteps(t: Timing, w: WorkerId, b: Beat, x: Step, y: Step)
    ensures Run(t, w, b, [x, y]) == Apply(t, w, Apply(t, w, b, x), y)
  {
    hide Apply;
    assert [x, y] == [x] + [y];
    RunAppend(t, w, b, [x], [y]);
    OneStep(t, w, b, x);
    OneStep(t, w, Apply(t, w, b, x), y);
  }

  /** Waiting for the tick, starting a query, and sitting it out to the latest reply. */
  function SlowQuery(t: Timing, wait: nat): seq<Step>
    requires t.interval > 0
  {
    [Pass(wait), Tick] + Skips(t, t.latency / t.interval) + [Pass(Leftover(t))]
  }

  function Leftover(t: Timing): nat
    requires t.interval > 0
  {
    DivisionBounds(t.latency, t.interval);
    t.latency - t.latency / t.interval * t.interval
  }

  lemma SlowQueryRun(t: Timing, w: WorkerId, b: Beat, wait: nat)
    requires t.interval > 0 && b.timer == Ticking(b.now + wait) && b.query.None?
    ensures Run(t, w, b, SlowQuery(t, wait))
            == b.(now := b.now + wait + t.latency, timer := Ticking(b.now + wait + Round(t)),
                  query := Some(Query(b.now + wait, false)))
  {
    DivisionBounds(t.latency, t.interval);
    var k := t.latency / t.interval;
    var begin := b.now + wait;
    var b1 := b.(now := begin, timer := Ticking(begin + t.interval), query := Some(Query(begin, false)));
    TwoSteps(t, w, b, Pass(wait), Tick);
    assert Run(t, w, b, [Pass(wait), Tick]) == b1;
    SkipsRun(t, w, b1, k);
    var b2 := b1.(now := begin + k * t.interval, timer := Ticking(begin + k * t.interval + t.interval));
    OneStep(t, w, b2, Pass(Leftover(t)));
    assert k * t.interval + t.interval == Round(t);
    SlowQueryParts(t, w, b, wait);
  }

  lemma SlowQueryParts(t: Timing, w: WorkerId, b: Beat, wait: nat)
    requires t.interval > 0
    ensures var x := Run(t, w, b, [Pass(wait), Tick]);
            var y := Run(t, w, x, Skips(t, t.latency / t.interval));
            Run(t, w, b, SlowQuery(t, wait)) == Run(t, w, y, [Pass(Leftover(t))])
  {
    hide Run, Apply, Skips, Leftover;
    var k := t.latency / t.interval;
    RunAppend(t, w, b, [Pass(wait), Tick] + Skips(t, k), [Pass(Leftover(t))]);
    RunAppend(t, w, b, [Pass(wait), Tick], Skips(t, k));
  }

  lemma OneStep(t: Timing, w: WorkerId, b: Beat, x: Step)
    ensures Run(t, w, b, [x]) == Apply(t, w, b, x)
  {
    assert [x][1..] == [];
  }

  /** n slow queries that fail, then one more that has not landed at its latest moment. */
  function SlowRun(t: Timing, wait: nat, n: nat): seq<Step>
    requires t.interval > 0
    decreases n
  {
    RoundBounds(t);
    if n == 0 then SlowQuery(t, wait)
    else SlowQuery(t, wait) + [Fail] + SlowRun(t, Round(t) - t.latency, n - 1)
  }

  /** Only the worker's own timer and queries, time, and recovery. */
  predicate Alone(steps: seq<Step>) {
    forall i :: 0 <= i < |steps| ==>
      !(steps[i].OtherStart? || steps[i].OtherRenew? || steps[i].OtherFinalize? || steps[i].OtherReset?)
  }

  lemma {:induction false} SkipsAlone(t: Timing, k: nat)
    ensures Alone(Skips(t, k))
  {
    if k > 0 { SkipsAlone(t, k - 1); }
  }

  lemma AloneAfter(a: seq<Step>, b: seq<Step>)
    requires Alone(a) && Alone(b)
    ensures Alone(a + b)
  {
  }

  lemma SlowQueryAlone(t: Timing, wait: nat)
    requires t.interval > 0
    ensures Alone(SlowQuery(t, wait))
  {
    SkipsAlone(t, t.latency / t.interval);
    AloneAfter([Pass(wait), Tick], Skips(t, t.latency / t.interval));
    AloneAfter([Pass(wait), Tick] + Skips(t, t.latency / t.interval), [Pass(Leftover(t))]);
  }

  lemma {:induction false} SlowRunAlone(t: Timing, wait: nat, n: nat)
    requires t.interval > 0
    ensures Alone(SlowRun(t, wait, n))
    decreases n
  {
    SlowQueryAlone(t, wait);
    RoundBounds(t);
    hide SlowQuery;
    if n > 0 {
      SlowRunAlone(t, Round(t) - t.latency, n - 1);
      AloneAfter(SlowQuery(t, wait), [Fail]);
      AloneAfter(SlowQuery(t, wait) + [Fail], SlowRun(t, Round(t) - t.latency, n - 1));
    }
  }

  /** n rounds after the first wait. */
  function Rounds(t: Timing, n: nat): nat
    requires t.interval > 0
  {
    if n == 0 then 0 else Rounds(t, n - 1) + Round(t)
  }

  lemma {:induction false} WorstIsRounds(t: Timing, n: nat)
    requires t.interval > 0
    ensures Worst(t, n) == t.latency + t.interval + Rounds(t, n)
  {
    if n > 0 { WorstIsRounds(t, n - 1); }
  }

  lemma {:induction false} SlowRunRuns(t: Timing, w: WorkerId, b: Beat, wait: nat, n: nat)
    requires t.interval > 0 && b.timer == Ticking(b.now + wait) && b.query.None? && b.failed + n <= t.failures
    ensures var e := Run(t, w, b, SlowRun(t, wait, n));
            e.row == b.row && e.now == b.now + wait + Rounds(t, n) + t.latency
    decreases n
  {
    RoundBounds(t);
    SlowQueryRun(t, w, b, wait);
    if n > 0 {
      var b1 := Run(t, w, b, SlowQuery(t, wait));
      RunAppend(t, w, b, SlowQuery(t, wait) + [Fail], SlowRun(t, Round(t) - t.latency, n - 1));
      RunAppend(t, w, b, SlowQuery(t, wait), [Fail]);
      OneStep(t, w, b1, Fail);
      SlowRunRuns(t, w, Apply(t, w, b1, Fail), Round(t) - t.latency, n - 1);
      RoundsShift(t, n);
    }
  }

  lemma RoundsShift(t: Timing, n: nat)
    requires t.interval > 0 && n > 0
    ensures Rounds(t, n) == Rounds(t, n - 1) + Round(t)
  {
  }

  /** If the lease is shorter than the longest gap, some run has the claim taken by recovery. */
  lemma ShortLeaseIsLost(t: Timing, w: WorkerId, row: Tx, timeline: seq<TxStatus>, now: nat)
    requires t.interval > 0 && row.status == ACCEPTED && t.lease < LongestGap(t)
    ensures exists steps :: Alone(steps) && Run(t, w, Claim(t, w, row, timeline, now), steps).row.claimant != Some(w)
  {
    var b := Claim(t, w, row, timeline, now);
    var start := [Pass(t.latency), ClaimReply];
    TwoSteps(t, w, b, start[0], start[1]);
    var b1 := Run(t, w, b, start);
    var slow := SlowRun(t, t.interval, t.failures);
    SlowRunRuns(t, w, b1, t.interval, t.failures);
    WorstIsRounds(t, t.failures);
    RunAppend(t, w, b, start + slow, [Recover]);
    RunAppend(t, w, b, start, slow);
    OneStep(t, w, Run(t, w, b, start + slow), Recover);
    SlowRunAlone(t, t.interval, t.failures);
    assert Alone(start + slow + [Recover]) && Run(t, w, b, start + slow + [Recover]).row.claimant == None;
  }

  /**
   * Recovery never takes the claim, in any run without such updates, if and only if the lease is at
   * least the longest gap.
   */
  lemma SafeIffLeaseCoversGap(t: Timing, w: WorkerId, row: Tx, timeline: seq<TxStatus>, now: nat)
    requires t.interval > 0 && row.status == ACCEPTED
    ensures (forall steps :: Unreset(steps) ==>
               Run(t, w, Claim(t, w, row, timeline, now), steps).row.claimant == Some(w))
            <==> LongestGap(t) <= t.lease
  {
    var b := Claim(t, w, row, timeline, now);
    if LongestGap(t) <= t.lease {
      forall steps | Unreset(steps) ensures Run(t, w, b, steps).row.claimant == Some(w) {
        ClaimIsKept(t, w, row, timeline, now, steps, Updates(None, None, None, None, None, None, None));
      }
    } else {
      ShortLeaseIsLost(t, w, row, timeline, now);
      var steps :| Alone(steps) && Run(t, w, b, steps).row.claimant != Some(w);
      assert Unreset(steps);
    }
  }
}
