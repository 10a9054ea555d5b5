/** Idempotency over whole histories: what every save answers, in terms of the requests alone. */
module Idempotency {
  import opened Wrappers
  import opened Json
  import opened Tables
  import opened Protocol
  import opened Invariant
  import opened Lifecycle
  import opened Runs

  /** The first request in a history that used key k. */
  function FirstUse(steps: seq<Step>, k: Key): Option<Step>
    decreases |steps|
  {
    if steps == [] then None
    else
      var n := |steps| - 1;
      var earlier := FirstUse(steps[..n], k);
      if earlier.Some? then earlier
      else if steps[n].Pay? && steps[n].key == Some(k) then Some(steps[n])
      else None
  }

  /** Transaction ids are random UUIDs: no two requests get the same one. */
  predicate FreshIds(steps: seq<Step>) {
    forall i, j :: 0 <= i < j < |steps| && steps[i].Pay? && steps[j].Pay? ==> steps[i].id != steps[j].id
  }

  predicate IdUsed(steps: seq<Step>, id: Id) {
    exists i :: 0 <= i < |steps| && steps[i].Pay? && steps[i].id == id
  }

  lemma {:induction false} FirstUseIsPay(steps: seq<Step>, k: Key)
    ensures FirstUse(steps, k).Some? ==>
              FirstUse(steps, k).value.Pay? && FirstUse(steps, k).value.key == Some(k)
                  && FirstUse(steps, k).value in steps
    decreases |steps|
  {
    if steps != [] { FirstUseIsPay(steps[..|steps| - 1], k); }
  }

  /** Rows exist only for ids of earlier requests. */
  lemma {:induction false} RowsComeFromRequests(c: Config, steps: seq<Step>, id: Id)
    requires ConfigOk(c) && id in After(c, steps).db.txs
    ensures IdUsed(steps, id)
    decreases |steps|
  {
    if steps != [] {
      var n := |steps| - 1;
      var s := After(c, steps[..n]);
      if id in s.db.txs {
        RowsComeFromRequests(c, steps[..n], id);
        var i :| 0 <= i < n && steps[..n][i].Pay? && steps[..n][i].id == id;
        assert steps[i] == steps[..n][i];
      } else {
        RunKeeps(c, steps[..n]);
        RunKeeps(c, steps);
        assert IdOk(c, s.now, ViewOf(s, id)) && IdOk(c, After(c, steps).now, ViewOf(After(c, steps), id));
        OnlyPayInserts(c, s, steps[n], id);
        PayInsertsOwnId(c, s, steps[n], id);
        assert steps[n].Pay? && steps[n].id == id;
      }
    }
  }

  lemma PayInsertsOwnId(c: Config, s: World, step: Step, id: Id)
    requires step.Pay? && id !in s.db.txs && id in Apply(c, s, step).db.txs
    ensures step.id == id
  {
  }

  /** The unique index against the history. */
  ghost predicate KeyHistory(s: World, steps: seq<Step>, k: Key) {
    match FirstUse(steps, k)
    case None => k !in s.db.keys
    case Some(p) =>
      p.Pay? && k in s.db.keys && s.db.keys[k] == p.id && p.id in s.db.txs && s.db.txs[p.id].hash == p.hash
  }

  lemma KeysOnlyByPay(c: Config, s: World, step: Step)
    requires !step.Pay?
    ensures Apply(c, s, step).db.keys == s.db.keys
  {
    if WorkerStep(step) {
      WorkersLeaveEvents(c, s, step);
    } else {
      OthersLeaveKeys(c, s, step);
    }
    hide Apply;
  }

  lemma OthersLeaveKeys(c: Config, s: World, step: Step)
    requires !step.Pay? && !WorkerStep(step)
    ensures Apply(c, s, step).db.keys == s.db.keys
  {
  }

  lemma {:induction false} HistoryKept(c: Config, steps: seq<Step>, k: Key)
    requires ConfigOk(c) && FreshIds(steps)
    ensures KeyHistory(After(c, steps), steps, k)
    decreases |steps|
  {
    if steps != [] {
      var n := |steps| - 1;
      var s, step := After(c, steps[..n]), steps[n];
      HistoryKept(c, steps[..n], k);
      RunKeeps(c, steps[..n]);
      var p := FirstUse(steps[..n], k);
      if p.Some? {
        StepEvolves(c, s, step, p.value.id);
        assert IdOk(c, s.now, ViewOf(s, p.value.id));
      }
      if step.Pay? {
        FreshId(c, steps);
        if step.key.Some? {
          HistoryKept(c, steps[..n], step.key.value);
        }
        PayHistory(c, s, steps, k);
      } else {
        KeysOnlyByPay(c, s, step);
      }
    }
  }

  lemma FreshId(c: Config, steps: seq<Step>)
    requires ConfigOk(c) && FreshIds(steps) && steps != [] && steps[|steps| - 1].Pay?
    ensures steps[|steps| - 1].id !in After(c, steps[..|steps| - 1]).db.txs
  {
    var n := |steps| - 1;
    forall i | 0 <= i < n && steps[..n][i].Pay? ensures steps[..n][i].id != steps[n].id {
      assert steps[..n][i] == steps[i];
    }
    if steps[n].id in After(c, steps[..n]).db.txs {
      RowsComeFromRequests(c, steps[..n], steps[n].id);
      assert false;
    }
  }

  lemma PayHistory(c: Config, s: World, steps: seq<Step>, k: Key)
    requires steps != [] && steps[|steps| - 1].Pay?
    requires s == After(c, steps[..|steps| - 1])
    requires KeyHistory(s, steps[..|steps| - 1], k)
    requires steps[|steps| - 1].key.Some? ==> KeyHistory(s, steps[..|steps| - 1], steps[|steps| - 1].key.value)
    requires steps[|steps| - 1].id !in s.db.txs
    ensures KeyHistory(Apply(c, s, steps[|steps| - 1]), steps, k)
  {
  }

  /** What a request is told, from the history before it: inserted, duplicate or conflict. */
  function DeclaredAnswer(earlier: seq<Step>, key: Option<Key>, hash: JString): SaveResult {
    if key.None? then Inserted
    else match FirstUse(earlier, key.value)
      case None => Inserted
      case Some(p) => if p.Pay? then Existing(p.id, p.hash != hash) else Inserted
  }

  /**
   * In every interleaving of requests with everything else, the i-th step, if a request, is
   * answered as its history declares: the first use of a key inserts; a later use with the same
   * hash gets the first transaction's id, one with another hash a conflict.
   */
  lemma EveryAnswerDeclared(c: Config, steps: seq<Step>, i: nat)
    requires ConfigOk(c) && FreshIds(steps) && i < |steps| && steps[i].Pay?
    ensures PayAnswer(c, After(c, steps[..i]), steps[i].id, steps[i].key, steps[i].hash, steps[i].payload)
            == DeclaredAnswer(steps[..i], steps[i].key, steps[i].hash)
  {
    var upto := steps[..i + 1];
    assert upto[..i] == steps[..i];
    FreshId(c, upto);
    if steps[i].key.Some? {
      HistoryKept(c, steps[..i], steps[i].key.value);
    }
  }

  /** Every transaction has exactly one outbox event, and every event its transaction. */
  lemma OneEventEach(c: Config, steps: seq<Step>)
    requires ConfigOk(c)
    ensures After(c, steps).db.events.Keys == After(c, steps).db.txs.Keys
  {
    RunKeeps(c, steps);
    var s := After(c, steps);
    forall id ensures id in s.db.events <==> id in s.db.txs { assert IdOk(c, s.now, ViewOf(s, id)); }
  }
}
