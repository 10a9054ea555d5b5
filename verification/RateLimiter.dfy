/**
 * middleware/rateLimiter.js: the fixed-window limiter kept in Redis.
 *
 * Whether a key is gone at the very millisecond its expiry names is Redis' own affair; inclusive
 * says which, and every theorem holds either way.
 */
module RateLimiter {
  import opened Wrappers
  import opened Sets

  type ClientKey = string

  datatype Counter = Counter(count: nat, expiresAt: Option<nat>)

  datatype Limit = Limit(windowMs: nat, maxRequests: nat, inclusive: bool)

  /** A moment t against an expiry e. */
  predicate Before(l: Limit, t: nat, e: nat) { if l.inclusive then t <= e else t < e }

  predicate Live(l: Limit, c: Option<Counter>, now: nat) {
    c.Some? && (c.value.expiresAt.Some? ==> Before(l, now, c.value.expiresAt.value))
  }

  /** The script on one key: INCR, PEXPIRE on the first count. */
  function Hit(l: Limit, c: Option<Counter>, now: nat): Counter {
    var incremented := if Live(l, c, now) then Counter(c.value.count + 1, c.value.expiresAt) else Counter(1, None);
    if incremented.count == 1 then incremented.(expiresAt := Some(now + l.windowMs)) else incremented
  }

  function Entry(m: map<ClientKey, Counter>, k: ClientKey): Option<Counter> { if k in m then Some(m[k]) else None }

  datatype Answer = Next | TooManyRequests

  /** The key is there and has not expired: at the very instant of its expiry as the limit says. */
  predicate Kept(l: Limit, m: map<ClientKey, Counter>, k: ClientKey, now: nat) {
    k in m && (m[k].expiresAt == None || now < m[k].expiresAt.value || (now == m[k].expiresAt.value && l.inclusive))
  }

  /** The limiter process against its Redis keys. */
  class Limiter {
    const limit: Limit
    var counters: map<ClientKey, Counter>

    constructor (l: Limit)
      ensures limit == l && counters == map[]
    {
      limit := l;
      counters := map[];
    }

    /** The atomic script: the new count and the remaining time to live (-1 without an expiry). */
    method Eval(key: ClientKey, now: nat) returns (count: nat, ttl: int)
      modifies this
      ensures counters == old(counters)[key := Hit(limit, Entry(old(counters), key), now)]
      ensures count == if Kept(limit, old(counters), key, now) then old(counters)[key].count + 1 else 1
      ensures counters[key].count == count
      ensures counters[key].expiresAt
              == if count > 1 && Kept(limit, old(counters), key, now) then old(counters)[key].expiresAt
                 else Some(now + limit.windowMs)
      ensures ttl == if counters[key].expiresAt.Some? then counters[key].expiresAt.value - now else -1
    {
      var present := key in counters;
      if present && !Live(limit, Some(counters[key]), now) {
        counters := counters - {key};
        present := false;
      }
      if present {
        count := counters[key].count + 1;
        counters := counters[key := counters[key].(count := count)];
      } else {
        count := 1;
        counters := counters[key := Counter(1, None)];
      }
      if count == 1 {
        counters := counters[key := counters[key].(expiresAt := Some(now + limit.windowMs))];
      }
      ttl := if counters[key].expiresAt.Some? then counters[key].expiresAt.value - now else -1;
    }

    /** The middleware: admit while the count is within the limit, and the three headers. */
    method Handle(key: ClientKey, now: nat) returns (answer: Answer, remaining: nat, resetSeconds: nat)
      modifies this
      ensures counters == old(counters)[key := Hit(limit, Entry(old(counters), key), now)]
      ensures answer == Next <==> counters[key].count <= limit.maxRequests
      ensures remaining + counters[key].count == limit.maxRequests
              || (remaining == 0 && counters[key].count > limit.maxRequests)
      ensures counters[key].expiresAt.Some? && counters[key].expiresAt.value >= now ==>
                resetSeconds * 1000 >= counters[key].expiresAt.value - now > (resetSeconds - 1) * 1000
      ensures counters[key].expiresAt.None? || counters[key].expiresAt.value <= now ==> resetSeconds == 0
    {
      var count, ttl := Eval(key, now);
      remaining := if count > limit.maxRequests then 0 else limit.maxRequests - count;
      resetSeconds := if ttl <= 0 then 0 else (ttl + 999) / 1000;
      answer := if count > limit.maxRequests then TooManyRequests else Next;
    }
  }

  /* ---- all clients ---- */

  datatype Arrival = Arrival(key: ClientKey, at: nat)

  function After(l: Limit, trace: seq<Arrival>): map<ClientKey, Counter>
    decreases |trace|
  {
    if trace == [] then map[]
    else
      var m := After(l, trace[..|trace| - 1]);
      var x := trace[|trace| - 1];
      m[x.key := Hit(l, Entry(m, x.key), x.at)]
  }

  /** The arrival times of one client. */
  function Times(trace: seq<Arrival>, k: ClientKey): seq<nat>
    decreases |trace|
  {
    if trace == [] then []
    else Times(trace[..|trace| - 1], k) + if trace[|trace| - 1].key == k then [trace[|trace| - 1].at] else []
  }

  /** The counter of a client that arrives at the given times. */
  function CounterAfter(l: Limit, times: seq<nat>): Option<Counter>
    decreases |times|
  {
    if times == [] then None
    else Some(Hit(l, CounterAfter(l, times[..|times| - 1]), times[|times| - 1]))
  }

  /** Clients do not disturb each other: a client's counter depends on its own arrivals alone. */
  lemma {:induction false} ClientsIndependent(l: Limit, trace: seq<Arrival>, k: ClientKey)
    ensures Entry(After(l, trace), k) == CounterAfter(l, Times(trace, k))
    decreases |trace|
  {
    if trace != [] {
      var n := |trace| - 1;
      ClientsIndependent(l, trace[..n], k);
      if trace[n].key == k {
        assert Times(trace, k)[..|Times(trace, k)| - 1] == Times(trace[..n], k);
      } else {
        assert Times(trace, k) == Times(trace[..n], k);
      }
    }
  }

  /** No key is ever left without an expiry. */
  lemma {:induction false} EveryKeyExpires(l: Limit, trace: seq<Arrival>, k: ClientKey)
    ensures k in After(l, trace) ==> After(l, trace)[k].expiresAt.Some? && After(l, trace)[k].count >= 1
    decreases |trace|
  {
    if trace != [] { EveryKeyExpires(l, trace[..|trace| - 1], k); }
  }

  /* ---- one client: windows ---- */

  predicate Ordered(times: seq<nat>) { forall i, j :: 0 <= i <= j < |times| ==> times[i] <= times[j] }

  /** The arrival that opened the window of arrival i. */
  function Opener(l: Limit, times: seq<nat>, i: nat): (j: nat)
    requires i < |times|
    ensures j <= i
  {
    if i == 0 then 0
    else
      var w := Opener(l, times, i - 1);
      if Before(l, times[i], times[w] + l.windowMs) then w else i
  }

  /** The count the i-th arrival is given. */
  function CountAt(l: Limit, times: seq<nat>, i: nat): nat
    requires i < |times|
  {
    CounterAfter(l, times[..i + 1]).value.count
  }

  predicate Admitted(l: Limit, times: seq<nat>, i: nat)
    requires i < |times|
  {
    CountAt(l, times, i) <= l.maxRequests
  }

  /** An arrival's count is its place in its window, and the key expires with the window. */
  lemma {:induction false} CountIsPlace(l: Limit, times: seq<nat>, i: nat)
    requires i < |times|
    ensures CountAt(l, times, i) == i - Opener(l, times, i) + 1
    ensures CounterAfter(l, times[..i + 1]).value.expiresAt == Some(times[Opener(l, times, i)] + l.windowMs)
    decreases i
  {
    assert times[..i + 1][..i] == times[..i];
    var upTo := times[..i + 1];
    assert upTo[|upTo| - 1] == times[i] && upTo[..|upTo| - 1] == times[..i];
    if i == 0 {
      assert CounterAfter(l, times[..0]) == None;
    } else {
      CountIsPlace(l, times, i - 1);
    }
  }

  /** Each window admits exactly its first maxRequests arrivals. */
  lemma WindowAdmitsFirst(l: Limit, times: seq<nat>, i: nat)
    requires i < |times|
    ensures Admitted(l, times, i) <==> i - Opener(l, times, i) < l.maxRequests
  {
    CountIsPlace(l, times, i);
  }

  lemma {:induction false} OpenerFacts(l: Limit, times: seq<nat>, i: nat)
    requires l.windowMs > 0 && i < |times|
    ensures Opener(l, times, Opener(l, times, i)) == Opener(l, times, i)
    ensures Before(l, times[i], times[Opener(l, times, i)] + l.windowMs)
    decreases i
  {
    if i > 0 { OpenerFacts(l, times, i - 1); }
  }

  lemma {:induction false} OpenerMonotone(l: Limit, times: seq<nat>, i: nat, j: nat)
    requires i <= j < |times|
    ensures Opener(l, times, i) <= Opener(l, times, j)
    ensures Opener(l, times, j) <= i ==> Opener(l, times, j) == Opener(l, times, i)
    decreases j
  {
    if i < j { OpenerMonotone(l, times, i, j - 1); }
  }

  lemma InOrder(times: seq<nat>, i: nat, j: nat)
    requires Ordered(times) && i <= j < |times|
    ensures times[i] <= times[j]
  {
  }

  /** A window opens only when the one before it is over. */
  lemma OpenerOpens(l: Limit, times: seq<nat>, q: nat)
    requires 0 < q < |times| && Opener(l, times, q) == q
    ensures !Before(l, times[q], times[Opener(l, times, q - 1)] + l.windowMs)
  {
  }

  /** A later window opens only after the earlier one is over. */
  lemma WindowsApart(l: Limit, times: seq<nat>, p: nat, q: nat)
    requires Ordered(times) && p < q < |times| && Opener(l, times, q) == q
    requires Opener(l, times, p) == p
    ensures !Before(l, times[q], times[p] + l.windowMs)
  {
    hide Opener, Ordered;
    OpenerMonotone(l, times, p, q - 1);
    OpenerOpens(l, times, q);
    var r := Opener(l, times, q - 1);
    InOrder(times, p, r);
  }

  /** Among arrivals within one window length, all but the first window's share a single window. */
  lemma AtMostTwoWindows(l: Limit, times: seq<nat>, a: nat, lo: nat, i: nat, k: nat)
    requires l.windowMs > 0 && Ordered(times) && lo <= i < |times| && lo <= k < |times|
    requires a <= times[lo] && times[i] <= a + l.windowMs && times[k] <= a + l.windowMs
    requires Opener(l, times, i) != Opener(l, times, lo) && Opener(l, times, k) != Opener(l, times, lo)
    ensures Opener(l, times, i) == Opener(l, times, k)
  {
    var p, q := Opener(l, times, i), Opener(l, times, k);
    OpenerMonotone(l, times, lo, i);
    OpenerMonotone(l, times, lo, k);
    OpenerFacts(l, times, i);
    OpenerFacts(l, times, k);
    OpenerFacts(l, times, lo);
    WindowsApart(l, times, Opener(l, times, lo), p);
    WindowsApart(l, times, Opener(l, times, lo), q);
    if p < q {
      WindowsApart(l, times, p, q);
    } else if q < p {
      WindowsApart(l, times, q, p);
    }
  }

  /** The admitted arrivals in the closed interval [a, a + windowMs]. */
  function AdmittedIn(l: Limit, times: seq<nat>, a: nat): set<nat> {
    set i: nat | i < |times| && Admitted(l, times, i) && a <= times[i] <= a + l.windowMs
  }

  function Slots(w: nat, n: nat): (s: set<nat>)
    ensures forall i :: i in s <==> w <= i < w + n
    ensures |s| == n
  {
    if n == 0 then {} else Slots(w, n - 1) + {w + n - 1}
  }

  /**
   * In any closed interval of one window length, at most twice the limit is admitted: the first
   * admitted arrival's window and one other hold them all.
   */
  lemma AtMostTwiceTheLimit(l: Limit, times: seq<nat>, a: nat)
    requires l.windowMs > 0 && Ordered(times)
    ensures |AdmittedIn(l, times, a)| <= 2 * l.maxRequests
  {
    var s := AdmittedIn(l, times, a);
    if s != {} {
      var lo := Least(s);
      var w := Opener(l, times, lo);
      var m := w;
      if k :| k in s && Opener(l, times, k) != w { m := Opener(l, times, k); }
      var slots := Slots(w, l.maxRequests) + Slots(m, l.maxRequests);
      forall i | i in s ensures i in slots {
        WindowAdmitsFirst(l, times, i);
        if Opener(l, times, i) != w {
          var k :| k in s && Opener(l, times, k) == m && m != w;
          AtMostTwoWindows(l, times, a, lo, i, k);
        }
      }
      SubsetSize(s, slots);
    }
  }

  function Repeated(t: nat, n: nat): (s: seq<nat>)
    ensures |s| == n && forall i :: 0 <= i < n ==> s[i] == t
  {
    seq(n, _ => t)
  }

  lemma {:induction false} SameWindow(l: Limit, times: seq<nat>, w: nat, i: nat)
    requires w <= i < |times| && Opener(l, times, w) == w
    requires forall j :: w <= j <= i ==> Before(l, times[j], times[w] + l.windowMs)
    ensures Opener(l, times, i) == w
    decreases i
  {
    if w < i { SameWindow(l, times, w, i - 1); }
  }

  /** Twice the limit is reached: a full window at its start, and the next one at the end of the interval. */
  lemma TwiceTheLimitIsReached(l: Limit)
    requires l.windowMs > 0 && !l.inclusive
    ensures var n := l.maxRequests;
            var times := Repeated(0, n) + Repeated(l.windowMs, n);
            Ordered(times) && |AdmittedIn(l, times, 0)| == 2 * n
  {
    var n := l.maxRequests;
    var times := Repeated(0, n) + Repeated(l.windowMs, n);
    forall i | 0 <= i < 2 * n ensures i in AdmittedIn(l, times, 0) {
      if i < n {
        SameWindow(l, times, 0, i);
      } else {
        SameWindow(l, times, 0, n - 1);
        assert Opener(l, times, n) == n;
        SameWindow(l, times, n, i);
      }
      WindowAdmitsFirst(l, times, i);
    }
    assert AdmittedIn(l, times, 0) == Slots(0, 2 * n);
  }
}
