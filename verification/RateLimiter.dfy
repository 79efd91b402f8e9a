/// The fixed-window rate limiter `allowRequest` of cmd/gate/server.go, with a
/// clock that never goes back.
///
/// The code reads the clock before it takes the mutex. Requests are ordered here by their critical
/// sections, and it is assumed that this is also the order of the times they read.

module RateLimiter {
  type Key = nat

  datatype RateWindow = RateWindow(started: nat, count: int)

  datatype Request = Request(key: Key, now: nat, limit: int, window: nat)

  predicate Opens(limits: map<Key, RateWindow>, r: Request) {
    r.key !in limits || r.now - limits[r.key].started >= r.window
  }

  function Decide(limits: map<Key, RateWindow>, r: Request): (map<Key, RateWindow>, bool) {
    if Opens(limits, r) then (limits[r.key := RateWindow(r.now, 1)], true)
    else if limits[r.key].count >= r.limit then (limits, false)
    else (limits[r.key := limits[r.key].(count := limits[r.key].count + 1)], true)
  }

  class Server {
    var rateLimits: map<Key, RateWindow>

    constructor ()
      ensures rateLimits == map[]
    {
      rateLimits := map[];
    }

    method AllowRequest(now: nat, key: Key, limit: int, window: nat) returns (ok: bool)
      modifies this
      ensures (rateLimits, ok) == Decide(old(rateLimits), Request(key, now, limit, window))
    {
      if key !in rateLimits || now - rateLimits[key].started >= window {
        rateLimits := rateLimits[key := RateWindow(now, 1)];
        return true;
      }
      var entry := rateLimits[key];
      if entry.count >= limit {
        return false;
      }
      entry := entry.(count := entry.count + 1);
      rateLimits := rateLimits[key := entry];
      return true;
    }
  }

  // ---------- runs ----------

  function Limits(requests: seq<Request>): map<Key, RateWindow>
    decreases |requests|
  {
    if |requests| == 0 then map[] else Decide(Limits(requests[..|requests| - 1]), requests[|requests| - 1]).0
  }

  /** Whether the last request is one of the key's and is accepted. */
  predicate TakesLast(requests: seq<Request>, key: Key)
    requires |requests| > 0
  {
    var r := requests[|requests| - 1];
    r.key == key && Decide(Limits(requests[..|requests| - 1]), r).1
  }

  /** The times of the key's accepted requests. */
  function Accepted(requests: seq<Request>, key: Key): seq<nat>
    decreases |requests|
  {
    if |requests| == 0 then []
    else Accepted(requests[..|requests| - 1], key) + (if TakesLast(requests, key) then [requests[|requests| - 1].now] else [])
  }

  /** The clock never goes back, and the key is always asked with the same limit and window. */
  ghost predicate Regular(requests: seq<Request>, key: Key, limit: int, window: nat) {
    && (forall i, j | 0 <= i < j < |requests| :: requests[i].now <= requests[j].now)
    && (forall i | 0 <= i < |requests| :: requests[i].key == key ==> requests[i].limit == limit && requests[i].window == window)
  }

  function Cap(limit: int): nat {
    if limit < 1 then 1 else limit
  }

  ghost predicate Sorted(times: seq<nat>) {
    forall i, j | 0 <= i <= j < |times| :: times[i] <= times[j]
  }

  /** Any `2 * cap` successive times span at least a window. */
  ghost predicate Spread(acc: seq<nat>, cap: nat, window: nat) {
    forall i, j | 0 <= i < j < |acc| && j - i >= 2 * cap - 1 :: acc[j] - acc[i] >= window
  }

  /** The entry counts the requests accepted since its start, and an earlier window lies well before it. */
  ghost predicate EntryCounts(limits: map<Key, RateWindow>, key: Key, acc: seq<nat>, cap: nat, window: nat) {
    if acc == [] then key !in limits
    else
      && key in limits && 1 <= limits[key].count <= cap && limits[key].count <= |acc|
      && var first := |acc| - limits[key].count;
      && limits[key].started == acc[first]
      && forall i | 0 <= i <= first - cap :: i == first || acc[first] - acc[i] >= window
  }

  ghost predicate Inv(limits: map<Key, RateWindow>, key: Key, acc: seq<nat>, cap: nat, window: nat) {
    Sorted(acc) && Spread(acc, cap, window) && EntryCounts(limits, key, acc, cap, window)
  }

  ghost predicate AllUpTo(acc: seq<nat>, now: nat) {
    forall i | 0 <= i < |acc| :: acc[i] <= now
  }

  lemma {:induction false} RunKeepsInv(requests: seq<Request>, key: Key, limit: int, window: nat)
    requires Regular(requests, key, limit, window)
    ensures Inv(Limits(requests), key, Accepted(requests, key), Cap(limit), window)
    ensures |requests| > 0 ==> AllUpTo(Accepted(requests, key), requests[|requests| - 1].now)
    decreases |requests|
  {
    if |requests| > 0 {
      var init, r := requests[..|requests| - 1], requests[|requests| - 1];
      RunKeepsInv(init, key, limit, window);
      var acc, limits := Accepted(init, key), Limits(init);
      assert AllUpTo(acc, r.now);
      if !TakesLast(requests, key) {
        assert Accepted(requests, key) == acc;
        RefusedKeeps(limits, r, key, acc, Cap(limit), window);
      } else {
        assert Accepted(requests, key) == acc + [r.now];
        AcceptedKeeps(limits, r, acc);
      }
    }
  }

  lemma RefusedKeeps(limits: map<Key, RateWindow>, r: Request, key: Key, acc: seq<nat>, cap: nat, window: nat)
    requires Inv(limits, key, acc, cap, window) && (r.key != key || !Decide(limits, r).1)
    ensures Inv(Decide(limits, r).0, key, acc, cap, window)
  {
  }

  lemma AcceptedKeeps(limits: map<Key, RateWindow>, r: Request, acc: seq<nat>)
    requires Inv(limits, r.key, acc, Cap(r.limit), r.window) && Decide(limits, r).1
    requires AllUpTo(acc, r.now)
    ensures Inv(Decide(limits, r).0, r.key, acc + [r.now], Cap(r.limit), r.window)
  {
    var cap, acc' := Cap(r.limit), acc + [r.now];
    assert Sorted(acc');
    if acc != [] {
      if Opens(limits, r) {
        WindowBefore(limits, r, acc);
      } else {
        WithinWindow(limits, r, acc);
      }
    }
  }

  /** A request that opens a window comes a window after all but the last of the one before. */
  lemma WindowBefore(limits: map<Key, RateWindow>, r: Request, acc: seq<nat>)
    requires Inv(limits, r.key, acc, Cap(r.limit), r.window) && acc != [] && Opens(limits, r)
    ensures forall i | 0 <= i <= |acc| - Cap(r.limit) && i < |acc| :: r.now - acc[i] >= r.window
  {
    forall i | 0 <= i <= |acc| - Cap(r.limit) && i < |acc|
      ensures r.now - acc[i] >= r.window
    {
      assert acc[i] <= acc[|acc| - limits[r.key].count];
    }
    hide Spread;
  }

  lemma WithinWindow(limits: map<Key, RateWindow>, r: Request, acc: seq<nat>)
    requires Inv(limits, r.key, acc, Cap(r.limit), r.window) && Decide(limits, r).1 && AllUpTo(acc, r.now)
    requires acc != [] && !Opens(limits, r)
    ensures forall i | 0 <= i < |acc| && |acc| - i >= 2 * Cap(r.limit) - 1 :: r.now - acc[i] >= r.window
  {
    var first := |acc| - limits[r.key].count;
    forall i | 0 <= i < |acc| && |acc| - i >= 2 * Cap(r.limit) - 1
      ensures r.now - acc[i] >= r.window
    {
      assert i <= first - Cap(r.limit) && i != first;
    }
    hide Spread;
  }

  /**
   * The bound: any `2 * max(1, limit)` successive accepted requests of a key span at least a whole
   * window, so less than a window never sees more than `2 * max(1, limit) - 1` of them.
   */
  lemma AcceptedSpread(requests: seq<Request>, key: Key, limit: int, window: nat, i: nat, j: nat)
    requires Regular(requests, key, limit, window)
    requires i < j < |Accepted(requests, key)| && j - i >= 2 * Cap(limit) - 1
    ensures Accepted(requests, key)[j] - Accepted(requests, key)[i] >= window
  {
    RunKeepsInv(requests, key, limit, window);
  }

  /** A refusal is earned: the last `max(1, limit)` accepted requests of the key all lie within one window before it. */
  lemma RefusedOnlyWhenFull(requests: seq<Request>, r: Request)
    requires Regular(requests + [r], r.key, r.limit, r.window) && !Decide(Limits(requests), r).1
    ensures var acc, cap := Accepted(requests, r.key), Cap(r.limit);
            |acc| >= cap && forall i | |acc| - cap <= i < |acc| :: r.now - acc[i] < r.window
  {
    assert forall i | 0 <= i < |requests| :: (requests + [r])[i] == requests[i];
    assert Regular(requests, r.key, r.limit, r.window);
    RunKeepsInv(requests, r.key, r.limit, r.window);
    var acc := Accepted(requests, r.key);
    assert acc != [];
    var first := |acc| - Limits(requests)[r.key].count;
    assert forall i | first <= i < |acc| :: acc[first] <= acc[i];
  }

  // ---------- the bound is reached ----------

  function Repeat(r: Request, n: nat): seq<Request>
    decreases n
  {
    if n == 0 then [] else Repeat(r, n - 1) + [r]
  }

  lemma AcceptOne(before: seq<Request>, r: Request)
    requires Decide(Limits(before), r).1
    ensures Accepted(before + [r], r.key) == Accepted(before, r.key) + [r.now]
    ensures Limits(before + [r]) == Decide(Limits(before), r).0
  {
    assert (before + [r])[..|before|] == before;
  }

  /** Requests that fit into the current window are all accepted. */
  lemma {:induction false} BurstAccepted(before: seq<Request>, r: Request, n: nat)
    requires r.key in Limits(before) && r.now - Limits(before)[r.key].started < r.window
    requires Limits(before)[r.key].count + n <= r.limit
    ensures Accepted(before + Repeat(r, n), r.key) == Accepted(before, r.key) + seq(n, _ => r.now)
    ensures var w := Limits(before)[r.key]; Limits(before + Repeat(r, n)) == Limits(before)[r.key := w.(count := w.count + n)]
    decreases n
  {
    hide Accepted, Limits;
    if n == 0 {
      assert before + Repeat(r, 0) == before;
    } else {
      BurstAccepted(before, r, n - 1);
      assert before + Repeat(r, n) == before + Repeat(r, n - 1) + [r];
      AcceptOne(before + Repeat(r, n - 1), r);
      assert seq(n, _ => r.now) == seq(n - 1, _ => r.now) + [r.now];
    }
  }

  lemma FirstAccepted(r: Request)
    ensures Accepted([r], r.key) == [r.now] && Limits([r]) == map[r.key := RateWindow(r.now, 1)]
  {
    assert [r][..0] == [];
    assert Accepted([], r.key) == [] && Limits([]) == map[];
  }

  /** At the end of one window and the start of the next, `2 * limit - 1` requests pass within one tick. */
  lemma BoundIsReached(limit: nat, window: nat) returns (requests: seq<Request>)
    requires limit >= 1 && window >= 1
    ensures Accepted(requests, 0) == [0] + seq(limit - 1, _ => window - 1) + [window] + seq(limit - 1, _ => window)
  {
    hide Accepted, Limits, Repeat;
    var open, late, again := Request(0, 0, limit, window), Request(0, window - 1, limit, window), Request(0, window, limit, window);
    FirstAccepted(open);
    BurstAccepted([open], late, limit - 1);
    var first := [open] + Repeat(late, limit - 1);
    AcceptOne(first, again);
    BurstAccepted(first + [again], again, limit - 1);
    requests := first + [again] + Repeat(again, limit - 1);
  }
}
