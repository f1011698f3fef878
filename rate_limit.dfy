/** The `rateLimiter` middleware of backend/src/middleware/auth.js: a map
    from client key to the times of its admitted requests, pruned to the
    current window whenever a request is admitted. */
module RateLimit {
  import opened Seqs

  /** The defaults of `rateLimiter(maxRequests = 100, windowMs = 15 * 60 * 1000)`. */
  const DefaultMaxRequests: int := 100
  const DefaultWindowMs: int := 15 * 60 * 1000

  /** `req.ip || req.connection.remoteAddress`. */
  type Key = string

  /** `userRequests.filter(time => time > windowStart)`: the times after
      the window start, in their order. */
  function Recent(times: seq<int>, windowStart: int): (r: seq<int>)
    ensures |r| <= |times|
    ensures forall t :: t in r <==> t in times && t > windowStart
  {
    if |times| == 0 then []
    else
      var last := times[|times| - 1];
      Recent(times[..|times| - 1], windowStart) + (if last > windowStart then [last] else [])
  }

  /** The filter keeps the order of the times it keeps. */
  lemma {:induction false} RecentInOrder(times: seq<int>, windowStart: int)
    ensures IsSubseq(Recent(times, windowStart), times)
  {
    if |times| > 0 {
      var init, last := times[..|times| - 1], times[|times| - 1];
      var kept := Recent(init, windowStart);
      RecentInOrder(init, windowStart);
      if last > windowStart {
        var r := kept + [last];
        assert r[..|r| - 1] == kept && r[|r| - 1] == last;
        assert IsSubseq(r, times);
      } else {
        assert kept + [] == kept;
        assert IsSubseq(kept, times);
      }
    }
  }

  /** The filter keeps each time after the window start as often as it
      occurs and drops every other time. */
  lemma {:induction false} RecentCounts(times: seq<int>, windowStart: int)
    ensures forall t :: multiset(Recent(times, windowStart))[t] == if t > windowStart then multiset(times)[t] else 0
  {
    if |times| > 0 {
      var init, last := times[..|times| - 1], times[|times| - 1];
      RecentCounts(init, windowStart);
      assert times == init + [last];
      if last <= windowStart {
        assert Recent(init, windowStart) + [] == Recent(init, windowStart);
      }
    }
  }

  /** Filtering distributes over concatenation. */
  lemma {:induction false} RecentAppend(a: seq<int>, b: seq<int>, s: int)
    ensures Recent(a + b, s) == Recent(a, s) + Recent(b, s)
    decreases |b|
  {
    if |b| > 0 {
      var init := b[..|b| - 1];
      assert (a + b)[..|a + b| - 1] == a + init;
      RecentAppend(a, init, s);
    } else {
      assert a + b == a;
    }
  }

  /** Filtering with a later start after an earlier one is filtering with
      the later start alone. */
  lemma {:induction false} RecentOfRecent(a: seq<int>, s: int, s': int)
    requires s <= s'
    ensures Recent(Recent(a, s), s') == Recent(a, s')
  {
    if |a| > 0 {
      var init := a[..|a| - 1];
      var last := a[|a| - 1];
      RecentOfRecent(init, s, s');
      var tail := if last > s then [last] else [];
      RecentAppend(Recent(init, s), tail, s');
    }
  }

  /** A later window start keeps no more times. */
  lemma {:induction false} RecentShrinks(a: seq<int>, s: int, s': int)
    requires s <= s'
    ensures |Recent(a, s')| <= |Recent(a, s)|
  {
    if |a| > 0 {
      RecentShrinks(a[..|a| - 1], s, s');
    }
  }

  /** The answer to one request and the list stored for its key. */
  datatype Verdict = Verdict(admitted: bool, stored: seq<int>)

  /** One request at time `now` against a key's stored times: rejected
      (429) when the window already holds `maxRequests` of them, the list
      left as it was; otherwise admitted, and the key keeps only the times
      in the window followed by `now`. */
  function Decide(times: seq<int>, now: int, maxRequests: int, windowMs: int): (v: Verdict)
    ensures v.admitted <==> |Recent(times, now - windowMs)| < maxRequests
    ensures !v.admitted ==> v.stored == times
    ensures v.admitted ==> v.stored == Recent(times, now - windowMs) + [now]
    ensures v.admitted ==> 0 < |v.stored| <= maxRequests && v.stored[|v.stored| - 1] == now
    ensures v.admitted ==> forall t :: t in v.stored <==> t == now || (t in times && t > now - windowMs)
  {
    var recent := Recent(times, now - windowMs);
    if |recent| >= maxRequests then Verdict(false, times)
    else Verdict(true, recent + [now])
  }

  /** With room for at least one request, a key's first request is
      admitted. */
  lemma FirstRequestAdmitted(now: int, maxRequests: int, windowMs: int)
    requires maxRequests >= 1
    ensures Decide([], now, maxRequests, windowMs) == Verdict(true, [now])
  {
  }

  /** A rejection returns before writing the map back, so it does not
      prune: times already outside the window stay stored. */
  lemma RejectionKeepsStaleTimes()
    ensures Decide([1, 50], 100, 1, 60) == Verdict(false, [1, 50])
  {
  }

  /** No key ever stores more than `maxRequests` times (none at all when
      `maxRequests` is not positive). */
  ghost predicate Bounded(requests: map<Key, seq<int>>, maxRequests: int)
  {
    forall k :: k in requests ==> |requests[k]| <= Max(maxRequests, 0)
  }

  /** The map after one request: only the requesting key's entry is
      written, and it is created empty first when missing. */
  function Step(requests: map<Key, seq<int>>, key: Key, now: int, maxRequests: int, windowMs: int): map<Key, seq<int>>
  {
    requests[key := Decide(LookupOrEmpty(requests, key), now, maxRequests, windowMs).stored]
  }

  /** A request keeps every stored list within the bound, and no other
      key's list changes. */
  lemma StepKeepsBound(requests: map<Key, seq<int>>, key: Key, now: int, maxRequests: int, windowMs: int)
    requires Bounded(requests, maxRequests)
    ensures Bounded(Step(requests, key, now, maxRequests, windowMs), maxRequests)
    ensures forall k :: k != key ==> (k in requests <==> k in Step(requests, key, now, maxRequests, windowMs))
    ensures forall k :: k != key && k in requests ==> Step(requests, key, now, maxRequests, windowMs)[k] == requests[k]
  {
    var v := Decide(LookupOrEmpty(requests, key), now, maxRequests, windowMs);
    if !v.admitted {
      assert key in requests || v.stored == [];
    }
  }

  class RateLimiter {
    const maxRequests: int
    const windowMs: int
    /** The closure's `requests` map. */
    var requests: map<Key, seq<int>>

    ghost predicate Valid()
      reads this
    {
      Bounded(requests, maxRequests)
    }

    /** `rateLimiter(maxRequests, windowMs)`. */
    constructor(maxRequests: int, windowMs: int)
      ensures Valid()
      ensures this.maxRequests == maxRequests && this.windowMs == windowMs && requests == map[]
    {
      this.maxRequests := maxRequests;
      this.windowMs := windowMs;
      requests := map[];
    }

    /** `rateLimiter()` with its defaults. */
    constructor Default()
      ensures Valid()
      ensures maxRequests == DefaultMaxRequests && windowMs == DefaultWindowMs && requests == map[]
    {
      maxRequests := DefaultMaxRequests;
      windowMs := DefaultWindowMs;
      requests := map[];
    }

    /** The middleware body for a request from `key` at time `now`:
        `true` calls `next()`, `false` answers 429. */
    method Handle(key: Key, now: int) returns (admitted: bool)
      requires Valid()
      modifies this
      ensures Valid()
      ensures admitted == Decide(LookupOrEmpty(old(requests), key), now, maxRequests, windowMs).admitted
      ensures requests == Step(old(requests), key, now, maxRequests, windowMs)
    {
      StepKeepsBound(requests, key, now, maxRequests, windowMs);
      var windowStart := now - windowMs;
      if key !in requests {
        requests := requests[key := []];
      }
      var userRequests := requests[key];
      var recentRequests := Recent(userRequests, windowStart);
      if |recentRequests| >= maxRequests {
        return false;
      }
      recentRequests := recentRequests + [now];
      requests := requests[key := recentRequests];
      admitted := true;
    }
  }

  // ---------------------------------------------------------------------
  // A run of requests from one key

  /** The clock never goes back. */
  ghost predicate Monotone(times: seq<int>)
  {
    forall i, j :: 0 <= i < j < |times| ==> times[i] <= times[j]
  }

  /** The key's stored list after a run, and the times of the requests it
      admitted. */
  datatype Run = Run(stored: seq<int>, admitted: seq<int>)

  /** One more request of the run, at time `now`. */
  function Next(r: Run, now: int, maxRequests: int, windowMs: int): Run
  {
    var v := Decide(r.stored, now, maxRequests, windowMs);
    Run(v.stored, if v.admitted then r.admitted + [now] else r.admitted)
  }

  /** Requests from one key at the given times, from an unseen key. */
  function Replay(times: seq<int>, maxRequests: int, windowMs: int): Run
  {
    if |times| == 0 then Run([], [])
    else Next(Replay(times[..|times| - 1], maxRequests, windowMs), times[|times| - 1], maxRequests, windowMs)
  }

  /** What a run keeps as of time `t`: from the window start on, the
      stored list agrees with the admitted times; the window holds at
      most `maxRequests` admitted times; and none lies after `t`. */
  ghost predicate Agrees(r: Run, t: int, maxRequests: int, windowMs: int)
  {
    && (forall s :: s >= t - windowMs ==> Recent(r.stored, s) == Recent(r.admitted, s))
    && |Recent(r.admitted, t - windowMs)| <= Max(maxRequests, 0)
    && (forall x :: x in r.admitted ==> x <= t)
  }

  /** An admitted request keeps the run's invariant: the times pruned
      from the stored list are before every later window. */
  lemma NextAdmittedKeeps(r: Run, t: int, now: int, maxRequests: int, windowMs: int)
    requires Agrees(r, t, maxRequests, windowMs) && t <= now
    requires Decide(r.stored, now, maxRequests, windowMs).admitted
    ensures Agrees(Next(r, now, maxRequests, windowMs), now, maxRequests, windowMs)
  {
    var s0 := now - windowMs;
    var n := Next(r, now, maxRequests, windowMs);
    assert n.stored == Recent(r.stored, s0) + [now] && n.admitted == r.admitted + [now];
    forall s | s >= s0
      ensures Recent(n.stored, s) == Recent(n.admitted, s)
    {
      PruneThenAppend(r.stored, r.admitted, s0, now, s);
    }
    RecentAppend(r.admitted, [now], s0);
  }

  /** Pruning at `s0` and appending `now` looks, from any later start `s`,
      like appending `now` to a list that agrees from `s` on. */
  lemma PruneThenAppend(stored: seq<int>, admitted: seq<int>, s0: int, now: int, s: int)
    requires s >= s0 && Recent(stored, s) == Recent(admitted, s)
    ensures Recent(Recent(stored, s0) + [now], s) == Recent(admitted + [now], s)
  {
    RecentAppend(Recent(stored, s0), [now], s);
    RecentOfRecent(stored, s0, s);
    RecentAppend(admitted, [now], s);
  }

  /** A rejected request keeps the run's invariant: nothing changes and
      the later window holds no more times. */
  lemma NextRejectedKeeps(r: Run, t: int, now: int, maxRequests: int, windowMs: int)
    requires Agrees(r, t, maxRequests, windowMs) && t <= now
    requires !Decide(r.stored, now, maxRequests, windowMs).admitted
    ensures Agrees(Next(r, now, maxRequests, windowMs), now, maxRequests, windowMs)
  {
    RecentShrinks(r.admitted, t - windowMs, now - windowMs);
  }

  /** Every run of a clock that never goes back keeps the invariant as of
      its last request. */
  lemma {:induction false} ReplayInvariant(times: seq<int>, maxRequests: int, windowMs: int)
    requires Monotone(times) && |times| > 0
    ensures Agrees(Replay(times, maxRequests, windowMs), times[|times| - 1], maxRequests, windowMs)
  {
    var init := times[..|times| - 1];
    var now := times[|times| - 1];
    var prev := Replay(init, maxRequests, windowMs);
    var t := now;
    if |init| > 0 {
      assert Monotone(init);
      ReplayInvariant(init, maxRequests, windowMs);
      t := init[|init| - 1];
    }
    if Decide(prev.stored, now, maxRequests, windowMs).admitted {
      NextAdmittedKeeps(prev, t, now, maxRequests, windowMs);
    } else {
      NextRejectedKeeps(prev, t, now, maxRequests, windowMs);
    }
  }

  /** The limit holds over any window ending at a request: after a run
      with a clock that never goes back, at most `maxRequests` admitted
      requests lie in (t - windowMs, t], t being the last request's
      time. */
  lemma WindowBound(times: seq<int>, maxRequests: int, windowMs: int)
    requires Monotone(times) && |times| > 0
    ensures var admitted := Replay(times, maxRequests, windowMs).admitted;
      var t := times[|times| - 1];
      |Recent(admitted, t - windowMs)| <= Max(maxRequests, 0)
      && forall x :: x in admitted ==> x <= t
  {
    ReplayInvariant(times, maxRequests, windowMs);
  }
}
