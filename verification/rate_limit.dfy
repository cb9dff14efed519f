/**
  The fixed-window rate limiter: per key, a request counter and the instant
  its one-minute window opened. Times are milliseconds on the wall clock,
  passed in by the caller.
 */
module RateLimiting {
  import opened Base

  const WINDOW_MILLIS: int := 60000

  datatype RateLimitInfo = RateLimitInfo(count: int32, windowStart: int)

  type RateLimitState = map<string, RateLimitInfo>

  /**
    The key's entry as the check sees it: created empty when absent, and
    emptied with a fresh window once a full minute has passed since the
    window opened.
   */
  function Current(state: RateLimitState, key: string, now: int): (info: RateLimitInfo)
    ensures key in state && now - state[key].windowStart < WINDOW_MILLIS ==> info == state[key]
    ensures key !in state || now - state[key].windowStart >= WINDOW_MILLIS ==> info == RateLimitInfo(0, now)
  {
    var info := if key in state then state[key] else RateLimitInfo(0, now);
    if now - info.windowStart >= WINDOW_MILLIS then RateLimitInfo(0, now) else info
  }

  /** Every counter is non-negative. */
  predicate CountsNonNegative(state: RateLimitState)
  {
    forall k :: k in state ==> state[k].count >= 0
  }

  /**
    One request for `key` at `now` under a limit of `requestsPerMinute`:
    allowed, and counted, while the window's count is below the limit;
    refused otherwise. Only the key's own entry can change, and a refusal
    inside a running window changes nothing at all.
   */
  function IsAllowed(state: RateLimitState, key: string, requestsPerMinute: int32, now: int)
    : (r: (bool, RateLimitState))
    ensures r.1.Keys == state.Keys + {key}
    ensures forall k :: k in state && k != key ==> r.1[k] == state[k]
    ensures requestsPerMinute <= 0 && CountsNonNegative(state) ==> !r.0
    ensures key in state && now - state[key].windowStart < WINDOW_MILLIS ==>
      && (r.0 <==> state[key].count < requestsPerMinute)
      && (!r.0 ==> r.1 == state)
      && (r.0 ==> r.1[key] == RateLimitInfo(state[key].count + 1, state[key].windowStart))
    ensures key !in state || now - state[key].windowStart >= WINDOW_MILLIS ==>
      && (r.0 <==> requestsPerMinute >= 1)
      && r.1[key] == RateLimitInfo(if r.0 then 1 else 0, now)
  {
    var info := Current(state, key, now);
    if info.count >= requestsPerMinute then (false, state[key := info])
    else (true, state[key := info.(count := Inc32(info.count))])
  }

  /** Every counter is non-negative and at most `n`. */
  predicate WithinLimit(state: RateLimitState, n: int)
  {
    forall k :: k in state ==> 0 <= state[k].count as int <= n
  }

  /** Under a fixed non-negative limit no counter ever passes the limit. */
  lemma IsAllowedKeepsWithinLimit(state: RateLimitState, key: string, n: int32, now: int)
    requires n >= 0 && WithinLimit(state, n as int)
    ensures WithinLimit(IsAllowed(state, key, n, now).1, n as int)
  {
    var r := IsAllowed(state, key, n, now);
    forall k | k in r.1 ensures 0 <= r.1[k].count as int <= n as int {
      if k != key {
        assert k in state;
      }
    }
  }

  /**
    The 32-bit counter never wraps, whatever limits the callers pass: a
    counter is only incremented while below a limit that is itself a Java
    `int`, so counters stay non-negative.
   */
  lemma IncrementNeverWraps(state: RateLimitState, key: string, requestsPerMinute: int32, now: int)
    requires CountsNonNegative(state)
    ensures CountsNonNegative(IsAllowed(state, key, requestsPerMinute, now).1)
    ensures IsAllowed(state, key, requestsPerMinute, now).0 ==>
      IsAllowed(state, key, requestsPerMinute, now).1[key].count as int
      == Current(state, key, now).count as int + 1
  {
    var r := IsAllowed(state, key, requestsPerMinute, now);
    forall k | k in r.1 ensures r.1[k].count >= 0 {
      if k != key {
        assert k in state;
      }
    }
  }

  /** Successive requests for one key under one limit: the answers and the final state. */
  function Run(state: RateLimitState, key: string, n: int32, times: seq<int>): (r: (seq<bool>, RateLimitState))
    ensures |r.0| == |times|
    ensures r.1.Keys == if |times| == 0 then state.Keys else state.Keys + {key}
    ensures forall k :: k in state && k != key ==> r.1[k] == state[k]
    decreases |times|
  {
    if |times| == 0 then ([], state)
    else
      var first := IsAllowed(state, key, n, times[0]);
      var rest := Run(first.1, key, n, times[1..]);
      ([first.0] + rest.0, rest.1)
  }

  /**
    Inside one running window that began with `c` requests counted, the i-th
    further request is allowed exactly when c + i is below the limit: the
    allowed ones come first, and once refused a key stays refused until the
    window ends.
   */
  lemma {:induction false} RunWithinWindow(state: RateLimitState, key: string, n: int32, times: seq<int>)
    requires key in state
    requires forall i :: 0 <= i < |times| ==> times[i] - state[key].windowStart < WINDOW_MILLIS
    ensures forall i :: 0 <= i < |times| ==>
      (Run(state, key, n, times).0[i] <==> state[key].count as int + i < n as int)
  {
    if |times| > 0 {
      var c := state[key].count as int;
      var first := IsAllowed(state, key, n, times[0]);
      assert first.1[key].windowStart == state[key].windowStart;
      assert forall i :: 0 <= i < |times[1..]| ==> times[1..][i] == times[i + 1];
      RunWithinWindow(first.1, key, n, times[1..]);
      var r := Run(state, key, n, times);
      var rest := Run(first.1, key, n, times[1..]);
      assert r.0 == [first.0] + rest.0;
      forall i | 1 <= i < |times| ensures r.0[i] <==> c + i < n as int {
        assert r.0[i] == rest.0[i - 1];
        if first.0 {
          assert first.1[key].count as int == c + 1;
        } else {
          assert first.1 == state;
          assert c >= n as int;
        }
      }
    }
  }

  /**
    A key seen for the first time, or whose window has run out, is allowed
    exactly its first `n` requests within the minute that follows.
   */
  lemma FreshWindowAllowsExactlyTheLimit(state: RateLimitState, key: string, n: int32, times: seq<int>)
    requires |times| > 0
    requires key !in state || times[0] - state[key].windowStart >= WINDOW_MILLIS
    requires forall i :: 0 <= i < |times| ==> times[i] - times[0] < WINDOW_MILLIS
    ensures forall i :: 0 <= i < |times| ==> (Run(state, key, n, times).0[i] <==> i < n as int)
  {
    var first := IsAllowed(state, key, n, times[0]);
    assert forall i :: 0 <= i < |times[1..]| ==> times[1..][i] == times[i + 1];
    RunWithinWindow(first.1, key, n, times[1..]);
    var r := Run(state, key, n, times);
    var rest := Run(first.1, key, n, times[1..]);
    assert r.0 == [first.0] + rest.0;
    forall i | 1 <= i < |times| ensures r.0[i] <==> i < n as int {
      assert r.0[i] == rest.0[i - 1];
    }
  }

  /** Three requests pass under a limit of three and the fourth, in the same minute, is refused. */
  lemma AllowsRequestsWithinLimit(t0: int, t1: int, t2: int, t3: int)
    requires t1 - t0 < WINDOW_MILLIS && t2 - t0 < WINDOW_MILLIS && t3 - t0 < WINDOW_MILLIS
    ensures Run(map[], "client-1", 3, [t0, t1, t2, t3]).0 == [true, true, true, false]
  {
    var times := [t0, t1, t2, t3];
    FreshWindowAllowsExactlyTheLimit(map[], "client-1", 3, times);
    var r := Run(map[], "client-1", 3, times).0;
    assert r[0] && r[1] && r[2] && !r[3];
  }

  /** Under a limit of one, a refused key does not stop another key's first request. */
  lemma SeparateKeysAreTrackedIndependently(t0: int, t1: int, t2: int)
    requires t1 - t0 < WINDOW_MILLIS
    ensures var a1 := IsAllowed(map[], "client-a", 1, t0);
            var a2 := IsAllowed(a1.1, "client-a", 1, t1);
            var b1 := IsAllowed(a2.1, "client-b", 1, t2);
            a1.0 && !a2.0 && b1.0
  {
    var a1 := IsAllowed(map[], "client-a", 1, t0);
    var a2 := IsAllowed(a1.1, "client-a", 1, t1);
    assert "client-b" != "client-a";
    assert "client-b" !in a2.1;
  }
}
