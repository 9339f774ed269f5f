/** The per-client sliding-window rate limiter of
    backend/internal/middleware/ratelimit.go. Each client IP maps to the instants
    (nanoseconds) of its recent admitted requests; a request is first used to
    drop the instants that have left the window and is then admitted or refused. */
module RateLimit {

  /** `t.After(cutoff)` for every kept instant, in the original order. */
  function InWindow(ts: seq<int>, cutoff: int): (r: seq<int>)
    ensures |r| <= |ts|
  {
    if ts == [] then []
    else InWindow(ts[..|ts| - 1], cutoff) + (if ts[|ts| - 1] > cutoff then [ts[|ts| - 1]] else [])
  }

  predicate Sorted(ts: seq<int>) {
    forall i, j :: 0 <= i < j < |ts| ==> ts[i] <= ts[j]
  }

  datatype Outcome =
    | Next
    | TooManyRequests(status: int, error: string, retryAfterSeconds: real)

  const StatusTooManyRequests := 429

  /** The loop that rebuilds a client's list from the instants after the cutoff. */
  method FilterRecent(ts: seq<int>, cutoff: int) returns (valid: seq<int>)
    ensures valid == InWindow(ts, cutoff)
  {
    valid := [];
    var i := 0;
    while i < |ts|
      invariant 0 <= i <= |ts|
      invariant valid == InWindow(ts[..i], cutoff)
    {
      assert ts[..i + 1][..i] == ts[..i];
      if ts[i] > cutoff {
        valid := valid + [ts[i]];
      }
      i := i + 1;
    }
    assert ts[..i] == ts;
  }

  class RateLimiter {
    var requests: map<string, seq<int>>
    const limit: int
    const window: int

    /** No client holds more instants than the limit allows. */
    predicate Valid()
      reads this
    {
      forall ip :: ip in requests ==> |requests[ip]| <= if limit < 0 then 0 else limit
    }

    /** NewRateLimiter. */
    constructor (limit: int, window: int)
      ensures this.limit == limit && this.window == window
      ensures requests == map[] && Valid()
    {
      this.limit := limit;
      this.window := window;
      requests := map[];
    }

    /** The body of the middleware for one request from `clientIP` at `now`. */
    method Handle(clientIP: string, now: int) returns (outcome: Outcome)
      requires Valid()
      modifies this
      ensures Valid()
      ensures var recent := InWindow(if clientIP in old(requests) then old(requests)[clientIP] else [], now - window);
        && (outcome.TooManyRequests? <==> |recent| >= limit)
        && requests == old(requests)[clientIP := if outcome.Next? then recent + [now] else recent]
      ensures outcome.TooManyRequests? ==>
        outcome == TooManyRequests(StatusTooManyRequests, "Rate limit exceeded", window as real / 1_000_000_000.0)
    {
      var cutoff := now - window;
      var previous := if clientIP in requests then requests[clientIP] else [];
      var valid := FilterRecent(previous, cutoff);
      requests := requests[clientIP := valid];
      if |valid| >= limit {
        return TooManyRequests(StatusTooManyRequests, "Rate limit exceeded", window as real / 1_000_000_000.0);
      }
      requests := requests[clientIP := requests[clientIP] + [now]];
      return Next;
    }
  }

  // ---------------------------------------------------------------------------
  // Properties of the window filter

  /** Exactly the instants strictly after the cutoff are kept. */
  lemma {:induction false} InWindowMembers(ts: seq<int>, cutoff: int, t: int)
    ensures t in InWindow(ts, cutoff) <==> t in ts && t > cutoff
  {
    if ts != [] {
      InWindowMembers(ts[..|ts| - 1], cutoff, t);
      assert ts == ts[..|ts| - 1] + [ts[|ts| - 1]];
    }
  }

  /** Filtering keeps a nondecreasing list nondecreasing. */
  lemma {:induction false} InWindowSorted(ts: seq<int>, cutoff: int)
    requires Sorted(ts)
    ensures Sorted(InWindow(ts, cutoff))
  {
    if ts != [] {
      var init := ts[..|ts| - 1];
      var last := ts[|ts| - 1];
      InWindowSorted(init, cutoff);
      if last > cutoff {
        var r := InWindow(init, cutoff);
        forall k | 0 <= k < |r| ensures r[k] <= last {
          InWindowMembers(init, cutoff, r[k]);
        }
      }
    }
  }

  /** With a clock that does not go backwards, every client's list stays nondecreasing
      after an admitted request appends `now`. */
  lemma AdmittedStaysSorted(ts: seq<int>, cutoff: int, now: int)
    requires Sorted(ts)
    requires forall k :: 0 <= k < |ts| ==> ts[k] <= now
    ensures Sorted(InWindow(ts, cutoff) + [now])
  {
    InWindowSorted(ts, cutoff);
    var r := InWindow(ts, cutoff);
    forall k | 0 <= k < |r| ensures r[k] <= now {
      InWindowMembers(ts, cutoff, r[k]);
    }
  }

  /** A client with no request inside the window is always admitted when the limit is positive. */
  lemma QuietClientAdmitted(ts: seq<int>, cutoff: int, limit: int)
    requires forall k :: 0 <= k < |ts| ==> ts[k] <= cutoff
    requires limit > 0
    ensures |InWindow(ts, cutoff)| < limit
  {
    if InWindow(ts, cutoff) != [] {
      var t := InWindow(ts, cutoff)[0];
      InWindowMembers(ts, cutoff, t);
    }
  }
}
