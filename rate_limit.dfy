/** api/middleware/rate_limit.py: the per-client sliding window of one
    minute. Request times are whole milliseconds passed to `Check` (the
    clock is outside the model); the `defaultdict(list)` is a map in which a
    missing client reads as the empty list. */
module RateLimit {

  import opened Common

  /** One minute, the length of the window. */
  const WindowMs: int := 60000

  /** The module-level limiter's quota. */
  const ModuleLimit: nat := 100

  /** The list comprehension that keeps the entries younger than a minute,
      in order. */
  function Recent(times: seq<int>, now: int): (r: seq<int>)
    ensures |r| <= |times|
    ensures forall k :: 0 <= k < |r| ==> now - r[k] < WindowMs && r[k] in times
    ensures forall t :: t in times && now - t < WindowMs ==> t in r
  {
    if times == [] then []
    else if now - times[0] < WindowMs then [times[0]] + Recent(times[1..], now)
    else Recent(times[1..], now)
  }

  /** Pruning twice at the same moment prunes nothing more. */
  lemma {:induction false} RecentIdempotent(times: seq<int>, now: int)
    ensures Recent(Recent(times, now), now) == Recent(times, now)
  {
    if times != [] {
      RecentIdempotent(times[1..], now);
    }
  }

  /** Every entry the limiter holds for a client is younger than a minute
      relative to `now`. */
  predicate AllRecent(times: seq<int>, now: int) {
    forall k :: 0 <= k < |times| ==> now - times[k] < WindowMs
  }

  function Stored(requests: map<string, seq<int>>, client: string): seq<int> {
    if client in requests then requests[client] else []
  }

  class RateLimiter {
    const requestsPerMinute: nat
    var requests: map<string, seq<int>>

    /** `RateLimiter(requests_per_minute)`; the default quota is 60. */
    constructor (requestsPerMinute: nat)
      ensures this.requestsPerMinute == requestsPerMinute && requests == map[]
    {
      this.requestsPerMinute := requestsPerMinute;
      requests := map[];
    }

    /** At most the quota of recent entries per client. */
    predicate WithinQuota()
      reads this
    {
      forall c :: c in requests ==> |requests[c]| <= requestsPerMinute
    }

    /** `check`: prune the client's list first, then refuse with 429 when the
        pruned list already holds the quota, else record `now`. Other clients'
        lists are untouched. */
    method Check(client: string, now: int) returns (r: HttpResult<()>)
      modifies this
      ensures client in requests
      ensures var kept := Recent(Stored(old(requests), client), now);
        if |kept| >= requestsPerMinute then
          r == HttpError(429, "Too many requests. Please try again later.") && requests[client] == kept
        else
          r == Ok(()) && requests[client] == kept + [now]
      ensures forall c :: c != client ==> Stored(requests, c) == Stored(old(requests), c)
      ensures requests.Keys == old(requests).Keys + {client}
      ensures old(WithinQuota()) ==> WithinQuota()
    {
      var kept := Recent(Stored(requests, client), now);
      requests := requests[client := kept];
      if |requests[client]| >= requestsPerMinute {
        return HttpError(429, "Too many requests. Please try again later.");
      }
      requests := requests[client := requests[client] + [now]];
      r := Ok(());
    }
  }

  /** `rate_limiter`, the limiter the application uses. */
  method ModuleLimiter() returns (l: RateLimiter)
    ensures fresh(l) && l.requestsPerMinute == ModuleLimit && l.requests == map[]
    ensures l.WithinQuota()
  {
    l := new RateLimiter(ModuleLimit);
  }

  /** After any `check` at `now`, all of that client's entries are within a
      minute of `now` (the new one is `now` itself). */
  lemma CheckedListIsRecent(stored: seq<int>, now: int)
    ensures AllRecent(Recent(stored, now), now)
    ensures AllRecent(Recent(stored, now) + [now], now)
  {
  }

  /** Entries recorded at `now` all survive a prune at `now`: a burst of
      requests in one instant counts in full against the quota. */
  lemma {:induction false} BurstFillsQuota(times: seq<int>, now: int)
    requires forall k :: 0 <= k < |times| ==> times[k] == now
    ensures Recent(times, now) == times
  {
    if times != [] {
      BurstFillsQuota(times[1..], now);
    }
  }
}
