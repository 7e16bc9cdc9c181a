/**
 * The fixed-window rate limiter guarding the payment endpoint: per identifier, at most
 * `maxRequests` calls are allowed in a window of `windowMs` milliseconds that starts at
 * the first call after the previous window ran out. The clock is an explicit `now`.
 */
module RateLimiting {

  /** `RateLimitEntry`. */
  datatype Entry = Entry(count: int, resetAt: int)

  /** The value `check` returns. */
  datatype CheckResult = CheckResult(allowed: bool, remaining: int, resetAt: int)

  function Max(a: int, b: int): int { if a >= b then a else b }

  /** No previous entry, or `now > entry.resetAt`: the strict comparison keeps `now == resetAt` inside. */
  predicate StartsNewWindow(requests: map<string, Entry>, id: string, now: int) {
    id !in requests || now > requests[id].resetAt
  }

  /** Every entry has been counted at least once and at most up to the cap (1 when the cap is below 1). */
  predicate EntriesBounded(requests: map<string, Entry>, maxRequests: int) {
    forall k :: k in requests ==> 1 <= requests[k].count <= Max(1, maxRequests)
  }

  /** `check(identifier)` at time `now`: the result and the new map. */
  function CheckStep(requests: map<string, Entry>, maxRequests: int, windowMs: int, id: string, now: int)
    : (r: (CheckResult, map<string, Entry>))
    ensures id in r.1 && r.1.Keys == requests.Keys + {id}
    ensures forall k :: k in requests && k != id ==> r.1[k] == requests[k]
    ensures StartsNewWindow(requests, id, now) ==>
              r.0 == CheckResult(true, maxRequests - 1, now + windowMs) && r.1[id] == Entry(1, now + windowMs)
    ensures !StartsNewWindow(requests, id, now) && requests[id].count < maxRequests ==>
              r.1[id] == Entry(requests[id].count + 1, requests[id].resetAt)
              && r.0 == CheckResult(true, maxRequests - r.1[id].count, requests[id].resetAt)
    ensures !StartsNewWindow(requests, id, now) && requests[id].count >= maxRequests ==>
              r.0 == CheckResult(false, 0, requests[id].resetAt) && r.1 == requests
    ensures r.0.allowed ==> r.0.remaining >= 0 || maxRequests < 1
  {
    if StartsNewWindow(requests, id, now) then
      (CheckResult(true, maxRequests - 1, now + windowMs), requests[id := Entry(1, now + windowMs)])
    else
      var entry := requests[id];
      if entry.count < maxRequests then
        var updated := entry.(count := entry.count + 1);
        (CheckResult(true, maxRequests - updated.count, entry.resetAt), requests[id := updated])
      else
        (CheckResult(false, 0, entry.resetAt), requests)
  }

  /** `check` keeps every count within 1..max. */
  lemma CheckKeepsBounds(requests: map<string, Entry>, maxRequests: int, windowMs: int, id: string, now: int)
    requires EntriesBounded(requests, maxRequests)
    ensures EntriesBounded(CheckStep(requests, maxRequests, windowMs, id, now).1, maxRequests)
  {
  }

  /** `n` calls for the same identifier at the same instant, in order: their results and the final map. */
  function Burst(requests: map<string, Entry>, maxRequests: int, windowMs: int, id: string, now: int, n: nat)
    : (r: (seq<CheckResult>, map<string, Entry>))
    ensures |r.0| == n
  {
    if n == 0 then ([], requests)
    else
      var before := Burst(requests, maxRequests, windowMs, id, now, n - 1);
      var step := CheckStep(before.1, maxRequests, windowMs, id, now);
      (before.0 + [step.0], step.1)
  }

  function Min(a: int, b: int): int { if a <= b then a else b }

  /** The result of the call made when `k` calls of the window have already been counted. */
  function ExpectedResult(k: int, maxRequests: int, resetAt: int): CheckResult {
    if k < maxRequests then CheckResult(true, maxRequests - (k + 1), resetAt) else CheckResult(false, 0, resetAt)
  }

  /**
   * A burst that starts either in a fresh window (`c == 0`) or inside a window already
   * holding `c` calls: call `i` sees `c + i` earlier calls, so it is allowed exactly when
   * `c + i < max` and reports `max - (c + i + 1)` remaining; the count saturates at the cap
   * and the window's end never moves.
   */
  lemma {:induction false} BurstCounts(requests: map<string, Entry>, maxRequests: int, windowMs: int,
                                       id: string, now: int, n: nat, c: nat, resetAt: int)
    requires 1 <= maxRequests && c <= maxRequests
    requires c == 0 ==> StartsNewWindow(requests, id, now) && resetAt == now + windowMs && windowMs >= 0
    requires c >= 1 ==> id in requests && requests[id] == Entry(c, resetAt) && now <= resetAt
    ensures var r := Burst(requests, maxRequests, windowMs, id, now, n);
            (n + c > 0 ==> id in r.1 && r.1[id] == Entry(Min(c + n, maxRequests), resetAt))
            && forall i :: 0 <= i < n ==> r.0[i] == ExpectedResult(c + i, maxRequests, resetAt)
    decreases n
  {
    if n > 0 {
      BurstCounts(requests, maxRequests, windowMs, id, now, n - 1, c, resetAt);
      var before := Burst(requests, maxRequests, windowMs, id, now, n - 1);
      var step := CheckStep(before.1, maxRequests, windowMs, id, now);
      if n - 1 + c > 0 {
        assert !StartsNewWindow(before.1, id, now);
      } else {
        assert before.1 == requests;
      }
      var r := Burst(requests, maxRequests, windowMs, id, now, n);
      assert r.0 == before.0 + [step.0];
      assert forall i :: 0 <= i < n - 1 ==> r.0[i] == before.0[i];
    }
  }

  /**
   * From a fresh window, and with a non-negative window length, exactly the first `max`
   * calls at one instant are allowed, with `remaining` counting down to 0.
   */
  lemma FreshBurst(requests: map<string, Entry>, maxRequests: int, windowMs: int, id: string, now: int, n: nat)
    requires StartsNewWindow(requests, id, now) && windowMs >= 0 && maxRequests >= 1
    ensures var results := Burst(requests, maxRequests, windowMs, id, now, n).0;
            forall i :: 0 <= i < n ==>
              results[i].allowed == (i < maxRequests)
              && results[i].remaining == (if i < maxRequests then maxRequests - 1 - i else 0)
              && results[i].resetAt == now + windowMs
  {
    BurstCounts(requests, maxRequests, windowMs, id, now, n, 0, now + windowMs);
  }

  /** With the defaults, five calls are allowed with 4, 3, 2, 1, 0 remaining and the sixth is denied. */
  lemma DefaultsAllowFive(requests: map<string, Entry>, id: string, now: int)
    requires StartsNewWindow(requests, id, now)
    ensures Burst(requests, 5, 60000, id, now, 6).0 ==
              [CheckResult(true, 4, now + 60000), CheckResult(true, 3, now + 60000), CheckResult(true, 2, now + 60000),
               CheckResult(true, 1, now + 60000), CheckResult(true, 0, now + 60000), CheckResult(false, 0, now + 60000)]
  {
    FreshBurst(requests, 5, 60000, id, now, 6);
  }

  /** What `cleanup` keeps: the entries whose window has not run out (`now <= resetAt`). */
  function Unexpired(requests: map<string, Entry>, now: int): (m: map<string, Entry>)
    ensures forall k :: k in m <==> k in requests && now <= requests[k].resetAt
    ensures forall k :: k in m ==> m[k] == requests[k]
  {
    map k | k in requests && now <= requests[k].resetAt :: requests[k]
  }

  /** `RateLimiter`. */
  class RateLimiter {
    var requests: map<string, Entry>
    const maxRequests: int
    const windowMs: int

    predicate Valid()
      reads this
    {
      EntriesBounded(requests, maxRequests)
    }

    /** The periodic cleanup the constructor schedules is the separate `Cleanup` step. */
    constructor(maxRequests: int := 5, windowMs: int := 60000)
      ensures this.maxRequests == maxRequests && this.windowMs == windowMs
      ensures requests == map[] && Valid()
    {
      this.maxRequests := maxRequests;
      this.windowMs := windowMs;
      requests := map[];
    }

    method Check(identifier: string, now: int) returns (r: CheckResult)
      modifies this
      ensures (r, requests) == CheckStep(old(requests), maxRequests, windowMs, identifier, now)
      ensures old(Valid()) ==> Valid()
    {
      var step := CheckStep(requests, maxRequests, windowMs, identifier, now);
      if Valid() { CheckKeepsBounds(requests, maxRequests, windowMs, identifier, now); }
      r := step.0;
      requests := step.1;
    }

    /** `cleanup`: deletes, one key at a time, every entry whose window has run out. */
    method Cleanup(now: int)
      modifies this
      ensures requests == Unexpired(old(requests), now)
      ensures old(Valid()) ==> Valid()
    {
      var pending := requests.Keys;
      while pending != {}
        invariant pending <= old(requests).Keys
        invariant forall k :: k in requests <==> k in old(requests) && (k in pending || now <= old(requests)[k].resetAt)
        invariant forall k :: k in requests ==> requests[k] == old(requests)[k]
        decreases pending
      {
        var key :| key in pending;
        if now > requests[key].resetAt {
          requests := requests - {key};
        }
        pending := pending - {key};
      }
    }
  }

  /** `paymentRateLimiter`: five requests per minute per client. */
  method NewPaymentRateLimiter() returns (l: RateLimiter)
    ensures fresh(l) && l.maxRequests == 5 && l.windowMs == 60000 && l.requests == map[] && l.Valid()
  {
    l := new RateLimiter(5, 60000);
  }

  /** Six checks from one client at one instant on a new payment limiter. */
  method SixChecks(id: string, now: int) returns (results: seq<CheckResult>)
    ensures results ==
              [CheckResult(true, 4, now + 60000), CheckResult(true, 3, now + 60000), CheckResult(true, 2, now + 60000),
               CheckResult(true, 1, now + 60000), CheckResult(true, 0, now + 60000), CheckResult(false, 0, now + 60000)]
  {
    var limiter := NewPaymentRateLimiter();
    results := [];
    var i := 0;
    while i < 6
      invariant 0 <= i <= 6 && |results| == i
      invariant (results, limiter.requests) == Burst(map[], 5, 60000, id, now, i)
      invariant limiter.maxRequests == 5 && limiter.windowMs == 60000
      modifies limiter
    {
      var r := limiter.Check(id, now);
      results := results + [r];
      i := i + 1;
    }
    DefaultsAllowFive(map[], id, now);
  }
}
