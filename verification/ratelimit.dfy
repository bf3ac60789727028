// The token bucket that limits member-authored actions (src/chat/ratelimit.rs).
// Token counts are reals: the source uses f64, and its rounding is not modelled.
module RateLimit {
  import opened RoomTypes

  datatype Bucket = Bucket(
    capacity: real, tokens: real, refillPerSecond: real, lastRefill: Time, violations: nat)

  const MEMBER_BURST: nat := 5
  const MEMBER_RATE: nat := 1

  function NewBucket(burst: nat, perSecond: nat): Bucket {
    Bucket(burst as real, burst as real, perSecond as real, 0.0, 0)
  }

  function Min(a: real, b: real): real { if a <= b then a else b }

  // The tokens that flow into a bucket.
  function Flow(rate: real, duration: real): real { rate * duration }

  // A clock that runs backwards saturates to no elapsed time.
  function Refilled(b: Bucket, now: Time): Bucket {
    if now <= b.lastRefill then b
    else b.(lastRefill := now,
            tokens := Min(b.tokens + Flow(b.refillPerSecond, now - b.lastRefill), b.capacity))
  }

  function Allow(b: Bucket, now: Time): (Bucket, bool) {
    var r := Refilled(b, now);
    if r.tokens >= 1.0 then (r.(tokens := r.tokens - 1.0, violations := 0), true)
    else (r.(violations := r.violations + 1), false)
  }

  class RateLimiter {
    const capacity: real
    const refillPerSecond: real
    var tokens: real
    var lastRefill: Time
    var violations: nat

    function State(): Bucket
      reads this
    {
      Bucket(capacity, tokens, refillPerSecond, lastRefill, violations)
    }

    constructor (burst: nat, perSecond: nat)
      ensures State() == NewBucket(burst, perSecond)
    {
      capacity := burst as real;
      refillPerSecond := perSecond as real;
      tokens := burst as real;
      lastRefill := 0.0;
      violations := 0;
    }

    method Refill(now: Time)
      modifies this
      ensures State() == Refilled(old(State()), now)
    {
      hide Flow;
      if now <= lastRefill { return; }
      var added := Flow(refillPerSecond, now - lastRefill);
      lastRefill := now;
      tokens := Min(tokens + added, capacity);
      assert State() == old(State()).(lastRefill := now, tokens := tokens);
    }

    method TryAllow(now: Time) returns (allowed: bool)
      modifies this
      ensures (State(), allowed) == Allow(old(State()), now)
    {
      Refill(now);
      allowed := tokens >= 1.0;
      if allowed {
        tokens := tokens - 1.0;
        violations := 0;
      } else {
        violations := violations + 1;
      }
    }
  }
}
