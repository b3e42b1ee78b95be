/**
 The per-key token bucket. Instants and token counts are reals: the source uses `f64`
 seconds, and its rounding is not modelled. The first half is the specification of one
 check on one bucket; the class at the end is the limiter itself, which updates a map
 of buckets in place.
 */
module RateLimit {
  import opened Wrappers
  import opened Config

  /** Buckets untouched for this many seconds are dropped by a prune. */
  const IDLE_PRUNE_SECS: real := 600.0

  /** What a saturating float-to-`u64` cast makes of an infinite wait. */
  const U64_MAX: nat := 0xFFFF_FFFF_FFFF_FFFF

  type Key = string

  datatype Bucket = Bucket(tokens: real, last: real)

  datatype Decision = Allowed | RetryAfter(secs: nat)

  function Rate(rule: RateRule): real {
    rule.perMinute as real / 60.0
  }

  function Capacity(rule: RateRule): real {
    rule.burst as real
  }

  function Min(a: real, b: real): real {
    if a <= b then a else b
  }

  /** `Instant::duration_since`, which saturates at zero. */
  function Elapsed(from: real, to: real): real {
    if to > from then to - from else 0.0
  }

  /** Tokens that flow in between two instants. */
  function Gain(rule: RateRule, from: real, to: real): real {
    Elapsed(from, to) * Rate(rule)
  }

  function Ceil(x: real): int {
    -((-x).Floor)
  }

  /** Tokens a check at `now` finds after its lazy refill; an absent bucket starts full. */
  function Available(bucket: Option<Bucket>, rule: RateRule, now: real): real {
    match bucket
    case None => Capacity(rule)
    case Some(b) => Min(b.tokens + Gain(rule, b.last, now), Capacity(rule))
  }

  /** Whole seconds until `tokens`, which is below one, has grown to one. */
  function WaitFor(tokens: real, rule: RateRule): nat
    requires tokens < 1.0
  {
    if rule.perMinute == 0 then
      U64_MAX
    else
      WaitIsNatural(1.0 - tokens, Rate(rule));
      Ceil((1.0 - tokens) / Rate(rule))
  }

  /** One request charged against one bucket: the bucket it leaves and the answer it gets. */
  function CheckOne(bucket: Option<Bucket>, rule: RateRule, now: real): (Bucket, Decision) {
    var tokens := Available(bucket, rule, now);
    if tokens >= 1.0 then
      (Bucket(tokens - 1.0, now), Allowed)
    else
      (Bucket(tokens, now), RetryAfter(WaitFor(tokens, rule)))
  }

  function Lookup(buckets: map<Key, Bucket>, key: Key): Option<Bucket> {
    if key in buckets then Some(buckets[key]) else None
  }

  /** A prune with clock reading `at` that gets to see the buckets of `visited`. */
  function Pruned(buckets: map<Key, Bucket>, at: real, visited: set<Key>): map<Key, Bucket> {
    map k | k in buckets && (k in visited ==> Elapsed(buckets[k].last, at) < IDLE_PRUNE_SECS) :: buckets[k]
  }

  lemma WaitIsNatural(deficit: real, rate: real)
    requires deficit > 0.0 && rate > 0.0
    ensures deficit / rate > 0.0
    ensures Ceil(deficit / rate) >= 1
  {
    var wait := deficit / rate;
    assert wait * rate == deficit;
  }

  /** The limiter: one bucket per key, created full on the key's first check. */
  class RateLimiter {
    var buckets: map<Key, Bucket>

    constructor ()
      ensures buckets == map[]
    {
      buckets := map[];
    }

    /**
     Charges one request. The clock is read once when a bucket has to be inserted and once
     more for the refill; the answer does not depend on the first reading.
     */
    method Check(key: Key, rule: RateRule, insertedAt: real, now: real) returns (decision: Decision)
      requires insertedAt <= now
      modifies this
      ensures buckets == old(buckets)[key := CheckOne(Lookup(old(buckets), key), rule, now).0]
      ensures decision == CheckOne(Lookup(old(buckets), key), rule, now).1
      ensures rule.perMinute == 0 && decision != Allowed ==> decision == RetryAfter(0xFFFF_FFFF_FFFF_FFFF)
    {
      var refillPerSec := rule.perMinute as real / 60.0;
      var capacity := rule.burst as real;
      if key !in buckets {
        buckets := buckets[key := Bucket(capacity, insertedAt)];
      }
      var bucket := buckets[key];
      var elapsed := Elapsed(bucket.last, now);
      ghost var before := Lookup(old(buckets), key);
      assert elapsed * refillPerSec == Gain(rule, bucket.last, now) >= 0.0;
      hide Gain;
      bucket := bucket.(tokens := Min(bucket.tokens + elapsed * refillPerSec, capacity));
      assert bucket.tokens == Available(before, rule, now);
      bucket := bucket.(last := now);
      if bucket.tokens >= 1.0 {
        bucket := bucket.(tokens := bucket.tokens - 1.0);
        decision := Allowed;
      } else if rule.perMinute == 0 {
        decision := RetryAfter(U64_MAX);
      } else {
        var deficit := 1.0 - bucket.tokens;
        WaitIsNatural(deficit, refillPerSec);
        decision := RetryAfter(Ceil(deficit / refillPerSec));
      }
      buckets := buckets[key := bucket];
    }

    /** Drops idle buckets; a bucket locked by a concurrent check is skipped. */
    method PruneIdle(now: real, locked: set<Key>)
      modifies this
      ensures buckets == Pruned(old(buckets), now, old(buckets).Keys - locked)
      ensures forall k :: k in buckets <==>
                k in old(buckets) && (k in locked || now - old(buckets)[k].last < IDLE_PRUNE_SECS)
      ensures forall k :: k in buckets ==> buckets[k] == old(buckets)[k]
    {
      buckets := map k | k in buckets && (k in locked || Elapsed(buckets[k].last, now) < IDLE_PRUNE_SECS)
        :: buckets[k];
    }
  }
}
