/** What the token bucket promises over whole runs of checks and prunes. */
module RateLimitTheorems {
  import opened Wrappers
  import opened Config
  import opened RateLimit

  // ---------------------------------------------------------------- arithmetic

  lemma ProductMonotone(a: real, b: real, c: real)
    requires a <= b && 0.0 <= c
    ensures a * c <= b * c
    ensures a < b && 0.0 < c ==> a * c < b * c
  {
    assert b * c == a * c + (b - a) * c;
  }

  lemma GainAdds(rule: RateRule, a: real, b: real, c: real)
    requires a <= b <= c
    ensures Gain(rule, a, b) >= 0.0
    ensures Gain(rule, a, b) + Gain(rule, b, c) == Gain(rule, a, c)
  {
    var r := Rate(rule);
    assert (b - a) * r + (c - b) * r == (c - a) * r;
  }

  /** Refilling for one stretch and then for another is refilling for both at once. */
  lemma RefillComposes(bucket: Option<Bucket>, rule: RateRule, now: real, later: real)
    requires now <= later
    requires bucket.Some? ==> bucket.value.last <= now
    ensures Available(Some(Bucket(Available(bucket, rule, now), now)), rule, later) == Available(bucket, rule, later)
  {
    hide Gain;
    GainAdds(rule, now, later, later);
    if bucket.Some? {
      GainAdds(rule, bucket.value.last, now, later);
    }
  }

  // ---------------------------------------------------------------- runs of one key

  ghost predicate Nondecreasing(times: seq<real>) {
    forall i, j :: 0 <= i <= j < |times| ==> times[i] <= times[j]
  }

  /** The bucket after checks at all of `times`, starting from no bucket. */
  function BucketAfter(rule: RateRule, times: seq<real>): Option<Bucket> {
    if times == [] then None
    else Some(CheckOne(BucketAfter(rule, times[..|times| - 1]), rule, times[|times| - 1]).0)
  }

  /** Tokens that request `i` finds. */
  function Level(rule: RateRule, times: seq<real>, i: nat): real
    requires i < |times|
  {
    Available(BucketAfter(rule, times[..i]), rule, times[i])
  }

  /** Whether request `i` of the run is admitted. */
  predicate Admits(rule: RateRule, times: seq<real>, i: nat)
    requires i < |times|
  {
    CheckOne(BucketAfter(rule, times[..i]), rule, times[i]).1 == Allowed
  }

  /** How many of the decisions from `j` up to, not including, `i` are admissions. */
  function Count(admitted: seq<bool>, j: nat, i: nat): nat
    requires j <= i <= |admitted|
    decreases i
  {
    if i == j then 0 else Count(admitted, j, i - 1) + (if admitted[i - 1] then 1 else 0)
  }

  /** The limiter's decisions over the run. */
  function Verdicts(rule: RateRule, times: seq<real>): (vs: seq<bool>)
    ensures |vs| == |times|
    ensures forall i :: 0 <= i < |times| ==> vs[i] == Admits(rule, times, i)
  {
    seq(|times|, i requires 0 <= i < |times| => Admits(rule, times, i))
  }

  /** `count` admissions and one more fit in the window from request `j` to request `i`. */
  ghost predicate Fits(rule: RateRule, times: seq<real>, j: nat, i: nat, count: nat)
    requires j <= i < |times|
  {
    count as real + 1.0 <= Capacity(rule) + Gain(rule, times[j], times[i])
  }

  ghost predicate AllWindowsFit(rule: RateRule, times: seq<real>, admitted: seq<bool>, i: nat)
    requires i < |times| == |admitted|
  {
    forall j: nat :: j <= i ==> Fits(rule, times, j, i, Count(admitted, j, i))
  }

  /** What the window from `j` has left when request `i` arrives. */
  function Headroom(rule: RateRule, times: seq<real>, j: nat, i: nat): real
    requires j <= i < |times|
  {
    Capacity(rule) + Gain(rule, times[j], times[i]) - Count(Verdicts(rule, times), j, i) as real
  }

  /** One step of the level: what is left after the charge, refilled to the next request. */
  lemma LevelStep(rule: RateRule, times: seq<real>, i: nat)
    requires Nondecreasing(times) && i + 1 < |times|
    ensures Level(rule, times, i + 1) ==
            Min(Level(rule, times, i) - (if Admits(rule, times, i) then 1.0 else 0.0)
                + Gain(rule, times[i], times[i + 1]), Capacity(rule))
  {
    hide Gain;
    assert times[..i + 1][..i] == times[..i];
    assert times[..i + 1][i] == times[i];
    assert times[i] <= times[i + 1];
    var charged := BucketAfter(rule, times[..i + 1]).value;
    assert charged == CheckOne(BucketAfter(rule, times[..i]), rule, times[i]).0;
  }

  /** Moving a window's right end by one request. */
  lemma HeadroomStep(rule: RateRule, times: seq<real>, j: nat, i: nat)
    requires Nondecreasing(times) && j <= i && i + 1 < |times|
    ensures Headroom(rule, times, j, i + 1) ==
            Headroom(rule, times, j, i) - (if Admits(rule, times, i) then 1.0 else 0.0)
            + Gain(rule, times[i], times[i + 1])
  {
    hide Gain;
    GainAdds(rule, times[j], times[i], times[i + 1]);
  }

  /** The level is exactly the least headroom over every window ending at this request. */
  lemma {:induction false} LevelIsLeastHeadroom(rule: RateRule, times: seq<real>, i: nat) returns (tight: nat)
    requires Nondecreasing(times) && i < |times|
    ensures forall j: nat :: j <= i ==> Level(rule, times, i) <= Headroom(rule, times, j, i)
    ensures tight <= i && Level(rule, times, i) == Headroom(rule, times, tight, i)
  {
    hide Gain;
    GainAdds(rule, times[i], times[i], times[i]);
    if i == 0 {
      assert times[..0] == [];
      tight := 0;
    } else {
      tight := LevelIsLeastHeadroom(rule, times, i - 1);
      LevelStep(rule, times, i - 1);
      forall j: nat | j < i ensures Level(rule, times, i) <= Headroom(rule, times, j, i) {
        HeadroomStep(rule, times, j, i - 1);
      }
      HeadroomStep(rule, times, tight, i - 1);
      assert Headroom(rule, times, i, i) == Capacity(rule);
      if Level(rule, times, i) == Capacity(rule) {
        tight := i;
      }
    }
  }

  /**
   The lazy bucket is the greedy admitter: a request is allowed exactly when every window
   that ends at it still has room for one more.
   */
  lemma AdmitsIffEveryWindowFits(rule: RateRule, times: seq<real>, i: nat)
    requires Nondecreasing(times) && i < |times|
    ensures Admits(rule, times, i) <==> AllWindowsFit(rule, times, Verdicts(rule, times), i)
  {
    var tight := LevelIsLeastHeadroom(rule, times, i);
    if Admits(rule, times, i) {
      forall j: nat | j <= i ensures Fits(rule, times, j, i, Count(Verdicts(rule, times), j, i)) {
        assert Level(rule, times, i) <= Headroom(rule, times, j, i);
      }
    } else {
      assert !Fits(rule, times, tight, i, Count(Verdicts(rule, times), tight, i));
    }
  }

  /** Requests `j` to `i`, both included, bring at most burst plus what the rate brings in over the window's length. */
  lemma {:induction false} WindowBound(rule: RateRule, times: seq<real>, j: nat, i: nat)
    requires Nondecreasing(times) && j <= i < |times|
    ensures Count(Verdicts(rule, times), j, i + 1) as real <= Capacity(rule) + Gain(rule, times[j], times[i])
  {
    hide Gain;
    GainAdds(rule, times[j], times[i], times[i]);
    if Admits(rule, times, i) {
      AdmitsIffEveryWindowFits(rule, times, i);
      assert Fits(rule, times, j, i, Count(Verdicts(rule, times), j, i));
    } else if i > j {
      WindowBound(rule, times, j, i - 1);
      GainAdds(rule, times[j], times[i - 1], times[i]);
      GainAdds(rule, times[i - 1], times[i], times[i]);
    }
  }

  lemma {:induction false} CountSplits(admitted: seq<bool>, j: nat, i: nat)
    requires j <= i <= |admitted|
    ensures Count(admitted, 0, i) == Count(admitted, 0, j) + Count(admitted, j, i)
    decreases i
  {
    if i > j {
      CountSplits(admitted, j, i - 1);
    }
  }

  /** A way of admitting requests that never lets a window overflow. */
  ghost predicate Respects(rule: RateRule, times: seq<real>, admitted: seq<bool>)
    requires |times| == |admitted|
  {
    forall i: nat :: i < |times| && admitted[i] ==> AllWindowsFit(rule, times, admitted, i)
  }

  /** No other way of respecting the windows is ever ahead of the limiter, at any point of any run. */
  lemma {:induction false} GreedyIsMaximal(rule: RateRule, times: seq<real>, other: seq<bool>, n: nat)
    requires Nondecreasing(times) && |other| == |times| && n <= |times|
    requires Respects(rule, times, other)
    ensures Count(other, 0, n) <= Count(Verdicts(rule, times), 0, n)
  {
    if n > 0 {
      var i := n - 1;
      GreedyIsMaximal(rule, times, other, i);
      var greedy := Verdicts(rule, times);
      if other[i] && !greedy[i] && Count(other, 0, i) == Count(greedy, 0, i) {
        AdmitsIffEveryWindowFits(rule, times, i);
        var j: nat :| j <= i && !Fits(rule, times, j, i, Count(greedy, j, i));
        assert Fits(rule, times, j, i, Count(other, j, i));
        GreedyIsMaximal(rule, times, other, j);
        CountSplits(other, j, i);
        CountSplits(greedy, j, i);
        assert false;
      }
    }
  }

  /** The limiter is itself one of the ways that respect every window. */
  lemma VerdictsRespect(rule: RateRule, times: seq<real>)
    requires Nondecreasing(times)
    ensures Respects(rule, times, Verdicts(rule, times))
  {
    forall i: nat | i < |times| && Verdicts(rule, times)[i]
      ensures AllWindowsFit(rule, times, Verdicts(rule, times), i)
    {
      AdmitsIffEveryWindowFits(rule, times, i);
    }
  }

  // ---------------------------------------------------------------- retry times

  /** An amount has flowed in exactly once enough time for it has passed. */
  lemma GainReaches(rule: RateRule, now: real, later: real, amount: real)
    requires now <= later && 1 <= rule.perMinute
    ensures Rate(rule) > 0.0
    ensures amount / Rate(rule) <= later - now <==> amount <= Gain(rule, now, later)
  {
    var r := Rate(rule);
    var wait := amount / r;
    assert wait * r == amount;
    if wait <= later - now {
      ProductMonotone(wait, later - now, r);
    } else {
      ProductMonotone(later - now, wait, r);
    }
  }

  /** A rejected request is admitted from exactly the moment its deficit has been refilled. */
  lemma AdmittedFrom(bucket: Option<Bucket>, rule: RateRule, now: real, later: real)
    requires bucket.Some? ==> bucket.value.last <= now
    requires now <= later && 1 <= rule.burst && 1 <= rule.perMinute
    requires CheckOne(bucket, rule, now).1 != Allowed
    ensures var deficit := 1.0 - Available(bucket, rule, now);
            CheckOne(Some(CheckOne(bucket, rule, now).0), rule, later).1 == Allowed
            <==> deficit / Rate(rule) <= later - now
  {
    hide Gain, Rate, WaitFor;
    var tokens := Available(bucket, rule, now);
    GainReaches(rule, now, later, 1.0 - tokens);
    assert CheckOne(bucket, rule, now).0 == Bucket(tokens, now);
    assert Capacity(rule) >= 1.0;
  }

  /** Rejections name the tight whole-second wait: enough, not one second too long, and never over a minute. */
  lemma RetryIsExact(bucket: Option<Bucket>, rule: RateRule, now: real)
    requires bucket.Some? ==> bucket.value.last <= now && 0.0 <= bucket.value.tokens
    requires 1 <= rule.burst && 1 <= rule.perMinute
    requires Available(bucket, rule, now) < 1.0
    ensures var (left, answer) := CheckOne(bucket, rule, now);
            && answer.RetryAfter? && 1 <= answer.secs <= 60
            && CheckOne(Some(left), rule, now + answer.secs as real).1 == Allowed
            && CheckOne(Some(left), rule, now + answer.secs as real - 1.0).1 != Allowed
  {
    var tokens := Available(bucket, rule, now);
    var r := Rate(rule);
    var secs := CheckOne(bucket, rule, now).1.secs;
    var wait := (1.0 - tokens) / r;
    WaitIsNatural(1.0 - tokens, r);
    if bucket.Some? {
      GainAdds(rule, bucket.value.last, now, now);
    }
    assert wait * r == 1.0 - tokens;
    if wait > 60.0 {
      ProductMonotone(60.0, wait, r);
      assert false;
    }
    AdmittedFrom(bucket, rule, now, now + secs as real);
    AdmittedFrom(bucket, rule, now, now + secs as real - 1.0);
  }

  // ---------------------------------------------------------------- runs of the whole limiter

  /** A prune may read a stale clock and reach only some of the buckets. */
  datatype Op = Check(key: Key, rule: RateRule, at: real) | Prune(at: real, visited: set<Key>)

  datatype Answer = Answer(key: Key, decision: Decision)

  function Step(buckets: map<Key, Bucket>, op: Op): map<Key, Bucket> {
    match op
    case Check(key, rule, at) => buckets[key := CheckOne(Lookup(buckets, key), rule, at).0]
    case Prune(at, visited) => Pruned(buckets, at, visited)
  }

  /** The limiter's map after a run that starts with no buckets. */
  function After(ops: seq<Op>): map<Key, Bucket> {
    if ops == [] then map[] else Step(After(ops[..|ops| - 1]), ops[|ops| - 1])
  }

  /** The answers to the run's checks, in order. */
  function Answers(ops: seq<Op>): seq<Answer> {
    if ops == [] then []
    else
      var (earlier, last) := (ops[..|ops| - 1], ops[|ops| - 1]);
      match last
      case Check(key, rule, at) =>
        Answers(earlier) + [Answer(key, CheckOne(Lookup(After(earlier), key), rule, at).1)]
      case Prune(_, _) => Answers(earlier)
  }

  function WithoutPrunes(ops: seq<Op>): seq<Op> {
    if ops == [] then []
    else
      var earlier := WithoutPrunes(ops[..|ops| - 1]);
      if ops[|ops| - 1].Check? then earlier + [ops[|ops| - 1]] else earlier
  }

  /** Checks read a nondecreasing clock; a prune's reading may lag behind but never runs ahead. */
  ghost predicate Clocked(ops: seq<Op>) {
    forall i, j :: 0 <= i <= j < |ops| && ops[j].Check? ==> ops[i].at <= ops[j].at
  }

  predicate RefillsWhileIdle(rule: RateRule) {
    rule.burst <= 10 * rule.perMinute
  }

  ghost predicate AllRefillWhileIdle(ops: seq<Op>) {
    forall i :: 0 <= i < |ops| && ops[i].Check? ==> RefillsWhileIdle(ops[i].rule)
  }

  /** Ten idle minutes refill every bucket, whatever was in it, exactly for bursts of at most ten times the rate. */
  lemma IdleBucketIsFullIff(rule: RateRule)
    ensures RefillsWhileIdle(rule) <==>
            forall b: Bucket, now: real :: 0.0 <= b.tokens && b.last + IDLE_PRUNE_SECS <= now ==>
              Available(Some(b), rule, now) == Capacity(rule)
  {
    var r := Rate(rule);
    assert IDLE_PRUNE_SECS * r == 10.0 * rule.perMinute as real;
    if RefillsWhileIdle(rule) {
      forall b: Bucket, now: real | 0.0 <= b.tokens && b.last + IDLE_PRUNE_SECS <= now
        ensures Available(Some(b), rule, now) == Capacity(rule)
      {
        ProductMonotone(IDLE_PRUNE_SECS, now - b.last, r);
      }
    } else {
      assert Available(Some(Bucket(0.0, 0.0)), rule, IDLE_PRUNE_SECS) < Capacity(rule);
    }
  }

  /** Both limiters hold the same bucket, or one dropped a bucket that has been idle for ten minutes by `at`. */
  ghost predicate SameOrIdle(pruned: Option<Bucket>, kept: Option<Bucket>, at: real) {
    || pruned == kept
    || (pruned == None && kept.Some? && kept.value.last + IDLE_PRUNE_SECS <= at)
  }

  ghost predicate LimitersAgree(pruned: map<Key, Bucket>, kept: map<Key, Bucket>, at: real) {
    && (forall k :: SameOrIdle(Lookup(pruned, k), Lookup(kept, k), at))
    && (forall k :: k in kept ==> 0.0 <= kept[k].tokens && kept[k].last <= at)
  }

  lemma TokensStayNonnegative(bucket: Option<Bucket>, rule: RateRule, now: real)
    requires bucket.Some? ==> 0.0 <= bucket.value.tokens && bucket.value.last <= now
    ensures 0.0 <= CheckOne(bucket, rule, now).0.tokens
  {
    if bucket.Some? {
      GainAdds(rule, bucket.value.last, now, now);
    }
  }

  lemma CheckKeepsAgreement(pruned: map<Key, Bucket>, kept: map<Key, Bucket>, key: Key, rule: RateRule, now: real)
    requires LimitersAgree(pruned, kept, now) && RefillsWhileIdle(rule)
    ensures CheckOne(Lookup(pruned, key), rule, now) == CheckOne(Lookup(kept, key), rule, now)
    ensures LimitersAgree(Step(pruned, Check(key, rule, now)), Step(kept, Check(key, rule, now)), now)
  {
    hide Gain, WaitFor;
    var (p, k) := (Lookup(pruned, key), Lookup(kept, key));
    assert SameOrIdle(p, k, now);
    assert Available(p, rule, now) == Available(k, rule, now) by {
      IdleBucketIsFullIff(rule);
    }
    TokensStayNonnegative(k, rule, now);
    assert CheckOne(p, rule, now) == CheckOne(k, rule, now);
    hide CheckOne;
    forall other
      ensures SameOrIdle(Lookup(Step(pruned, Check(key, rule, now)), other),
                         Lookup(Step(kept, Check(key, rule, now)), other), now)
    {
      assert SameOrIdle(Lookup(pruned, other), Lookup(kept, other), now);
    }
  }

  lemma PruneKeepsAgreement(pruned: map<Key, Bucket>, kept: map<Key, Bucket>, op: Op, at: real)
    requires LimitersAgree(pruned, kept, at) && op.Prune? && op.at <= at
    ensures LimitersAgree(Step(pruned, op), kept, at)
  {
    forall k ensures SameOrIdle(Lookup(Step(pruned, op), k), Lookup(kept, k), at) {
      assert SameOrIdle(Lookup(pruned, k), Lookup(kept, k), at);
    }
  }

  lemma AgreementLasts(pruned: map<Key, Bucket>, kept: map<Key, Bucket>, at: real, later: real)
    requires LimitersAgree(pruned, kept, at) && at <= later
    ensures LimitersAgree(pruned, kept, later)
  {
    forall k ensures SameOrIdle(Lookup(pruned, k), Lookup(kept, k), later) {
      assert SameOrIdle(Lookup(pruned, k), Lookup(kept, k), at);
    }
  }

  /** The pruned limiter and the one never pruned, run side by side; `at` bounds every clock reading so far. */
  lemma {:induction false} PruneIsInvisible(ops: seq<Op>, at: real)
    requires Clocked(ops) && AllRefillWhileIdle(ops)
    requires forall i :: 0 <= i < |ops| ==> ops[i].at <= at
    ensures Answers(ops) == Answers(WithoutPrunes(ops))
    ensures LimitersAgree(After(ops), After(WithoutPrunes(ops)), at)
  {
    hide CheckOne;
    if ops != [] {
      var (earlier, last) := (ops[..|ops| - 1], ops[|ops| - 1]);
      match last {
        case Check(key, rule, now) =>
          PruneIsInvisible(earlier, now);
          assert WithoutPrunes(ops)[..|WithoutPrunes(ops)| - 1] == WithoutPrunes(earlier);
          CheckKeepsAgreement(After(earlier), After(WithoutPrunes(earlier)), key, rule, now);
          AgreementLasts(After(ops), After(WithoutPrunes(ops)), now, at);
        case Prune(_, _) =>
          PruneIsInvisible(earlier, at);
          PruneKeepsAgreement(After(earlier), After(WithoutPrunes(earlier)), last, at);
      }
    }
  }

  /** Whatever is pruned, whenever, under however many rules per key: no answer changes. */
  lemma PruningIsUnobservable(ops: seq<Op>)
    requires Clocked(ops) && AllRefillWhileIdle(ops)
    ensures Answers(ops) == Answers(WithoutPrunes(ops))
  {
    var at := LatestReading(ops);
    PruneIsInvisible(ops, at);
  }

  lemma {:induction false} LatestReading(ops: seq<Op>) returns (at: real)
    ensures forall i :: 0 <= i < |ops| ==> ops[i].at <= at
  {
    at := 0.0;
    if ops != [] {
      at := LatestReading(ops[..|ops| - 1]);
      forall i | 0 <= i < |ops| - 1 ensures ops[i].at <= at {
        assert ops[..|ops| - 1][i] == ops[i];
      }
      at := if ops[|ops| - 1].at > at then ops[|ops| - 1].at else at;
    }
  }

  /** The times at which `key` was checked. */
  function TimesOf(key: Key, ops: seq<Op>): seq<real> {
    if ops == [] then []
    else
      var earlier := TimesOf(key, ops[..|ops| - 1]);
      var last := ops[|ops| - 1];
      if last.Check? && last.key == key then earlier + [last.at] else earlier
  }

  /** The decisions that `key` was given. */
  function DecisionsFor(key: Key, answers: seq<Answer>): seq<Decision> {
    if answers == [] then []
    else
      var earlier := DecisionsFor(key, answers[..|answers| - 1]);
      var last := answers[|answers| - 1];
      if last.key == key then earlier + [last.decision] else earlier
  }

  ghost predicate ChecksUnder(key: Key, rule: RateRule, ops: seq<Op>) {
    forall i :: 0 <= i < |ops| && ops[i].Check? && ops[i].key == key ==> ops[i].rule == rule
  }

  /** Keys do not interfere: one key's bucket and decisions are those of its own checks alone. */
  lemma {:induction false} KeysAreIndependent(key: Key, rule: RateRule, ops: seq<Op>)
    requires ChecksUnder(key, rule, ops)
    requires forall i :: 0 <= i < |ops| ==> ops[i].Check?
    ensures Lookup(After(ops), key) == BucketAfter(rule, TimesOf(key, ops))
    ensures |DecisionsFor(key, Answers(ops))| == |TimesOf(key, ops)|
    ensures forall i :: 0 <= i < |TimesOf(key, ops)| ==>
              (DecisionsFor(key, Answers(ops))[i] == Allowed <==> Admits(rule, TimesOf(key, ops), i))
  {
    hide CheckOne, Admits;
    if ops != [] {
      var (earlier, last) := (ops[..|ops| - 1], ops[|ops| - 1]);
      assert ChecksUnder(key, rule, earlier) && (last.key == key ==> last.rule == rule);
      hide BucketAfter, ChecksUnder;
      KeysAreIndependent(key, rule, earlier);
      var answers := Answers(ops);
      assert answers[..|answers| - 1] == Answers(earlier);
      if last.key == key {
        OneMoreRequest(rule, TimesOf(key, earlier), last.at);
      }
    }
  }

  /** One more request changes no earlier decision, and finds the bucket that the others left. */
  lemma OneMoreRequest(rule: RateRule, times: seq<real>, at: real)
    ensures forall i :: 0 <= i < |times| ==> Admits(rule, times + [at], i) == Admits(rule, times, i)
    ensures BucketAfter(rule, times + [at]) == Some(CheckOne(BucketAfter(rule, times), rule, at).0)
    ensures Admits(rule, times + [at], |times|) <==> CheckOne(BucketAfter(rule, times), rule, at).1 == Allowed
  {
    hide CheckOne;
    var longer := times + [at];
    assert longer[..|times|] == times;
    forall i | 0 <= i < |times| ensures Admits(rule, longer, i) == Admits(rule, times, i) {
      assert longer[..i] == times[..i];
    }
  }

  lemma {:induction false} TimesOfIsClocked(key: Key, ops: seq<Op>)
    requires Clocked(ops)
    ensures Nondecreasing(TimesOf(key, ops))
    ensures forall t :: t in TimesOf(key, ops) ==> exists i :: 0 <= i < |ops| && ops[i].at == t
  {
    if ops != [] {
      var earlier := ops[..|ops| - 1];
      TimesOfIsClocked(key, earlier);
      var (before, last) := (TimesOf(key, earlier), ops[|ops| - 1]);
      if last.Check? && last.key == key {
        forall n | 0 <= n < |before| ensures before[n] <= last.at {
          assert before[n] in before;
          var i :| 0 <= i < |earlier| && earlier[i].at == before[n];
          assert ops[i].at == before[n];
        }
        assert TimesOf(key, ops) == before + [last.at];
      }
      forall t | t in TimesOf(key, ops) ensures exists i :: 0 <= i < |ops| && ops[i].at == t {
        if t in TimesOf(key, earlier) {
          var i :| 0 <= i < |earlier| && earlier[i].at == t;
          assert ops[i].at == t;
        }
      }
    }
  }

  lemma {:induction false} WithoutPrunesKeeps(key: Key, ops: seq<Op>)
    ensures forall op :: op in WithoutPrunes(ops) ==> op in ops && op.Check?
    ensures TimesOf(key, WithoutPrunes(ops)) == TimesOf(key, ops)
  {
    if ops != [] {
      WithoutPrunesKeeps(key, ops[..|ops| - 1]);
      var kept := WithoutPrunes(ops);
      if ops[|ops| - 1].Check? {
        assert kept[..|kept| - 1] == WithoutPrunes(ops[..|ops| - 1]);
      }
    }
  }

  /**
   The limiter as a whole, with other keys checked and buckets pruned in between: a key
   that is always checked under one rule is admitted exactly when all its windows fit.
   */
  lemma LimiterIsGreedy(key: Key, rule: RateRule, ops: seq<Op>, i: nat)
    requires Clocked(ops) && AllRefillWhileIdle(ops) && ChecksUnder(key, rule, ops)
    requires i < |TimesOf(key, ops)|
    ensures |DecisionsFor(key, Answers(ops))| == |TimesOf(key, ops)|
    ensures DecisionsFor(key, Answers(ops))[i] == Allowed <==>
            AllWindowsFit(rule, TimesOf(key, ops), Verdicts(rule, TimesOf(key, ops)), i)
  {
    PruningIsUnobservable(ops);
    WithoutPrunesKeeps(key, ops);
    var kept := WithoutPrunes(ops);
    forall j | 0 <= j < |kept| ensures kept[j].Check? && (kept[j].key == key ==> kept[j].rule == rule) {
      assert kept[j] in ops;
    }
    KeysAreIndependent(key, rule, kept);
    TimesOfIsClocked(key, ops);
    AdmitsIffEveryWindowFits(rule, TimesOf(key, ops), i);
  }

  // ---------------------------------------------------------------- rejected checks

  /** The second bucket is the first one, or the first one refilled at `perMinute` and left with less than a token. */
  predicate Alike(a: Option<Bucket>, b: Option<Bucket>, perMinute: nat, at: real) {
    || a == b
    || (&& a.Some? && b.Some? && a.value.last <= b.value.last <= at
        && b.value.tokens == a.value.tokens + Gain(RateRule(perMinute, 1), a.value.last, b.value.last)
        && b.value.tokens < 1.0)
  }

  /** The keys' checks come at one rate per key; their bursts may differ. */
  ghost predicate OneRate(ops: seq<Op>, rateOf: Key -> nat) {
    forall i :: 0 <= i < |ops| && ops[i].Check? ==>
        ops[i].rule.perMinute == rateOf(ops[i].key) && 1 <= ops[i].rule.burst
  }

  lemma {:induction false} BucketsLag(ops: seq<Op>, at: real)
    requires forall i :: 0 <= i < |ops| ==> ops[i].Check? && ops[i].at <= at
    ensures forall k :: k in After(ops) ==> After(ops)[k].last <= at
  {
    if ops != [] {
      BucketsLag(ops[..|ops| - 1], at);
    }
  }

  /** Without prunes: deleting a rejected check, or inserting one, changes no other answer of the run. */
  lemma {:induction false} RejectedChecksAreSkipped(pre: seq<Op>, check: Op, post: seq<Op>, rateOf: Key -> nat)
    requires OneRate(pre + [check] + post, rateOf) && Clocked(pre + [check] + post)
    requires forall i :: 0 <= i < |pre + [check] + post| ==> (pre + [check] + post)[i].Check?
    requires check.Check? && CheckOne(Lookup(After(pre), check.key), check.rule, check.at).1 != Allowed
    ensures |Answers(pre)| == |pre|
    ensures |Answers(pre + [check] + post)| == |pre| + 1 + |post|
    ensures Answers(pre + post) == Answers(pre) + Answers(pre + [check] + post)[|pre| + 1..]
    ensures Answers(pre) == Answers(pre + [check] + post)[..|pre|]
    ensures LimitersAlike(After(pre + post), After(pre + [check] + post), rateOf,
            (pre + [check] + post)[|pre| + |post|].at)
    decreases |post|
  {
    hide CheckOne, LimitersAlike, Answers, After;
    var all := pre + [check] + post;
    if post == [] {
      assert all == pre + [check] && pre + post == pre;
      AppendCheck(pre, check);
      assert all[|pre|] == check;
      forall i | 0 <= i < |pre| ensures pre[i].Check? && pre[i].at <= check.at {
        assert all[i] == pre[i];
      }
      AnswersLength(pre);
      BucketsLag(pre, check.at);
      RejectionLeavesAlike(After(pre), check, rateOf);
    } else {
      var (earlier, last) := (post[..|post| - 1], post[|post| - 1]);
      var (short, long) := (pre + earlier, pre + [check] + earlier);
      assert all == long + [last] && pre + post == short + [last] && all[|all| - 1] == last;
      assert last.Check? && last.rule.perMinute == rateOf(last.key) && 1 <= last.rule.burst;
      AppendCheck(short, last);
      AppendCheck(long, last);
      forall i | 0 <= i < |long| ensures long[i] == all[i] {
      }
      RejectedChecksAreSkipped(pre, check, earlier, rateOf);
      CheckKeepsAlike(After(short), After(long), last, rateOf, long[|pre| + |earlier|].at);
    }
  }

  lemma AppendCheck(ops: seq<Op>, check: Op)
    requires check.Check?
    ensures After(ops + [check]) == Step(After(ops), check)
    ensures Answers(ops + [check]) ==
            Answers(ops) + [Answer(check.key, CheckOne(Lookup(After(ops), check.key), check.rule, check.at).1)]
  {
    assert (ops + [check])[..|ops|] == ops;
  }

  ghost predicate LimitersAlike(a: map<Key, Bucket>, b: map<Key, Bucket>, rateOf: Key -> nat, at: real) {
    forall k :: Alike(Lookup(a, k), Lookup(b, k), rateOf(k), at)
  }

  lemma RejectionLeavesAlike(buckets: map<Key, Bucket>, check: Op, rateOf: Key -> nat)
    requires check.Check? && check.rule.perMinute == rateOf(check.key) && 1 <= check.rule.burst
    requires forall k :: k in buckets ==> buckets[k].last <= check.at
    requires CheckOne(Lookup(buckets, check.key), check.rule, check.at).1 != Allowed
    ensures LimitersAlike(buckets, Step(buckets, check), rateOf, check.at)
  {
    hide Gain, WaitFor;
    var bucket := Lookup(buckets, check.key);
    assert bucket.Some?;
    GainIsOfRate(check.rule, bucket.value.last, check.at);
    assert Alike(bucket, Lookup(Step(buckets, check), check.key), rateOf(check.key), check.at);
  }

  /** What flows in depends on the rate alone. */
  lemma GainIsOfRate(rule: RateRule, from: real, to: real)
    ensures Gain(rule, from, to) == Gain(RateRule(rule.perMinute, 1), from, to)
  {
  }

  /** Alike buckets offer the same tokens from then on, to every rule of that rate. */
  lemma AlikeOfferTheSame(a: Option<Bucket>, b: Option<Bucket>, rule: RateRule, at: real, now: real)
    requires Alike(a, b, rule.perMinute, at) && at <= now
    ensures Available(a, rule, now) == Available(b, rule, now)
  {
    if a != b {
      GainAdds(rule, a.value.last, b.value.last, now);
      GainIsOfRate(rule, a.value.last, b.value.last);
    }
  }

  lemma CheckKeepsAlike(a: map<Key, Bucket>, b: map<Key, Bucket>, check: Op, rateOf: Key -> nat, at: real)
    requires check.Check? && check.rule.perMinute == rateOf(check.key) && at <= check.at
    requires LimitersAlike(a, b, rateOf, at)
    ensures CheckOne(Lookup(a, check.key), check.rule, check.at) == CheckOne(Lookup(b, check.key), check.rule, check.at)
    ensures LimitersAlike(Step(a, check), Step(b, check), rateOf, check.at)
  {
    hide Gain, WaitFor;
    assert Alike(Lookup(a, check.key), Lookup(b, check.key), check.rule.perMinute, at);
    AlikeOfferTheSame(Lookup(a, check.key), Lookup(b, check.key), check.rule, at, check.at);
    hide Available;
    forall k ensures Alike(Lookup(Step(a, check), k), Lookup(Step(b, check), k), rateOf(k), check.at) {
      assert Alike(Lookup(a, k), Lookup(b, k), rateOf(k), at);
    }
  }

  lemma {:induction false} AnswersLength(ops: seq<Op>)
    requires forall i :: 0 <= i < |ops| ==> ops[i].Check?
    ensures |Answers(ops)| == |ops|
  {
    if ops != [] {
      AnswersLength(ops[..|ops| - 1]);
    }
  }

  lemma {:induction false} WithoutPrunesSplits(a: seq<Op>, b: seq<Op>)
    ensures WithoutPrunes(a + b) == WithoutPrunes(a) + WithoutPrunes(b)
    decreases |b|
  {
    if b == [] {
      assert a + b == a;
    } else {
      WithoutPrunesSplits(a, b[..|b| - 1]);
      assert (a + b)[..|a + b| - 1] == a + b[..|b| - 1];
    }
  }

  lemma {:induction false} WithoutPrunesIsClocked(ops: seq<Op>)
    requires Clocked(ops)
    ensures Clocked(WithoutPrunes(ops))
  {
    if ops != [] {
      var earlier := ops[..|ops| - 1];
      WithoutPrunesIsClocked(earlier);
      WithoutPrunesKeeps("", earlier);
      var (kept, before) := (WithoutPrunes(ops), WithoutPrunes(earlier));
      forall i, j | 0 <= i <= j < |kept| ensures kept[i].at <= kept[j].at {
        if j < |before| {
          assert kept[i] == before[i] && kept[j] == before[j];
          assert before[j] in earlier && before[j].Check?;
        } else if i < |before| {
          assert before[i] in earlier;
        }
      }
    }
  }

  /** A run with one of its operations left out still reads a nondecreasing clock, at the same rates and refills. */
  lemma SkippingKeepsOrder(pre: seq<Op>, check: Op, post: seq<Op>)
    requires Clocked(pre + [check] + post) && AllRefillWhileIdle(pre + [check] + post)
    ensures Clocked(pre + post) && AllRefillWhileIdle(pre + post)
    ensures Clocked(pre) && AllRefillWhileIdle(pre)
    ensures check.Check? ==> RefillsWhileIdle(check.rule) && forall i :: 0 <= i < |pre| ==> pre[i].at <= check.at
  {
    var (all, less) := (pre + [check] + post, pre + post);
    forall i | 0 <= i < |less| ensures less[i] == all[if i < |pre| then i else i + 1] {
    }
    assert all[|pre|] == check;
    forall i | 0 <= i < |pre| ensures pre[i] == all[i] {
    }
  }

  /** Without its prunes, a run still reads a nondecreasing clock, at the same rates. */
  lemma KeptRun(all: seq<Op>, rateOf: Key -> nat)
    requires Clocked(all) && OneRate(all, rateOf)
    ensures var kept := WithoutPrunes(all);
            && Clocked(kept) && OneRate(kept, rateOf) && forall i :: 0 <= i < |kept| ==> kept[i].Check?
  {
    WithoutPrunesIsClocked(all);
    WithoutPrunesKeeps("", all);
    hide Clocked, WithoutPrunes;
    var kept := WithoutPrunes(all);
    forall i | 0 <= i < |kept|
      ensures kept[i].Check? && kept[i].rule.perMinute == rateOf(kept[i].key) && 1 <= kept[i].rule.burst
    {
      assert kept[i] in all;
    }
  }

  lemma StrippedRun(pre: seq<Op>, check: Op, post: seq<Op>, rateOf: Key -> nat)
    requires Clocked(pre + [check] + post) && OneRate(pre + [check] + post, rateOf) && check.Check?
    ensures var stripped := WithoutPrunes(pre) + [check] + WithoutPrunes(post);
            && WithoutPrunes(pre + [check] + post) == stripped
            && WithoutPrunes(pre + post) == WithoutPrunes(pre) + WithoutPrunes(post)
            && Clocked(stripped) && OneRate(stripped, rateOf) && forall i :: 0 <= i < |stripped| ==> stripped[i].Check?
  {
    KeptRun(pre + [check] + post, rateOf);
    hide Clocked, OneRate;
    WithoutPrunesSplits(pre, post);
    WithoutPrunesSplits(pre + [check], post);
    WithoutPrunesSplits(pre, [check]);
    assert [check][..0] == [] && WithoutPrunes([check]) == [check];
  }

  lemma SameRejection(pre: seq<Op>, check: Op)
    requires Clocked(pre) && AllRefillWhileIdle(pre) && check.Check? && RefillsWhileIdle(check.rule)
    requires forall i :: 0 <= i < |pre| ==> pre[i].at <= check.at
    ensures CheckOne(Lookup(After(pre), check.key), check.rule, check.at)
            == CheckOne(Lookup(After(WithoutPrunes(pre)), check.key), check.rule, check.at)
  {
    hide CheckOne;
    PruneIsInvisible(pre, check.at);
    CheckKeepsAgreement(After(pre), After(WithoutPrunes(pre)), check.key, check.rule, check.at);
  }

  /**
   Rejected checks are transparent, prunes and all: as long as each key is checked at one rate,
   deleting a rejected check from a run, or inserting one, changes no other answer.
   */
  lemma RejectedChecksAreTransparent(pre: seq<Op>, check: Op, post: seq<Op>, rateOf: Key -> nat)
    requires Clocked(pre + [check] + post) && AllRefillWhileIdle(pre + [check] + post)
    requires OneRate(pre + [check] + post, rateOf)
    requires check.Check? && CheckOne(Lookup(After(pre), check.key), check.rule, check.at).1 != Allowed
    ensures |Answers(pre + [check] + post)| > |Answers(pre)|
    ensures Answers(pre + post) == Answers(pre) + Answers(pre + [check] + post)[|Answers(pre)| + 1..]
    ensures Answers(pre) == Answers(pre + [check] + post)[..|Answers(pre)|]
  {
    hide CheckOne, After, Answers, Lookup, Clocked, AllRefillWhileIdle, OneRate, WithoutPrunes, LimitersAgree;
    SkippingKeepsOrder(pre, check, post);
    PruningIsUnobservable(pre + [check] + post);
    PruningIsUnobservable(pre + post);
    PruningIsUnobservable(pre);
    StrippedRun(pre, check, post, rateOf);
    SameRejection(pre, check);
    RejectedChecksAreSkipped(WithoutPrunes(pre), check, WithoutPrunes(post), rateOf);
  }

  /** What flows in over a stretch of time. */
  function Inflow(rule: RateRule, time: real): real {
    time * Rate(rule)
  }

  /** A check is admitted once what was left and what has flowed in since make a token. */
  lemma AdmittedIffRefilled(b: Bucket, rule: RateRule, now: real)
    requires b.last <= now && 1 <= rule.burst
    ensures CheckOne(Some(b), rule, now).1 == Allowed <==> b.tokens + Inflow(rule, now - b.last) >= 1.0
    ensures CheckOne(Some(b), rule, now).1 != Allowed ==>
              CheckOne(Some(b), rule, now).0 == Bucket(b.tokens + Inflow(rule, now - b.last), now)
  {
    hide WaitFor, Rate;
    assert Gain(rule, b.last, now) == Inflow(rule, now - b.last);
    hide Gain, Inflow;
  }

  /** How long until half a token has flowed in. */
  lemma HalfAToken(rule: RateRule) returns (time: real)
    requires 1 <= rule.perMinute
    ensures time > 0.0 && Inflow(rule, time) == 0.5
  {
    time := 0.5 / Rate(rule);
    assert time * Rate(rule) == 0.5;
  }

  lemma FasterFlowsMore(slow: RateRule, fast: RateRule, time: real)
    requires slow.perMinute < fast.perMinute && time > 0.0
    ensures Inflow(slow, time) < Inflow(fast, time)
  {
    var difference := Rate(fast) - Rate(slow);
    assert time * difference > 0.0;
    assert time * Rate(fast) == time * Rate(slow) + time * difference;
  }

  lemma InflowAdds(rule: RateRule, a: real, b: real)
    ensures Inflow(rule, a + b) == Inflow(rule, a) + Inflow(rule, b)
  {
  }

  /** Buckets at different rates give it away: some rejected check changes a later answer. */
  lemma DifferentRatesShow(p: RateRule, q: RateRule) returns (at: real, later: real)
    requires 1 <= p.perMinute && 1 <= p.burst && 1 <= q.perMinute && 1 <= q.burst && p.perMinute != q.perMinute
    ensures 0.0 <= at <= later
    ensures var empty := Some(Bucket(0.0, 0.0));
            && CheckOne(empty, q, at).1 != Allowed
            && (CheckOne(Some(CheckOne(empty, q, at).0), p, later).1 == Allowed
               <==> CheckOne(empty, p, later).1 != Allowed)
  {
    hide CheckOne, Inflow;
    var half := HalfAToken(p);
    if q.perMinute > p.perMinute {
      at := HalfAToken(q);
      FasterFlowsMore(p, q, at);
    } else {
      at := half;
      FasterFlowsMore(q, p, at);
    }
    later := at + half;
    InflowAdds(p, at, half);
    var empty := Bucket(0.0, 0.0);
    assert at - 0.0 == at && later - 0.0 == later && later - at == half;
    AdmittedIffRefilled(empty, q, at);
    AdmittedIffRefilled(empty, p, later);
    AdmittedIffRefilled(Bucket(0.0 + Inflow(q, at), at), p, later);
  }

  /**
   When a rejected check under one rule can be seen by later checks under another: exactly when
   the two rules' rates differ; their bursts do not matter.
   */
  lemma RejectionIsInvisibleIff(p: RateRule, q: RateRule)
    requires 1 <= p.perMinute && 1 <= p.burst && 1 <= q.perMinute && 1 <= q.burst
    ensures q.perMinute == p.perMinute <==>
            forall b: Bucket, at: real, later: real ::
              b.last <= at <= later && CheckOne(Some(b), q, at).1 != Allowed ==>
                CheckOne(Some(CheckOne(Some(b), q, at).0), p, later) == CheckOne(Some(b), p, later)
  {
    hide Gain, WaitFor, Rate;
    if q.perMinute == p.perMinute {
      forall b: Bucket, at: real, later: real | b.last <= at <= later && CheckOne(Some(b), q, at).1 != Allowed
        ensures CheckOne(Some(CheckOne(Some(b), q, at).0), p, later) == CheckOne(Some(b), p, later)
      {
        GainIsOfRate(q, b.last, at);
        AlikeOfferTheSame(Some(b), Some(CheckOne(Some(b), q, at).0), p, at, later);
      }
    } else {
      hide CheckOne;
      var at, later := DifferentRatesShow(p, q);
      var empty := Bucket(0.0, 0.0);
      assert CheckOne(Some(CheckOne(Some(empty), q, at).0), p, later) != CheckOne(Some(empty), p, later);
    }
  }

  lemma ThreeChecks()
    ensures var (slow, fast) := (NewRateRule(1), NewRateRule(60));
            var (empty, left) := (Bucket(0.0, 0.0), Bucket(0.5 / 60.0, 0.5));
            && CheckOne(None, slow, 0.0) == (empty, Allowed)
            && CheckOne(Some(empty), slow, 0.5).0 == left && CheckOne(Some(empty), slow, 0.5).1 != Allowed
            && CheckOne(Some(empty), fast, 1.0).1 == Allowed
            && CheckOne(Some(left), fast, 1.0).1 != Allowed
  {
    var (slow, fast) := (NewRateRule(1), NewRateRule(60));
    assert Rate(slow) == 1.0 / 60.0 && Rate(fast) == 1.0;
    assert CheckOne(None, slow, 0.0) == (Bucket(0.0, 0.0), Allowed);
    hide CheckOne, Rate;
    AdmittedIffRefilled(Bucket(0.0, 0.0), slow, 0.5);
    AdmittedIffRefilled(Bucket(0.0, 0.0), fast, 1.0);
    AdmittedIffRefilled(Bucket(0.5 / 60.0, 0.5), fast, 1.0);
  }

  lemma ThenCheck(ops: seq<Op>, key: Key, rule: RateRule, at: real)
    ensures var (longer, result) := (ops + [Check(key, rule, at)], CheckOne(Lookup(After(ops), key), rule, at));
            && Lookup(After(longer), key) == Some(result.0)
            && Answers(longer) == Answers(ops) + [Answer(key, result.1)]
  {
    hide CheckOne;
    AppendCheck(ops, Check(key, rule, at));
  }

  lemma FirstTwo(key: Key, r: RateRule, at: real, q: RateRule, later: real)
    ensures var ops := [Check(key, r, at), Check(key, q, later)];
            var (first, second) := (CheckOne(None, r, at), CheckOne(Some(CheckOne(None, r, at).0), q, later));
            && Lookup(After(ops), key) == Some(second.0)
            && Answers(ops) == [Answer(key, first.1), Answer(key, second.1)]
  {
    assert After([]) == map[] && Answers([]) == [];
    hide CheckOne, After, Answers;
    ThenCheck([], key, r, at);
    assert [] + [Check(key, r, at)] == [Check(key, r, at)];
    ThenCheck([Check(key, r, at)], key, q, later);
    assert [Check(key, r, at)] + [Check(key, q, later)] == [Check(key, r, at), Check(key, q, later)];
  }

  lemma RunOfThree(key: Key, slow: RateRule, fast: RateRule)
    requires slow == NewRateRule(1) && fast == NewRateRule(60)
    ensures var answers := Answers([Check(key, slow, 0.0), Check(key, slow, 0.5), Check(key, fast, 1.0)]);
            |answers| == 3 && answers[1].decision != Allowed && answers[2].decision != Allowed
  {
    ThreeChecks();
    hide CheckOne, After, Answers, NewRateRule;
    var two := [Check(key, slow, 0.0), Check(key, slow, 0.5)];
    FirstTwo(key, slow, 0.0, slow, 0.5);
    ThenCheck(two, key, fast, 1.0);
    assert two + [Check(key, fast, 1.0)] == [Check(key, slow, 0.0), Check(key, slow, 0.5), Check(key, fast, 1.0)];
  }

  lemma RunOfTwo(key: Key, slow: RateRule, fast: RateRule)
    requires slow == NewRateRule(1) && fast == NewRateRule(60)
    ensures var answers := Answers([Check(key, slow, 0.0), Check(key, fast, 1.0)]);
            |answers| == 2 && answers[1].decision == Allowed
  {
    ThreeChecks();
    hide CheckOne, After, Answers, NewRateRule;
    FirstTwo(key, slow, 0.0, fast, 1.0);
  }

  /** A run that starts with no buckets, in which a rejected check costs a later one, at another rate, its token. */
  lemma RejectedCheckShowsAcrossRates(key: Key)
    ensures var (slow, fast) := (NewRateRule(1), NewRateRule(60));
            var (first, rejected, last) := (Check(key, slow, 0.0), Check(key, slow, 0.5), Check(key, fast, 1.0));
            && Clocked([first, rejected, last]) && AllRefillWhileIdle([first, rejected, last])
            && |Answers([first, rejected, last])| == 3 && |Answers([first, last])| == 2
            && Answers([first, rejected, last])[1].decision != Allowed
            && Answers([first, rejected, last])[2].decision != Allowed
            && Answers([first, last])[1].decision == Allowed
  {
    hide Answers;
    RunOfThree(key, NewRateRule(1), NewRateRule(60));
    RunOfTwo(key, NewRateRule(1), NewRateRule(60));
  }
}
