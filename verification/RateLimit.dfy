/** The token bucket of `ratelimit.py`, over real numbers. */
module RateLimit {
  import opened Common

  /** Tokens per second and the size of the bucket. */
  datatype Config = Config(rate: real, burst: nat)

  predicate ValidConfig(cfg: Config) {
    cfg.rate > 0.0 && cfg.burst >= 1
  }

  /** What Redis holds for a key: the tokens left at the last request. */
  datatype Bucket = Bucket(tokens: real, ts: real)

  datatype Outcome = Outcome(allowed: bool, retry: real, bucket: Bucket)

  const COST := 1.0

  function Min(a: real, b: real): real {
    if a <= b then a else b
  }

  /** The tokens available at a time; a key that is not there is a full bucket. */
  function Level(cfg: Config, b: Option<Bucket>, now: real): real {
    match b
    case None => cfg.burst as real
    case Some(bucket) => Min(cfg.burst as real, bucket.tokens + (now - bucket.ts) * cfg.rate)
  }

  predicate IsAllowed(cfg: Config, b: Option<Bucket>, now: real) {
    Level(cfg, b, now) >= COST
  }

  function Left(cfg: Config, b: Option<Bucket>, now: real): Bucket {
    Bucket(if IsAllowed(cfg, b, now) then Level(cfg, b, now) - COST else Level(cfg, b, now), now)
  }

  /** One run of the script. */
  function Take(cfg: Config, b: Option<Bucket>, now: real): Outcome
    requires ValidConfig(cfg)
  {
    var allowed := IsAllowed(cfg, b, now);
    Outcome(allowed, if allowed then 0.0 else (COST - Level(cfg, b, now)) / cfg.rate, Left(cfg, b, now))
  }

  function Ceil(x: real): int {
    if x == x.Floor as real then x.Floor else x.Floor + 1
  }

  /** The Retry-After value of a refusal, in whole seconds. */
  function RetryAfter(o: Outcome): int {
    if Ceil(o.retry) >= 1 then Ceil(o.retry) else 1
  }

  function Remaining(o: Outcome): int {
    if o.bucket.tokens <= 0.0 then 0 else o.bucket.tokens.Floor
  }

  // ------------------------------------------------------------------ histories of one key

  ghost predicate Nondecreasing(times: seq<real>) {
    forall i, j :: 0 <= i < j < |times| ==> times[i] <= times[j]
  }

  function After(cfg: Config, times: seq<real>): Option<Bucket>
  {
    if times == [] then None
    else Some(Left(cfg, After(cfg, times[..|times| - 1]), times[|times| - 1]))
  }

  /** The answer to request i. */
  function Answer(cfg: Config, times: seq<real>, i: nat): Outcome
    requires ValidConfig(cfg) && i < |times|
  {
    Take(cfg, After(cfg, times[..i]), times[i])
  }

  /** The number of requests in i..j that were allowed. */
  function Count(cfg: Config, times: seq<real>, i: nat, j: nat): nat
    requires i <= j <= |times|
    decreases j - i
  {
    if i == j then 0 else Count(cfg, times, i, j - 1) + (if IsAllowed(cfg, After(cfg, times[..j - 1]), times[j - 1]) then 1 else 0)
  }

  lemma AfterStep(cfg: Config, times: seq<real>, i: nat)
    requires i < |times|
    ensures After(cfg, times[..i + 1]) == Some(Left(cfg, After(cfg, times[..i]), times[i]))
  {
    assert times[..i + 1][..i] == times[..i];
  }

  lemma Grows(rate: real, a: real, b: real)
    requires rate > 0.0 && a <= b
    ensures a * rate <= b * rate
  {
  }

  lemma Splits(rate: real, a: real, b: real, c: real)
    ensures (c - b) * rate + (b - a) * rate == (c - a) * rate
  {
  }

  /** An amount is within a start and what is gained from a to b. */
  predicate Within(cfg: Config, amount: real, start: real, a: real, b: real) {
    amount <= start + (b - a) * cfg.rate
  }

  /** What a time adds, by its product alone. */
  lemma Gain(rate: real, d: real) returns (gain: real)
    requires rate > 0.0 && d >= 0.0
    ensures gain == d * rate && gain >= 0.0
  {
    gain := d * rate;
    Grows(rate, 0.0, d);
  }

  lemma LevelInRange(cfg: Config, b: Bucket, now: real)
    requires ValidConfig(cfg) && 0.0 <= b.tokens && b.ts <= now
    ensures 0.0 <= Level(cfg, Some(b), now) <= cfg.burst as real
    ensures Within(cfg, Level(cfg, Some(b), now), b.tokens, b.ts, now)
  {
    var gain := Gain(cfg.rate, now - b.ts);
    assert Level(cfg, Some(b), now) == Min(cfg.burst as real, b.tokens + gain);
  }

  /** One request: the bucket stays between nothing and the burst, and what it gives out and
      keeps is no more than it had and gained. */
  lemma TakeBalance(cfg: Config, b: Bucket, now: real)
    requires ValidConfig(cfg) && 0.0 <= b.tokens && b.ts <= now
    ensures var after := Left(cfg, Some(b), now);
      && 0.0 <= after.tokens <= cfg.burst as real && after.ts == now
      && Within(cfg, Given(cfg, Some(b), now) + after.tokens, b.tokens, b.ts, now)
  {
    LevelInRange(cfg, b, now);
  }

  function Given(cfg: Config, b: Option<Bucket>, now: real): real {
    if IsAllowed(cfg, b, now) then 1.0 else 0.0
  }

  lemma Telescopes(cfg: Config, a: real, b: real, c: real, start: real, spent: real, before: real, more: real, after: real)
    requires Within(cfg, spent + before, start, a, b) && Within(cfg, more + after, before, b, c)
    ensures Within(cfg, spent + more + after, start, a, c)
  {
    Splits(cfg.rate, a, b, c);
  }

  /** The bucket holds between nothing and the burst. */
  lemma {:induction false} TokensInRange(cfg: Config, times: seq<real>, i: nat)
    requires ValidConfig(cfg) && Nondecreasing(times) && 0 < i <= |times|
    ensures var b := After(cfg, times[..i]); b.Some? && 0.0 <= b.value.tokens <= cfg.burst as real && b.value.ts == times[i - 1]
  {
    AfterStep(cfg, times, i - 1);
    if i > 1 {
      TokensInRange(cfg, times, i - 1);
      TakeBalance(cfg, After(cfg, times[..i - 1]).value, times[i - 1]);
    }
  }

  /** The requests allowed since request i and the tokens left, within the burst and what was
      gained since. */
  lemma {:induction false} SpendingBound(cfg: Config, times: seq<real>, i: nat, j: nat) returns (left: real)
    requires ValidConfig(cfg) && Nondecreasing(times) && i < j <= |times|
    ensures After(cfg, times[..j]).Some? && left == After(cfg, times[..j]).value.tokens
    ensures Within(cfg, Count(cfg, times, i, j) as real + left, cfg.burst as real, times[i], times[j - 1])
    decreases j - i
  {
    AfterStep(cfg, times, j - 1);
    left := After(cfg, times[..j]).value.tokens;
    if i == j - 1 {
      assert Count(cfg, times, i, i) == 0;
    } else {
      var before := SpendingBound(cfg, times, i, j - 1);
      TokensInRange(cfg, times, j - 1);
      var b := After(cfg, times[..j - 1]);
      TakeBalance(cfg, b.value, times[j - 1]);
      var spent, more := Count(cfg, times, i, j - 1) as real, Given(cfg, b, times[j - 1]);
      assert Within(cfg, spent + before, cfg.burst as real, times[i], times[j - 2]);
      assert Within(cfg, more + left, before, times[j - 2], times[j - 1]);
      Telescopes(cfg, times[i], times[j - 2], times[j - 1], cfg.burst as real, spent, before, more, left);
      assert Count(cfg, times, i, j) as real == spent + more;
    }
  }

  lemma WithinWindow(cfg: Config, a: real, b: real, window: real, start: real, spent: real, left: real)
    requires ValidConfig(cfg) && b - a <= window && left >= 0.0 && Within(cfg, spent + left, start, a, b)
    ensures spent <= start + window * cfg.rate
  {
    Grows(cfg.rate, b - a, window);
  }

  /** In any window of length T at most burst + rate * T requests are allowed. */
  lemma AllowedInWindow(cfg: Config, times: seq<real>, i: nat, j: nat, window: real)
    requires ValidConfig(cfg) && Nondecreasing(times) && i < j <= |times|
    requires times[j - 1] - times[i] <= window
    ensures Count(cfg, times, i, j) as real <= cfg.burst as real + window * cfg.rate
  {
    var left := SpendingBound(cfg, times, i, j);
    TokensInRange(cfg, times, j);
    WithinWindow(cfg, times[i], times[j - 1], window, cfg.burst as real, Count(cfg, times, i, j) as real, left);
  }

  // ------------------------------------------------------------------ refused requests

  /** The same tokens at every time from `from` on. */
  ghost predicate SameFrom(cfg: Config, a: Option<Bucket>, b: Option<Bucket>, from: real) {
    forall now :: now >= from ==> Level(cfg, a, now) == Level(cfg, b, now)
  }

  lemma RefusalKeepsLevel(cfg: Config, b: Option<Bucket>, at: real)
    requires ValidConfig(cfg) && !Take(cfg, b, at).allowed
    ensures SameFrom(cfg, Some(Take(cfg, b, at).bucket), b, at)
  {
    forall now | now >= at ensures Level(cfg, Some(Take(cfg, b, at).bucket), now) == Level(cfg, b, now) {
      Grows(cfg.rate, 0.0, now - at);
      if b.Some? {
        Splits(cfg.rate, b.value.ts, at, now);
      }
    }
  }

  /** The requests the mask keeps. */
  function Kept(times: seq<real>, mask: seq<bool>): seq<real>
    requires |mask| == |times|
  {
    if times == [] then []
    else
      var n := |times| - 1;
      if mask[n] then Kept(times[..n], mask[..n]) + [times[n]] else Kept(times[..n], mask[..n])
  }

  /** Only refused requests are left out. */
  ghost predicate DropsRefusals(cfg: Config, times: seq<real>, mask: seq<bool>)
    requires ValidConfig(cfg)
  {
    |mask| == |times| && forall i :: 0 <= i < |times| && !mask[i] ==> !Answer(cfg, times, i).allowed
  }

  lemma {:induction false} RefusalsLeaveNoTrace(cfg: Config, times: seq<real>, mask: seq<bool>, i: nat)
    requires ValidConfig(cfg) && Nondecreasing(times) && DropsRefusals(cfg, times, mask) && i <= |times|
    ensures forall from :: (i > 0 ==> times[i - 1] <= from) ==>
      SameFrom(cfg, After(cfg, Kept(times[..i], mask[..i])), After(cfg, times[..i]), from)
  {
    if i > 0 {
      var n := i - 1;
      var kept := Kept(times[..n], mask[..n]);
      RefusalsLeaveNoTrace(cfg, times, mask, n);
      AfterStep(cfg, times, n);
      assert times[..i][..n] == times[..n] && mask[..i][..n] == mask[..n];
      assert SameFrom(cfg, After(cfg, kept), After(cfg, times[..n]), times[n]);
      if mask[n] {
        assert (kept + [times[n]])[..|kept|] == kept;
        assert Level(cfg, After(cfg, kept), times[n]) == Level(cfg, After(cfg, times[..n]), times[n]);
      } else {
        RefusalKeepsLevel(cfg, After(cfg, times[..n]), times[n]);
      }
    }
  }

  /** Taking any refused requests out of a history changes the answer to no other request. */
  lemma {:induction false} RefusedRequestsAreFree(cfg: Config, times: seq<real>, mask: seq<bool>, i: nat)
    requires ValidConfig(cfg) && Nondecreasing(times) && DropsRefusals(cfg, times, mask) && i < |times|
    ensures Take(cfg, After(cfg, Kept(times[..i], mask[..i])), times[i]) == Answer(cfg, times, i)
  {
    RefusalsLeaveNoTrace(cfg, times, mask, i);
    assert SameFrom(cfg, After(cfg, Kept(times[..i], mask[..i])), After(cfg, times[..i]), times[i]);
    assert Level(cfg, After(cfg, Kept(times[..i], mask[..i])), times[i]) == Level(cfg, After(cfg, times[..i]), times[i]);
  }

  // ------------------------------------------------------------------ waiting

  /** None of the requests strictly between i and j was allowed. */
  ghost predicate NoneAllowedBetween(cfg: Config, times: seq<real>, i: nat, j: nat)
    requires ValidConfig(cfg) && i < j < |times|
  {
    forall k :: i < k < j ==> !Answer(cfg, times, k).allowed
  }

  lemma SameFromTransitive(
      cfg: Config, a: Option<Bucket>, b: Option<Bucket>, c: Option<Bucket>, early: real, late: real)
    requires SameFrom(cfg, a, b, late) && SameFrom(cfg, b, c, early) && early <= late
    ensures SameFrom(cfg, a, c, late)
  {
    forall now | now >= late ensures Level(cfg, a, now) == Level(cfg, c, now) {
      assert Level(cfg, a, now) == Level(cfg, b, now);
      assert Level(cfg, b, now) == Level(cfg, c, now);
    }
  }

  lemma RefusedStep(cfg: Config, times: seq<real>, i: nat)
    requires ValidConfig(cfg) && i < |times| && !Answer(cfg, times, i).allowed
    ensures SameFrom(cfg, After(cfg, times[..i + 1]), After(cfg, times[..i]), times[i])
  {
    AfterStep(cfg, times, i);
    RefusalKeepsLevel(cfg, After(cfg, times[..i]), times[i]);
  }

  lemma {:induction false} RefusedStretch(cfg: Config, times: seq<real>, i: nat, j: nat)
    requires ValidConfig(cfg) && Nondecreasing(times) && i < j < |times|
    requires !Answer(cfg, times, i).allowed && NoneAllowedBetween(cfg, times, i, j)
    ensures SameFrom(cfg, After(cfg, times[..j]), After(cfg, times[..i + 1]), times[j - 1])
    decreases j - i
  {
    if i + 1 < j {
      RefusedStretch(cfg, times, i, j - 1);
      RefusedStep(cfg, times, j - 1);
      SameFromTransitive(cfg, After(cfg, times[..j]), After(cfg, times[..j - 1]), After(cfg, times[..i + 1]),
        times[j - 2], times[j - 1]);
    }
  }

  lemma DivisionBound(wait: real, need: real, rate: real)
    requires rate > 0.0
    ensures wait >= need / rate <==> wait * rate >= need
  {
    var quotient := need / rate;
    assert quotient * rate == need;
    if wait >= quotient {
      Grows(rate, quotient, wait);
    } else {
      Grows(rate, wait, quotient);
      assert (quotient - wait) * rate > 0.0;
      Splits(rate, 0.0, wait, quotient);
    }
  }

  /** A refused bucket has a token again exactly when the reported wait has passed. */
  lemma WaitIsExact(cfg: Config, b: Option<Bucket>, at: real, now: real)
    requires ValidConfig(cfg) && !Take(cfg, b, at).allowed
    ensures var o := Take(cfg, b, at);
      Level(cfg, Some(o.bucket), now) >= COST <==> now - at >= o.retry
  {
    var o := Take(cfg, b, at);
    DivisionBound(now - at, COST - o.bucket.tokens, cfg.rate);
  }

  /** After a refusal, with none allowed in between, a request is allowed exactly when the
      reported wait has passed. */
  lemma AllowedOnceWaited(cfg: Config, times: seq<real>, i: nat, j: nat)
    requires ValidConfig(cfg) && Nondecreasing(times) && i < j < |times|
    requires !Answer(cfg, times, i).allowed && NoneAllowedBetween(cfg, times, i, j)
    ensures Answer(cfg, times, j).allowed <==> times[j] - times[i] >= Answer(cfg, times, i).retry
  {
    RefusedStretch(cfg, times, i, j);
    AfterStep(cfg, times, i);
    WaitIsExact(cfg, After(cfg, times[..i]), times[i], times[j]);
    assert Level(cfg, After(cfg, times[..j]), times[j]) == Level(cfg, After(cfg, times[..i + 1]), times[j]);
  }

  /** Waiting out the Retry-After of a refusal is enough, and the value is the least whole
      number of seconds, at least 1, that is. */
  lemma RetryAfterSuffices(cfg: Config, times: seq<real>, i: nat, j: nat)
    requires ValidConfig(cfg) && Nondecreasing(times) && i < j < |times|
    requires !Answer(cfg, times, i).allowed && NoneAllowedBetween(cfg, times, i, j)
    ensures var wait := RetryAfter(Answer(cfg, times, i));
      && (times[j] - times[i] >= wait as real ==> Answer(cfg, times, j).allowed)
      && (wait > 1 && times[j] - times[i] <= (wait - 1) as real ==> !Answer(cfg, times, j).allowed)
  {
    AllowedOnceWaited(cfg, times, i, j);
  }

  // ------------------------------------------------------------------ what remains

  /** All of n requests at the time of the bucket are allowed. */
  predicate AllAllowed(cfg: Config, b: Bucket, n: nat)
    decreases n
  {
    n == 0 || (IsAllowed(cfg, Some(b), b.ts) && AllAllowed(cfg, Left(cfg, Some(b), b.ts), n - 1))
  }

  /** The reported remainder is the number of further requests that would be allowed at once. */
  lemma {:induction false} RemainingIsExact(cfg: Config, b: Bucket, n: nat)
    requires ValidConfig(cfg) && 0.0 <= b.tokens <= cfg.burst as real
    ensures AllAllowed(cfg, b, n) <==> n <= Remaining(Outcome(true, 0.0, b))
    decreases n
  {
    assert (b.ts - b.ts) * cfg.rate == 0.0;
    assert Level(cfg, Some(b), b.ts) == b.tokens;
    if n > 0 && b.tokens >= 1.0 {
      var next := Left(cfg, Some(b), b.ts);
      assert next == Bucket(b.tokens - 1.0, b.ts);
      RemainingIsExact(cfg, next, n - 1);
      assert (b.tokens - 1.0).Floor == b.tokens.Floor - 1;
    }
  }

  // ------------------------------------------------------------------ expiry

  /** Seconds a key lives after it was last written. */
  function Lifetime(cfg: Config): real
    requires ValidConfig(cfg)
  {
    (Ceil(cfg.burst as real / cfg.rate) + 60) as real
  }

  datatype Stored = Stored(bucket: Bucket, expires: real)

  /** What a read finds: nothing once the key has expired. */
  function Live(s: Option<Stored>, now: real): Option<Bucket> {
    if s.Some? && now < s.value.expires then Some(s.value.bucket) else None
  }

  /** A history as Redis replays it, with expiry. */
  function StoredAfter(cfg: Config, times: seq<real>): Option<Stored>
    requires ValidConfig(cfg)
  {
    if times == [] then None
    else
      var now := times[|times| - 1];
      Some(Stored(Take(cfg, Live(StoredAfter(cfg, times[..|times| - 1]), now), now).bucket, now + Lifetime(cfg)))
  }

  /** By the time a key expires its bucket has been full again for a minute. */
  lemma ExpiredIsFull(cfg: Config, b: Bucket, now: real)
    requires ValidConfig(cfg) && b.tokens >= 0.0 && now >= b.ts + Lifetime(cfg)
    ensures Level(cfg, Some(b), now) == Level(cfg, None, now) == cfg.burst as real
  {
    var need := cfg.burst as real;
    assert now - b.ts >= need / cfg.rate;
    DivisionBound(now - b.ts, need, cfg.rate);
    var gained := (now - b.ts) * cfg.rate;
    assert gained >= need && Level(cfg, Some(b), now) == Min(need, b.tokens + gained);
  }

  /** Expiry changes no answer. */
  lemma {:induction false} ExpiryIsUnobservable(cfg: Config, times: seq<real>, i: nat)
    requires ValidConfig(cfg) && Nondecreasing(times) && i < |times|
    ensures Take(cfg, Live(StoredAfter(cfg, times[..i]), times[i]), times[i]) == Answer(cfg, times, i)
  {
    if i > 0 {
      ExpiryIsUnobservable(cfg, times, i - 1);
      assert times[..i][..i - 1] == times[..i - 1];
      AfterStep(cfg, times, i - 1);
      TokensInRange(cfg, times, i);
      var stored := StoredAfter(cfg, times[..i]);
      assert Some(stored.value.bucket) == After(cfg, times[..i]);
      if times[i] >= stored.value.expires {
        ExpiredIsFull(cfg, stored.value.bucket, times[i]);
      }
    }
  }

  // ------------------------------------------------------------------ the limiter

  datatype BucketName = Standard | Expensive

  datatype Key = Key(bucket: BucketName, identity: string)

  datatype Decision = Decision(allowed: bool, retryAfter: int, remaining: int, bucket: BucketName)

  function Lookup(buckets: map<Key, Stored>, key: Key): Option<Stored> {
    if key in buckets then Some(buckets[key]) else None
  }

  function Decide(o: Outcome, bucket: BucketName): Decision {
    Decision(o.allowed, RetryAfter(o), Remaining(o), bucket)
  }

  /** Redis and the limiter in front of it. */
  class RateLimiter {
    var buckets: map<Key, Stored>

    constructor ()
      ensures buckets == map[]
    {
      buckets := map[];
    }

    /** The script, which Redis runs as one step. */
    method RunScript(key: Key, cfg: Config, now: real) returns (o: Outcome)
      requires ValidConfig(cfg)
      modifies this
      ensures o == Take(cfg, Live(Lookup(old(buckets), key), now), now)
      ensures buckets == old(buckets)[key := Stored(o.bucket, now + Lifetime(cfg))]
    {
      var tokens, ts := cfg.burst as real, now;
      if key in buckets && now < buckets[key].expires {
        tokens, ts := buckets[key].bucket.tokens, buckets[key].bucket.ts;
      }
      tokens := Min(cfg.burst as real, tokens + (now - ts) * cfg.rate);
      var allowed, retry := false, 0.0;
      if tokens >= COST {
        allowed := true;
        tokens := tokens - COST;
      } else {
        retry := (COST - tokens) / cfg.rate;
      }
      o := Outcome(allowed, retry, Bucket(tokens, now));
      buckets := buckets[key := Stored(o.bucket, now + Lifetime(cfg))];
    }

    /** Fails open: without Redis every request is allowed and nothing is recorded. */
    method Check(identity: string, bucket: BucketName, perMinute: nat, burst: nat, now: real, reachable: bool)
      returns (d: Decision)
      requires perMinute >= 1 && burst >= 1
      modifies this
      ensures var cfg := Config(perMinute as real / 60.0, burst);
        var key := Key(bucket, identity);
        var o := Take(cfg, Live(Lookup(old(buckets), key), now), now);
        && d == (if reachable then Decide(o, bucket) else Decision(true, 0, burst, bucket))
        && buckets == (if reachable then old(buckets)[key := Stored(o.bucket, now + Lifetime(cfg))] else old(buckets))
    {
      if !reachable {
        return Decision(true, 0, burst, bucket);
      }
      var o := RunScript(Key(bucket, identity), Config(perMinute as real / 60.0, burst), now);
      d := Decide(o, bucket);
    }
  }
}
