/** One token bucket, in its two forms: the Lua script on an expiring Redis hash, and the in-process
    bucket that stands in for it.  Tokens and times are reals; the server and the workers share a
    clock. */
module TokenBucket {
  import opened Wrappers

  function Min(a: real, b: real): real {
    if a <= b then a else b
  }

  function Max(a: real, b: real): real {
    if a >= b then a else b
  }

  function Ceil(x: real): int {
    -(-x).Floor
  }

  /** The multiplier after one more 429. */
  function Halved(multiplier: real): real {
    Max(0.1, multiplier * 0.5)
  }

  /** The refill rate once 429 reports have slowed it down. */
  function Effective(rate: real, multiplier: real): real {
    rate * multiplier
  }

  /** Tokens after the lazy refill since `last`. */
  function Refilled(tokens: real, last: real, now: real, capacity: real, rate: real): real {
    Min(capacity, tokens + Max(0.0, now - last) * rate)
  }

  // ---------------------------------------------------------------- in-process bucket

  datatype Bucket = Bucket(tokens: real, last: real, multiplier: real)

  function BucketOf(entry: Option<Bucket>, capacity: real, now: real): Bucket {
    if entry.Some? then entry.value else Bucket(capacity, now, 1.0)
  }

  function LocalAcquire(entry: Option<Bucket>, capacity: real, rate: real, now: real, requested: real): (Bucket, bool) {
    var b := BucketOf(entry, capacity, now);
    var tokens := Refilled(b.tokens, b.last, now, capacity, Effective(rate, b.multiplier));
    if tokens >= requested then (Bucket(tokens - requested, now, b.multiplier), true)
    else (Bucket(tokens, now, b.multiplier), false)
  }

  /** A 429 on an unused key leaves an empty bucket behind. */
  function LocalReport(entry: Option<Bucket>, now: real): Bucket {
    var b := match entry case Some(b) => b case None => Bucket(0.0, now, 1.0);
    b.(multiplier := Halved(b.multiplier))
  }

  // ---------------------------------------------------------------- bucket in Redis

  datatype Level = Level(tokens: real, last: real)

  /** The fields of the hash; `expireAt` is the expiry of the key, if it has one. */
  datatype Hash = Hash(level: Option<Level>, multiplier: Option<real>, expireAt: Option<real>)

  function MultiplierOf(entry: Option<Hash>): real {
    if entry.Some? && entry.value.multiplier.Some? then entry.value.multiplier.value else 1.0
  }

  function LevelOf(entry: Option<Hash>, capacity: real, now: real): Level {
    if entry.Some? && entry.value.level.Some? then entry.value.level.value else Level(capacity, now)
  }

  /** The seconds a key lives after a grant. */
  function Ttl(capacity: real, rate: real): int
    requires rate > 0.0
  {
    Ceil(capacity / rate) * 2
  }

  predicate PositiveMultiplier(entry: Option<Hash>) {
    MultiplierOf(entry) > 0.0
  }

  /** The script.  A denial stores the refilled level but leaves the expiry of the key alone. */
  function LuaAcquire(entry: Option<Hash>, capacity: real, rate: real, now: real, requested: real): (Hash, bool)
    requires rate > 0.0 && PositiveMultiplier(entry)
  {
    var level, multiplier := LevelOf(entry, capacity, now), MultiplierOf(entry);
    var effective := Effective(rate, multiplier);
    TimesPositive(rate, multiplier);
    var tokens := Refilled(level.tokens, level.last, now, capacity, effective);
    if tokens >= requested then
      (Hash(Some(Level(tokens - requested, now)), Some(multiplier), Some(now + Ttl(capacity, effective) as real)), true)
    else
      (Hash(Some(Level(tokens, now)), Some(multiplier), if entry.Some? then entry.value.expireAt else None), false)
  }

  /** HSET of a new multiplier; on a missing key it creates a hash without level or expiry. */
  function LuaSetMultiplier(entry: Option<Hash>, multiplier: real): Hash {
    match entry
    case Some(h) => h.(multiplier := Some(multiplier))
    case None => Hash(None, Some(multiplier), None)
  }

  /** The key as the server sees it at `now`: gone once its expiry has been reached. */
  function Unexpired(entry: Option<Hash>, now: real): Option<Hash> {
    if entry.Some? && entry.value.expireAt.Some? && entry.value.expireAt.value <= now then None else entry
  }

  // ---------------------------------------------------------------- arithmetic

  lemma TimesMonotone(r: real, a: real, b: real)
    requires 0.0 <= r && a <= b
    ensures r * a <= r * b
  {
    assert r * b - r * a == r * (b - a);
  }

  lemma TimesPositive(a: real, b: real)
    requires a > 0.0 && b > 0.0
    ensures a * b > 0.0
  {}

  lemma TimesZero(a: real, b: real)
    requires b == 0.0
    ensures a * b == 0.0
  {}

  lemma Distributes(r: real, a: real, b: real)
    ensures r * (a + b) == r * a + r * b
  {}

  lemma RefilledNow(tokens: real, now: real, capacity: real, rate: real)
    requires tokens <= capacity
    ensures Refilled(tokens, now, now, capacity, rate) == tokens
  {}

  lemma CeilBounds(x: real)
    ensures x <= Ceil(x) as real < x + 1.0
  {}

  /** The factor two: the time to live is at least twice the time to refill from empty. */
  lemma TtlCoversRefill(capacity: real, rate: real)
    requires rate > 0.0
    ensures rate * Ttl(capacity, rate) as real >= 2.0 * capacity
  {
    var refill := capacity / rate;
    CeilBounds(refill);
    TimesMonotone(rate, refill, Ceil(refill) as real);
    assert rate * refill == capacity;
    var c := Ceil(refill) as real;
    assert rate * (c * 2.0) == 2.0 * (rate * c);
    assert Ttl(capacity, rate) as real == c * 2.0;
  }

  lemma EffectiveMonotone(rate: real, a: real, b: real)
    requires rate > 0.0 && 0.0 < a <= b
    ensures 0.0 < Effective(rate, a) <= Effective(rate, b)
  {
    TimesPositive(rate, a);
    TimesMonotone(rate, a, b);
  }

  lemma EffectiveOne(rate: real)
    ensures Effective(rate, 1.0) == rate
  {}

  lemma RefilledForward(tokens: real, last: real, now: real, capacity: real, rate: real)
    requires last <= now
    ensures Refilled(tokens, last, now, capacity, rate) == Min(capacity, tokens + rate * (now - last))
  {
    assert (now - last) * rate == rate * (now - last);
  }

  /** Lazy refill composes over time: refilling on the way changes nothing, so a denied poll neither
      gains nor loses tokens. */
  lemma RefillComposes(tokens: real, last: real, mid: real, now: real, capacity: real, rate: real)
    requires last <= mid <= now && rate >= 0.0
    ensures Refilled(Refilled(tokens, last, mid, capacity, rate), mid, now, capacity, rate)
         == Refilled(tokens, last, now, capacity, rate)
  {
    RefilledForward(tokens, last, mid, capacity, rate);
    RefilledForward(tokens, last, now, capacity, rate);
    RefilledForward(Refilled(tokens, last, mid, capacity, rate), mid, now, capacity, rate);
    hide Refilled;
    Distributes(rate, mid - last, now - mid);
    TimesMonotone(rate, 0.0, now - mid);
    assert (mid - last) + (now - mid) == now - last;
  }
}
