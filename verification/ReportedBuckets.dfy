/** What a 429 report does to the likeness of the two buckets: they answer alike until the key expires, and
    never for good after it, since the in-process entry stays slowed down and the next key is not. */
module ReportedBuckets {
  import opened Wrappers
  import opened TokenBucket
  import opened BucketRefinement

  // ---------------------------------------------------------------- until the key expires

  /** No wait in the run lets the key expire. */
  ghost predicate KeyStays(clock: real, key: Option<Hash>, events: seq<Event>, capacity: real, rate: real)
    requires rate > 0.0 && PositiveMultiplier(key)
    decreases |events|
  {
    events == [] ||
    match events[0]
    case Wait(to) => Unexpired(key, to) == key && KeyStays(to, key, events[1..], capacity, rate)
    case Try(requested) => KeyStays(clock, Some(LuaAcquire(key, capacity, rate, clock, requested).0), events[1..], capacity, rate)
    case Report => KeyStays(clock, Some(KeyAfter429(key)), events[1..], capacity, rate)
  }

  predicate HasLevel(key: Option<Hash>) {
    key.Some? && key.value.level.Some?
  }

  /** Both buckets have the same multiplier, and the same level, or none in Redis and a full one in process
      even at a tenth of the rate. */
  ghost predicate Near(clock: real, key: Option<Hash>, entry: Option<Bucket>, capacity: real, rate: real) {
    && entry.Some? && MultiplierOf(key) == entry.value.multiplier >= 0.1
    && if HasLevel(key) then key.value.level.value == Level(entry.value.tokens, entry.value.last)
       else FullBy(entry.value.tokens, entry.value.last, clock, capacity, Effective(rate, 0.1))
  }

  /** What is full at a tenth of the rate is full at any multiplier. */
  lemma FullAtAnyRate(b: Bucket, clock: real, capacity: real, rate: real)
    requires rate > 0.0 && b.multiplier >= 0.1 && FullBy(b.tokens, b.last, clock, capacity, Effective(rate, 0.1))
    ensures Refilled(b.tokens, b.last, clock, capacity, Effective(rate, b.multiplier)) == capacity
  {
    RefilledForward(b.tokens, b.last, clock, capacity, Effective(rate, b.multiplier));
    EffectiveMonotone(rate, 0.1, b.multiplier);
    hide Effective;
    hide Refilled;
    TimesMonotone(clock - b.last, Effective(rate, 0.1), Effective(rate, b.multiplier));
    assert (clock - b.last) * Effective(rate, 0.1) == Effective(rate, 0.1) * (clock - b.last);
    assert (clock - b.last) * Effective(rate, b.multiplier) == Effective(rate, b.multiplier) * (clock - b.last);
  }

  lemma TryKeepsNear(clock: real, key: Option<Hash>, entry: Option<Bucket>, requested: real, capacity: real, rate: real)
    requires rate > 0.0 && capacity > 0.0 && Near(clock, key, entry, capacity, rate)
    ensures var (h, granted) := LuaAcquire(key, capacity, rate, clock, requested);
            var (b, granted') := LocalAcquire(entry, capacity, rate, clock, requested);
            granted == granted' && Near(clock, Some(h), Some(b), capacity, rate)
  {
    if !HasLevel(key) {
      FullAtAnyRate(entry.value, clock, capacity, rate);
      RefilledNow(capacity, clock, capacity, Effective(rate, MultiplierOf(key)));
    }
    hide Refilled;
    hide Effective;
    hide Ttl;
    hide FullBy;
  }

  lemma {:induction false} NearAnswersAlike(clock: real, key: Option<Hash>, entry: Option<Bucket>, events: seq<Event>, capacity: real, rate: real)
    requires rate > 0.0 && capacity > 0.0 && Orderly(clock, events) && Near(clock, key, entry, capacity, rate)
    requires KeyStays(clock, key, events, capacity, rate)
    ensures RedisAnswers(clock, key, events, capacity, rate) == LocalAnswers(clock, entry, events, capacity, rate)
    decreases |events|
  {
    hide LuaAcquire;
    hide LocalAcquire;
    hide FullBy;
    hide Effective;
    if events != [] {
      match events[0]
      case Wait(to) =>
        EffectiveMonotone(rate, 0.1, 0.1);
        if !HasLevel(key) {
          FullStaysFull(entry.value.tokens, entry.value.last, clock, to, capacity, Effective(rate, 0.1));
        }
        NearAnswersAlike(to, key, entry, events[1..], capacity, rate);
      case Try(requested) =>
        TryKeepsNear(clock, key, entry, requested, capacity, rate);
        var h, b := LuaAcquire(key, capacity, rate, clock, requested).0, LocalAcquire(entry, capacity, rate, clock, requested).0;
        NearAnswersAlike(clock, Some(h), Some(b), events[1..], capacity, rate);
      case Report =>
        NearAnswersAlike(clock, Some(KeyAfter429(key)), Some(LocalReport(entry, clock)), events[1..], capacity, rate);
    }
  }

  // ---------------------------------------------------------------- one event at a time

  lemma TailsDiffer(g: bool, g': bool, a: seq<bool>, b: seq<bool>)
    requires g != g' || a != b
    ensures [g] + a != [g'] + b
  {
    assert ([g] + a)[0] == g && ([g'] + b)[0] == g' && ([g] + a)[1..] == a && ([g'] + b)[1..] == b;
  }

  lemma NoKey(now: real)
    ensures PositiveMultiplier(None) && Unexpired(None, now) == None
  {}

  lemma NothingLeft(clock: real, key: Option<Hash>, entry: Option<Bucket>, capacity: real, rate: real)
    requires rate > 0.0 && PositiveMultiplier(key)
    ensures RedisAnswers(clock, key, [], capacity, rate) == [] == LocalAnswers(clock, entry, [], capacity, rate)
    ensures Orderly(clock, []) && NoReports([]) && KeyStays(clock, key, [], capacity, rate)
  {}

  /** A report changes both multipliers. */
  lemma ReportFirst(clock: real, key: Option<Hash>, entry: Option<Bucket>, rest: seq<Event>, capacity: real, rate: real)
    requires rate > 0.0 && PositiveMultiplier(key)
    ensures RedisAnswers(clock, key, [Report] + rest, capacity, rate) == RedisAnswers(clock, Some(KeyAfter429(key)), rest, capacity, rate)
    ensures LocalAnswers(clock, entry, [Report] + rest, capacity, rate) == LocalAnswers(clock, Some(LocalReport(entry, clock)), rest, capacity, rate)
    ensures Orderly(clock, [Report] + rest) <==> Orderly(clock, rest)
    ensures KeyStays(clock, key, [Report] + rest, capacity, rate) <==> KeyStays(clock, Some(KeyAfter429(key)), rest, capacity, rate)
  {
    assert ([Report] + rest)[1..] == rest;
  }

  /** An acquire is one answer. */
  lemma TryFirst(clock: real, key: Option<Hash>, entry: Option<Bucket>, requested: real, rest: seq<Event>, capacity: real, rate: real)
    requires rate > 0.0 && PositiveMultiplier(key)
    ensures var (h, granted) := LuaAcquire(key, capacity, rate, clock, requested);
            && RedisAnswers(clock, key, [Try(requested)] + rest, capacity, rate) == [granted] + RedisAnswers(clock, Some(h), rest, capacity, rate)
            && (KeyStays(clock, key, [Try(requested)] + rest, capacity, rate) <==> KeyStays(clock, Some(h), rest, capacity, rate))
    ensures var (b, granted) := LocalAcquire(entry, capacity, rate, clock, requested);
            LocalAnswers(clock, entry, [Try(requested)] + rest, capacity, rate) == [granted] + LocalAnswers(clock, Some(b), rest, capacity, rate)
    ensures Orderly(clock, [Try(requested)] + rest) <==> requested >= 0.0 && Orderly(clock, rest)
    ensures NoReports(rest) ==> NoReports([Try(requested)] + rest)
  {
    assert ([Try(requested)] + rest)[1..] == rest;
    hide LuaAcquire;
    hide LocalAcquire;
  }

  /** A wait is none, but the key may be gone after it. */
  lemma WaitFirst(clock: real, key: Option<Hash>, entry: Option<Bucket>, to: real, rest: seq<Event>, capacity: real, rate: real)
    requires rate > 0.0 && PositiveMultiplier(key)
    ensures RedisAnswers(clock, key, [Wait(to)] + rest, capacity, rate) == RedisAnswers(to, Unexpired(key, to), rest, capacity, rate)
    ensures LocalAnswers(clock, entry, [Wait(to)] + rest, capacity, rate) == LocalAnswers(to, entry, rest, capacity, rate)
    ensures Orderly(clock, [Wait(to)] + rest) <==> clock <= to && Orderly(to, rest)
    ensures NoReports(rest) ==> NoReports([Wait(to)] + rest)
  {
    assert ([Wait(to)] + rest)[1..] == rest;
  }

  /** An acquire of the whole capacity tells a hash without level from an entry that is not full. */
  lemma TryTellsApart(clock: real, key: Option<Hash>, b: Bucket, capacity: real, rate: real)
    requires rate > 0.0 && capacity > 0.0 && !HasLevel(key) && PositiveMultiplier(key) && b.last <= clock
    requires !FullBy(b.tokens, b.last, clock, capacity, Effective(rate, b.multiplier))
    ensures LuaAcquire(key, capacity, rate, clock, capacity).1
    ensures !LocalAcquire(Some(b), capacity, rate, clock, capacity).1
  {
    RefilledNow(capacity, clock, capacity, Effective(rate, MultiplierOf(key)));
    RefilledForward(b.tokens, b.last, clock, capacity, Effective(rate, b.multiplier));
    hide Effective;
    hide Refilled;
    hide Ttl;
  }

  /** Four reports bring the multiplier down to a tenth; then an acquire tells a missing key from an entry
      that would not be full at that rate. */
  lemma ReportsTellApart(clock: real, entry: Option<Bucket>, capacity: real, rate: real) returns (events: seq<Event>)
    requires rate > 0.0 && capacity > 0.0 && Twins(clock, None, entry, capacity, rate)
    requires entry.Some? ==> !FullBy(entry.value.tokens, entry.value.last, clock, capacity, Effective(rate, 0.1))
    ensures Orderly(clock, events) && KeyStays(clock, None, events, capacity, rate)
    ensures RedisAnswers(clock, None, events, capacity, rate) != LocalAnswers(clock, entry, events, capacity, rate)
  {
    var e4 := [Try(capacity)] + [];
    var e3 := [Report] + e4;
    var e2 := [Report] + e3;
    var e1 := [Report] + e2;
    events := [Report] + e1;
    var k1 := Some(KeyAfter429(None));
    var k2 := Some(KeyAfter429(k1));
    var k3 := Some(KeyAfter429(k2));
    var k4 := Some(KeyAfter429(k3));
    var b1 := Some(LocalReport(entry, clock));
    var b2 := Some(LocalReport(b1, clock));
    var b3 := Some(LocalReport(b2, clock));
    var b4 := LocalReport(b3, clock);
    assert k4.value == Hash(None, Some(0.1), None) && b4.multiplier == 0.1;
    if b4.last == clock {
      TimesZero(Effective(rate, 0.1), clock - b4.last);
    }
    assert !FullBy(b4.tokens, b4.last, clock, capacity, Effective(rate, 0.1)) && b4.last <= clock;
    TryTellsApart(clock, k4, b4, capacity, rate);
    AfterFourReports(clock, k1, k2, k3, k4, entry, b1, b2, b3, Some(b4), capacity, rate);
  }

  lemma AfterFourReports(clock: real, k1: Option<Hash>, k2: Option<Hash>, k3: Option<Hash>, k4: Option<Hash>,
                         entry: Option<Bucket>, b1: Option<Bucket>, b2: Option<Bucket>, b3: Option<Bucket>, b4: Option<Bucket>,
                         capacity: real, rate: real)
    requires rate > 0.0 && capacity > 0.0 && PositiveMultiplier(k1) && PositiveMultiplier(k2) && PositiveMultiplier(k3) && PositiveMultiplier(k4)
    requires k1 == Some(KeyAfter429(None)) && k2 == Some(KeyAfter429(k1)) && k3 == Some(KeyAfter429(k2)) && k4 == Some(KeyAfter429(k3))
    requires b1 == Some(LocalReport(entry, clock)) && b2 == Some(LocalReport(b1, clock))
    requires b3 == Some(LocalReport(b2, clock)) && b4 == Some(LocalReport(b3, clock))
    requires LuaAcquire(k4, capacity, rate, clock, capacity).1 != LocalAcquire(b4, capacity, rate, clock, capacity).1
    ensures var events := [Report] + ([Report] + ([Report] + ([Report] + ([Try(capacity)] + []))));
            && Orderly(clock, events) && KeyStays(clock, None, events, capacity, rate)
            && RedisAnswers(clock, None, events, capacity, rate) != LocalAnswers(clock, entry, events, capacity, rate)
  {
    hide *;
    NoKey(clock);
    var e4 := [Try(capacity)] + [];
    var e3 := [Report] + e4;
    var e2 := [Report] + e3;
    var h, b := LuaAcquire(k4, capacity, rate, clock, capacity).0, LocalAcquire(b4, capacity, rate, clock, capacity).0;
    KeepsPositive(clock, k4, capacity, capacity, rate);
    NothingLeft(clock, Some(h), Some(b), capacity, rate);
    TryFirst(clock, k4, b4, capacity, [], capacity, rate);
    TailsDiffer(LuaAcquire(k4, capacity, rate, clock, capacity).1, LocalAcquire(b4, capacity, rate, clock, capacity).1, [], []);
    ReportFirst(clock, k3, b3, e4, capacity, rate);
    ReportFirst(clock, k2, b2, e3, capacity, rate);
    ReportFirst(clock, k1, b1, e2, capacity, rate);
    ReportFirst(clock, None, entry, [Report] + e2, capacity, rate);
  }

  lemma KeepsPositive(clock: real, key: Option<Hash>, requested: real, capacity: real, rate: real)
    requires rate > 0.0 && PositiveMultiplier(key)
    ensures PositiveMultiplier(Some(LuaAcquire(key, capacity, rate, clock, requested).0))
  {}

  /** From related buckets, all runs in which the key does not expire are answered alike, whatever is
      acquired and reported, exactly when the key is live in Redis, or the in-process entry would be full
      even at a tenth of the rate. */
  lemma AlikeUntilExpiryIff(clock: real, key: Option<Hash>, entry: Option<Bucket>, capacity: real, rate: real)
    requires rate > 0.0 && capacity > 0.0 && Twins(clock, key, entry, capacity, rate)
    ensures (forall events :: Orderly(clock, events) && KeyStays(clock, key, events, capacity, rate)
               ==> RedisAnswers(clock, key, events, capacity, rate) == LocalAnswers(clock, entry, events, capacity, rate))
       <==> key.Some? || (entry.Some? && FullBy(entry.value.tokens, entry.value.last, clock, capacity, Effective(rate, 0.1)))
  {
    if key.Some? || (entry.Some? && FullBy(entry.value.tokens, entry.value.last, clock, capacity, Effective(rate, 0.1))) {
      assert Near(clock, key, entry, capacity, rate);
      forall events | Orderly(clock, events) && KeyStays(clock, key, events, capacity, rate)
        ensures RedisAnswers(clock, key, events, capacity, rate) == LocalAnswers(clock, entry, events, capacity, rate)
      {
        NearAnswersAlike(clock, key, entry, events, capacity, rate);
      }
    } else {
      var events := ReportsTellApart(clock, entry, capacity, rate);
    }
  }

  // ---------------------------------------------------------------- after the key has expired

  /** The level and the multiplier of the entry are in range. */
  predicate InRange(b: Bucket, clock: real, capacity: real) {
    0.0 < b.multiplier <= 1.0 && 0.0 <= b.tokens <= capacity && b.last <= clock
  }

  /** Acquire the whole capacity at two instants. */
  function DrainTwice(t1: real, t2: real, capacity: real): seq<Event> {
    [Wait(t1)] + ([Try(capacity)] + ([Wait(t2)] + ([Try(capacity)] + [])))
  }

  lemma DrainAnswers(clock: real, expired: Option<Hash>, b: Bucket, t1: real, t2: real, h: Hash, b1: Bucket, capacity: real, rate: real)
    requires rate > 0.0 && capacity > 0.0 && clock <= t1 <= t2 && PositiveMultiplier(Unexpired(Some(h), t2))
    requires PositiveMultiplier(expired) && Unexpired(expired, t1) == None
    requires LuaAcquire(None, capacity, rate, t1, capacity) == (h, true)
    requires LocalAcquire(Some(b), capacity, rate, t1, capacity) == (b1, true)
    ensures Orderly(clock, DrainTwice(t1, t2, capacity)) && NoReports(DrainTwice(t1, t2, capacity))
    ensures RedisAnswers(clock, expired, DrainTwice(t1, t2, capacity), capacity, rate)
         == [true, LuaAcquire(Unexpired(Some(h), t2), capacity, rate, t2, capacity).1]
    ensures LocalAnswers(clock, Some(b), DrainTwice(t1, t2, capacity), capacity, rate)
         == [true, LocalAcquire(Some(b1), capacity, rate, t2, capacity).1]
  {
    hide PositiveMultiplier, Unexpired, LuaAcquire, LocalAcquire, Orderly, NoReports, RedisAnswers, LocalAnswers, KeyStays;
    NoKey(t1);
    KeepsPositive(t1, None, capacity, capacity, rate);
    var key, r1 := Unexpired(Some(h), t2), [Try(capacity)] + [];
    var r2 := [Wait(t2)] + r1;
    var r3 := [Try(capacity)] + r2;
    KeepsPositive(t2, key, capacity, capacity, rate);
    NothingLeft(t2, Some(LuaAcquire(key, capacity, rate, t2, capacity).0), Some(LocalAcquire(Some(b1), capacity, rate, t2, capacity).0), capacity, rate);
    TryFirst(t2, key, Some(b1), capacity, [], capacity, rate);
    WaitFirst(t1, Some(h), Some(b1), t2, r1, capacity, rate);
    TryFirst(t1, None, Some(b), capacity, r2, capacity, rate);
    WaitFirst(clock, expired, Some(b), t1, r3, capacity, rate);
  }

  /** The time in which a bucket fills up. */
  lemma FullAfter(tokens: real, last: real, to: real, capacity: real, rate: real, wait: real)
    requires rate > 0.0 && capacity > 0.0 && tokens >= 0.0 && wait == capacity / rate && last + wait <= to
    ensures Refilled(tokens, last, to, capacity, rate) == capacity && wait > 0.0 && rate * wait == capacity
  {
    assert rate * wait == capacity;
    if wait <= 0.0 {
      TimesMonotone(rate, wait, 0.0);
    }
    RefilledForward(tokens, last, to, capacity, rate);
    hide Refilled;
    TimesMonotone(rate, wait, to - last);
  }

  /** Once the slowed bucket is full again, it grants everything, and a fresh key does too. */
  lemma FreshGrantsTwice(t1: real, t2: real, capacity: real, rate: real)
    requires rate > 0.0 && capacity > 0.0 && t1 <= t2 && Refilled(0.0, t1, t2, capacity, rate) == capacity
    ensures var (h, granted) := LuaAcquire(None, capacity, rate, t1, capacity);
            && granted && PositiveMultiplier(Unexpired(Some(h), t2))
            && LuaAcquire(Unexpired(Some(h), t2), capacity, rate, t2, capacity).1
  {
    RefilledNow(capacity, t1, capacity, Effective(rate, 1.0));
    RefilledNow(capacity, t2, capacity, Effective(rate, 1.0));
    EffectiveOne(rate);
    hide Effective;
    hide Refilled;
    hide Ttl;
  }

  lemma SlowedGrantsOnce(b: Bucket, t1: real, t2: real, capacity: real, rate: real)
    requires rate > 0.0 && capacity > 0.0 && b.multiplier < 1.0 && t1 <= t2 && rate * (t2 - t1) == capacity
    requires Refilled(b.tokens, b.last, t1, capacity, Effective(rate, b.multiplier)) == capacity
    ensures var (b1, granted) := LocalAcquire(Some(b), capacity, rate, t1, capacity);
            granted && !LocalAcquire(Some(b1), capacity, rate, t2, capacity).1
  {
    RefilledForward(0.0, t1, t2, capacity, Effective(rate, b.multiplier));
    SlowerRefill(rate, b.multiplier, t2 - t1, capacity);
    hide Refilled;
    hide Effective;
  }

  lemma SlowerRefill(rate: real, multiplier: real, wait: real, capacity: real)
    requires rate * wait == capacity && capacity > 0.0 && multiplier < 1.0
    ensures Effective(rate, multiplier) * wait < capacity
  {
    assert Effective(rate, multiplier) * wait == multiplier * (rate * wait);
    assert capacity - multiplier * capacity == (1.0 - multiplier) * capacity;
    TimesPositive(1.0 - multiplier, capacity);
  }

  /** A missing key and a slowed bucket answer differently: both grant the whole capacity once the bucket is
      full, but after the time in which the fresh key is full again the bucket is not. */
  lemma SlowedNeverMatchesFresh(clock: real, b: Bucket, capacity: real, rate: real) returns (events: seq<Event>)
    requires rate > 0.0 && capacity > 0.0 && InRange(b, clock, capacity) && b.multiplier < 1.0
    ensures Orderly(clock, events) && NoReports(events)
    ensures RedisAnswers(clock, None, events, capacity, rate) == [true, true]
    ensures LocalAnswers(clock, Some(b), events, capacity, rate) == [true, false]
  {
    var slow := Effective(rate, b.multiplier);
    TimesPositive(rate, b.multiplier);
    assert 0.0 <= b.tokens && b.last <= clock && PositiveMultiplier(None);
    hide *;
    var first, again := capacity / slow, capacity / rate;
    var t1 := clock + first;
    var t2 := t1 + again;
    FullAfter(b.tokens, b.last, t1, capacity, slow, first);
    FullAfter(0.0, t1, t2, capacity, rate, again);
    FreshGrantsTwice(t1, t2, capacity, rate);
    SlowedGrantsOnce(b, t1, t2, capacity, rate);
    events := DrainTwice(t1, t2, capacity);
    var h, b1 := LuaAcquire(None, capacity, rate, t1, capacity).0, LocalAcquire(Some(b), capacity, rate, t1, capacity).0;
    NoKey(t1);
    DrainAnswers(clock, None, b, t1, t2, h, b1, capacity, rate);
  }

  /** The key that replaces an expired one answers all later acquires like a bucket that stayed, exactly
      when that bucket is full and was not slowed down. */
  lemma FreshMatchesIff(clock: real, b: Bucket, capacity: real, rate: real)
    requires rate > 0.0 && capacity > 0.0 && InRange(b, clock, capacity)
    ensures (forall events :: Orderly(clock, events) && NoReports(events)
               ==> RedisAnswers(clock, None, events, capacity, rate) == LocalAnswers(clock, Some(b), events, capacity, rate))
       <==> b.multiplier == 1.0 && FullBy(b.tokens, b.last, clock, capacity, rate)
  {
    if b.multiplier < 1.0 {
      var events := SlowedNeverMatchesFresh(clock, b, capacity, rate);
    } else if FullBy(b.tokens, b.last, clock, capacity, rate) {
      assert Twins(clock, None, Some(b), capacity, rate);
      forall events | Orderly(clock, events) && NoReports(events)
        ensures RedisAnswers(clock, None, events, capacity, rate) == LocalAnswers(clock, Some(b), events, capacity, rate)
      {
        TwinsAnswerAlike(clock, None, Some(b), events, capacity, rate);
      }
    } else {
      EffectiveOne(rate);
      TryTellsApart(clock, None, b, capacity, rate);
      var events := [Try(capacity)] + [];
      TryFirst(clock, None, Some(b), capacity, [], capacity, rate);
      assert NoReports([]) && Orderly(clock, events) && NoReports(events);
      assert RedisAnswers(clock, None, events, capacity, rate)[0] != LocalAnswers(clock, Some(b), events, capacity, rate)[0];
    }
  }

  // ---------------------------------------------------------------- after a report

  lemma AcquireKeepsRange(entry: Option<Bucket>, requested: real, clock: real, capacity: real, rate: real)
    requires rate > 0.0 && capacity > 0.0 && requested >= 0.0 && (entry.Some? ==> InRange(entry.value, clock, capacity))
    ensures var b := LocalAcquire(entry, capacity, rate, clock, requested).0;
            InRange(b, clock, capacity) && (entry.Some? ==> b.multiplier == entry.value.multiplier)
  {
    var b := BucketOf(entry, capacity, clock);
    TimesPositive(rate, b.multiplier);
    TimesMonotone(Effective(rate, b.multiplier), 0.0, clock - b.last);
    RefilledForward(b.tokens, b.last, clock, capacity, Effective(rate, b.multiplier));
    hide Refilled;
    hide Effective;
  }

  /** Once its key has expired, a slowed bucket is on its own. */
  lemma ExpiryTellsApart(clock: real, key: Option<Hash>, b: Bucket, expiry: real, capacity: real, rate: real) returns (more: seq<Event>)
    requires rate > 0.0 && capacity > 0.0 && PositiveMultiplier(key) && InRange(b, clock, capacity) && b.multiplier < 1.0
    requires clock <= expiry && Unexpired(key, expiry) == None
    ensures Orderly(clock, more) && NoReports(more)
    ensures RedisAnswers(clock, key, more, capacity, rate) != LocalAnswers(clock, Some(b), more, capacity, rate)
  {
    assert InRange(b, expiry, capacity);
    hide *;
    var rest := SlowedNeverMatchesFresh(expiry, b, capacity, rate);
    more := [Wait(expiry)] + rest;
    WaitFirst(clock, key, Some(b), expiry, rest, capacity, rate);
  }

  lemma GrantExpires(clock: real, key: Option<Hash>, requested: real, capacity: real, rate: real)
    requires rate > 0.0 && capacity > 0.0 && PositiveMultiplier(key) && LuaAcquire(key, capacity, rate, clock, requested).1
    ensures var h := LuaAcquire(key, capacity, rate, clock, requested).0;
            h.expireAt.Some? && clock <= h.expireAt.value && Unexpired(Some(h), h.expireAt.value) == None
  {
    var effective := Effective(rate, MultiplierOf(key));
    TimesPositive(rate, MultiplierOf(key));
    GrantSetsFullBy(0.0, clock, capacity, effective);
    hide Refilled;
    hide Effective;
    hide Ttl;
  }

  /** When the bucket is full, an acquire of the whole capacity gives the key an expiry, or is denied by it. */
  lemma GrantTellsApart(clock: real, key: Option<Hash>, b: Bucket, capacity: real, rate: real) returns (more: seq<Event>)
    requires rate > 0.0 && capacity > 0.0 && PositiveMultiplier(key) && InRange(b, clock, capacity) && b.multiplier < 1.0
    requires LocalAcquire(Some(b), capacity, rate, clock, capacity).1
    ensures Orderly(clock, more) && NoReports(more)
    ensures RedisAnswers(clock, key, more, capacity, rate) != LocalAnswers(clock, Some(b), more, capacity, rate)
  {
    hide *;
    var h, b' := LuaAcquire(key, capacity, rate, clock, capacity).0, LocalAcquire(Some(b), capacity, rate, clock, capacity).0;
    KeepsPositive(clock, key, capacity, capacity, rate);
    AcquireKeepsRange(Some(b), capacity, clock, capacity, rate);
    var rest: seq<Event> := [];
    NothingLeft(clock, Some(h), Some(b'), capacity, rate);
    if LuaAcquire(key, capacity, rate, clock, capacity).1 {
      GrantExpires(clock, key, capacity, capacity, rate);
      rest := ExpiryTellsApart(clock, Some(h), b', h.expireAt.value, capacity, rate);
    }
    more := [Try(capacity)] + rest;
    TryFirst(clock, key, Some(b), capacity, rest, capacity, rate);
    TailsDiffer(LuaAcquire(key, capacity, rate, clock, capacity).1, true,
                RedisAnswers(clock, Some(h), rest, capacity, rate), LocalAnswers(clock, Some(b'), rest, capacity, rate));
  }

  /** From a slowed bucket some acquires are answered differently, whatever the key. */
  lemma SlowedTellsApart(clock: real, key: Option<Hash>, b: Bucket, capacity: real, rate: real) returns (more: seq<Event>)
    requires rate > 0.0 && capacity > 0.0 && PositiveMultiplier(key) && InRange(b, clock, capacity) && b.multiplier < 1.0
    ensures Orderly(clock, more) && NoReports(more)
    ensures RedisAnswers(clock, key, more, capacity, rate) != LocalAnswers(clock, Some(b), more, capacity, rate)
  {
    var slow := Effective(rate, b.multiplier);
    TimesPositive(rate, b.multiplier);
    var full := clock + capacity / slow;
    FullAfter(b.tokens, b.last, full, capacity, slow, capacity / slow);
    if Unexpired(key, full) == None {
      more := ExpiryTellsApart(clock, key, b, full, capacity, rate);
    } else {
      assert LocalAcquire(Some(b), capacity, rate, full, capacity).1 && Unexpired(key, full) == key && InRange(b, full, capacity);
      hide *;
      var rest := GrantTellsApart(full, key, b, capacity, rate);
      more := [Wait(full)] + rest;
      WaitFirst(clock, key, Some(b), full, rest, capacity, rate);
    }
  }

  /** After a report, and from a slowed bucket, some acquires are answered differently. */
  lemma {:induction false} ReportTellsApart(clock: real, key: Option<Hash>, entry: Option<Bucket>, events: seq<Event>, capacity: real, rate: real)
    returns (more: seq<Event>)
    requires rate > 0.0 && capacity > 0.0 && PositiveMultiplier(key) && Orderly(clock, events)
    requires entry.Some? ==> InRange(entry.value, clock, capacity)
    requires NoReports(events) ==> entry.Some? && entry.value.multiplier < 1.0
    ensures Orderly(clock, events + more) && NoReports(more)
    ensures RedisAnswers(clock, key, events + more, capacity, rate) != LocalAnswers(clock, entry, events + more, capacity, rate)
    decreases |events|
  {
    if events == [] {
      more := SlowedTellsApart(clock, key, entry.value, capacity, rate);
      assert events + more == more;
    } else {
      var later := events[1..];
      assert events == [events[0]] + later;
      match events[0]
      case Wait(to) =>
        assert entry.Some? ==> InRange(entry.value, to, capacity);
        assert NoReports(later) ==> NoReports(events);
        more := ReportTellsApart(to, Unexpired(key, to), entry, later, capacity, rate);
        assert events + more == [Wait(to)] + (later + more);
        hide *;
        WaitFirst(clock, key, entry, to, later + more, capacity, rate);
      case Try(requested) =>
        AcquireKeepsRange(entry, requested, clock, capacity, rate);
        KeepsPositive(clock, key, requested, capacity, rate);
        var h, b := LuaAcquire(key, capacity, rate, clock, requested).0, LocalAcquire(entry, capacity, rate, clock, requested).0;
        assert NoReports(later) ==> NoReports(events);
        more := ReportTellsApart(clock, Some(h), Some(b), later, capacity, rate);
        assert events + more == [Try(requested)] + (later + more);
        hide *;
        TryFirst(clock, key, entry, requested, later + more, capacity, rate);
        TailsDiffer(LuaAcquire(key, capacity, rate, clock, requested).1, LocalAcquire(entry, capacity, rate, clock, requested).1,
                    RedisAnswers(clock, Some(h), later + more, capacity, rate), LocalAnswers(clock, Some(b), later + more, capacity, rate));
      case Report =>
        more := ReportTellsApart(clock, Some(KeyAfter429(key)), Some(LocalReport(entry, clock)), later, capacity, rate);
        assert events + more == [Report] + (later + more);
        hide *;
        ReportFirst(clock, key, entry, later + more, capacity, rate);
    }
  }

  /** Two related buckets answer alike after `events`, whatever is acquired later, exactly when no 429 was
      reported: the first report slows the entry down for good, the key only until it expires. */
  lemma AlikeForeverIff(clock: real, key: Option<Hash>, entry: Option<Bucket>, events: seq<Event>, capacity: real, rate: real)
    requires rate > 0.0 && capacity > 0.0 && Twins(clock, key, entry, capacity, rate) && Orderly(clock, events)
    ensures (forall more :: NoReports(more) && Orderly(clock, events + more)
               ==> RedisAnswers(clock, key, events + more, capacity, rate) == LocalAnswers(clock, entry, events + more, capacity, rate))
       <==> NoReports(events)
  {
    if NoReports(events) {
      forall more | NoReports(more) && Orderly(clock, events + more)
        ensures RedisAnswers(clock, key, events + more, capacity, rate) == LocalAnswers(clock, entry, events + more, capacity, rate)
      {
        TwinsAnswerAlike(clock, key, entry, events + more, capacity, rate);
      }
    } else {
      var more := ReportTellsApart(clock, key, entry, events, capacity, rate);
    }
  }

  /** After a report on a drained bucket: the key is gone once its time to live is over, and its multiplier
      with it; the entry, full by then too, keeps its own. */
  lemma ReportThenExpiry(t1: real, t2: real, capacity: real, rate: real)
    requires rate > 0.0 && capacity > 0.0 && Ttl(capacity, rate) as real <= t1 <= t2 && rate * (t2 - t1) == capacity
    ensures var events := [Try(capacity)] + ([Report] + DrainTwice(t1, t2, capacity));
            && Orderly(0.0, events)
            && RedisAnswers(0.0, None, events, capacity, rate) == [true, true, true]
            && LocalAnswers(0.0, None, events, capacity, rate) == [true, true, false]
  {
    var h, b := LuaAcquire(None, capacity, rate, 0.0, capacity).0, LocalAcquire(None, capacity, rate, 0.0, capacity).0;
    FirstDrain(t1, capacity, rate);
    var slowed, slow := KeyAfter429(Some(h)), LocalReport(Some(b), 0.0);
    FullAtHalfRate(t1, capacity, rate);
    RefilledForward(0.0, t1, t2, capacity, rate);
    FreshGrantsTwice(t1, t2, capacity, rate);
    SlowedGrantsOnce(slow, t1, t2, capacity, rate);
    var h', b' := LuaAcquire(None, capacity, rate, t1, capacity).0, LocalAcquire(Some(slow), capacity, rate, t1, capacity).0;
    hide *;
    NoKey(0.0);
    DrainAnswers(0.0, Some(slowed), slow, t1, t2, h', b', capacity, rate);
    ReportFirst(0.0, Some(h), Some(b), DrainTwice(t1, t2, capacity), capacity, rate);
    TryFirst(0.0, None, None, capacity, [Report] + DrainTwice(t1, t2, capacity), capacity, rate);
  }

  lemma FirstDrain(t1: real, capacity: real, rate: real)
    requires rate > 0.0 && capacity > 0.0 && Ttl(capacity, rate) as real <= t1
    ensures LuaAcquire(None, capacity, rate, 0.0, capacity).1 && LocalAcquire(None, capacity, rate, 0.0, capacity) == (Bucket(0.0, 0.0, 1.0), true)
    ensures var h := LuaAcquire(None, capacity, rate, 0.0, capacity).0;
            && PositiveMultiplier(Some(h)) && PositiveMultiplier(Some(KeyAfter429(Some(h))))
            && Unexpired(Some(KeyAfter429(Some(h))), t1) == None
    ensures LocalReport(Some(Bucket(0.0, 0.0, 1.0)), 0.0) == Bucket(0.0, 0.0, 0.5)
  {
    EffectiveOne(rate);
    RefilledNow(capacity, 0.0, capacity, rate);
    hide Ttl;
    hide Refilled;
    hide Effective;
  }

  lemma FullAtHalfRate(t1: real, capacity: real, rate: real)
    requires rate > 0.0 && capacity > 0.0 && Ttl(capacity, rate) as real <= t1
    ensures Refilled(0.0, 0.0, t1, capacity, Effective(rate, 0.5)) == capacity
  {
    TtlCoversRefill(capacity, rate);
    TimesMonotone(rate, Ttl(capacity, rate) as real, t1);
    if t1 < 0.0 {
      TimesMonotone(rate, t1, 0.0);
    }
    RefilledForward(0.0, 0.0, t1, capacity, Effective(rate, 0.5));
    hide Ttl;
    hide Refilled;
    assert Effective(rate, 0.5) * (t1 - 0.0) == 0.5 * (rate * t1);
  }

  /** The shortest such run: with one token, one per second. */
  lemma ExpiryForgetsTheReport()
    ensures var events := [Try(1.0), Report, Wait(2.0), Try(1.0), Wait(3.0), Try(1.0)];
            && Orderly(0.0, events)
            && RedisAnswers(0.0, None, events, 1.0, 1.0) == [true, true, true]
            && LocalAnswers(0.0, None, events, 1.0, 1.0) == [true, true, false]
  {
    assert Ttl(1.0, 1.0) == 2;
    assert [Try(1.0), Report, Wait(2.0), Try(1.0), Wait(3.0), Try(1.0)] == [Try(1.0)] + ([Report] + DrainTwice(2.0, 3.0, 1.0));
    hide *;
    ReportThenExpiry(2.0, 3.0, 1.0, 1.0);
  }
}
