/** The in-process bucket and the Lua bucket over runs of acquires and 429 reports: as long as no 429 is
    reported they answer alike, although the key in Redis expires and the in-process entry never does. */
module BucketRefinement {
  import opened Wrappers
  import opened TokenBucket

  datatype Event = Wait(to: real) | Try(requested: real) | Report

  /** Time only moves forward and requests are not negative. */
  ghost predicate Orderly(clock: real, events: seq<Event>)
    decreases |events|
  {
    events == [] ||
    match events[0]
    case Wait(to) => clock <= to && Orderly(to, events[1..])
    case Try(requested) => requested >= 0.0 && Orderly(clock, events[1..])
    case Report => Orderly(clock, events[1..])
  }

  predicate NoReports(events: seq<Event>) {
    forall i :: 0 <= i < |events| ==> !events[i].Report?
  }

  function KeyAfter429(key: Option<Hash>): Hash {
    LuaSetMultiplier(key, Halved(MultiplierOf(key)))
  }

  /** The answers of the script; the key is dropped when its time to live has run out. */
  function RedisAnswers(clock: real, key: Option<Hash>, events: seq<Event>, capacity: real, rate: real): seq<bool>
    requires rate > 0.0 && PositiveMultiplier(key)
    decreases |events|
  {
    if events == [] then []
    else match events[0]
      case Wait(to) => RedisAnswers(to, Unexpired(key, to), events[1..], capacity, rate)
      case Try(requested) =>
        var (h, granted) := LuaAcquire(key, capacity, rate, clock, requested);
        [granted] + RedisAnswers(clock, Some(h), events[1..], capacity, rate)
      case Report => RedisAnswers(clock, Some(KeyAfter429(key)), events[1..], capacity, rate)
  }

  function LocalAnswers(clock: real, entry: Option<Bucket>, events: seq<Event>, capacity: real, rate: real): seq<bool>
    decreases |events|
  {
    if events == [] then []
    else match events[0]
      case Wait(to) => LocalAnswers(to, entry, events[1..], capacity, rate)
      case Try(requested) =>
        var (b, granted) := LocalAcquire(entry, capacity, rate, clock, requested);
        [granted] + LocalAnswers(clock, Some(b), events[1..], capacity, rate)
      case Report => LocalAnswers(clock, Some(LocalReport(entry, clock)), events[1..], capacity, rate)
  }

  /** By time `t` the lazy refill will have filled the bucket. */
  predicate FullBy(tokens: real, last: real, t: real, capacity: real, rate: real) {
    last <= t && tokens + rate * (t - last) >= capacity
  }

  /** The abstraction relation: the two buckets agree, or the key is gone and the entry is full. */
  ghost predicate Twins(clock: real, key: Option<Hash>, entry: Option<Bucket>, capacity: real, rate: real) {
    match key
    case None =>
      entry.Some? ==>
        && entry.value.multiplier == 1.0 && 0.0 <= entry.value.tokens <= capacity
        && FullBy(entry.value.tokens, entry.value.last, clock, capacity, rate)
    case Some(h) =>
      && h.level.Some? && h.multiplier == Some(1.0)
      && entry == Some(Bucket(h.level.value.tokens, h.level.value.last, 1.0))
      && 0.0 <= h.level.value.tokens <= capacity && h.level.value.last <= clock
      && (h.expireAt.Some? ==>
            clock < h.expireAt.value && FullBy(h.level.value.tokens, h.level.value.last, h.expireAt.value, capacity, rate))
  }

  lemma FullStaysFull(tokens: real, last: real, t: real, u: real, capacity: real, rate: real)
    requires FullBy(tokens, last, t, capacity, rate) && t <= u && rate >= 0.0
    ensures FullBy(tokens, last, u, capacity, rate)
  {
    TimesMonotone(rate, t - last, u - last);
  }

  /** A denied poll on the way does not postpone the time by which the bucket is full. */
  lemma PollKeepsFullBy(tokens: real, last: real, now: real, t: real, capacity: real, rate: real)
    requires FullBy(tokens, last, t, capacity, rate) && last <= now <= t && rate >= 0.0
    ensures FullBy(Refilled(tokens, last, now, capacity, rate), now, t, capacity, rate)
  {
    RefilledForward(tokens, last, now, capacity, rate);
    hide Refilled;
    Distributes(rate, now - last, t - now);
    assert (now - last) + (t - now) == t - last;
    TimesMonotone(rate, 0.0, t - now);
  }

  lemma WaitKeepsTwins(clock: real, key: Option<Hash>, entry: Option<Bucket>, to: real, capacity: real, rate: real)
    requires rate > 0.0 && capacity > 0.0 && clock <= to && Twins(clock, key, entry, capacity, rate)
    ensures Twins(to, Unexpired(key, to), entry, capacity, rate)
  {
    hide FullBy;
    if key.None? && entry.Some? {
      FullStaysFull(entry.value.tokens, entry.value.last, clock, to, capacity, rate);
    }
    if key.Some? && key.value.expireAt.Some? && key.value.expireAt.value <= to {
      FullStaysFull(entry.value.tokens, entry.value.last, key.value.expireAt.value, to, capacity, rate);
    }
  }

  /** Both buckets refill to the same level. */
  lemma TwinsRefillAlike(clock: real, key: Option<Hash>, entry: Option<Bucket>, capacity: real, rate: real)
    requires rate > 0.0 && capacity > 0.0 && Twins(clock, key, entry, capacity, rate)
    ensures var l, b := LevelOf(key, capacity, clock), BucketOf(entry, capacity, clock);
            && MultiplierOf(key) == b.multiplier == 1.0
            && Refilled(l.tokens, l.last, clock, capacity, rate) == Refilled(b.tokens, b.last, clock, capacity, rate)
            && 0.0 <= Refilled(l.tokens, l.last, clock, capacity, rate) <= capacity
            && l.last <= clock
  {
    var l, b := LevelOf(key, capacity, clock), BucketOf(entry, capacity, clock);
    RefilledForward(l.tokens, l.last, clock, capacity, rate);
    RefilledForward(b.tokens, b.last, clock, capacity, rate);
    hide Refilled;
    TimesMonotone(rate, 0.0, clock - l.last);
    assert rate * 0.0 == 0.0;
  }

  lemma TryKeepsTwins(clock: real, key: Option<Hash>, entry: Option<Bucket>, requested: real, capacity: real, rate: real)
    requires rate > 0.0 && capacity > 0.0 && requested >= 0.0 && Twins(clock, key, entry, capacity, rate)
    ensures var (h, granted) := LuaAcquire(key, capacity, rate, clock, requested);
            var (b, granted') := LocalAcquire(entry, capacity, rate, clock, requested);
            granted == granted' && Twins(clock, Some(h), Some(b), capacity, rate)
  {
    hide Refilled;
    hide Effective;
    hide Ttl;
    hide FullBy;
    EffectiveOne(rate);
    TwinsRefillAlike(clock, key, entry, capacity, rate);
    var l := LevelOf(key, capacity, clock);
    var tokens := Refilled(l.tokens, l.last, clock, capacity, rate);
    if tokens >= requested {
      GrantSetsFullBy(tokens - requested, clock, capacity, rate);
    } else if key.Some? && key.value.expireAt.Some? {
      PollKeepsFullBy(l.tokens, l.last, clock, key.value.expireAt.value, capacity, rate);
    }
  }

  lemma GrantSetsFullBy(tokens: real, now: real, capacity: real, rate: real)
    requires rate > 0.0 && capacity > 0.0 && tokens >= 0.0
    ensures now < now + Ttl(capacity, rate) as real
    ensures FullBy(tokens, now, now + Ttl(capacity, rate) as real, capacity, rate)
  {
    TtlCoversRefill(capacity, rate);
    var ttl := Ttl(capacity, rate) as real;
    hide Ttl;
    if ttl <= 0.0 {
      TimesMonotone(rate, ttl, 0.0);
    }
    assert (now + ttl) - now == ttl;
  }

  lemma {:induction false} TwinsAnswerAlike(clock: real, key: Option<Hash>, entry: Option<Bucket>, events: seq<Event>, capacity: real, rate: real)
    requires rate > 0.0 && capacity > 0.0 && Orderly(clock, events) && NoReports(events) && Twins(clock, key, entry, capacity, rate)
    ensures RedisAnswers(clock, key, events, capacity, rate) == LocalAnswers(clock, entry, events, capacity, rate)
    decreases |events|
  {
    hide LuaAcquire;
    hide LocalAcquire;
    hide FullBy;
    if events != [] {
      match events[0]
      case Wait(to) =>
        WaitKeepsTwins(clock, key, entry, to, capacity, rate);
        TwinsAnswerAlike(to, Unexpired(key, to), entry, events[1..], capacity, rate);
      case Try(requested) =>
        TryKeepsTwins(clock, key, entry, requested, capacity, rate);
        var h, b := LuaAcquire(key, capacity, rate, clock, requested).0, LocalAcquire(entry, capacity, rate, clock, requested).0;
        TwinsAnswerAlike(clock, Some(h), Some(b), events[1..], capacity, rate);
    }
  }

  /** On every run of acquires without a 429 the two buckets give the same sequence of answers. */
  lemma BucketsAnswerAlike(clock: real, events: seq<Event>, capacity: real, rate: real)
    requires rate > 0.0 && capacity > 0.0 && Orderly(clock, events) && NoReports(events)
    ensures RedisAnswers(clock, None, events, capacity, rate) == LocalAnswers(clock, None, events, capacity, rate)
  {
    TwinsAnswerAlike(clock, None, None, events, capacity, rate);
  }

  /** A 429 on an unused key: in process it leaves an empty bucket, in Redis a hash without level, so the
      next acquire is denied by the one and granted by the other. */
  lemma UnusedKeyAfter429(now: real, capacity: real, rate: real, requested: real, m: real)
    requires rate > 0.0 && 0.0 < requested <= capacity && m > 0.0
    ensures !LocalAcquire(Some(LocalReport(None, now)), capacity, rate, now, requested).1
    ensures LuaAcquire(Some(LuaSetMultiplier(None, m)), capacity, rate, now, requested).1
  {
    RefilledNow(0.0, now, capacity, Effective(rate, LocalReport(None, now).multiplier));
    RefilledNow(capacity, now, capacity, Effective(rate, m));
  }

  /** The answers to one acquire right after a 429 is reported to both buckets. */
  predicate AnswerAlikeAfter429(clock: real, key: Option<Hash>, entry: Option<Bucket>, requested: real, capacity: real, rate: real)
    requires rate > 0.0
  {
    LuaAcquire(Some(LuaSetMultiplier(key, Halved(1.0))), capacity, rate, clock, requested).1
    == LocalAcquire(Some(LocalReport(entry, clock)), capacity, rate, clock, requested).1
  }

  /** The first acquire, at the instant of a 429, is answered alike by two related buckets exactly when the key
      is live in Redis, or the in-process entry would be full even at half the rate: an unused or expired key
      is full at its next acquire, while the entry is empty when new and refills backwards at the halved rate
      when old. */
  lemma FirstAcquireAfter429Iff(clock: real, key: Option<Hash>, entry: Option<Bucket>, capacity: real, rate: real)
    requires rate > 0.0 && capacity > 0.0 && Twins(clock, key, entry, capacity, rate)
    ensures (forall requested: real :: 0.0 < requested <= capacity ==> AnswerAlikeAfter429(clock, key, entry, requested, capacity, rate))
       <==> key.Some? || (entry.Some? && FullBy(entry.value.tokens, entry.value.last, clock, capacity, Effective(rate, 0.5)))
  {
    if key.None? {
      var b := LocalReport(entry, clock);
      RefilledNow(capacity, clock, capacity, Effective(rate, 0.5));
      RefilledForward(b.tokens, b.last, clock, capacity, Effective(rate, 0.5));
      if b.last == clock {
        TimesZero(Effective(rate, 0.5), clock - b.last);
      }
      hide Effective;
      hide Refilled;
      assert AnswerAlikeAfter429(clock, key, entry, capacity, capacity, rate)
        <==> entry.Some? && FullBy(entry.value.tokens, entry.value.last, clock, capacity, Effective(rate, 0.5));
    }
  }
}
