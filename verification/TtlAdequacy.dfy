/** What a key loses by expiring.  Its level is nothing, thanks to the factor of two in the time to live: with
    at most one report since the grant, a live key would be full by then as well.  Its multiplier is lost,
    so that the expiry shows in later answers as soon as the key was slowed down. */
module TtlAdequacy {
  import opened Wrappers
  import opened TokenBucket
  import opened BucketRefinement
  import opened ReportedBuckets

  /** The same key if it never expired. */
  datatype Live = Live(clock: real, hash: Hash)

  predicate Usable(k: Live) {
    k.hash.level.Some? && k.hash.multiplier.Some? && k.hash.multiplier.value > 0.0
  }

  function Happens(k: Live, e: Event, capacity: real, rate: real): (r: Live)
    requires rate > 0.0 && Usable(k)
    ensures Usable(r)
  {
    match e
    case Wait(to) => k.(clock := to)
    case Try(requested) => k.(hash := LuaAcquire(Some(k.hash), capacity, rate, k.clock, requested).0)
    case Report => k.(hash := LuaSetMultiplier(Some(k.hash), Halved(k.hash.multiplier.value)))
  }

  function Run(k: Live, events: seq<Event>, capacity: real, rate: real): (r: Live)
    requires rate > 0.0 && Usable(k)
    ensures Usable(r)
    decreases |events|
  {
    if events == [] then k else Run(Happens(k, events[0], capacity, rate), events[1..], capacity, rate)
  }

  /** Time moves forward and every acquire is denied. */
  ghost predicate Quiet(k: Live, events: seq<Event>, capacity: real, rate: real)
    requires rate > 0.0 && Usable(k)
    decreases |events|
  {
    events == [] ||
    (&& (events[0].Wait? ==> k.clock <= events[0].to)
     && (events[0].Try? ==> !LuaAcquire(Some(k.hash), capacity, rate, k.clock, events[0].requested).1)
     && Quiet(Happens(k, events[0], capacity, rate), events[1..], capacity, rate))
  }

  function Reports(events: seq<Event>): nat {
    if events == [] then 0 else (if events[0].Report? then 1 else 0) + Reports(events[1..])
  }

  /** The tokens the live key would hold now. */
  function LevelNow(k: Live, capacity: real, rate: real): real
    requires Usable(k)
  {
    Refilled(k.hash.level.value.tokens, k.hash.level.value.last, k.clock, capacity, Effective(rate, k.hash.multiplier.value))
  }

  /** Since the grant at `granted` the key has refilled at `pace` or faster, and still does. */
  ghost predicate KeepsPace(k: Live, granted: real, pace: real, capacity: real, rate: real)
    requires Usable(k)
  {
    var l := k.hash.level.value;
    && granted <= l.last <= k.clock
    && l.tokens >= Min(capacity, pace * (l.last - granted))
    && Effective(rate, k.hash.multiplier.value) >= pace
  }

  lemma PaceOfLevel(tokens: real, last: real, now: real, granted: real, pace: real, capacity: real, effective: real)
    requires 0.0 <= pace <= effective && granted <= last <= now
    requires tokens >= Min(capacity, pace * (last - granted))
    ensures Refilled(tokens, last, now, capacity, effective) >= Min(capacity, pace * (now - granted))
  {
    RefilledForward(tokens, last, now, capacity, effective);
    hide Refilled;
    TimesMonotone(now - last, pace, effective);
    TimesMonotone(effective, 0.0, now - last);
    Distributes(pace, last - granted, now - last);
    assert (last - granted) + (now - last) == now - granted;
    assert (now - last) * effective == effective * (now - last) && (now - last) * pace == pace * (now - last);
  }

  /** The multipliers a key may have with at most `reports` more reports to come. */
  predicate MultiplierAllows(multiplier: real, first: real, reports: nat) {
    multiplier >= first || (reports == 0 && multiplier >= first * 0.5)
  }

  lemma {:induction false} QuietKeepsPace(k: Live, events: seq<Event>, granted: real, first: real, capacity: real, rate: real)
    requires rate > 0.0 && capacity > 0.0 && Usable(k) && Quiet(k, events, capacity, rate) && Reports(events) <= 1
    requires first > 0.0 && MultiplierAllows(k.hash.multiplier.value, first, Reports(events))
    requires KeepsPace(k, granted, Effective(rate, first * 0.5), capacity, rate)
    ensures KeepsPace(Run(k, events, capacity, rate), granted, Effective(rate, first * 0.5), capacity, rate)
    decreases |events|
  {
    if events != [] {
      var k', pace := Happens(k, events[0], capacity, rate), Effective(rate, first * 0.5);
      EventKeepsPace(k, events[0], granted, first, capacity, rate, Reports(events[1..]));
      QuietKeepsPace(k', events[1..], granted, first, capacity, rate);
    }
  }

  lemma EventKeepsPace(k: Live, e: Event, granted: real, first: real, capacity: real, rate: real, later: nat)
    requires rate > 0.0 && capacity > 0.0 && Usable(k)
    requires e.Wait? ==> k.clock <= e.to
    requires e.Try? ==> !LuaAcquire(Some(k.hash), capacity, rate, k.clock, e.requested).1
    requires e.Report? ==> later == 0
    requires first > 0.0 && MultiplierAllows(k.hash.multiplier.value, first, later + if e.Report? then 1 else 0)
    requires KeepsPace(k, granted, Effective(rate, first * 0.5), capacity, rate)
    ensures var k' := Happens(k, e, capacity, rate);
            MultiplierAllows(k'.hash.multiplier.value, first, later)
            && KeepsPace(k', granted, Effective(rate, first * 0.5), capacity, rate)
  {
    hide Refilled;
    hide Effective;
    var pace, l, m := Effective(rate, first * 0.5), k.hash.level.value, k.hash.multiplier.value;
    EffectiveMonotone(rate, first * 0.5, m);
    if e.Report? {
      EffectiveMonotone(rate, first * 0.5, Halved(m));
    }
    PaceOfLevel(l.tokens, l.last, k.clock, granted, pace, capacity, Effective(rate, m));
  }

  lemma StartsOnPace(k: Live, granted: real, pace: real, capacity: real, rate: real)
    requires capacity > 0.0 && Usable(k) && k.clock == k.hash.level.value.last == granted
    requires k.hash.level.value.tokens >= 0.0 && Effective(rate, k.hash.multiplier.value) >= pace
    ensures KeepsPace(k, granted, pace, capacity, rate)
  {
    hide Effective;
    TimesZero(pace, k.hash.level.value.last - granted);
  }

  /** At least half the refill rate for the whole time to live fills the bucket. */
  lemma TtlFillsAtHalfPace(capacity: real, rate: real, first: real, waited: real)
    requires rate > 0.0 && capacity > 0.0 && first > 0.0
    requires Effective(rate, first) > 0.0 && waited >= Ttl(capacity, Effective(rate, first)) as real
    ensures Effective(rate, first * 0.5) * waited >= capacity
  {
    var e, half := Effective(rate, first), Effective(rate, first * 0.5);
    assert half == e * 0.5;
    TtlCoversRefill(capacity, e);
    var ttl := Ttl(capacity, e) as real;
    hide Ttl;
    hide Effective;
    TimesMonotone(half, ttl, waited);
    assert half * ttl == 0.5 * (e * ttl);
  }

  /** The level at expiry: if, after a grant, acquires are denied any number of times and the multiplier is
      halved at most once, then once the time to live set by the grant has run out the live key is full,
      just like the fresh key that replaces it. */
  lemma LevelIsFull(capacity: real, rate: real, key: Option<Hash>, now: real, requested: real, events: seq<Event>)
    requires rate > 0.0 && capacity > 0.0 && PositiveMultiplier(key)
    requires LuaAcquire(key, capacity, rate, now, requested).1
    requires key.Some? && key.value.level.Some? ==> key.value.level.value.last <= now
    requires var k := Live(now, LuaAcquire(key, capacity, rate, now, requested).0);
             && Quiet(k, events, capacity, rate) && Reports(events) <= 1
             && Run(k, events, capacity, rate).clock >= k.hash.expireAt.value
    ensures var k := Live(now, LuaAcquire(key, capacity, rate, now, requested).0);
            LevelNow(Run(k, events, capacity, rate), capacity, rate) == capacity
  {
    var k, first := Live(now, LuaAcquire(key, capacity, rate, now, requested).0), MultiplierOf(key);
    GrantShape(capacity, rate, key, now, requested);
    hide LuaAcquire;
    hide Refilled;
    hide Effective;
    hide Ttl;
    EffectiveMonotone(rate, first * 0.5, first);
    StartsOnPace(k, now, Effective(rate, first * 0.5), capacity, rate);
    QuietKeepsPace(k, events, now, first, capacity, rate);
    FullAtExpiry(Run(k, events, capacity, rate), now, first, capacity, rate);
  }

  lemma FullAtExpiry(k: Live, granted: real, first: real, capacity: real, rate: real)
    requires rate > 0.0 && capacity > 0.0 && first > 0.0 && Usable(k) && Effective(rate, first) > 0.0
    requires KeepsPace(k, granted, Effective(rate, first * 0.5), capacity, rate)
    requires k.clock >= granted + Ttl(capacity, Effective(rate, first)) as real
    ensures LevelNow(k, capacity, rate) == capacity
  {
    hide Refilled;
    hide Effective;
    hide Ttl;
    EffectiveMonotone(rate, first * 0.5, first);
    var pace, l, m := Effective(rate, first * 0.5), k.hash.level.value, k.hash.multiplier.value;
    PaceOfLevel(l.tokens, l.last, k.clock, granted, pace, capacity, Effective(rate, m));
    TtlFillsAtHalfPace(capacity, rate, first, k.clock - granted);
    RefilledAtMost(l.tokens, l.last, k.clock, capacity, Effective(rate, m));
  }

  lemma GrantShape(capacity: real, rate: real, key: Option<Hash>, now: real, requested: real)
    requires rate > 0.0 && PositiveMultiplier(key) && LuaAcquire(key, capacity, rate, now, requested).1
    ensures MultiplierOf(key) > 0.0 && Effective(rate, MultiplierOf(key)) > 0.0
    ensures var h := LuaAcquire(key, capacity, rate, now, requested).0;
            && h.level.Some? && h.level.value.last == now && h.level.value.tokens >= 0.0
            && h.multiplier == Some(MultiplierOf(key))
            && h.expireAt == Some(now + Ttl(capacity, Effective(rate, MultiplierOf(key))) as real)
  {
    TimesPositive(rate, MultiplierOf(key));
  }

  lemma RefilledAtMost(tokens: real, last: real, now: real, capacity: real, rate: real)
    ensures Refilled(tokens, last, now, capacity, rate) <= capacity
  {}

  /** A second halving after the grant can make the expiring key give a full token where the live one would
      have half of one. */
  lemma TwoReportsAreTooMany()
    ensures var k := Live(0.0, LuaAcquire(None, 1.0, 1.0, 0.0, 1.0).0);
            && LuaAcquire(None, 1.0, 1.0, 0.0, 1.0).1 && k.hash.expireAt == Some(2.0)
            && Quiet(k, [Report, Report, Wait(2.0)], 1.0, 1.0)
            && LevelNow(Run(k, [Report, Report, Wait(2.0)], 1.0, 1.0), 1.0, 1.0) == 0.5
            && Run(k, [Report, Report, Wait(2.0)], 1.0, 1.0).clock == 2.0 && Reports([Report, Report, Wait(2.0)]) == 2
  {
    var k := Live(0.0, LuaAcquire(None, 1.0, 1.0, 0.0, 1.0).0);
    assert Ttl(1.0, Effective(1.0, 1.0)) == 2;
    var k1 := Happens(k, Report, 1.0, 1.0);
    var k2 := Happens(k1, Report, 1.0, 1.0);
    var k3 := Happens(k2, Wait(2.0), 1.0, 1.0);
    assert [Report, Report, Wait(2.0)][1..] == [Report, Wait(2.0)];
    assert [Report, Wait(2.0)][1..] == [Wait(2.0)];
    assert [Wait(2.0)][1..] == [];
    assert Run(k2, [Wait(2.0)], 1.0, 1.0) == k3 && Quiet(k2, [Wait(2.0)], 1.0, 1.0);
    assert Run(k1, [Report, Wait(2.0)], 1.0, 1.0) == k3 && Quiet(k1, [Report, Wait(2.0)], 1.0, 1.0);
    assert k3.hash.multiplier == Some(0.25);
  }

  /** When the expiry set by a grant comes, after `events`, the live key is full. */
  ghost predicate ExpiresFull(capacity: real, rate: real, key: Option<Hash>, now: real, requested: real, events: seq<Event>) {
    && rate > 0.0 && capacity > 0.0 && PositiveMultiplier(key)
    && LuaAcquire(key, capacity, rate, now, requested).1
    && (key.Some? && key.value.level.Some? ==> key.value.level.value.last <= now)
    && (var k := Live(now, LuaAcquire(key, capacity, rate, now, requested).0);
        Quiet(k, events, capacity, rate) && Run(k, events, capacity, rate).clock >= k.hash.expireAt.value)
    ==>
    var k := Live(now, LuaAcquire(key, capacity, rate, now, requested).0);
    LevelNow(Run(k, events, capacity, rate), capacity, rate) == capacity
  }

  /** With at most `n` reports after a grant the live key is full at expiry, for all buckets, grants and
      denied acquires, exactly when `n` is at most one. */
  lemma LevelIsFullIff(n: nat)
    ensures (forall capacity, rate, key, now, requested, events ::
               Reports(events) <= n ==> ExpiresFull(capacity, rate, key, now, requested, events)) <==> n <= 1
  {
    hide ExpiresFull;
    if n <= 1 {
      forall capacity, rate, key, now, requested, events | Reports(events) <= n
        ensures ExpiresFull(capacity, rate, key, now, requested, events)
      {
        ExpiresFullWithOne(capacity, rate, key, now, requested, events);
      }
    } else {
      TwoReportsExpireShort();
    }
  }

  lemma TwoReportsExpireShort()
    ensures Reports([Report, Report, Wait(2.0)]) == 2 && !ExpiresFull(1.0, 1.0, None, 0.0, 1.0, [Report, Report, Wait(2.0)])
  {
    TwoReportsAreTooMany();
    hide LuaAcquire;
    hide Run;
    hide Quiet;
    hide Reports;
    hide LevelNow;
  }

  lemma ExpiresFullWithOne(capacity: real, rate: real, key: Option<Hash>, now: real, requested: real, events: seq<Event>)
    requires Reports(events) <= 1
    ensures ExpiresFull(capacity, rate, key, now, requested, events)
  {
    if rate > 0.0 && capacity > 0.0 && PositiveMultiplier(key) && LuaAcquire(key, capacity, rate, now, requested).1 {
      var k := Live(now, LuaAcquire(key, capacity, rate, now, requested).0);
      if (key.Some? && key.value.level.Some? ==> key.value.level.value.last <= now)
         && Quiet(k, events, capacity, rate) && Run(k, events, capacity, rate).clock >= k.hash.expireAt.value {
        LevelIsFull(capacity, rate, key, now, requested, events);
      }
    }
  }

  // ---------------------------------------------------------------- answers after the expiry

  /** The answers of a key that never expires. */
  function LiveAnswers(k: Live, events: seq<Event>, capacity: real, rate: real): seq<bool>
    requires rate > 0.0 && Usable(k)
    decreases |events|
  {
    if events == [] then []
    else
      (if events[0].Try? then [LuaAcquire(Some(k.hash), capacity, rate, k.clock, events[0].requested).1] else [])
      + LiveAnswers(Happens(k, events[0], capacity, rate), events[1..], capacity, rate)
  }

  function InProcess(k: Live): Bucket
    requires Usable(k)
  {
    Bucket(k.hash.level.value.tokens, k.hash.level.value.last, k.hash.multiplier.value)
  }

  /** A key that never expires is the bucket in process. */
  lemma {:induction false} LiveIsInProcess(k: Live, events: seq<Event>, capacity: real, rate: real)
    requires rate > 0.0 && Usable(k)
    ensures LiveAnswers(k, events, capacity, rate) == LocalAnswers(k.clock, Some(InProcess(k)), events, capacity, rate)
    decreases |events|
  {
    if events != [] {
      LiveEventInProcess(k, events[0], capacity, rate);
      LiveIsInProcess(Happens(k, events[0], capacity, rate), events[1..], capacity, rate);
      hide LuaAcquire;
      hide LocalAcquire;
    }
  }

  lemma LiveEventInProcess(k: Live, e: Event, capacity: real, rate: real)
    requires rate > 0.0 && Usable(k)
    ensures var k', b := Happens(k, e, capacity, rate), InProcess(k);
            match e
            case Wait(to) => k'.clock == to && InProcess(k') == b
            case Report => k'.clock == k.clock && InProcess(k') == LocalReport(Some(b), k.clock)
            case Try(requested) =>
              && k'.clock == k.clock
              && LocalAcquire(Some(b), capacity, rate, k.clock, requested)
                 == (InProcess(k'), LuaAcquire(Some(k.hash), capacity, rate, k.clock, requested).1)
  {
    hide Refilled;
    hide Ttl;
    hide Effective;
  }

  /** After a grant the expiry never shows in the answers, whatever is acquired later, exactly when the key
      had its full rate at the grant and no 429 is reported after it. */
  lemma ExpiryIsInvisibleIff(capacity: real, rate: real, key: Option<Hash>, now: real, requested: real, events: seq<Event>)
    requires rate > 0.0 && capacity > 0.0 && requested >= 0.0 && 0.0 < MultiplierOf(key) <= 1.0
    requires LuaAcquire(key, capacity, rate, now, requested).1 && Orderly(now, events)
    ensures var h := LuaAcquire(key, capacity, rate, now, requested).0;
            (forall more :: NoReports(more) && Orderly(now, events + more)
               ==> RedisAnswers(now, Some(h), events + more, capacity, rate) == LiveAnswers(Live(now, h), events + more, capacity, rate))
            <==> MultiplierOf(key) == 1.0 && NoReports(events)
  {
    GrantShape(capacity, rate, key, now, requested);
    GrantInRange(capacity, rate, key, now, requested);
    var h := LuaAcquire(key, capacity, rate, now, requested).0;
    var k := Live(now, h);
    var b := InProcess(k);
    if MultiplierOf(key) == 1.0 && NoReports(events) {
      forall more | NoReports(more) && Orderly(now, events + more)
        ensures RedisAnswers(now, Some(h), events + more, capacity, rate) == LiveAnswers(k, events + more, capacity, rate)
      {
        LiveIsInProcess(k, events + more, capacity, rate);
        TwinsAnswerAlike(now, Some(h), Some(b), events + more, capacity, rate);
      }
    } else {
      var more := ReportTellsApart(now, Some(h), Some(b), events, capacity, rate);
      LiveIsInProcess(k, events + more, capacity, rate);
    }
  }

  /** The key a grant leaves behind is related to its own bucket. */
  lemma GrantInRange(capacity: real, rate: real, key: Option<Hash>, now: real, requested: real)
    requires rate > 0.0 && capacity > 0.0 && requested >= 0.0 && 0.0 < MultiplierOf(key) <= 1.0
    requires LuaAcquire(key, capacity, rate, now, requested).1
    ensures var h := LuaAcquire(key, capacity, rate, now, requested).0;
            && Usable(Live(now, h)) && InRange(InProcess(Live(now, h)), now, capacity)
            && InProcess(Live(now, h)).multiplier == MultiplierOf(key)
            && (MultiplierOf(key) == 1.0 ==> Twins(now, Some(h), Some(InProcess(Live(now, h))), capacity, rate))
  {
    GrantShape(capacity, rate, key, now, requested);
    EffectiveOne(rate);
    var h := LuaAcquire(key, capacity, rate, now, requested).0;
    GrantSetsFullBy(h.level.value.tokens, now, capacity, rate);
    hide Effective;
    hide Ttl;
    hide FullBy;
  }
}
