/** The life of a key in Redis.  Only a grant sets the expiry: acquires that are denied and 429 reports leave
    it alone, so that the key goes a fixed time after the last grant, however often it is polled. */
module KeyExpiry {
  import opened Wrappers
  import opened TokenBucket
  import opened BucketRefinement
  import TtlAdequacy

  /** A key on the server at some time. */
  datatype Slot = Slot(clock: real, key: Option<Hash>)

  function After(s: Slot, e: Event, capacity: real, rate: real): (r: Slot)
    requires rate > 0.0 && PositiveMultiplier(s.key)
    ensures PositiveMultiplier(r.key)
  {
    match e
    case Wait(to) => Slot(to, Unexpired(s.key, to))
    case Try(requested) => s.(key := Some(LuaAcquire(s.key, capacity, rate, s.clock, requested).0))
    case Report => s.(key := Some(KeyAfter429(s.key)))
  }

  function Run(s: Slot, events: seq<Event>, capacity: real, rate: real): (r: Slot)
    requires rate > 0.0 && PositiveMultiplier(s.key)
    ensures PositiveMultiplier(r.key)
    decreases |events|
  {
    if events == [] then s else Run(After(s, events[0], capacity, rate), events[1..], capacity, rate)
  }

  /** Time moves forward; before `expiry` the key may be polled in vain and 429 may be reported. */
  ghost predicate NothingGranted(s: Slot, events: seq<Event>, expiry: real, capacity: real, rate: real)
    requires rate > 0.0 && PositiveMultiplier(s.key)
    decreases |events|
  {
    events == [] ||
    (&& (match events[0]
         case Wait(to) => s.clock <= to
         case Try(requested) => s.clock < expiry && !LuaAcquire(s.key, capacity, rate, s.clock, requested).1
         case Report => s.clock < expiry)
     && NothingGranted(After(s, events[0], capacity, rate), events[1..], expiry, capacity, rate))
  }

  /** The key is there, due to go at `expiry`, or it has gone. */
  predicate GoesAt(s: Slot, expiry: real) {
    if s.clock < expiry then s.key.Some? && s.key.value.expireAt == Some(expiry) else s.key == None
  }

  lemma EventKeepsExpiry(s: Slot, e: Event, expiry: real, capacity: real, rate: real)
    requires rate > 0.0 && PositiveMultiplier(s.key) && GoesAt(s, expiry)
    requires match e
             case Wait(to) => s.clock <= to
             case Try(requested) => s.clock < expiry && !LuaAcquire(s.key, capacity, rate, s.clock, requested).1
             case Report => s.clock < expiry
    ensures GoesAt(After(s, e, capacity, rate), expiry)
  {
    hide Refilled;
    hide Ttl;
  }

  lemma {:induction false} RunKeepsExpiry(s: Slot, events: seq<Event>, expiry: real, capacity: real, rate: real)
    requires rate > 0.0 && PositiveMultiplier(s.key) && NothingGranted(s, events, expiry, capacity, rate) && GoesAt(s, expiry)
    ensures GoesAt(Run(s, events, capacity, rate), expiry)
    decreases |events|
  {
    if events != [] {
      EventKeepsExpiry(s, events[0], expiry, capacity, rate);
      RunKeepsExpiry(After(s, events[0], capacity, rate), events[1..], expiry, capacity, rate);
    }
  }

  /** The key a grant at `now` leaves behind, after whatever is denied or reported until its expiry, is gone
      exactly when twice the time to refill, in full seconds and at the pace of the grant, has passed. */
  lemma KeyIsGoneIff(key: Option<Hash>, now: real, requested: real, events: seq<Event>, capacity: real, rate: real, pace: real, expiry: real)
    requires rate > 0.0 && capacity > 0.0 && PositiveMultiplier(key) && LuaAcquire(key, capacity, rate, now, requested).1
    requires pace == rate * MultiplierOf(key) && pace > 0.0 && expiry == now + (2 * Ceil(capacity / pace)) as real
    requires NothingGranted(Slot(now, Some(LuaAcquire(key, capacity, rate, now, requested).0)), events, expiry, capacity, rate)
    ensures var s := Run(Slot(now, Some(LuaAcquire(key, capacity, rate, now, requested).0)), events, capacity, rate);
            && (s.key == None <==> s.clock >= expiry)
            && (s.key.Some? ==> s.key.value.expireAt == Some(expiry))
  {
    GrantExpires(key, now, requested, capacity, rate, pace);
    hide LuaAcquire, Ceil;
    RunKeepsExpiry(Slot(now, Some(LuaAcquire(key, capacity, rate, now, requested).0)), events, expiry, capacity, rate);
  }

  lemma GrantExpires(key: Option<Hash>, now: real, requested: real, capacity: real, rate: real, pace: real)
    requires rate > 0.0 && capacity > 0.0 && PositiveMultiplier(key) && LuaAcquire(key, capacity, rate, now, requested).1
    requires pace == rate * MultiplierOf(key) && pace > 0.0
    ensures GoesAt(Slot(now, Some(LuaAcquire(key, capacity, rate, now, requested).0)), now + (2 * Ceil(capacity / pace)) as real)
  {
    TtlAdequacy.GrantShape(capacity, rate, key, now, requested);
    assert capacity / pace > 0.0;
    CeilBounds(capacity / pace);
    assert Effective(rate, MultiplierOf(key)) == pace;
    assert Ttl(capacity, pace) == 2 * Ceil(capacity / pace);
    hide LuaAcquire, Ceil, Ttl, Effective, MultiplierOf;
  }
}
