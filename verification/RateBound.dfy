/** The rate bound of one bucket over every run: acquires, 429 reports (a read and a later write of the
    multiplier, by any number of workers), expiry of the key, and a clock that may even step back. */
module RateBound {
  import opened Wrappers
  import opened TokenBucket

  // ---------------------------------------------------------------- runs of the Redis bucket

  /** The key, with the multipliers that reporting workers have read and not yet written back. */
  datatype Key = Key(clock: real, hash: Option<Hash>, pending: map<nat, real>)

  datatype Event =
    | Tick(to: real)
    | Acquire(requested: real)
    | Read429(worker: nat)
    | Write429(worker: nat)

  predicate InUnit(multiplier: real) {
    0.1 <= multiplier <= 1.0
  }

  /** What every reachable key satisfies. */
  ghost predicate ValidKey(k: Key, capacity: real) {
    && (k.hash.Some? && k.hash.value.level.Some? ==> 0.0 <= k.hash.value.level.value.tokens <= capacity)
    && InUnit(MultiplierOf(k.hash))
    && Unexpired(k.hash, k.clock) == k.hash
    && (forall w :: w in k.pending ==> InUnit(k.pending[w]))
  }

  function Happens(k: Key, e: Event, capacity: real, rate: real): Key
    requires rate > 0.0 && PositiveMultiplier(k.hash)
  {
    match e
    case Tick(to) => k.(clock := to, hash := Unexpired(k.hash, to))
    case Acquire(requested) => k.(hash := Some(LuaAcquire(k.hash, capacity, rate, k.clock, requested).0))
    case Read429(w) => k.(pending := k.pending[w := MultiplierOf(k.hash)])
    case Write429(w) => if w in k.pending then k.(hash := Some(LuaSetMultiplier(k.hash, Halved(k.pending[w])))) else k
  }

  /** Tokens granted by one event. */
  function GrantedBy(k: Key, e: Event, capacity: real, rate: real): real
    requires rate > 0.0 && PositiveMultiplier(k.hash)
  {
    if e.Acquire? && LuaAcquire(k.hash, capacity, rate, k.clock, e.requested).1 then e.requested else 0.0
  }

  /** How far one event moves the clock forward. */
  function ForwardBy(clock: real, e: Event): real {
    if e.Tick? then Max(0.0, e.to - clock) else 0.0
  }

  ghost predicate Requests(events: seq<Event>) {
    forall i :: 0 <= i < |events| && events[i].Acquire? ==> events[i].requested >= 0.0
  }

  lemma HappensKeepsValid(k: Key, e: Event, capacity: real, rate: real)
    requires rate > 0.0 && capacity > 0.0 && ValidKey(k, capacity) && (e.Acquire? ==> e.requested >= 0.0)
    ensures ValidKey(Happens(k, e, capacity, rate), capacity)
  {
    if e.Acquire? {
      hide Refilled;
      hide Ttl;
      var level, m := LevelOf(k.hash, capacity, k.clock), MultiplierOf(k.hash);
      RefillIsBounded(level.tokens, level.last, k.clock, capacity, rate, m);
      TimesMonotone(rate, 0.1, m);
      TtlIsPositive(capacity, Effective(rate, m));
    }
  }

  lemma TtlIsPositive(capacity: real, rate: real)
    requires rate > 0.0 && capacity > 0.0
    ensures Ttl(capacity, rate) >= 1
  {
    CeilBounds(capacity / rate);
    assert capacity / rate > 0.0;
  }

  function Run(k: Key, events: seq<Event>, capacity: real, rate: real): Key
    requires rate > 0.0 && capacity > 0.0 && ValidKey(k, capacity) && Requests(events)
    ensures ValidKey(Run(k, events, capacity, rate), capacity)
    decreases |events|
  {
    if events == [] then k
    else
      HappensKeepsValid(k, events[0], capacity, rate);
      Run(Happens(k, events[0], capacity, rate), events[1..], capacity, rate)
  }

  function Granted(k: Key, events: seq<Event>, capacity: real, rate: real): real
    requires rate > 0.0 && capacity > 0.0 && ValidKey(k, capacity) && Requests(events)
    decreases |events|
  {
    if events == [] then 0.0
    else
      HappensKeepsValid(k, events[0], capacity, rate);
      GrantedBy(k, events[0], capacity, rate) + Granted(Happens(k, events[0], capacity, rate), events[1..], capacity, rate)
  }

  function Forward(clock: real, events: seq<Event>): real
    decreases |events|
  {
    if events == [] then 0.0
    else ForwardBy(clock, events[0]) + Forward(if events[0].Tick? then events[0].to else clock, events[1..])
  }

  // ---------------------------------------------------------------- refill

  lemma RefillIsBounded(tokens: real, last: real, now: real, capacity: real, rate: real, multiplier: real)
    requires 0.0 <= tokens <= capacity && rate >= 0.0 && 0.0 <= multiplier <= 1.0
    ensures 0.0 <= Refilled(tokens, last, now, capacity, Effective(rate, multiplier)) <= Refilled(tokens, last, now, capacity, rate) <= capacity
  {
    var d := Max(0.0, now - last);
    assert rate * 1.0 == rate;
    TimesMonotone(rate, 0.0, multiplier);
    TimesMonotone(rate, multiplier, 1.0);
    TimesMonotone(d, 0.0, rate * multiplier);
    TimesMonotone(d, rate * multiplier, rate);
  }

  lemma RefillIsLipschitz(tokens: real, last: real, now: real, to: real, capacity: real, rate: real)
    requires rate >= 0.0
    ensures Refilled(tokens, last, to, capacity, rate) <= Refilled(tokens, last, now, capacity, rate) + rate * Max(0.0, to - now)
  {
    var d, e, f := Max(0.0, to - last), Max(0.0, now - last), Max(0.0, to - now);
    TimesMonotone(rate, d, e + f);
    Distributes(rate, e, f);
    TimesMonotone(rate, 0.0, f);
    assert d * rate == rate * d && e * rate == rate * e;
  }

  // ---------------------------------------------------------------- the window invariant

  /** What the key could hand out now if it refilled at the full rate. */
  function Headroom(hash: Option<Hash>, clock: real, capacity: real, rate: real): real {
    var level := LevelOf(hash, capacity, clock);
    Refilled(level.tokens, level.last, clock, capacity, rate)
  }

  /** `granted` tokens were handed out while the clock moved forward by `forward`; and should the key
      expire, the movement until then will have paid for all of them. */
  ghost predicate Paid(k: Key, capacity: real, rate: real, granted: real, forward: real) {
    && granted + Headroom(k.hash, k.clock, capacity, rate) <= capacity + rate * forward
    && (k.hash.Some? && k.hash.value.expireAt.Some? ==> granted <= rate * (forward + (k.hash.value.expireAt.value - k.clock)))
  }

  lemma FreshIsPaid(k: Key, capacity: real, rate: real)
    requires rate > 0.0 && capacity > 0.0 && ValidKey(k, capacity)
    ensures Paid(k, capacity, rate, 0.0, 0.0)
  {
    assert rate * 0.0 == 0.0;
    if k.hash.Some? && k.hash.value.expireAt.Some? {
      TimesMonotone(rate, 0.0, k.hash.value.expireAt.value - k.clock);
    }
  }

  lemma TickKeepsPaid(k: Key, to: real, capacity: real, rate: real, granted: real, forward: real)
    requires rate > 0.0 && capacity > 0.0 && ValidKey(k, capacity) && Paid(k, capacity, rate, granted, forward)
    ensures Paid(k.(clock := to, hash := Unexpired(k.hash, to)), capacity, rate, granted, forward + Max(0.0, to - k.clock))
  {
    hide Refilled;
    var f := Max(0.0, to - k.clock);
    Distributes(rate, forward, f);
    TimesMonotone(rate, 0.0, f);
    var level := LevelOf(k.hash, capacity, k.clock);
    RefillIsLipschitz(level.tokens, level.last, k.clock, to, capacity, rate);
    RefilledNow(capacity, to, capacity, rate);
    RefilledNow(capacity, k.clock, capacity, rate);
    if k.hash.Some? && k.hash.value.expireAt.Some? {
      var x := k.hash.value.expireAt.value;
      TimesMonotone(rate, forward + (x - k.clock), if x <= to then forward + f else (forward + f) + (x - to));
    }
  }

  lemma AcquireKeepsPaid(k: Key, requested: real, capacity: real, rate: real, granted: real, forward: real)
    requires rate > 0.0 && capacity > 0.0 && ValidKey(k, capacity) && Paid(k, capacity, rate, granted, forward) && requested >= 0.0
    ensures Paid(Happens(k, Acquire(requested), capacity, rate), capacity, rate,
                 granted + GrantedBy(k, Acquire(requested), capacity, rate), forward)
  {
    hide Refilled;
    hide Ttl;
    hide Effective;
    var level, m := LevelOf(k.hash, capacity, k.clock), MultiplierOf(k.hash);
    RefillIsBounded(level.tokens, level.last, k.clock, capacity, rate, m);
    var tokens := Refilled(level.tokens, level.last, k.clock, capacity, Effective(rate, m));
    if tokens >= requested {
      TtlPays(capacity, rate, m);
      var ttl := Ttl(capacity, Effective(rate, m)) as real;
      Distributes(rate, forward, ttl);
      RefilledNow(tokens - requested, k.clock, capacity, rate);
      var k' := Happens(k, Acquire(requested), capacity, rate);
      assert k'.hash.value.expireAt.value == k.clock + ttl;
      assert forward + (k'.hash.value.expireAt.value - k'.clock) == forward + ttl;
    } else {
      RefilledNow(tokens, k.clock, capacity, rate);
    }
  }

  lemma TtlPays(capacity: real, rate: real, m: real)
    requires rate > 0.0 && capacity > 0.0 && 0.0 < m <= 1.0
    ensures Effective(rate, m) > 0.0
    ensures rate * Ttl(capacity, Effective(rate, m)) as real >= capacity
  {
    TtlCoversRefill(capacity, Effective(rate, m));
    TtlIsPositive(capacity, Effective(rate, m));
    var ttl := Ttl(capacity, Effective(rate, m)) as real;
    TimesMonotone(rate, m, 1.0);
    TimesMonotone(ttl, rate * m, rate);
    assert ttl * rate == rate * ttl && ttl * (rate * m) == (rate * m) * ttl;
  }

  lemma EventKeepsPaid(k: Key, e: Event, capacity: real, rate: real, granted: real, forward: real)
    requires rate > 0.0 && capacity > 0.0 && ValidKey(k, capacity) && Paid(k, capacity, rate, granted, forward)
    requires e.Acquire? ==> e.requested >= 0.0
    ensures Paid(Happens(k, e, capacity, rate), capacity, rate,
                 granted + GrantedBy(k, e, capacity, rate), forward + ForwardBy(k.clock, e))
  {
    match e
    case Tick(to) => TickKeepsPaid(k, to, capacity, rate, granted, forward);
    case Acquire(requested) => AcquireKeepsPaid(k, requested, capacity, rate, granted, forward);
    case Read429(w) =>
    case Write429(w) =>
  }

  lemma {:induction false} RunKeepsPaid(k: Key, events: seq<Event>, capacity: real, rate: real, granted: real, forward: real)
    requires rate > 0.0 && capacity > 0.0 && ValidKey(k, capacity) && Requests(events) && Paid(k, capacity, rate, granted, forward)
    ensures Paid(Run(k, events, capacity, rate), capacity, rate,
                 granted + Granted(k, events, capacity, rate), forward + Forward(k.clock, events))
    decreases |events|
  {
    if events != [] {
      var e := events[0];
      HappensKeepsValid(k, e, capacity, rate);
      EventKeepsPaid(k, e, capacity, rate, granted, forward);
      RunKeepsPaid(Happens(k, e, capacity, rate), events[1..], capacity, rate,
                   granted + GrantedBy(k, e, capacity, rate), forward + ForwardBy(k.clock, e));
    }
  }

  /** The rate bound of the Redis bucket: starting from an unused key, after anything that happened
      `before`, whatever happens `during` any further stretch grants at most the capacity plus the
      rate times the forward movement of the clock.  The level stays between zero and the capacity and
      the multiplier between 0.1 and 1 (`ValidKey`). */
  lemma RedisRateBound(start: real, before: seq<Event>, during: seq<Event>, capacity: real, rate: real)
    requires rate > 0.0 && capacity > 0.0 && Requests(before) && Requests(during)
    ensures var k := Run(Key(start, None, map[]), before, capacity, rate);
            && ValidKey(k, capacity)
            && Granted(k, during, capacity, rate) <= capacity + rate * Forward(k.clock, during)
  {
    hide Refilled;
    hide Run;
    hide Granted;
    hide Forward;
    var k := Run(Key(start, None, map[]), before, capacity, rate);
    FreshIsPaid(k, capacity, rate);
    RunKeepsPaid(k, during, capacity, rate, 0.0, 0.0);
    var k' := Run(k, during, capacity, rate);
    var level := LevelOf(k'.hash, capacity, k'.clock);
    RefillIsBounded(level.tokens, level.last, k'.clock, capacity, rate, 1.0);
    var g, f := Granted(k, during, capacity, rate), Forward(k.clock, during);
    assert 0.0 + g <= capacity + rate * (0.0 + f);
  }

  // ---------------------------------------------------------------- runs of the in-process bucket

  datatype LocalEvent = LocalTick(to: real) | LocalTry(requested: real) | Local429

  datatype LocalKey = LocalKey(clock: real, bucket: Option<Bucket>)

  ghost predicate ValidLocal(k: LocalKey, capacity: real) {
    k.bucket.Some? ==> 0.0 <= k.bucket.value.tokens <= capacity && InUnit(k.bucket.value.multiplier)
  }

  function LocalHappens(k: LocalKey, e: LocalEvent, capacity: real, rate: real): LocalKey {
    match e
    case LocalTick(to) => k.(clock := to)
    case LocalTry(requested) => k.(bucket := Some(LocalAcquire(k.bucket, capacity, rate, k.clock, requested).0))
    case Local429 => k.(bucket := Some(LocalReport(k.bucket, k.clock)))
  }

  function LocalGrantedBy(k: LocalKey, e: LocalEvent, capacity: real, rate: real): real {
    if e.LocalTry? && LocalAcquire(k.bucket, capacity, rate, k.clock, e.requested).1 then e.requested else 0.0
  }

  function LocalForwardBy(clock: real, e: LocalEvent): real {
    if e.LocalTick? then Max(0.0, e.to - clock) else 0.0
  }

  function LocalRun(k: LocalKey, events: seq<LocalEvent>, capacity: real, rate: real): LocalKey
    decreases |events|
  {
    if events == [] then k else LocalRun(LocalHappens(k, events[0], capacity, rate), events[1..], capacity, rate)
  }

  function LocalGranted(k: LocalKey, events: seq<LocalEvent>, capacity: real, rate: real): real
    decreases |events|
  {
    if events == [] then 0.0
    else LocalGrantedBy(k, events[0], capacity, rate) + LocalGranted(LocalHappens(k, events[0], capacity, rate), events[1..], capacity, rate)
  }

  function LocalForward(clock: real, events: seq<LocalEvent>): real
    decreases |events|
  {
    if events == [] then 0.0
    else LocalForwardBy(clock, events[0]) + LocalForward(if events[0].LocalTick? then events[0].to else clock, events[1..])
  }

  ghost predicate LocalRequests(events: seq<LocalEvent>) {
    forall i :: 0 <= i < |events| && events[i].LocalTry? ==> events[i].requested >= 0.0
  }

  function LocalHeadroom(k: LocalKey, capacity: real, rate: real): real {
    match k.bucket
    case None => capacity
    case Some(b) => Refilled(b.tokens, b.last, k.clock, capacity, rate)
  }

  ghost predicate LocalPaid(k: LocalKey, capacity: real, rate: real, granted: real, forward: real) {
    ValidLocal(k, capacity) && granted + LocalHeadroom(k, capacity, rate) <= capacity + rate * forward
  }

  lemma LocalEventKeepsPaid(k: LocalKey, e: LocalEvent, capacity: real, rate: real, granted: real, forward: real)
    requires rate > 0.0 && capacity > 0.0 && LocalPaid(k, capacity, rate, granted, forward)
    requires e.LocalTry? ==> e.requested >= 0.0
    ensures LocalPaid(LocalHappens(k, e, capacity, rate), capacity, rate,
                      granted + LocalGrantedBy(k, e, capacity, rate), forward + LocalForwardBy(k.clock, e))
  {
    hide Refilled;
    hide Effective;
    match e
    case LocalTick(to) =>
      var f := Max(0.0, to - k.clock);
      Distributes(rate, forward, f);
      TimesMonotone(rate, 0.0, f);
      if k.bucket.Some? {
        RefillIsLipschitz(k.bucket.value.tokens, k.bucket.value.last, k.clock, to, capacity, rate);
      }
    case LocalTry(requested) =>
      var b := BucketOf(k.bucket, capacity, k.clock);
      RefillIsBounded(b.tokens, b.last, k.clock, capacity, rate, b.multiplier);
      var tokens := Refilled(b.tokens, b.last, k.clock, capacity, Effective(rate, b.multiplier));
      RefilledNow(tokens, k.clock, capacity, rate);
      if tokens >= requested { RefilledNow(tokens - requested, k.clock, capacity, rate); }
      RefilledNow(capacity, k.clock, capacity, rate);
    case Local429 =>
      RefilledNow(0.0, k.clock, capacity, rate);
  }

  lemma {:induction false} LocalRunKeepsPaid(k: LocalKey, events: seq<LocalEvent>, capacity: real, rate: real, granted: real, forward: real)
    requires rate > 0.0 && capacity > 0.0 && LocalRequests(events) && LocalPaid(k, capacity, rate, granted, forward)
    ensures LocalPaid(LocalRun(k, events, capacity, rate), capacity, rate,
                      granted + LocalGranted(k, events, capacity, rate), forward + LocalForward(k.clock, events))
    decreases |events|
  {
    if events != [] {
      var e := events[0];
      LocalEventKeepsPaid(k, e, capacity, rate, granted, forward);
      LocalRunKeepsPaid(LocalHappens(k, e, capacity, rate), events[1..], capacity, rate,
                        granted + LocalGrantedBy(k, e, capacity, rate), forward + LocalForwardBy(k.clock, e));
    }
  }

  /** The rate bound of the in-process bucket, with the same invariants. */
  lemma LocalRateBound(start: real, before: seq<LocalEvent>, during: seq<LocalEvent>, capacity: real, rate: real)
    requires rate > 0.0 && capacity > 0.0 && LocalRequests(before) && LocalRequests(during)
    ensures var k := LocalRun(LocalKey(start, None), before, capacity, rate);
            && ValidLocal(k, capacity)
            && LocalGranted(k, during, capacity, rate) <= capacity + rate * LocalForward(k.clock, during)
  {
    hide Refilled;
    hide LocalRun;
    hide LocalGranted;
    hide LocalForward;
    assert rate * 0.0 == 0.0;
    LocalRunKeepsPaid(LocalKey(start, None), before, capacity, rate, 0.0, 0.0);
    var k := LocalRun(LocalKey(start, None), before, capacity, rate);
    LocalHeadroomIsBounded(k, capacity, rate);
    LocalRunKeepsPaid(k, during, capacity, rate, 0.0, 0.0);
    LocalHeadroomIsBounded(LocalRun(k, during, capacity, rate), capacity, rate);
  }

  lemma LocalHeadroomIsBounded(k: LocalKey, capacity: real, rate: real)
    requires rate > 0.0 && capacity > 0.0 && ValidLocal(k, capacity)
    ensures 0.0 <= LocalHeadroom(k, capacity, rate) <= capacity
  {
    assert rate * 1.0 == rate;
    if k.bucket.Some? {
      RefillIsBounded(k.bucket.value.tokens, k.bucket.value.last, k.clock, capacity, rate, 1.0);
    }
  }
}
