/** One shared bucket of either backend, with the operations and the payment invariant in common. */
module SharedBuckets {
  import opened Wrappers
  import opened TokenBucket
  import opened RateBound

  datatype Shared = InRedis(key: Key) | InProcess(entry: LocalKey)

  /** A bucket that has never been used. */
  function Unused(local: bool, clock: real): Shared {
    if local then InProcess(LocalKey(clock, None)) else InRedis(Key(clock, None, map[]))
  }

  function ClockOf(b: Shared): real {
    if b.InRedis? then b.key.clock else b.entry.clock
  }

  ghost predicate ValidShared(b: Shared, rate: real) {
    match b
    case InRedis(k) => ValidKey(k, rate)
    case InProcess(k) => ValidLocal(k, rate)
  }

  /** The script divides by the effective rate. */
  predicate CanAsk(b: Shared) {
    b.InRedis? ==> PositiveMultiplier(b.key.hash)
  }

  function Moved(b: Shared, to: real): Shared {
    match b
    case InRedis(k) => InRedis(k.(clock := to, hash := Unexpired(k.hash, to)))
    case InProcess(k) => InProcess(k.(clock := to))
  }

  /** The bucket is asked for one token. */
  function Ask(b: Shared, rate: real): (Shared, bool)
    requires rate > 0.0 && CanAsk(b)
  {
    match b
    case InRedis(k) =>
      var (h, granted) := LuaAcquire(k.hash, rate, rate, k.clock, 1.0);
      (InRedis(k.(hash := Some(h))), granted)
    case InProcess(k) =>
      var (e, granted) := LocalAcquire(k.bucket, rate, rate, k.clock, 1.0);
      (InProcess(k.(bucket := Some(e))), granted)
  }

  /** A worker that reports a 429 first reads the multiplier from Redis ... */
  function ReadBy(b: Shared, worker: nat): Shared {
    match b
    case InRedis(k) => InRedis(k.(pending := k.pending[worker := MultiplierOf(k.hash)]))
    case InProcess(_) => b
  }

  /** ... and later writes half of what it has read; in process both are one step. */
  function WrittenBy(b: Shared, worker: nat): Shared {
    match b
    case InRedis(k) =>
      if worker in k.pending then InRedis(k.(hash := Some(LuaSetMultiplier(k.hash, Halved(k.pending[worker]))))) else b
    case InProcess(k) => InProcess(k.(bucket := Some(LocalReport(k.bucket, k.clock))))
  }

  // ---------------------------------------------------------------- every operation keeps it valid

  lemma UnusedIsValid(local: bool, clock: real, rate: real)
    ensures ValidShared(Unused(local, clock), rate) && ClockOf(Unused(local, clock)) == clock
  {}

  lemma ValidCanAsk(b: Shared, rate: real)
    requires ValidShared(b, rate)
    ensures CanAsk(b)
  {}

  lemma MovedIsValid(b: Shared, to: real, rate: real)
    requires ValidShared(b, rate)
    ensures ValidShared(Moved(b, to), rate) && ClockOf(Moved(b, to)) == to
  {}

  lemma AskedIsValid(b: Shared, rate: real)
    requires rate > 0.0 && ValidShared(b, rate) && CanAsk(b)
    ensures ValidShared(Ask(b, rate).0, rate) && ClockOf(Ask(b, rate).0) == ClockOf(b)
  {
    match b
    case InRedis(k) => HappensKeepsValid(k, Acquire(1.0), rate, rate);
    case InProcess(k) =>
      var e := BucketOf(k.bucket, rate, k.clock);
      RefillIsBounded(e.tokens, e.last, k.clock, rate, rate, e.multiplier);
      hide Refilled;
  }

  lemma ReportIsValid(b: Shared, worker: nat, rate: real)
    requires rate >= 0.0 && ValidShared(b, rate)
    ensures ValidShared(ReadBy(b, worker), rate) && ClockOf(ReadBy(b, worker)) == ClockOf(b)
    ensures ValidShared(WrittenBy(b, worker), rate) && ClockOf(WrittenBy(b, worker)) == ClockOf(b)
  {}

  // ---------------------------------------------------------------- every operation keeps it paid for

  /** `granted` tokens are paid for by the capacity and `forward` seconds of refill. */
  ghost predicate IsPaid(b: Shared, rate: real, granted: real, forward: real) {
    match b
    case InRedis(k) => Paid(k, rate, rate, granted, forward)
    case InProcess(k) => LocalPaid(k, rate, rate, granted, forward)
  }

  lemma NothingIsPaid(b: Shared, rate: real)
    requires rate > 0.0 && ValidShared(b, rate)
    ensures IsPaid(b, rate, 0.0, 0.0)
  {
    match b
    case InRedis(k) => FreshIsPaid(k, rate, rate);
    case InProcess(k) =>
      LocalHeadroomIsBounded(k, rate, rate);
      TimesZero(rate, 0.0);
  }

  lemma PaidGrows(b: Shared, rate: real, granted: real, forward: real, further: real)
    requires rate > 0.0 && forward <= further && IsPaid(b, rate, granted, forward)
    ensures IsPaid(b, rate, granted, further)
  {
    hide Headroom;
    hide LocalHeadroom;
    TimesMonotone(rate, forward, further);
    if b.InRedis? && b.key.hash.Some? && b.key.hash.value.expireAt.Some? {
      var rest := b.key.hash.value.expireAt.value - b.key.clock;
      TimesMonotone(rate, forward + rest, further + rest);
    }
  }

  lemma PaidIsBounded(b: Shared, rate: real, granted: real, forward: real)
    requires rate > 0.0 && ValidShared(b, rate) && IsPaid(b, rate, granted, forward)
    ensures granted <= rate * (1.0 + forward)
  {
    Distributes(rate, 1.0, forward);
    match b
    case InRedis(k) =>
      var level := LevelOf(k.hash, rate, k.clock);
      RefillIsBounded(level.tokens, level.last, k.clock, rate, rate, 1.0);
      hide Refilled;
    case InProcess(k) =>
      LocalHeadroomIsBounded(k, rate, rate);
      hide LocalHeadroom;
  }

  lemma MovedIsPaid(b: Shared, to: real, rate: real, granted: real, forward: real)
    requires rate > 0.0 && ValidShared(b, rate) && IsPaid(b, rate, granted, forward) && ClockOf(b) <= to
    ensures IsPaid(Moved(b, to), rate, granted, forward + (to - ClockOf(b)))
  {
    match b
    case InRedis(k) => TickKeepsPaid(k, to, rate, rate, granted, forward);
    case InProcess(k) => LocalEventKeepsPaid(k, LocalTick(to), rate, rate, granted, forward);
  }

  lemma AskedIsPaid(b: Shared, rate: real, granted: real, forward: real)
    requires rate > 0.0 && ValidShared(b, rate) && CanAsk(b) && IsPaid(b, rate, granted, forward)
    ensures var (b', yes) := Ask(b, rate); IsPaid(b', rate, granted + if yes then 1.0 else 0.0, forward)
  {
    match b
    case InRedis(k) => AcquireKeepsPaid(k, 1.0, rate, rate, granted, forward);
    case InProcess(k) => LocalEventKeepsPaid(k, LocalTry(1.0), rate, rate, granted, forward);
  }

  /** A report leaves the level and the expiry alone, or empties an unused bucket in process. */
  lemma ReportIsPaid(b: Shared, worker: nat, rate: real, granted: real, forward: real)
    requires rate > 0.0 && IsPaid(b, rate, granted, forward)
    ensures IsPaid(ReadBy(b, worker), rate, granted, forward) && IsPaid(WrittenBy(b, worker), rate, granted, forward)
  {
    match b
    case InRedis(k) => hide Refilled;
    case InProcess(k) => LocalEventKeepsPaid(k, Local429, rate, rate, granted, forward);
  }
}
