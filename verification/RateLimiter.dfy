/** The rate limiter as an object: the server-side buckets, the in-process buckets, and the polling loop
    that charges several buckets in a row. */
module RateLimiter {
  import opened Wrappers
  import opened TokenBucket
  import RateBound
  import opened SharedBuckets
  import opened Admission

  // ---------------------------------------------------------------- specification on values

  /** Both backends as values; `scripting` says which one is in use. */
  datatype Backend = Backend(scripting: bool, hashes: map<BucketName, Hash>, buckets: map<BucketName, Bucket>)

  function Lookup<T>(m: map<BucketName, T>, name: BucketName): Option<T> {
    if name in m then Some(m[name]) else None
  }

  predicate ValidHashes(hashes: map<BucketName, Hash>) {
    forall b :: b in hashes ==> MultiplierOf(Some(hashes[b])) > 0.0
  }

  /** One bucket is asked for `requested` tokens at `now`. */
  function Asked(s: Backend, name: BucketName, rate: real, requested: real, now: real): (Backend, bool)
    requires rate > 0.0 && ValidHashes(s.hashes)
  {
    if s.scripting then
      var (h, granted) := LuaAcquire(Unexpired(Lookup(s.hashes, name), now), rate, rate, now, requested);
      (s.(hashes := s.hashes[name := h]), granted)
    else
      var (b, granted) := LocalAcquire(Lookup(s.buckets, name), rate, rate, now, requested);
      (s.(buckets := s.buckets[name := b]), granted)
  }

  lemma AskedKeepsValid(s: Backend, name: BucketName, rate: real, requested: real, now: real)
    requires rate > 0.0 && ValidHashes(s.hashes)
    ensures ValidHashes(Asked(s, name, rate, requested, now).0.hashes)
  {}

  ghost predicate PositiveRates(l: Limits, names: seq<BucketName>) {
    forall i :: 0 <= i < |names| ==> RateOf(l, names[i]) > 0.0
  }

  /** One pass over the buckets from index `i` on, the ask of bucket `j` happening at `at(j)`: the state
      it leaves behind and how many buckets have granted. */
  function Pass(s: Backend, l: Limits, names: seq<BucketName>, requested: real, at: nat -> real, i: nat): (r: (Backend, nat))
    requires i <= |names| && PositiveRates(l, names) && ValidHashes(s.hashes)
    ensures ValidHashes(r.0.hashes) && i <= r.1 <= |names|
    decreases |names| - i
  {
    if i == |names| then (s, i)
    else
      var (s', granted) := Asked(s, names[i], RateOf(l, names[i]), requested, at(i));
      AskedKeepsValid(s, names[i], RateOf(l, names[i]), requested, at(i));
      if granted then Pass(s', l, names, requested, at, i + 1) else (s', i)
  }

  /** The clock as the loop reads it: `clock(k, 0)` at the top of pass `k` and `clock(k, i + 1)` at the
      ask of bucket `i`.  It never steps back, and the sleep between passes takes a tenth of a second. */
  ghost predicate SleepsBetween(clock: (nat, nat) -> real, n: nat) {
    && (forall k: nat, i: nat :: i < n ==> clock(k, i) <= clock(k, i + 1))
    && (forall k: nat {:trigger clock(k + 1, 0)} :: clock(k, n) + 0.1 <= clock(k + 1, 0))
  }

  /** The times of the asks of pass `k`. */
  function AsksOf(clock: (nat, nat) -> real, k: nat): nat -> real {
    (i: nat) => clock(k, i + 1)
  }

  /** Passes from number `k` on until one succeeds or the time is up. */
  ghost function Passes(s: Backend, l: Limits, names: seq<BucketName>, requested: real, clock: (nat, nat) -> real, timeout: real, k: nat): (r: (Backend, bool))
    requires PositiveRates(l, names) && ValidHashes(s.hashes) && SleepsBetween(clock, |names|)
    ensures ValidHashes(r.0.hashes)
    decreases (timeout - (clock(k, 0) - clock(0, 0))) * 10.0
  {
    if clock(k, 0) - clock(0, 0) >= timeout then (s, false)
    else
      var (s', charged) := Pass(s, l, names, requested, AsksOf(clock, k), 0);
      if charged == |names| then (s', true)
      else
        ClockAdvances(clock, |names|, k, |names|);
        Passes(s', l, names, requested, clock, timeout, k + 1)
  }

  lemma {:induction false} ClockAdvances(clock: (nat, nat) -> real, n: nat, k: nat, i: nat)
    requires SleepsBetween(clock, n) && i <= n
    ensures clock(k, 0) <= clock(k, i)
    ensures clock(k, 0) <= clock(k, n)
    decreases n - i, i
  {
    var j := 0;
    while j < n
      invariant j <= n && clock(k, 0) <= clock(k, j) && (i <= j ==> clock(k, 0) <= clock(k, i))
    {
      j := j + 1;
    }
  }

  // ---------------------------------------------------------------- what a pass does to every bucket

  /** What both backends hold for one bucket. */
  function EntryOf(s: Backend, name: BucketName): (Option<Hash>, Option<Bucket>) {
    (Lookup(s.hashes, name), Lookup(s.buckets, name))
  }

  /** The ask of bucket `i` of the list, were it the only one: what it leaves of that bucket, and the answer. */
  ghost function AskedAlone(s: Backend, l: Limits, names: seq<BucketName>, requested: real, at: nat -> real, i: nat): ((Option<Hash>, Option<Bucket>), bool)
    requires PositiveRates(l, names) && ValidHashes(s.hashes) && i < |names|
  {
    var (s', granted) := Asked(s, names[i], RateOf(l, names[i]), requested, at(i));
    (EntryOf(s', names[i]), granted)
  }

  /** From `s` to `s'` the buckets from index `i` on are asked once each up to the first that denies, which is
      number `n`; no other bucket is touched, and all bear their part when `n` is the number of buckets. */
  ghost predicate IsPass(s: Backend, s': Backend, l: Limits, names: seq<BucketName>, requested: real, at: nat -> real, i: nat, n: nat) {
    && PositiveRates(l, names) && ValidHashes(s.hashes) && i <= n <= |names| && s'.scripting == s.scripting
    && (forall j :: i <= j < n ==> AskedAlone(s, l, names, requested, at, j) == (EntryOf(s', names[j]), true))
    && (n < |names| ==> AskedAlone(s, l, names, requested, at, n) == (EntryOf(s', names[n]), false))
    && (forall b :: (forall j :: i <= j < |names| && j <= n ==> names[j] != b) ==> EntryOf(s', b) == EntryOf(s, b))
  }

  ghost predicate AreDistinct(names: seq<BucketName>) {
    forall i, j :: 0 <= i < j < |names| ==> names[i] != names[j]
  }

  /** An ask leaves the other buckets alone. */
  lemma OthersStay(s: Backend, name: BucketName, other: BucketName, rate: real, requested: real, now: real)
    requires rate > 0.0 && ValidHashes(s.hashes) && other != name
    ensures var s' := Asked(s, name, rate, requested, now).0; s'.scripting == s.scripting && EntryOf(s', other) == EntryOf(s, other)
  {
    hide LuaAcquire, LocalAcquire;
  }

  /** An ask depends on its own bucket only. */
  lemma AskIsLocal(s: Backend, t: Backend, l: Limits, names: seq<BucketName>, requested: real, at: nat -> real, i: nat)
    requires PositiveRates(l, names) && ValidHashes(s.hashes) && ValidHashes(t.hashes) && i < |names|
    requires s.scripting == t.scripting && EntryOf(s, names[i]) == EntryOf(t, names[i])
    ensures AskedAlone(s, l, names, requested, at, i) == AskedAlone(t, l, names, requested, at, i)
  {
    hide LuaAcquire, LocalAcquire, RateOf;
  }

  lemma {:induction false} PassIsPass(s: Backend, l: Limits, names: seq<BucketName>, requested: real, at: nat -> real, i: nat)
    requires i <= |names| && PositiveRates(l, names) && AreDistinct(names) && ValidHashes(s.hashes)
    ensures var (s', n) := Pass(s, l, names, requested, at, i); IsPass(s, s', l, names, requested, at, i, n)
    decreases |names| - i
  {
    if i < |names| {
      var (t, granted) := Asked(s, names[i], RateOf(l, names[i]), requested, at(i));
      AskedKeepsValid(s, names[i], RateOf(l, names[i]), requested, at(i));
      forall b | b != names[i] ensures t.scripting == s.scripting && EntryOf(t, b) == EntryOf(s, b) {
        OthersStay(s, names[i], b, RateOf(l, names[i]), requested, at(i));
      }
      assert AskedAlone(s, l, names, requested, at, i) == (EntryOf(t, names[i]), granted);
      if granted {
        PassIsPass(t, l, names, requested, at, i + 1);
        var (s', n) := Pass(t, l, names, requested, at, i + 1);
        assert Pass(s, l, names, requested, at, i) == (s', n);
        hide Pass, Asked;
        OneMoreAsked(s, t, s', l, names, requested, at, i, n);
      }
    }
  }

  lemma OneMoreAsked(s: Backend, t: Backend, s': Backend, l: Limits, names: seq<BucketName>, requested: real, at: nat -> real, i: nat, n: nat)
    requires i < |names| && PositiveRates(l, names) && AreDistinct(names) && ValidHashes(s.hashes) && t.scripting == s.scripting
    requires AskedAlone(s, l, names, requested, at, i) == (EntryOf(t, names[i]), true)
    requires forall b :: b != names[i] ==> EntryOf(t, b) == EntryOf(s, b)
    requires IsPass(t, s', l, names, requested, at, i + 1, n)
    ensures IsPass(s, s', l, names, requested, at, i, n)
  {
    forall j | i < j < |names| ensures AskedAlone(s, l, names, requested, at, j) == AskedAlone(t, l, names, requested, at, j) {
      AskIsLocal(s, t, l, names, requested, at, j);
    }
    hide AskedAlone, EntryOf, RateOf, ValidHashes;
    assert EntryOf(s', names[i]) == EntryOf(t, names[i]);
  }

  // ---------------------------------------------------------------- what a call does

  /** A pass begun in time that stops at a denial and leaves its charges behind. */
  ghost predicate IsFailedPass(s: Backend, s': Backend, l: Limits, names: seq<BucketName>, requested: real, clock: (nat, nat) -> real, timeout: real, k: nat) {
    && clock(k, 0) - clock(0, 0) < timeout
    && exists n: nat :: n < |names| && IsPass(s, s', l, names, requested, AsksOf(clock, k), 0, n)
  }

  /** How a call ends at the top of pass `k`: with true when this pass begins in time and every bucket grants,
      with false when the time is up. */
  ghost predicate EndsAt(s: Backend, final: Backend, l: Limits, names: seq<BucketName>, requested: real, clock: (nat, nat) -> real, timeout: real, k: nat, ok: bool) {
    if ok then clock(k, 0) - clock(0, 0) < timeout && IsPass(s, final, l, names, requested, AsksOf(clock, k), 0, |names|)
    else clock(k, 0) - clock(0, 0) >= timeout && final == s
  }

  /** `tops` are the states at the top of pass `k` and the ones after it, up to the end of the call. */
  ghost predicate IsCall(tops: seq<Backend>, final: Backend, l: Limits, names: seq<BucketName>, requested: real, clock: (nat, nat) -> real, timeout: real, k: nat, ok: bool) {
    && 0 < |tops|
    && (forall m :: 0 <= m < |tops| - 1 ==> IsFailedPass(tops[m], tops[m + 1], l, names, requested, clock, timeout, k + m))
    && EndsAt(tops[|tops| - 1], final, l, names, requested, clock, timeout, k + |tops| - 1, ok)
  }

  /** A call is answered with true exactly when a single pass begun in time has charged every bucket of its
      list, each once and no other.  Every pass before it has charged a proper part of the list, up to the
      first bucket that denies. */
  lemma {:induction false} CallEndsAtFirstFullPass(s: Backend, l: Limits, names: seq<BucketName>, requested: real, clock: (nat, nat) -> real, timeout: real, k: nat)
      returns (tops: seq<Backend>)
    requires PositiveRates(l, names) && AreDistinct(names) && ValidHashes(s.hashes) && SleepsBetween(clock, |names|)
    ensures var (final, ok) := Passes(s, l, names, requested, clock, timeout, k);
            IsCall(tops, final, l, names, requested, clock, timeout, k, ok) && tops[0] == s
    decreases (timeout - (clock(k, 0) - clock(0, 0))) * 10.0
  {
    hide Pass, IsPass;
    var (s', n) := Pass(s, l, names, requested, AsksOf(clock, k), 0);
    PassIsPass(s, l, names, requested, AsksOf(clock, k), 0);
    tops := [s];
    if clock(k, 0) - clock(0, 0) < timeout && n < |names| {
      PassTakesTime(clock, |names|, k);
      var more := CallEndsAtFirstFullPass(s', l, names, requested, clock, timeout, k + 1);
      var (final, ok) := Passes(s, l, names, requested, clock, timeout, k);
      assert Passes(s', l, names, requested, clock, timeout, k + 1) == (final, ok);
      assert IsFailedPass(s, s', l, names, requested, clock, timeout, k);
      tops := [s] + more;
      hide *;
      OneMorePass(s, s', more, final, l, names, requested, clock, timeout, k, ok);
    }
  }

  lemma OneMorePass(s: Backend, s': Backend, more: seq<Backend>, final: Backend, l: Limits, names: seq<BucketName>, requested: real, clock: (nat, nat) -> real, timeout: real, k: nat, ok: bool)
    requires IsFailedPass(s, s', l, names, requested, clock, timeout, k)
    requires IsCall(more, final, l, names, requested, clock, timeout, k + 1, ok) && more[0] == s'
    ensures IsCall([s] + more, final, l, names, requested, clock, timeout, k, ok)
  {
    hide IsFailedPass, EndsAt;
    var tops := [s] + more;
    forall m | 0 <= m < |tops| - 1 ensures IsFailedPass(tops[m], tops[m + 1], l, names, requested, clock, timeout, k + m) {
      if m > 0 {
        assert IsFailedPass(more[m - 1], more[m], l, names, requested, clock, timeout, k + 1 + (m - 1));
        assert k + 1 + (m - 1) == k + m;
      }
    }
    assert k + 1 + |more| - 1 == k + |tops| - 1;
  }

  lemma PassTakesTime(clock: (nat, nat) -> real, n: nat, k: nat)
    requires SleepsBetween(clock, n)
    ensures clock(k, 0) + 0.1 <= clock(k + 1, 0)
  {
    ClockAdvances(clock, n, k, n);
  }

  // ---------------------------------------------------------------- the shared system

  /** The hashes and the entries in a state of the shared system. */
  function HashesOf(keys: map<BucketName, Shared>): map<BucketName, Hash> {
    map b | b in keys && keys[b].InRedis? && keys[b].key.hash.Some? :: keys[b].key.hash.value
  }

  function EntriesOf(keys: map<BucketName, Shared>): map<BucketName, Bucket> {
    map b | b in keys && keys[b].InProcess? && keys[b].entry.bucket.Some? :: keys[b].entry.bucket.value
  }

  ghost function BackendOf(s: System): (r: Backend)
    ensures ValidKeys(s) ==> ValidHashes(r.hashes)
  {
    assert ValidKeys(s) ==> forall b :: b in s.keys ==> IsInPlace(s, b);
    Backend(!s.local, HashesOf(s.keys), EntriesOf(s.keys))
  }

  lemma HashSet(keys: map<BucketName, Shared>, b: BucketName, k: RateBound.Key, h: Hash)
    requires b in keys ==> keys[b].InRedis?
    ensures var keys' := keys[b := InRedis(k.(hash := Some(h)))];
            HashesOf(keys') == HashesOf(keys)[b := h] && EntriesOf(keys') == EntriesOf(keys)
  {}

  lemma EntrySet(keys: map<BucketName, Shared>, b: BucketName, k: RateBound.LocalKey, e: Bucket)
    requires b in keys ==> keys[b].InProcess?
    ensures var keys' := keys[b := InProcess(k.(bucket := Some(e)))];
            HashesOf(keys') == HashesOf(keys) && EntriesOf(keys') == EntriesOf(keys)[b := e]
  {}

  /** Asking one bucket of the system is asking it in the backend. */
  lemma AskInBackend(s: System, s': System, b: BucketName, rate: real)
    requires rate > 0.0 && ValidHashes(BackendOf(s).hashes)
    requires CanAsk(KeyOf(s, b)) && ClockOf(KeyOf(s, b)) == s.clock && KeyOf(s, b).InProcess? == s.local
    requires s.local || Unexpired(KeyOf(s, b).key.hash, s.clock) == KeyOf(s, b).key.hash
    requires s'.local == s.local && s'.keys == s.keys[b := Ask(KeyOf(s, b), rate).0]
    ensures Asked(BackendOf(s), b, rate, 1.0, s.clock) == (BackendOf(s'), Ask(KeyOf(s, b), rate).1)
  {
    var k := KeyOf(s, b);
    hide LuaAcquire;
    hide LocalAcquire;
    if s.local {
      assert Lookup(EntriesOf(s.keys), b) == k.entry.bucket;
      EntrySet(s.keys, b, k.entry, LocalAcquire(k.entry.bucket, rate, rate, s.clock, 1.0).0);
    } else {
      assert Lookup(HashesOf(s.keys), b) == k.key.hash;
      HashSet(s.keys, b, k.key, LuaAcquire(k.key.hash, rate, rate, s.clock, 1.0).0);
    }
    hide HashesOf;
    hide EntriesOf;
  }

  /** One ask of the loop is one charging step of the shared system, whichever backend is in use: it changes
      the same bucket in the same way and is granted exactly when the step stays in its pass. */
  lemma AskIsCharge(s: System, c: nat)
    requires IsReady(s, Charging(c))
    ensures var b, s' := s.attempts[c].buckets[s.attempts[c].charged], Next(s, Charging(c));
            Asked(BackendOf(s), b, RateOf(s.limits, b), 1.0, s.clock) == (BackendOf(s'), s'.passes == s.passes)
  {
    var b, s' := s.attempts[c].buckets[s.attempts[c].charged], Next(s, Charging(c));
    KeyIsValid(s, b);
    hide Asked, BackendOf, RateOf, KeyOf, Ask;
    AskInBackend(s, s', b, RateOf(s.limits, b));
  }

  // ---------------------------------------------------------------- objects

  /** The key as it is at `now`: missing when it was never set, or when its expiry has come. */
  function LiveKey(hashes: map<BucketName, Hash>, name: BucketName, now: real): Option<Hash> {
    if name in hashes && (hashes[name].expireAt.Some? ==> now < hashes[name].expireAt.value) then Some(hashes[name]) else None
  }

  /** Nothing but `name` is written. */
  ghost predicate OnlyWrites<T>(before: map<BucketName, T>, after: map<BucketName, T>, name: BucketName) {
    after.Keys == before.Keys + {name} && forall b :: b in before && b != name ==> after[b] == before[b]
  }

  ghost predicate IsScriptRun(key: Option<Hash>, h: Hash, rate: real, requested: real, now: real, granted: bool) {
    h.multiplier.Some? && RunsAtPace(key, h, rate, Effective(rate, h.multiplier.value), requested, now, granted)
  }

  /** One run of the script turns `key` into `h`: it grants exactly when the refilled tokens suffice, and takes
      what it grants.  A missing key starts full and at full rate.  A grant sets the expiry to twice the time,
      in full seconds, that the slowed rate `pace` takes to fill the bucket; a denial keeps the expiry a live key has
      and gives a missing key none. */
  ghost predicate RunsAtPace(key: Option<Hash>, h: Hash, rate: real, pace: real, requested: real, now: real, granted: bool) {
    && h.level.Some? && h.level.value.last == now
    && h.multiplier == Some(if key.Some? && key.value.multiplier.Some? then key.value.multiplier.value else 1.0)
    && var tokens := h.level.value.tokens + if granted then requested else 0.0;
    && tokens == (if key.None? || key.value.level.None? then rate
                  else Min(rate, key.value.level.value.tokens + Max(0.0, now - key.value.level.value.last) * pace))
    && (granted <==> tokens >= requested)
    && if granted then pace > 0.0 && h.expireAt == Some(now + (2 * Ceil(rate / pace)) as real)
       else h.expireAt == if key.Some? then key.value.expireAt else None
  }

  /** The tokens the script finds under a key. */
  lemma ScriptRefills(key: Option<Hash>, rate: real, now: real, pace: real)
    requires rate > 0.0 && PositiveMultiplier(key) && pace == Effective(rate, MultiplierOf(key))
    ensures pace > 0.0
    ensures var level := LevelOf(key, rate, now);
            Refilled(level.tokens, level.last, now, rate, pace)
            == if key.None? || key.value.level.None? then rate
               else Min(rate, key.value.level.value.tokens + Max(0.0, now - key.value.level.value.last) * pace)
  {
    TimesPositive(rate, MultiplierOf(key));
    RefilledNow(rate, now, rate, pace);
  }

  lemma ScriptStores(key: Option<Hash>, rate: real, requested: real, now: real, pace: real, tokens: real)
    requires rate > 0.0 && PositiveMultiplier(key) && Effective(rate, MultiplierOf(key)) == pace > 0.0
    requires var level := LevelOf(key, rate, now); tokens == Refilled(level.tokens, level.last, now, rate, pace)
    ensures LuaAcquire(key, rate, rate, now, requested)
         == if tokens >= requested
            then (Hash(Some(Level(tokens - requested, now)), Some(MultiplierOf(key)), Some(now + (Ceil(rate / pace) * 2) as real)), true)
            else (Hash(Some(Level(tokens, now)), Some(MultiplierOf(key)), if key.Some? then key.value.expireAt else None), false)
  {
    hide Refilled, Effective, Ceil, MultiplierOf, LevelOf;
  }

  lemma ScriptRuns(key: Option<Hash>, rate: real, requested: real, now: real, pace: real)
    requires rate > 0.0 && PositiveMultiplier(key) && pace == Effective(rate, MultiplierOf(key))
    ensures var (h, granted) := LuaAcquire(key, rate, rate, now, requested);
            RunsAtPace(key, h, rate, pace, requested, now, granted) && h.multiplier.value == MultiplierOf(key)
  {
    ScriptRefills(key, rate, now, pace);
    var level := LevelOf(key, rate, now);
    hide LevelOf, Refilled, Effective, LuaAcquire;
    ScriptStores(key, rate, requested, now, pace, Refilled(level.tokens, level.last, now, rate, pace));
    hide Ceil, Min, Max;
  }

  lemma ScriptIs(key: Option<Hash>, rate: real, requested: real, now: real)
    requires rate > 0.0 && PositiveMultiplier(key)
    ensures var (h, granted) := LuaAcquire(key, rate, rate, now, requested);
            IsScriptRun(key, h, rate, requested, now, granted)
  {
    ScriptRuns(key, rate, requested, now, Effective(rate, MultiplierOf(key)));
    hide RunsAtPace, Effective, MultiplierOf, Refilled, Ttl;
  }

  /** The hashes in Redis, and the script that runs on them. */
  class RedisBuckets {
    var hashes: map<BucketName, Hash>

    constructor ()
      ensures hashes == map[]
    {
      hashes := map[];
    }

    method EvalSha(name: BucketName, rate: real, requested: real, now: real) returns (granted: bool)
      requires rate > 0.0 && ValidHashes(hashes)
      modifies this
      ensures (Some(hashes), granted)
           == (var (h, g) := LuaAcquire(Unexpired(Lookup(old(hashes), name), now), rate, rate, now, requested);
               (Some(old(hashes)[name := h]), g))
      ensures OnlyWrites(old(hashes), hashes, name)
      ensures IsScriptRun(LiveKey(old(hashes), name, now), hashes[name], rate, requested, now, granted)
    {
      var key := Unexpired(Lookup(hashes, name), now);
      var level, multiplier := LevelOf(key, rate, now), MultiplierOf(key);
      var effective := Effective(rate, multiplier);
      var passed := Max(0.0, now - level.last);
      var tokens := Min(rate, level.tokens + passed * effective);
      TimesPositive(rate, multiplier);
      assert tokens == Refilled(level.tokens, level.last, now, rate, effective);
      assert key == LiveKey(hashes, name, now);
      ScriptStores(key, rate, requested, now, effective, tokens);
      ScriptIs(key, rate, requested, now);
      assert Ttl(rate, effective) == Ceil(rate / effective) * 2;
      hide IsScriptRun, LuaAcquire, Refilled, Effective, Ceil, Ttl, Min, Max, LiveKey, Unexpired, LevelOf, MultiplierOf;
      if tokens >= requested {
        hashes := hashes[name := Hash(Some(Level(tokens - requested, now)), Some(multiplier), Some(now + Ttl(rate, effective) as real))];
        granted := true;
      } else {
        hashes := hashes[name := Hash(Some(Level(tokens, now)), Some(multiplier), if key.Some? then key.value.expireAt else None)];
        granted := false;
      }
    }

    method HMGetMultiplier(name: BucketName, now: real) returns (multiplier: Option<real>)
      ensures var key := LiveKey(hashes, name, now); multiplier == if key.Some? then key.value.multiplier else None
    {
      var key := LiveKey(hashes, name, now);
      multiplier := if key.Some? then key.value.multiplier else None;
    }

    /** On a live key the level and the expiry stay; a missing key becomes one without either. */
    method HSetMultiplier(name: BucketName, multiplier: real, now: real)
      modifies this
      ensures hashes == old(hashes)[name := LuaSetMultiplier(Unexpired(Lookup(old(hashes), name), now), multiplier)]
      ensures OnlyWrites(old(hashes), hashes, name) && hashes[name].multiplier == Some(multiplier)
      ensures match LiveKey(old(hashes), name, now)
              case Some(h) => hashes[name].level == h.level && hashes[name].expireAt == h.expireAt
              case None => hashes[name].level == None && hashes[name].expireAt == None
    {
      var key := LiveKey(hashes, name, now);
      var h := if key.Some? then key.value else Hash(None, None, None);
      hashes := hashes[name := h.(multiplier := Some(multiplier))];
    }
  }

  class LocalTokenBucket {
    var buckets: map<BucketName, Bucket>

    constructor ()
      ensures buckets == map[]
    {
      buckets := map[];
    }

    method Acquire(name: BucketName, rate: real, requested: real, now: real) returns (granted: bool)
      modifies this
      ensures buckets == old(buckets)[name := LocalAcquire(Lookup(old(buckets), name), rate, rate, now, requested).0]
      ensures granted == LocalAcquire(Lookup(old(buckets), name), rate, rate, now, requested).1
      ensures OnlyWrites(old(buckets), buckets, name) && buckets[name].last == now
      ensures var tokens, b := buckets[name].tokens + (if granted then requested else 0.0), Lookup(old(buckets), name);
              && (granted <==> tokens >= requested)
              && buckets[name].multiplier == (if b.Some? then b.value.multiplier else 1.0)
              && tokens == if b.None? then rate
                           else Min(rate, b.value.tokens + Max(0.0, now - b.value.last) * (rate * b.value.multiplier))
    {
      if name !in buckets {
        buckets := buckets[name := Bucket(rate, now, 1.0)];
      }
      var b := buckets[name];
      var passed := Max(0.0, now - b.last);
      var tokens := Min(rate, b.tokens + passed * Effective(rate, b.multiplier));
      granted := tokens >= requested;
      buckets := buckets[name := Bucket(if granted then tokens - requested else tokens, now, b.multiplier)];
      assert passed == 0.0 && name !in old(buckets) ==> tokens == rate;
    }

    method Report429(name: BucketName, now: real) returns (multiplier: real)
      modifies this
      ensures buckets == old(buckets)[name := LocalReport(Lookup(old(buckets), name), now)]
      ensures multiplier == buckets[name].multiplier
      ensures OnlyWrites(old(buckets), buckets, name)
      ensures if name in old(buckets)
              then buckets[name] == old(buckets)[name].(multiplier := Max(0.1, old(buckets)[name].multiplier * 0.5))
              else buckets[name] == Bucket(0.0, now, 0.5)
    {
      if name !in buckets {
        buckets := buckets[name := Bucket(0.0, now, 1.0)];
      }
      multiplier := Max(0.1, buckets[name].multiplier * 0.5);
      buckets := buckets[name := buckets[name].(multiplier := multiplier)];
    }
  }

  class Limiter {
    const redis: RedisBuckets
    const local: LocalTokenBucket
    const limits: Limits
    const scripting: bool

    ghost predicate Valid()
      reads redis
    {
      ValidLimits(limits) && ValidHashes(redis.hashes)
    }

    function View(): Backend
      reads redis, local
    {
      Backend(scripting, redis.hashes, local.buckets)
    }

    constructor (redis: RedisBuckets, local: LocalTokenBucket, limits: Limits, scripting: bool)
      requires ValidLimits(limits) && ValidHashes(redis.hashes)
      ensures Valid() && this.redis == redis && this.local == local && this.limits == limits && this.scripting == scripting
    {
      this.redis, this.local, this.limits, this.scripting := redis, local, limits, scripting;
    }

    method AcquireOne(name: BucketName, rate: real, requested: real, now: real) returns (granted: bool)
      requires Valid() && rate > 0.0
      modifies redis, local
      ensures Valid()
      ensures (View(), granted) == Asked(old(View()), name, rate, requested, now)
    {
      AskedKeepsValid(View(), name, rate, requested, now);
      if scripting {
        granted := redis.EvalSha(name, rate, requested, now);
      } else {
        granted := local.Acquire(name, rate, requested, now);
      }
    }

    /** A 429 halves the multiplier of the domain's bucket, down to a tenth. */
    method Report429(domain: string, now: real)
      requires Valid()
      modifies redis, local
      ensures Valid()
      ensures scripting ==> local.buckets == old(local.buckets)
      ensures scripting ==>
                var key := Unexpired(Lookup(old(redis.hashes), Domain(domain)), now);
                redis.hashes == old(redis.hashes)[Domain(domain) := LuaSetMultiplier(key, Halved(MultiplierOf(key)))]
      ensures !scripting ==> redis.hashes == old(redis.hashes)
      ensures !scripting ==> local.buckets == old(local.buckets)[Domain(domain) := LocalReport(Lookup(old(local.buckets), Domain(domain)), now)]
    {
      if scripting {
        var multiplier := redis.HMGetMultiplier(Domain(domain), now);
        redis.HSetMultiplier(Domain(domain), Max(0.1, (if multiplier.Some? then multiplier.value else 1.0) * 0.5), now);
      } else {
        var _ := local.Report429(Domain(domain), now);
      }
    }

    /** Waits until one pass has charged the global, the domain and the scan bucket, or the time is up. */
    method Acquire(domain: string, scan: nat, requested: real, timeout: real, clock: (nat, nat) -> real) returns (ok: bool)
      requires Valid() && SleepsBetween(clock, |BucketsFor(limits, domain, scan)|)
      modifies redis, local
      ensures Valid()
      ensures PositiveRates(limits, BucketsFor(limits, domain, scan))
      ensures (View(), ok) == Passes(old(View()), limits, BucketsFor(limits, domain, scan), requested, clock, timeout, 0)
    {
      var names := BucketsFor(limits, domain, scan);
      BucketsAreValid(limits, domain, scan);
      hide BucketsFor;
      hide RateOf;
      hide Asked;
      hide ValidHashes;
      var k := 0;
      while clock(k, 0) - clock(0, 0) < timeout
        invariant Valid() && names == BucketsFor(limits, domain, scan) && PositiveRates(limits, names)
        invariant Passes(View(), limits, names, requested, clock, timeout, k)
               == Passes(old(View()), limits, names, requested, clock, timeout, 0)
        decreases (timeout - (clock(k, 0) - clock(0, 0))) * 10.0
      {
        ghost var at := AsksOf(clock, k);
        ghost var before := View();
        var all := true;
        var i := 0;
        while i < |names| && all
          invariant i <= |names| && Valid()
          invariant all ==> Pass(View(), limits, names, requested, at, i) == Pass(before, limits, names, requested, at, 0)
          invariant !all ==> (View(), i) == Pass(before, limits, names, requested, at, 0) && i < |names|
          invariant at == AsksOf(clock, k)
          decreases |names| - i, all
        {
          all := AcquireOne(names[i], RateOf(limits, names[i]), requested, clock(k, i + 1));
          if all {
            i := i + 1;
          }
        }
        if all {
          return true;
        }
        ClockAdvances(clock, |names|, k, |names|);
        k := k + 1;
      }
      ok := false;
    }
  }
}
