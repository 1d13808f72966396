/** The bucket is exactly the greedy policy for its bound: an acquire is denied if and only if granting it would
    let some stretch of time that ends now hand out more than the capacity and the refill of that stretch. */
module ExactBucket {
  import opened Wrappers
  import opened TokenBucket
  import opened BucketRefinement

  /** The in-process bucket at some time, unused at first. */
  datatype Moment = Moment(clock: real, entry: Option<Bucket>)

  function After(s: Moment, e: Event, capacity: real, rate: real): Moment {
    match e
    case Wait(to) => s.(clock := to)
    case Try(requested) => s.(entry := Some(LocalAcquire(s.entry, capacity, rate, s.clock, requested).0))
    case Report => s.(entry := Some(LocalReport(s.entry, s.clock)))
  }

  function IsGranted(s: Moment, requested: real, capacity: real, rate: real): bool {
    LocalAcquire(s.entry, capacity, rate, s.clock, requested).1
  }

  function GivenBy(s: Moment, e: Event, capacity: real, rate: real): real {
    if e.Try? && IsGranted(s, e.requested, capacity, rate) then e.requested else 0.0
  }

  /** Before event `n` of a run that starts with an unused bucket. */
  function At(start: real, events: seq<Event>, n: nat, capacity: real, rate: real): Moment
    requires n <= |events|
  {
    if n == 0 then Moment(start, None) else After(At(start, events, n - 1, capacity, rate), events[n - 1], capacity, rate)
  }

  /** What events `i` to `n - 1` have been given. */
  function Given(start: real, events: seq<Event>, i: nat, n: nat, capacity: real, rate: real): real
    requires n <= |events|
  {
    if n <= i then 0.0
    else Given(start, events, i, n - 1, capacity, rate) + GivenBy(At(start, events, n - 1, capacity, rate), events[n - 1], capacity, rate)
  }

  /** What the stretch from event `i` to event `n` could still be given within the bound. */
  function Room(start: real, events: seq<Event>, i: nat, n: nat, capacity: real, rate: real): real
    requires i <= n <= |events|
  {
    capacity + rate * (At(start, events, n, capacity, rate).clock - At(start, events, i, capacity, rate).clock)
    - Given(start, events, i, n, capacity, rate)
  }

  /** Time moves forward, requests are not negative, and no 429 is reported. */
  ghost predicate IsPlain(start: real, events: seq<Event>, capacity: real, rate: real) {
    forall n :: 0 <= n < |events| ==> IsPlainEvent(At(start, events, n, capacity, rate).clock, events[n])
  }

  function LevelAt(s: Moment, capacity: real, rate: real): real {
    match s.entry
    case None => capacity
    case Some(b) => Refilled(b.tokens, b.last, s.clock, capacity, rate)
  }

  ghost predicate IsSound(s: Moment, capacity: real) {
    s.entry.Some? ==> s.entry.value.multiplier == 1.0 && s.entry.value.last <= s.clock && s.entry.value.tokens <= capacity
  }

  /** What flows in from one moment to a later one. */
  function Inflow(s: Moment, s': Moment, rate: real): real {
    rate * (s'.clock - s.clock)
  }

  lemma InflowOf(s: Moment, s': Moment, rate: real)
    requires rate > 0.0 && s.clock <= s'.clock
    ensures Inflow(s, s', rate) >= 0.0
    ensures s.clock == s'.clock ==> Inflow(s, s', rate) == 0.0
  {
    TimesMonotone(rate, 0.0, s'.clock - s.clock);
    TimesZero(rate, 0.0);
  }

  lemma WaitMovesLevel(s: Moment, to: real, capacity: real, rate: real)
    requires rate > 0.0 && capacity > 0.0 && IsSound(s, capacity) && s.clock <= to
    ensures LevelAt(s.(clock := to), capacity, rate) == Min(capacity, LevelAt(s, capacity, rate) + rate * (to - s.clock))
  {
    if s.entry.Some? {
      var b := s.entry.value;
      RefillComposes(b.tokens, b.last, s.clock, to, capacity, rate);
      RefilledForward(LevelAt(s, capacity, rate), s.clock, to, capacity, rate);
    } else {
      TimesMonotone(rate, 0.0, to - s.clock);
    }
    hide Refilled;
  }

  lemma TryMovesLevel(s: Moment, requested: real, capacity: real, rate: real)
    requires rate > 0.0 && capacity > 0.0 && IsSound(s, capacity) && requested >= 0.0
    ensures var s' := After(s, Try(requested), capacity, rate);
            && IsSound(s', capacity) && s'.clock == s.clock
            && LevelAt(s', capacity, rate) == LevelAt(s, capacity, rate) - GivenBy(s, Try(requested), capacity, rate)
            && (IsGranted(s, requested, capacity, rate) <==> requested <= LevelAt(s, capacity, rate))
  {
    var b := BucketOf(s.entry, capacity, s.clock);
    EffectiveOne(rate);
    RefilledNow(capacity, s.clock, capacity, rate);
    LevelIsBounded(s, capacity, rate);
    var level := LevelAt(s, capacity, rate);
    assert Refilled(b.tokens, b.last, s.clock, capacity, Effective(rate, b.multiplier)) == level;
    RefilledNow(level, s.clock, capacity, rate);
    RefilledNow(level - requested, s.clock, capacity, rate);
    hide Refilled, Effective;
  }

  lemma LevelIsBounded(s: Moment, capacity: real, rate: real)
    ensures LevelAt(s, capacity, rate) <= capacity
  {}

  /** The condition of a plain run on one event. */
  predicate IsPlainEvent(clock: real, e: Event) {
    match e
    case Wait(to) => clock <= to
    case Try(requested) => requested >= 0.0
    case Report => false
  }

  /** One event: time refills up to the capacity, a grant takes what it gives, a denial nothing. */
  lemma EventMovesLevel(s: Moment, e: Event, capacity: real, rate: real)
    requires rate > 0.0 && capacity > 0.0 && IsSound(s, capacity) && IsPlainEvent(s.clock, e)
    ensures var s', level, given := After(s, e, capacity, rate), LevelAt(s, capacity, rate), GivenBy(s, e, capacity, rate);
            && IsSound(s', capacity) && level <= capacity && Inflow(s, s', rate) >= 0.0
            && LevelAt(s', capacity, rate) == Min(capacity, level + Inflow(s, s', rate)) - given
            && (level + Inflow(s, s', rate) > capacity ==> given == 0.0)
  {
    LevelIsBounded(s, capacity, rate);
    InflowOf(s, After(s, e, capacity, rate), rate);
    match e
    case Wait(to) =>
      WaitMovesLevel(s, to, capacity, rate);
      hide LevelAt;
    case Try(requested) =>
      TryMovesLevel(s, requested, capacity, rate);
      hide LevelAt, LocalAcquire, Inflow;
  }

  /** The level is at most the room of every stretch, and it is the room of one of them. */
  ghost predicate IsTightest(start: real, events: seq<Event>, i: nat, n: nat, capacity: real, rate: real)
    requires i <= n <= |events|
  {
    && LevelAt(At(start, events, n, capacity, rate), capacity, rate) == Room(start, events, i, n, capacity, rate)
    && forall j: nat :: j <= n ==> IsWithin(start, events, j, n, capacity, rate)
  }

  ghost predicate IsWithin(start: real, events: seq<Event>, j: nat, n: nat, capacity: real, rate: real)
    requires j <= n <= |events|
  {
    LevelAt(At(start, events, n, capacity, rate), capacity, rate) <= Room(start, events, j, n, capacity, rate)
  }

  lemma {:induction false} LevelIsTightestRoom(start: real, events: seq<Event>, n: nat, capacity: real, rate: real) returns (i: nat)
    requires rate > 0.0 && capacity > 0.0 && IsPlain(start, events, capacity, rate) && n <= |events|
    ensures IsSound(At(start, events, n, capacity, rate), capacity)
    ensures i <= n && IsTightest(start, events, i, n, capacity, rate)
  {
    hide *;
    if n == 0 {
      i := 0;
      FirstIsTightest(start, events, capacity, rate);
    } else {
      var k := LevelIsTightestRoom(start, events, n - 1, capacity, rate);
      i := NextIsTightest(start, events, k, n, capacity, rate);
    }
  }

  lemma FirstIsTightest(start: real, events: seq<Event>, capacity: real, rate: real)
    ensures IsSound(At(start, events, 0, capacity, rate), capacity) && IsTightest(start, events, 0, 0, capacity, rate)
  {
    NoTimeNoRefill(start, events, 0, capacity, rate);
    hide Room;
  }

  /** How the level moves from event `n - 1` to event `n`. */
  lemma LevelMoves(start: real, events: seq<Event>, n: nat, capacity: real, rate: real)
    requires rate > 0.0 && capacity > 0.0 && IsPlain(start, events, capacity, rate) && 0 < n <= |events|
    requires IsSound(At(start, events, n - 1, capacity, rate), capacity)
    ensures var s, s' := At(start, events, n - 1, capacity, rate), At(start, events, n, capacity, rate);
            var level, given, inflow := LevelAt(s, capacity, rate), GivenBy(s, events[n - 1], capacity, rate), Inflow(s, s', rate);
            && IsSound(s', capacity) && level <= capacity && inflow >= 0.0
            && LevelAt(s', capacity, rate) == Min(capacity, level + inflow) - given && (level + inflow > capacity ==> given == 0.0)
  {
    var s := At(start, events, n - 1, capacity, rate);
    assert IsPlainEvent(s.clock, events[n - 1]);
    assert At(start, events, n, capacity, rate) == After(s, events[n - 1], capacity, rate);
    hide *;
    EventMovesLevel(s, events[n - 1], capacity, rate);
  }

  lemma NextIsTightest(start: real, events: seq<Event>, k: nat, n: nat, capacity: real, rate: real) returns (i: nat)
    requires rate > 0.0 && capacity > 0.0 && IsPlain(start, events, capacity, rate) && 0 < n <= |events| && k < n
    requires IsSound(At(start, events, n - 1, capacity, rate), capacity) && IsTightest(start, events, k, n - 1, capacity, rate)
    ensures IsSound(At(start, events, n, capacity, rate), capacity)
    ensures i <= n && IsTightest(start, events, i, n, capacity, rate)
  {
    hide At, LevelAt, Room, GivenBy, IsSound, IsPlain, Inflow;
    LevelMoves(start, events, n, capacity, rate);
    NoTimeNoRefill(start, events, n, capacity, rate);
    RoomMoves(start, events, k, n, capacity, rate);
    var s, s' := At(start, events, n - 1, capacity, rate), At(start, events, n, capacity, rate);
    var level, given, inflow := LevelAt(s, capacity, rate), GivenBy(s, events[n - 1], capacity, rate), Inflow(s, s', rate);
    assert LevelAt(s', capacity, rate) == Min(capacity, level + inflow) - given;
    LevelIsBounded(s', capacity, rate);
    i := if level + inflow <= capacity then k else n;
    forall j: nat | j <= n ensures IsWithin(start, events, j, n, capacity, rate) {
      if j < n {
        assert IsWithin(start, events, j, n - 1, capacity, rate);
        RoomMoves(start, events, j, n, capacity, rate);
      }
    }
  }

  lemma NoTimeNoRefill(start: real, events: seq<Event>, n: nat, capacity: real, rate: real)
    requires n <= |events|
    ensures Room(start, events, n, n, capacity, rate) == capacity
  {
    TimesZero(rate, At(start, events, n, capacity, rate).clock - At(start, events, n, capacity, rate).clock);
  }

  lemma RoomMoves(start: real, events: seq<Event>, j: nat, n: nat, capacity: real, rate: real)
    requires j < n <= |events|
    ensures var s, s' := At(start, events, n - 1, capacity, rate), At(start, events, n, capacity, rate);
            Room(start, events, j, n, capacity, rate)
            == Room(start, events, j, n - 1, capacity, rate) + Inflow(s, s', rate) - GivenBy(s, events[n - 1], capacity, rate)
  {
    var a, b, c := At(start, events, j, capacity, rate).clock, At(start, events, n - 1, capacity, rate).clock, At(start, events, n, capacity, rate).clock;
    Distributes(rate, b - a, c - b);
    assert (b - a) + (c - b) == c - a;
    hide At, GivenBy;
  }

  /** The stretch from event `i` on, with `requested` tokens on top, stays within the capacity and its refill. */
  ghost predicate StaysWithin(start: real, events: seq<Event>, i: nat, requested: real, capacity: real, rate: real)
    requires i <= |events|
  {
    var n := |events|;
    Given(start, events, i, n, capacity, rate) + requested
    <= capacity + rate * (At(start, events, n, capacity, rate).clock - At(start, events, i, capacity, rate).clock)
  }

  lemma StaysWithinIff(start: real, events: seq<Event>, i: nat, requested: real, capacity: real, rate: real)
    requires i <= |events|
    ensures StaysWithin(start, events, i, requested, capacity, rate) <==> requested <= Room(start, events, i, |events|, capacity, rate)
  {
    hide At, Given;
  }

  /** An acquire is granted exactly when every stretch that ends with it stays within the capacity and its
      refill, the tokens of this acquire included. */
  lemma GrantedIffWithinBound(start: real, events: seq<Event>, requested: real, capacity: real, rate: real)
    requires rate > 0.0 && capacity > 0.0 && requested >= 0.0 && IsPlain(start, events, capacity, rate)
    ensures IsGranted(At(start, events, |events|, capacity, rate), requested, capacity, rate)
       <==> forall i: nat :: i <= |events| ==> StaysWithin(start, events, i, requested, capacity, rate)
  {
    hide At, Room, LevelAt, IsGranted, IsPlain, StaysWithin, IsSound;
    var n := |events|;
    var i := LevelIsTightestRoom(start, events, n, capacity, rate);
    TryMovesLevel(At(start, events, n, capacity, rate), requested, capacity, rate);
    StaysWithinIff(start, events, i, requested, capacity, rate);
    forall j: nat | j <= n
      ensures StaysWithin(start, events, j, requested, capacity, rate) <==> requested <= Room(start, events, j, n, capacity, rate)
      ensures IsWithin(start, events, j, n, capacity, rate)
    {
      StaysWithinIff(start, events, j, requested, capacity, rate);
    }
  }

  // ---------------------------------------------------------------- the script answers alike

  function From(s: Moment, events: seq<Event>, capacity: real, rate: real): Moment
    decreases |events|
  {
    if events == [] then s else From(After(s, events[0], capacity, rate), events[1..], capacity, rate)
  }

  lemma {:induction false} FromGoesOn(s: Moment, events: seq<Event>, e: Event, capacity: real, rate: real)
    ensures From(s, events + [e], capacity, rate) == After(From(s, events, capacity, rate), e, capacity, rate)
    decreases |events|
  {
    hide After;
    if events == [] {
      assert ([] + [e])[1..] == [];
    } else {
      assert (events + [e])[1..] == events[1..] + [e];
      FromGoesOn(After(s, events[0], capacity, rate), events[1..], e, capacity, rate);
    }
  }

  lemma {:induction false} AtIsFrom(start: real, events: seq<Event>, n: nat, capacity: real, rate: real)
    requires n <= |events|
    ensures At(start, events, n, capacity, rate) == From(Moment(start, None), events[..n], capacity, rate)
  {
    hide After;
    if n > 0 {
      AtIsFrom(start, events, n - 1, capacity, rate);
      assert events[..n] == events[..n - 1] + [events[n - 1]];
      FromGoesOn(Moment(start, None), events[..n - 1], events[n - 1], capacity, rate);
      hide From;
    }
  }

  lemma {:induction false} OrderlyIsPlainFrom(s: Moment, events: seq<Event>, n: nat, capacity: real, rate: real)
    requires Orderly(s.clock, events) && NoReports(events) && n < |events|
    ensures IsPlainEvent(From(s, events[..n], capacity, rate).clock, events[n])
    decreases n
  {
    if n == 0 {
      assert events[..0] == [];
    } else {
      var s' := After(s, events[0], capacity, rate);
      assert events[..n][1..] == events[1..][..n - 1];
      assert From(s, events[..n], capacity, rate) == From(s', events[1..][..n - 1], capacity, rate);
      hide From, LocalAcquire, LocalReport;
      OrderlyIsPlainFrom(s', events[1..], n - 1, capacity, rate);
    }
  }

  lemma {:induction false} LastAnswer(s: Moment, events: seq<Event>, requested: real, capacity: real, rate: real)
    ensures var answers := LocalAnswers(s.clock, s.entry, events + [Try(requested)], capacity, rate);
            answers != [] && answers[|answers| - 1] == IsGranted(From(s, events, capacity, rate), requested, capacity, rate)
    decreases |events|
  {
    var all := events + [Try(requested)];
    hide LocalAcquire, LocalReport;
    if events == [] {
      assert all[1..] == [];
    } else {
      assert all[1..] == events[1..] + [Try(requested)];
      LastAnswer(After(s, events[0], capacity, rate), events[1..], requested, capacity, rate);
    }
  }

  lemma {:induction false} TryIsOrderly(clock: real, events: seq<Event>, requested: real)
    requires Orderly(clock, events) && requested >= 0.0
    ensures Orderly(clock, events + [Try(requested)])
    decreases |events|
  {
    var all := events + [Try(requested)];
    if events == [] {
      assert all[1..] == [];
    } else {
      assert all[1..] == events[1..] + [Try(requested)];
      TryIsOrderly(if events[0].Wait? then events[0].to else clock, events[1..], requested);
    }
  }

  /** The same holds of the script on the key that expires: after any run without 429 the last answer is true
      exactly when every stretch stays within the capacity and its refill. */
  lemma ScriptGrantsIffWithinBound(start: real, events: seq<Event>, requested: real, capacity: real, rate: real)
    requires rate > 0.0 && capacity > 0.0 && requested >= 0.0
    requires Orderly(start, events) && NoReports(events)
    ensures var answers := RedisAnswers(start, None, events + [Try(requested)], capacity, rate);
            && answers != []
            && (answers[|answers| - 1] <==> forall i: nat :: i <= |events| ==> StaysWithin(start, events, i, requested, capacity, rate))
  {
    var s := Moment(start, None);
    forall n | 0 <= n < |events| ensures IsPlainEvent(At(start, events, n, capacity, rate).clock, events[n]) {
      OrderlyIsPlainFrom(s, events, n, capacity, rate);
      AtIsFrom(start, events, n, capacity, rate);
    }
    GrantedIffWithinBound(start, events, requested, capacity, rate);
    AtIsFrom(start, events, |events|, capacity, rate);
    assert events[..|events|] == events;
    LastAnswer(s, events, requested, capacity, rate);
    TryIsOrderly(start, events, requested);
    BucketsAnswerAlike(start, events + [Try(requested)], capacity, rate);
    hide At, From, LocalAnswers, RedisAnswers, IsGranted, StaysWithin, Orderly;
  }
}
