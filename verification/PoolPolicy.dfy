/** The autoscaler on values: how the list of engines changes during a cleanup, a scale-up and whole
    passes of the monitor, with every list in between. */
module PoolPolicy {
  import opened Wrappers
  import opened TaskQueue

  function Min(a: int, b: int): int { if a <= b then a else b }

  function Max(a: int, b: int): int { if a >= b then a else b }

  function DesiredWorkers(depth: nat, min: int): int {
    if depth >= 10000 then 100
    else if depth >= 1000 then 50
    else if depth >= 100 then 10
    else if depth >= 10 then 5
    else min
  }

  /** How many engines a scale-up by `count` adds to `current` ones. */
  function Additions(current: nat, count: int, max: int): nat {
    Max(0, Min(count, max - current))
  }

  predicate InBounds(size: nat, min: int, max: int) {
    Max(0, Min(min, max)) <= size <= Max(0, max)
  }

  // ---------------------------------------------------------------- lists of engines

  /** Without the first occurrence of `x`. */
  function Removed<T(==)>(xs: seq<T>, x: T): seq<T> {
    if xs == [] then [] else if xs[0] == x then xs[1..] else [xs[0]] + Removed(xs[1..], x)
  }

  /** The members of `xs` outside `gone`, in order. */
  function Without<T(==)>(xs: seq<T>, gone: set<T>): seq<T> {
    if xs == [] then [] else (if xs[0] in gone then [] else [xs[0]]) + Without(xs[1..], gone)
  }

  function Elements<T(==)>(xs: seq<T>): set<T> {
    set x | x in xs
  }

  /** What a list has become at the end of a trace. */
  function Last<T>(xs: seq<T>, trace: seq<seq<T>>): seq<T> {
    if trace == [] then xs else trace[|trace| - 1]
  }

  /** Every list of a cleanup: the idle engines go one by one, until the floor is reached or the stop of
      one in `raising` raises. */
  function CleanupTrace<T(==)>(engines: seq<T>, idle: seq<T>, raising: set<T>, min: int): seq<seq<T>>
    decreases |idle|
  {
    if idle == [] || |engines| <= min || idle[0] in raising then []
    else [Removed(engines, idle[0])] + CleanupTrace(Removed(engines, idle[0]), idle[1..], raising, min)
  }

  /** The cleanup raises nothing. */
  predicate CleanupCompletes<T(==)>(engines: seq<T>, idle: seq<T>, raising: set<T>, min: int)
    decreases |idle|
  {
    idle == [] || |engines| <= min
    || (idle[0] !in raising && CleanupCompletes(Removed(engines, idle[0]), idle[1..], raising, min))
  }

  /** Every list of a scale-up. */
  function ScaleTrace<T>(engines: seq<T>, spawned: seq<T>): seq<seq<T>> {
    seq(|spawned|, i requires 0 <= i < |spawned| => engines + spawned[..i + 1])
  }

  /** What one pass of the monitor meets: the queue depth unless reading it raises, the engines idle at
      the snapshot, those whose stop raises, and the engines it creates. */
  datatype Observation<T> = Observation(depth: Option<nat>, idle: seq<T>, raising: set<T>, spawned: seq<T>)

  predicate Completes<T(==)>(engines: seq<T>, o: Observation<T>, min: int) {
    o.depth.Some? && CleanupCompletes(engines, o.idle, o.raising, min)
  }

  function PassTrace<T(==)>(engines: seq<T>, o: Observation<T>, min: int): seq<seq<T>> {
    if o.depth.None? then []
    else
      var cleaned := CleanupTrace(engines, o.idle, o.raising, min);
      cleaned + ScaleTrace(Last(engines, cleaned), o.spawned)
  }

  /** The snapshot is of the list, and the new engines are new and as many as the policy adds. */
  predicate IsPossible<T(==)>(engines: seq<T>, o: Observation<T>, min: int, max: int) {
    var cleaned := Last(engines, CleanupTrace(engines, o.idle, o.raising, min));
    && Distinct(o.idle) && (forall e :: e in o.idle ==> e in engines)
    && Distinct(o.spawned) && (forall e :: e in o.spawned ==> e !in engines)
    && |o.spawned| == if Completes(engines, o, min)
                      then Additions(|cleaned|, DesiredWorkers(o.depth.value, min) - |cleaned|, max) else 0
  }

  function RunTrace<T(==)>(engines: seq<T>, os: seq<Observation<T>>, min: int): seq<seq<T>>
    decreases |os|
  {
    if os == [] then []
    else
      var pass := PassTrace(engines, os[0], min);
      pass + RunTrace(Last(engines, pass), os[1..], min)
  }

  predicate IsPossibleRun<T(==)>(engines: seq<T>, os: seq<Observation<T>>, min: int, max: int)
    decreases |os|
  {
    os == [] || (&& IsPossible(engines, os[0], min, max)
                 && IsPossibleRun(Last(engines, PassTrace(engines, os[0], min)), os[1..], min, max))
  }

  // ---------------------------------------------------------------- cleanup

  lemma {:induction false} WithoutNone<T>(xs: seq<T>)
    ensures Without(xs, {}) == xs
  {
    if xs != [] {
      WithoutNone(xs[1..]);
    }
  }

  lemma {:induction false} WithoutStrangers<T>(xs: seq<T>, gone: set<T>, x: T)
    requires x !in xs
    ensures Without(xs, gone + {x}) == Without(xs, gone)
  {
    if xs != [] {
      WithoutStrangers(xs[1..], gone, x);
    }
  }

  /** Removing one more engine from a list of different engines. */
  lemma {:induction false} RemovedThenWithout<T>(xs: seq<T>, x: T, gone: set<T>)
    requires Distinct(xs)
    ensures Without(Removed(xs, x), gone) == Without(xs, gone + {x})
  {
    if xs != [] {
      if xs[0] == x {
        WithoutStrangers(xs[1..], gone, x);
      } else {
        RemovedThenWithout(xs[1..], x, gone);
        assert Removed(xs, x)[1..] == Removed(xs[1..], x);
      }
    }
  }

  lemma {:induction false} RemovedMembers<T>(xs: seq<T>, x: T)
    requires Distinct(xs)
    ensures Distinct(Removed(xs, x)) && forall y :: y in Removed(xs, x) <==> y in xs && y != x
    ensures |Removed(xs, x)| == |xs| - if x in xs then 1 else 0
  {
    if xs != [] {
      var rest := xs[1..];
      assert forall y :: y in xs <==> y == xs[0] || y in rest;
      assert xs[0] !in rest;
      RemovedMembers(rest, x);
      if xs[0] != x {
        assert forall y :: y in [xs[0]] + Removed(rest, x) <==> y == xs[0] || y in Removed(rest, x);
      }
    }
  }

  /** What is left of a list: exactly the engines that are not gone, in the order they had. */
  lemma {:induction false} WithoutKeepsOrder<T>(xs: seq<T>, gone: set<T>)
    ensures forall x :: x in Without(xs, gone) <==> x in xs && x !in gone
    ensures forall i, j :: 0 <= i < j < |xs| && xs[i] !in gone && xs[j] !in gone ==>
              exists p, q :: 0 <= p < q < |Without(xs, gone)| && Without(xs, gone)[p] == xs[i] && Without(xs, gone)[q] == xs[j]
  {
    if xs != [] {
      var tail, rest := xs[1..], Without(xs[1..], gone);
      WithoutKeepsOrder(tail, gone);
      var shift := if xs[0] in gone then 0 else 1;
      assert forall p :: 0 <= p < |rest| ==> Without(xs, gone)[p + shift] == rest[p];
      forall i, j | 0 <= i < j < |xs| && xs[i] !in gone && xs[j] !in gone
        ensures exists p, q :: 0 <= p < q < |Without(xs, gone)| && Without(xs, gone)[p] == xs[i] && Without(xs, gone)[q] == xs[j]
      {
        if i == 0 {
          assert tail[j - 1] in tail && tail[j - 1] in rest;
          var q :| 0 <= q < |rest| && rest[q] == tail[j - 1];
          assert Without(xs, gone)[0] == xs[i] && Without(xs, gone)[q + 1] == xs[j];
        } else {
          assert tail[i - 1] == xs[i] && tail[j - 1] == xs[j];
          var p, q :| 0 <= p < q < |rest| && rest[p] == tail[i - 1] && rest[q] == tail[j - 1];
          assert Without(xs, gone)[p + shift] == xs[i] && Without(xs, gone)[q + shift] == xs[j];
        }
      }
    }
  }

  /** Where a cleanup ends: none of the engines it drops raises; it is broken off by the next idle engine when
      the floor still allows one and that one raises, and complete otherwise. */
  lemma {:induction false} CleanupEndsAt<T>(engines: seq<T>, idle: seq<T>, raising: set<T>, min: int)
    requires IsSnapshot(engines, idle)
    ensures var trace := CleanupTrace(engines, idle, raising, min);
            var n := |trace|;
            && n <= |idle| && (forall i :: 0 <= i < n ==> idle[i] !in raising)
            && |Last(engines, trace)| == |engines| - n
            && (CleanupCompletes(engines, idle, raising, min) <==> n == |idle| || |engines| - n <= min)
            && (!CleanupCompletes(engines, idle, raising, min) ==> n < |idle| && idle[n] in raising)
    decreases |idle|
  {
    if !(idle == [] || |engines| <= min || idle[0] in raising) {
      SnapshotAfterOne(engines, idle);
      CleanupEndsAt(Removed(engines, idle[0]), idle[1..], raising, min);
      hide Removed;
    }
  }

  /** How many of the first idle engines stop without raising. */
  function Leading<T(==)>(idle: seq<T>, raising: set<T>): (n: nat)
    ensures n <= |idle|
  {
    if idle == [] || idle[0] in raising then 0 else 1 + Leading(idle[1..], raising)
  }

  predicate IsSnapshot<T(==)>(engines: seq<T>, idle: seq<T>) {
    Distinct(engines) && Distinct(idle) && forall e :: e in idle ==> e in engines
  }

  lemma SnapshotAfterOne<T>(engines: seq<T>, idle: seq<T>)
    requires IsSnapshot(engines, idle) && idle != []
    ensures IsSnapshot(Removed(engines, idle[0]), idle[1..]) && |Removed(engines, idle[0])| == |engines| - 1
  {
    RemovedMembers(engines, idle[0]);
    assert idle[0] in idle;
    forall e | e in idle[1..] ensures e in idle && e != idle[0] {}
  }

  /** A cleanup drops exactly the first so many engines of the idle snapshot, as many as the floor
      allows, and keeps all the others in their order. */
  lemma {:induction false} CleanupDropsLeadingIdle<T>(engines: seq<T>, idle: seq<T>, raising: set<T>, min: int)
    requires IsSnapshot(engines, idle)
    ensures var trace := CleanupTrace(engines, idle, raising, min);
            && |trace| == Min(Leading(idle, raising), Max(0, |engines| - min))
            && Last(engines, trace) == Without(engines, Elements(idle[..|trace|]))
            && |Last(engines, trace)| == |engines| - |trace|
            && Distinct(Last(engines, trace)) && forall e :: e in Last(engines, trace) ==> e in engines
    decreases |idle|
  {
    var trace := CleanupTrace(engines, idle, raising, min);
    if trace == [] {
      WithoutNone(engines);
      assert Elements(idle[..0]) == {};
    } else {
      var rest := Removed(engines, idle[0]);
      SnapshotAfterOne(engines, idle);
      CleanupDropsLeadingIdle(rest, idle[1..], raising, min);
      RemovedMembers(engines, idle[0]);
      var k := |trace| - 1;
      assert trace[1..] == CleanupTrace(rest, idle[1..], raising, min);
      assert Last(engines, trace) == Last(rest, trace[1..]);
      RemovedThenWithout(engines, idle[0], Elements(idle[1..][..k]));
      assert Elements(idle[..k + 1]) == Elements(idle[1..][..k]) + {idle[0]} by {
        assert idle[..k + 1] == [idle[0]] + idle[1..][..k];
      }
    }
  }

  /** No list in between is below the floor or longer than the list before. */
  lemma {:induction false} CleanupStaysInBounds<T>(engines: seq<T>, idle: seq<T>, raising: set<T>, min: int, max: int)
    requires IsSnapshot(engines, idle) && InBounds(|engines|, min, max)
    ensures forall i :: 0 <= i < |CleanupTrace(engines, idle, raising, min)| ==>
              InBounds(|CleanupTrace(engines, idle, raising, min)[i]|, min, max)
    decreases |idle|
  {
    if !(idle == [] || |engines| <= min || idle[0] in raising) {
      SnapshotAfterOne(engines, idle);
      CleanupStaysInBounds(Removed(engines, idle[0]), idle[1..], raising, min, max);
    }
  }

  /** A cleanup in the middle: it has gone through `trace`, is at `current` and has the idle engines from
      `i` on before it. */
  ghost predicate IsCleaning<T>(engines: seq<T>, idle: seq<T>, raising: set<T>, min: int, trace: seq<seq<T>>, current: seq<T>, i: nat) {
    && i == |trace| <= |idle| && current == Last(engines, trace)
    && trace + CleanupTrace(current, idle[i..], raising, min) == CleanupTrace(engines, idle, raising, min)
    && CleanupCompletes(current, idle[i..], raising, min) == CleanupCompletes(engines, idle, raising, min)
    && IsSnapshot(current, idle[i..])
  }

  lemma CleaningStarts<T>(engines: seq<T>, idle: seq<T>, raising: set<T>, min: int)
    requires IsSnapshot(engines, idle)
    ensures IsCleaning(engines, idle, raising, min, [], engines, 0)
  {
    assert idle[0..] == idle;
  }

  lemma CleaningGoesOn<T>(engines: seq<T>, idle: seq<T>, raising: set<T>, min: int, trace: seq<seq<T>>, current: seq<T>, i: nat)
    requires IsCleaning(engines, idle, raising, min, trace, current, i)
    requires i < |idle| && |current| > min && idle[i] !in raising
    ensures var next := Removed(current, idle[i]); IsCleaning(engines, idle, raising, min, trace + [next], next, i + 1)
  {
    var rest := idle[i..];
    assert rest[0] == idle[i] && rest[1..] == idle[i + 1..];
    SnapshotAfterOne(current, rest);
    var next := Removed(current, idle[i]);
    hide Removed;
    assert CleanupTrace(current, rest, raising, min) == [next] + CleanupTrace(next, rest[1..], raising, min);
    assert trace + ([next] + CleanupTrace(next, rest[1..], raising, min)) == trace + [next] + CleanupTrace(next, rest[1..], raising, min);
  }

  lemma NextOfSnapshot<T>(engines: seq<T>, idle: seq<T>, i: nat)
    requires IsSnapshot(engines, idle) && i < |idle|
    ensures idle[i] in engines && forall j :: 0 <= j < |idle| && j != i ==> idle[j] != idle[i]
  {
    assert idle[i] in idle;
  }

  lemma Appended<T>(before: seq<T>, trace: seq<T>, next: T)
    ensures before + trace + [next] == before + (trace + [next])
  {}

  lemma CleaningEnds<T>(engines: seq<T>, idle: seq<T>, raising: set<T>, min: int, trace: seq<seq<T>>, current: seq<T>, i: nat)
    requires IsCleaning(engines, idle, raising, min, trace, current, i)
    requires i == |idle| || |current| <= min || idle[i] in raising
    ensures trace == CleanupTrace(engines, idle, raising, min) && current == Last(engines, trace)
    ensures CleanupCompletes(engines, idle, raising, min) <==> i == |idle| || |current| <= min
    ensures Distinct(current) && (i < |idle| ==> idle[i] in current)
  {
    assert trace + [] == trace;
    assert i < |idle| ==> idle[i..][0] in idle[i..];
  }

  // ---------------------------------------------------------------- passes

  /** A pass that raises nothing ends with as many engines as the depth asks for, if the ceiling allows
      them, and never with fewer than the cleanup left. */
  lemma PassReachesTarget<T>(engines: seq<T>, o: Observation<T>, min: int, max: int)
    requires IsPossible(engines, o, min, max) && Completes(engines, o, min)
    ensures var cleaned := Last(engines, CleanupTrace(engines, o.idle, o.raising, min));
            |Last(engines, PassTrace(engines, o, min))| == Max(|cleaned|, Min(DesiredWorkers(o.depth.value, min), max))
  {
    var trace := CleanupTrace(engines, o.idle, o.raising, min);
    ScaleEndsWith(Last(engines, trace), o.spawned);
    assert Last(engines, PassTrace(engines, o, min)) == Last(engines, trace) + o.spawned;
  }

  /** A pass that raises, at the queue depth or at a stop, creates no engine: it ends where its cleanup did. */
  lemma BrokenPassAddsNothing<T>(engines: seq<T>, o: Observation<T>, min: int, max: int)
    requires Distinct(engines) && IsPossible(engines, o, min, max)
    requires o.depth == None || exists i: nat :: i < |o.idle| && o.idle[i] in o.raising && |engines| - i > min && forall j :: 0 <= j < i ==> o.idle[j] !in o.raising
    ensures forall e :: e in Last(engines, PassTrace(engines, o, min)) ==> e in engines
    ensures o.depth == None ==> Last(engines, PassTrace(engines, o, min)) == engines
  {
    CleanupDropsLeadingIdle(engines, o.idle, o.raising, min);
    CleanupEndsAt(engines, o.idle, o.raising, min);
    if o.depth.Some? {
      assert !Completes(engines, o, min);
      assert o.spawned == [];
    }
  }

  lemma PassStaysInBounds<T>(engines: seq<T>, o: Observation<T>, min: int, max: int)
    requires Distinct(engines) && IsPossible(engines, o, min, max) && InBounds(|engines|, min, max)
    ensures forall i :: 0 <= i < |PassTrace(engines, o, min)| ==> InBounds(|PassTrace(engines, o, min)[i]|, min, max)
    ensures var last := Last(engines, PassTrace(engines, o, min)); Distinct(last) && InBounds(|last|, min, max)
  {
    if o.depth.Some? {
      var trace := CleanupTrace(engines, o.idle, o.raising, min);
      CleanupStaysInBounds(engines, o.idle, o.raising, min, max);
      CleanupDropsLeadingIdle(engines, o.idle, o.raising, min);
      AppendedInBounds(engines, trace, o.spawned, min, max);
      var cleaned := Last(engines, trace);
      assert forall i, j :: 0 <= i < |cleaned| && 0 <= j < |o.spawned| ==> cleaned[i] in engines && o.spawned[j] !in engines;
    }
  }

  lemma ScaleOneMore<T>(engines: seq<T>, spawned: seq<T>, e: T)
    ensures ScaleTrace(engines, spawned + [e]) == ScaleTrace(engines, spawned) + [engines + spawned + [e]]
  {
    var longer := spawned + [e];
    forall i | 0 <= i < |longer|
      ensures ScaleTrace(engines, longer)[i] == (ScaleTrace(engines, spawned) + [engines + longer])[i]
    {
      if i < |spawned| {
        assert longer[..i + 1] == spawned[..i + 1];
      } else {
        assert longer[..i + 1] == longer;
      }
    }
    assert engines + longer == engines + spawned + [e];
  }

  lemma ScaleEndsWith<T>(engines: seq<T>, spawned: seq<T>)
    ensures Last(engines, ScaleTrace(engines, spawned)) == engines + spawned
  {
    if spawned != [] {
      assert spawned[..|spawned|] == spawned;
    }
  }

  /** A scale-up passes only through sizes between the first and the last. */
  lemma ScaleStaysInBounds<T>(engines: seq<T>, spawned: seq<T>, min: int, max: int)
    requires InBounds(|engines|, min, max) && InBounds(|engines| + |spawned|, min, max)
    ensures forall i :: 0 <= i < |spawned| ==> InBounds(|ScaleTrace(engines, spawned)[i]|, min, max)
  {
    forall i | 0 <= i < |spawned| ensures InBounds(|ScaleTrace(engines, spawned)[i]|, min, max) {
      assert ScaleTrace(engines, spawned)[i] == engines + spawned[..i + 1];
    }
  }

  lemma AppendedInBounds<T>(engines: seq<T>, trace: seq<seq<T>>, spawned: seq<T>, min: int, max: int)
    requires forall i :: 0 <= i < |trace| ==> InBounds(|trace[i]|, min, max)
    requires InBounds(|Last(engines, trace)|, min, max) && InBounds(|Last(engines, trace)| + |spawned|, min, max)
    ensures var all := trace + ScaleTrace(Last(engines, trace), spawned);
            && (forall i :: 0 <= i < |all| ==> InBounds(|all[i]|, min, max))
            && Last(engines, all) == Last(engines, trace) + spawned
  {
    hide InBounds;
    ScaleStaysInBounds(Last(engines, trace), spawned, min, max);
    ScaleEndsWith(Last(engines, trace), spawned);
  }

  /** From a pool within its bounds, every list of every run of passes is within the bounds, whatever
      the depths, the idle snapshots and the stops that raise. */
  lemma {:induction false} PoolStaysInBounds<T>(engines: seq<T>, os: seq<Observation<T>>, min: int, max: int)
    requires Distinct(engines) && InBounds(|engines|, min, max) && IsPossibleRun(engines, os, min, max)
    ensures forall i :: 0 <= i < |RunTrace(engines, os, min)| ==> InBounds(|RunTrace(engines, os, min)[i]|, min, max)
    decreases |os|
  {
    if os != [] {
      var pass := PassTrace(engines, os[0], min);
      PassStaysInBounds(engines, os[0], min, max);
      PoolStaysInBounds(Last(engines, pass), os[1..], min, max);
    }
  }

  /** The demand by queue depth. */
  lemma DemandIs(depth: nat, min: int)
    ensures depth <= 9 ==> DesiredWorkers(depth, min) == min
    ensures 10 <= depth <= 99 ==> DesiredWorkers(depth, min) == 5
    ensures 100 <= depth <= 999 ==> DesiredWorkers(depth, min) == 10
    ensures 1000 <= depth <= 9999 ==> DesiredWorkers(depth, min) == 50
    ensures 10000 <= depth ==> DesiredWorkers(depth, min) == 100
  {}

  /** A deeper queue never asks for fewer engines exactly when the floor is at most five. */
  lemma DemandGrowsIffFloorIsLow(min: int)
    ensures (forall d: nat, e: nat :: d <= e ==> DesiredWorkers(d, min) <= DesiredWorkers(e, min)) <==> min <= 5
  {
    if min > 5 {
      assert DesiredWorkers(9, min) > DesiredWorkers(10, min);
    }
  }
}
