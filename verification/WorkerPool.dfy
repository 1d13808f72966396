/** The pool manager as an object over worker engines, with the history of its list. */
module WorkerPool {
  import opened Wrappers
  import opened Payloads
  import opened TaskQueue
  import opened PoolPolicy
  import opened RedisQueue
  import opened WorkerEngine

  /** The engines idle beyond the threshold, in order. */
  ghost function IdleOf(engines: seq<Worker>, now: real, threshold: real): (idle: seq<Worker>)
    reads engines
    ensures forall e :: e in idle ==> e in engines
    ensures Distinct(engines) ==> Distinct(idle)
  {
    if engines == [] then []
    else
      var rest := IdleOf(engines[1..], now, threshold);
      assert Distinct(engines) ==> Distinct(engines[1..]) && engines[0] !in engines[1..];
      if IsIdleAt(engines[0], now, threshold) then [engines[0]] + rest else rest
  }

  ghost predicate IsIdleAt(e: Worker, now: real, threshold: real)
    reads e
  {
    e.tasks == {} && now - e.lastActive > threshold
  }

  lemma {:induction false} IdleMembers(engines: seq<Worker>, now: real, threshold: real)
    ensures forall e :: e in engines ==> (e in IdleOf(engines, now, threshold) <==> e.tasks == {} && now - e.lastActive > threshold)
  {
    if engines != [] {
      IdleMembers(engines[1..], now, threshold);
    }
    hide Distinct;
  }

  /** The first list has the order of the second. */
  ghost predicate InOrderOf<T>(xs: seq<T>, ys: seq<T>) {
    forall i, j :: 0 <= i < j < |xs| ==> AreInOrder(xs[i], xs[j], ys)
  }

  ghost predicate AreInOrder<T>(x: T, y: T, ys: seq<T>) {
    exists p, q :: 0 <= p < q < |ys| && ys[p] == x && ys[q] == y
  }

  lemma InOrderBelow<T>(x: T, y: T, first: T, ys: seq<T>)
    requires y in ys && (x == first || AreInOrder(x, y, ys))
    ensures AreInOrder(x, y, [first] + ys)
  {
    var all := [first] + ys;
    if AreInOrder(x, y, ys) {
      var p, q :| 0 <= p < q < |ys| && ys[p] == x && ys[q] == y;
      assert all[p + 1] == x && all[q + 1] == y;
    } else {
      var q :| 0 <= q < |ys| && ys[q] == y;
      assert all[0] == x && all[q + 1] == y;
    }
  }

  lemma {:induction false} IdleIsInOrder(engines: seq<Worker>, now: real, threshold: real)
    ensures InOrderOf(IdleOf(engines, now, threshold), engines)
  {
    if engines != [] {
      var idle, rest, tail := IdleOf(engines, now, threshold), IdleOf(engines[1..], now, threshold), engines[1..];
      IdleIsInOrder(tail, now, threshold);
      assert engines == [engines[0]] + tail;
      forall i, j | 0 <= i < j < |idle| ensures AreInOrder(idle[i], idle[j], engines) {
        var shift := |idle| - |rest|;
        assert idle[j] == rest[j - shift] && (i == shift - 1 || idle[i] == rest[i - shift]);
        hide AreInOrder;
        InOrderBelow(idle[i], idle[j], engines[0], tail);
      }
    }
  }

  /** Engines whose stop raises: only an engine still running has anything to shut down. */
  ghost function Raising(engines: seq<Worker>, failing: set<Worker>): set<Worker>
    reads engines
  {
    set e | e in engines && e in failing && e.running
  }

  lemma PrefixesOfTail<T>(xs: seq<T>, i: nat)
    requires 0 < i < |xs|
    ensures xs[..i + 1][1..] == xs[1..][..i] && xs[..i][1..] == xs[1..][..i - 1] && xs[1..][i - 1] == xs[i]
    ensures xs[..i + 1][0] == xs[..i][0] == xs[0]
  {}

  lemma {:induction false} IdleOfPrefix(engines: seq<Worker>, i: nat, now: real, threshold: real)
    requires i < |engines|
    ensures IdleOf(engines[..i + 1], now, threshold)
         == IdleOf(engines[..i], now, threshold) + if IsIdleAt(engines[i], now, threshold) then [engines[i]] else []
  {
    if i == 0 {
      assert engines[..1] == [engines[0]] && engines[..0] == [];
    } else {
      PrefixesOfTail(engines, i);
      IdleOfPrefix(engines[1..], i - 1, now, threshold);
      hide Distinct;
    }
  }

  class WorkerPoolManager {
    const redis: Redis
    const db: Database
    const minWorkers: int
    const maxWorkers: int
    const idleTimeout: real
    const concurrency: nat
    const backoff: real

    var activeEngines: seq<Worker>
    var running: bool
    /** Every value the list has had. */
    ghost var history: seq<seq<Worker>>

    ghost predicate Valid()
      reads this
    {
      Distinct(activeEngines)
    }

    constructor (redis: Redis, db: Database, minWorkers: int, maxWorkers: int, idleTimeout: real, concurrency: nat, backoff: real)
      ensures Valid() && activeEngines == [] && !running && history == []
      ensures this.redis == redis && this.db == db && this.minWorkers == minWorkers && this.maxWorkers == maxWorkers
    {
      this.redis, this.db, this.minWorkers, this.maxWorkers := redis, db, minWorkers, maxWorkers;
      this.idleTimeout, this.concurrency, this.backoff := idleTimeout, concurrency, backoff;
      activeEngines, running, history := [], false, [];
    }

    /** The tasks waiting in the four lists. */
    method GetTotalQueueDepth() returns (total: nat)
      ensures total == |redis.critical| + |redis.high| + |redis.medium| + |redis.low|
    {
      var queues := [Critical, High, Medium, Low];
      total := 0;
      for i := 0 to |queues|
        invariant i == 0 ==> total == 0
        invariant i == 1 ==> total == |redis.critical|
        invariant i == 2 ==> total == |redis.critical| + |redis.high|
        invariant i == 3 ==> total == |redis.critical| + |redis.high| + |redis.medium|
        invariant i == 4 ==> total == |redis.critical| + |redis.high| + |redis.medium| + |redis.low|
      {
        total := total + |redis.Contents().At(queues[i])|;
      }
    }

    /** Adds `count` new engines, or as many as the ceiling allows. */
    method ScaleUp(count: int, now: real) returns (ghost spawned: seq<Worker>)
      requires Valid()
      modifies this`activeEngines, this`history
      ensures Valid()
      ensures |spawned| == Additions(|old(activeEngines)|, count, maxWorkers)
      ensures activeEngines == old(activeEngines) + spawned
      ensures history == old(history) + ScaleTrace(old(activeEngines), spawned)
      ensures Distinct(spawned) && forall e :: e in spawned ==> fresh(e) && e.Valid()
    {
      spawned := [];
      var i := 0;
      while i < count && |activeEngines| < maxWorkers
        invariant i == |spawned| && |spawned| <= Additions(|old(activeEngines)|, count, maxWorkers)
        invariant activeEngines == old(activeEngines) + spawned
        invariant history == old(history) + ScaleTrace(old(activeEngines), spawned)
        invariant Distinct(activeEngines) && Distinct(spawned)
        invariant forall e :: e in spawned ==> fresh(e) && e.Valid()
        invariant forall e :: e in old(activeEngines) ==> old(allocated(e))
        decreases count - i
      {
        var engine := new Worker(redis, db, concurrency, backoff, now);
        activeEngines := activeEngines + [engine];
        ScaleOneMore(old(activeEngines), spawned, engine);
        spawned := spawned + [engine];
        history := history + [activeEngines];
        i := i + 1;
      }
    }

    method Start(now: real) returns (ghost spawned: seq<Worker>)
      requires Valid()
      modifies this
      ensures Valid() && running
      ensures |spawned| == Additions(|old(activeEngines)|, minWorkers, maxWorkers)
      ensures activeEngines == old(activeEngines) + spawned
      ensures history == old(history) + ScaleTrace(old(activeEngines), spawned)
      ensures old(activeEngines) == [] ==> InBounds(|activeEngines|, minWorkers, maxWorkers)
    {
      running := true;
      spawned := ScaleUp(minWorkers, now);
    }

    /** The engines idle now; asking renews the last active time of the busy ones. */
    method IdleSnapshot(now: real) returns (idle: seq<Worker>)
      requires Valid()
      modifies activeEngines
      ensures idle == old(IdleOf(activeEngines, now, idleTimeout)) && IsSnapshot(activeEngines, idle)
      ensures forall e :: e in idle <==> e in activeEngines && old(e.tasks) == {} && now - old(e.lastActive) > idleTimeout
      ensures InOrderOf(idle, activeEngines)
      ensures forall e :: e in activeEngines ==> e.running == old(e.running) && e.tasks == old(e.tasks)
    {
      idle := [];
      ghost var engines := activeEngines;
      IdleIsInOrder(activeEngines, now, idleTimeout);
      IdleMembers(activeEngines, now, idleTimeout);
      forall i | 0 <= i < |engines|
        ensures IdleOf(engines[..i + 1], now, idleTimeout)
             == IdleOf(engines[..i], now, idleTimeout) + if IsIdleAt(engines[i], now, idleTimeout) then [engines[i]] else []
      {
        IdleOfPrefix(engines, i, now, idleTimeout);
      }
      for i := 0 to |activeEngines|
        invariant activeEngines == engines
        invariant idle == old(IdleOf(activeEngines[..i], now, idleTimeout))
        invariant forall e :: e in activeEngines ==> e.running == old(e.running) && e.tasks == old(e.tasks)
        invariant forall j :: i <= j < |activeEngines| ==> activeEngines[j].lastActive == old(activeEngines[j].lastActive)
      {
        var yes := activeEngines[i].IsIdle(now, idleTimeout);
        if yes {
          idle := idle + [activeEngines[i]];
        }
      }
      assert activeEngines[..|activeEngines|] == activeEngines;
    }

    /** Stops one engine and takes it out of the list, where it stays when its shutdown raises. */
    method Retire(engine: Worker, failing: set<Worker>) returns (done: bool)
      modifies this`activeEngines, this`history, engine`running
      ensures done == !(old(engine.running) && engine in failing) && !engine.running
      ensures activeEngines == if done then Removed(old(activeEngines), engine) else old(activeEngines)
      ensures history == old(history) + if done then [activeEngines] else []
    {
      done := !(engine.running && engine in failing);
      engine.Stop();
      if done {
        activeEngines := Removed(activeEngines, engine);
        history := history + [activeEngines];
      }
    }

    /** Stops the engines of a snapshot one by one, down to the floor.  `failing` holds the engines whose
        shutdown raises: the first of them ends the call, stopped but still in the list. */
    method StopIdle(idle: seq<Worker>, failing: set<Worker>) returns (completed: bool)
      requires IsSnapshot(activeEngines, idle)
      modifies this`activeEngines, this`history, activeEngines
      ensures Distinct(activeEngines)
      ensures completed == CleanupCompletes(old(activeEngines), idle, old(Raising(activeEngines, failing)), minWorkers)
      ensures var trace := CleanupTrace(old(activeEngines), idle, old(Raising(activeEngines, failing)), minWorkers);
              && history == old(history) + trace
              && activeEngines == Last(old(activeEngines), trace)
              && |trace| <= |idle| && (forall j :: 0 <= j < |trace| ==> !idle[j].running)
              && (!completed ==> |trace| < |idle| && !idle[|trace|].running && idle[|trace|] in activeEngines
                                 && idle[|trace|] in failing && old(idle[|trace|].running))
    {
      ghost var engines, raising := activeEngines, Raising(activeEngines, failing);
      CleaningStarts(engines, idle, raising, minWorkers);
      assert forall e: Worker :: e in raising <==> e in engines && e in failing && old(e.running);
      hide *;
      ghost var trace: seq<seq<Worker>> := [];
      var i := 0;
      completed := true;
      while i < |idle| && |activeEngines| > minWorkers && completed
        invariant i <= |idle| && |trace| == i
        invariant !completed ==> i < |idle| && idle[i] in raising && !idle[i].running && idle[i] in failing && old(idle[i].running)
        invariant IsCleaning(engines, idle, raising, minWorkers, trace, activeEngines, i)
        invariant !completed ==> |activeEngines| > minWorkers
        invariant history == old(history) + trace
        invariant forall j :: 0 <= j < i ==> !idle[j].running
        invariant completed ==> forall j :: i <= j < |idle| ==> idle[j].running == old(idle[j].running)
        decreases |idle| - i, completed
      {
        var engine := idle[i];
        NextOfSnapshot(engines, idle, i);
        ghost var current := activeEngines;
        completed := Retire(engine, failing);
        if completed {
          CleaningGoesOn(engines, idle, raising, minWorkers, trace, current, i);
          Appended(old(history), trace, activeEngines);
          trace := trace + [activeEngines];
          i := i + 1;
        }
      }
      CleaningEnds(engines, idle, raising, minWorkers, trace, activeEngines, i);
    }

    method CleanupIdleWorkers(now: real, failing: set<Worker>) returns (completed: bool, ghost idle: seq<Worker>)
      requires Valid()
      modifies this`activeEngines, this`history, activeEngines
      ensures Valid()
      ensures idle == old(IdleOf(activeEngines, now, idleTimeout)) && IsSnapshot(old(activeEngines), idle)
      ensures completed == CleanupCompletes(old(activeEngines), idle, old(Raising(activeEngines, failing)), minWorkers)
      ensures var trace := CleanupTrace(old(activeEngines), idle, old(Raising(activeEngines, failing)), minWorkers);
              && history == old(history) + trace
              && activeEngines == Last(old(activeEngines), trace)
              && |trace| <= |idle| && forall j :: 0 <= j < |trace| ==> !idle[j].running
    {
      var snapshot := IdleSnapshot(now);
      idle := snapshot;
      assert Raising(activeEngines, failing) == old(Raising(activeEngines, failing));
      hide *;
      completed := StopIdle(snapshot, failing);
    }

    /** One pass of the monitor.  `readable` is false when reading the depth raises. */
    method MonitorPass(now: real, readable: bool, failing: set<Worker>)
        returns (completed: bool, ghost seen: Observation<Worker>)
      requires Valid()
      modifies this`activeEngines, this`history, activeEngines
      ensures Valid()
      ensures seen.depth == if readable then Some(|redis.critical| + |redis.high| + |redis.medium| + |redis.low|) else None
      ensures readable ==> seen.idle == old(IdleOf(activeEngines, now, idleTimeout))
      ensures seen.raising == old(Raising(activeEngines, failing))
      ensures IsPossible(old(activeEngines), seen, minWorkers, maxWorkers)
      ensures completed == Completes(old(activeEngines), seen, minWorkers)
      ensures history == old(history) + PassTrace(old(activeEngines), seen, minWorkers)
      ensures activeEngines == Last(old(activeEngines), PassTrace(old(activeEngines), seen, minWorkers))
    {
      seen := Observation(None, [], Raising(activeEngines, failing), []);
      completed := false;
      hide IdleOf;
      hide CleanupTrace;
      hide CleanupCompletes;
      hide Without;
      hide Leading;
      if readable {
        var depth := GetTotalQueueDepth();
        ghost var idle, spawned: seq<Worker> := [], [];
        completed, idle := CleanupIdleWorkers(now, failing);
        CleanupDropsLeadingIdle(old(activeEngines), idle, seen.raising, minWorkers);
        ghost var cleaned := activeEngines;
        if completed {
          var desired := DesiredWorkers(depth, minWorkers);
          if |activeEngines| < desired {
            var toAdd := Min(desired - |activeEngines|, maxWorkers - |activeEngines|);
            if toAdd > 0 {
              spawned := ScaleUp(toAdd, now);
            }
          }
        }
        seen := Observation(Some(depth), idle, seen.raising, spawned);
        ScaleEndsWith(cleaned, spawned);
        assert PassTrace(old(activeEngines), seen, minWorkers) == CleanupTrace(old(activeEngines), idle, seen.raising, minWorkers) + ScaleTrace(cleaned, spawned);
      }
    }

    /** Stops every engine and forgets them. */
    method Stop()
      modifies this`activeEngines, this`running, activeEngines
      ensures activeEngines == [] && !running
      ensures forall e :: e in old(activeEngines) ==> !e.running
    {
      running := false;
      ghost var engines := activeEngines;
      for i := 0 to |activeEngines|
        invariant activeEngines == engines && !running
        invariant forall j :: 0 <= j < i ==> !engines[j].running
      {
        activeEngines[i].Stop();
      }
      activeEngines := [];
    }
  }
}
