/** The worker engine as an object: its sections that touch the database and the queue, one turn of its
    loop, and the processing of one payload, proved to be what the step system does when no other
    worker interferes. */
module WorkerEngine {
  import opened Wrappers
  import opened Payloads
  import opened TaskQueue
  import opened Engine
  import opened RedisQueue

  /** The task and scan rows, shared by all workers. */
  class Database {
    var tasks: Tasks
    var scans: Scans

    constructor ()
      ensures tasks == map[] && scans == map[]
    {
      tasks, scans := map[], map[];
    }
  }

  // ---------------------------------------------------------------- a run that nobody interrupts

  /** The system after run `id` has worked until it is over, and nothing else has happened.  `granted`
      is the answer of the rate limiter and `ok` the outcome of the request. */
  function Uninterrupted(w: World, id: nat, granted: bool, ok: bool): (f: World)
    requires id in w.runs && w.runs[id].engine in w.workers
    ensures f.workers.Keys == w.workers.Keys
    decreases Rank(w.runs[id].stage)
  {
    var w' := WorkStep(w, id, if w.runs[id].stage.Limiting? then granted else ok);
    if w.runs[id].stage.Releasing? then w' else Uninterrupted(w', id, granted, ok)
  }

  class Worker {
    const redis: Redis
    const db: Database
    const consumer: QueueConsumer
    const publisher: QueuePublisher
    const concurrency: nat
    const backoff: real

    var permits: nat
    var running: bool
    var tasks: set<nat>
    var lastActive: real

    ghost predicate Valid()
      reads this
    {
      && consumer.redis == redis && publisher.redis == redis
      && permits + |tasks| == concurrency
    }

    /** What the step system sees of this worker when run 0 carries payload `p` at `stage`. */
    ghost function Snapshot(now: real, p: Payload, stage: Stage): World
      reads this, redis, db
    {
      World(Config(concurrency, backoff), now, redis.Contents(), db.tasks, db.scans,
            map[0 := Engine.Worker(running, permits, AwaitingPermit)], map[0 := Run(0, p, stage)])
    }

    constructor (redis: Redis, db: Database, concurrency: nat, backoff: real, now: real)
      ensures Valid() && this.redis == redis && this.db == db && this.backoff == backoff
      ensures this.concurrency == permits == concurrency && tasks == {} && !running && lastActive == now
      ensures fresh(consumer) && fresh(publisher)
    {
      this.redis, this.db, this.concurrency, this.backoff := redis, db, concurrency, backoff;
      consumer := new QueueConsumer(redis);
      publisher := new QueuePublisher(redis);
      permits, running, tasks, lastActive := concurrency, false, {}, now;
    }

    /** A worker with active tasks is not idle, and asking renews its last active time. */
    method IsIdle(now: real, threshold: real) returns (idle: bool)
      modifies this`lastActive
      ensures idle <==> tasks == {} && now - old(lastActive) > threshold
      ensures lastActive == if tasks != {} then now else old(lastActive)
    {
      if tasks != {} {
        lastActive := now;
        return false;
      }
      return now - lastActive > threshold;
    }

    method Stop()
      modifies this`running
      ensures !running
    {
      running := false;
    }

    /** One turn of the loop after the semaphore has let it through: a stopped worker gives the permit
        back; an empty poll does too; a payload keeps it until its run is over. */
    method Turn(now: real, draw: real, run: nat) returns (payload: Option<Payload>, due: seq<Payload>)
      requires Valid() && permits > 0 && run !in tasks
      modifies this`permits, this`tasks, this`lastActive, redis
      ensures Valid()
      ensures !running ==> payload == None && redis.Contents() == old(redis.Contents()) && permits == old(permits)
      ensures running ==> IsDueRead(old(redis.delayed), now, due)
                          && (redis.Contents(), payload) == Polled(Promoted(old(redis.Contents()), now, due), draw)
      ensures tasks == old(tasks) + if payload.Some? then {run} else {}
      ensures lastActive == if payload.Some? then now else old(lastActive)
    {
      hide Promoted, Polled, IsDueRead;
      permits, payload, due := permits - 1, None, [];
      if !running {
        permits := permits + 1;
        return;
      }
      payload, due := consumer.Consume(now, draw);
      if payload.None? {
        permits := permits + 1;
        return;
      }
      lastActive := now;
      tasks := tasks + {run};
    }

    method MarkTaskProcessing(id: nat)
      modifies db`tasks
      ensures db.tasks == WithStatus(old(db.tasks), id, PROCESSING)
      ensures db.tasks == if id in old(db.tasks) then old(db.tasks)[id := old(db.tasks)[id].(status := PROCESSING)] else old(db.tasks)
    {
      UpdateTaskStatus(id, PROCESSING);
    }

    method UpdateTaskStatus(id: nat, status: TaskStatus)
      modifies db`tasks
      ensures db.tasks == WithStatus(old(db.tasks), id, status)
      ensures db.tasks == if id in old(db.tasks) then old(db.tasks)[id := old(db.tasks)[id].(status := status)] else old(db.tasks)
    {
      if id in db.tasks {
        db.tasks := db.tasks[id := db.tasks[id].(status := status)];
      }
    }

    /** Looks at the status of every task of the scan. */
    method EvaluateScanCompletion(scan: nat)
      modifies db`scans
      ensures db.scans == Evaluated(db.tasks, old(db.scans), scan)
      ensures db.scans == if scan in old(db.scans)
                             && (exists t :: t in db.tasks && db.tasks[t].scanId == scan)
                             && (forall t :: t in db.tasks && db.tasks[t].scanId == scan ==> db.tasks[t].status in {SUCCESS, TaskStatus.FAILED})
                          then old(db.scans)[scan := if (forall t :: t in db.tasks && db.tasks[t].scanId == scan ==> db.tasks[t].status == SUCCESS)
                                                     then COMPLETED else ScanStatus.FAILED]
                          else old(db.scans)
    {
      if scan !in db.scans {
        return;
      }
      var any, active, succeeded := false, false, true;
      var rest := db.tasks.Keys;
      while rest != {}
        invariant rest <= db.tasks.Keys
        invariant any <==> exists t :: t in db.tasks.Keys - rest && db.tasks[t].scanId == scan
        invariant active <==> exists t :: t in db.tasks.Keys - rest && db.tasks[t].scanId == scan && IsActive(db.tasks[t].status)
        invariant succeeded <==> forall t :: t in db.tasks.Keys - rest && db.tasks[t].scanId == scan ==> db.tasks[t].status == SUCCESS
        decreases rest
      {
        var t :| t in rest;
        rest := rest - {t};
        if db.tasks[t].scanId == scan {
          any := true;
          active := active || IsActive(db.tasks[t].status);
          succeeded := succeeded && db.tasks[t].status == SUCCESS;
        }
      }
      assert any <==> HasTasks(db.tasks, scan);
      assert active <==> AnyActive(db.tasks, scan);
      assert succeeded <==> AllSucceeded(db.tasks, scan);
      if any && !active {
        db.scans := db.scans[scan := if succeeded then COMPLETED else ScanStatus.FAILED];
      }
    }

    /** Saves the response, counts the attempt and has the scan evaluated. */
    method SaveResponse(id: nat, status: TaskStatus)
      modifies db
      ensures db.tasks == WithResult(old(db.tasks), id, status)
      ensures db.tasks == if id in old(db.tasks)
                          then old(db.tasks)[id := old(db.tasks)[id].(status := status, attempts := old(db.tasks)[id].attempts + 1)]
                          else old(db.tasks)
      ensures db.scans == if id in old(db.tasks) then Evaluated(db.tasks, old(db.scans), old(db.tasks)[id].scanId) else old(db.scans)
    {
      if id in db.tasks {
        db.tasks := db.tasks[id := db.tasks[id].(status := status, attempts := db.tasks[id].attempts + 1)];
        EvaluateScanCompletion(db.tasks[id].scanId);
      }
    }

    /** Reschedules the payload with one more attempt, or gives it up. */
    method HandleRetry(p: Payload, now: real)
      requires Valid()
      modifies redis, db`tasks
      ensures if p.attempt < p.maxRetries
              then && db.tasks == WithStatus(old(db.tasks), p.taskId, RETRYING)
                   && redis.Contents() == Scheduled(old(redis.Contents()), p.(attempt := p.attempt + 1), now + RetryDelay(backoff, p.attempt + 1))
              else && db.tasks == WithStatus(old(db.tasks), p.taskId, TaskStatus.FAILED)
                   && redis.Contents() == DeadLettered(old(redis.Contents()), p, RetriesExhausted)
      ensures if p.attempt < p.maxRetries
              then && redis.delayed == old(redis.delayed)[p.(attempt := p.attempt + 1) := now + backoff * Pow2(p.attempt) as real]
                   && redis.dlq == old(redis.dlq)
              else redis.dlq == old(redis.dlq) + [DeadLetter(p, RetriesExhausted)] && redis.delayed == old(redis.delayed)
    {
      if p.attempt < p.maxRetries {
        var next := p.(attempt := p.attempt + 1);
        RetryDelayIsPower(backoff, p.attempt + 1);
        assert p.attempt + 1 - 1 == p.attempt;
        assert RetryDelay(backoff, next.attempt) == backoff * Pow2(p.attempt) as real;
        UpdateTaskStatus(next.taskId, RETRYING);
        publisher.ScheduleDelayed(next, RetryDelay(backoff, next.attempt), now);
      } else {
        UpdateTaskStatus(p.taskId, TaskStatus.FAILED);
        consumer.SendToDlq(p, RetriesExhausted);
      }
    }

    /** The whole life of a payload run, with the answer of the rate limiter and the outcome of the
        request as inputs: exactly what the step system does with an uninterrupted run.  On every path
        the permit is released once and the run forgotten. */
    method ProcessPayload(run: nat, p: Payload, granted: bool, ok: bool, now: real)
      requires Valid() && run in tasks
      modifies this`permits, this`tasks, redis, db
      ensures Valid()
      ensures tasks == old(tasks) - {run}
      ensures var w := Uninterrupted(old(Snapshot(now, p, Starting)), 0, granted, ok);
              redis.Contents() == w.store && db.tasks == w.tasks && db.scans == w.scans && permits == w.workers[0].permits
    {
      UninterruptedRun(Snapshot(now, p, Starting), 0, granted, ok);
      MarkTaskProcessing(p.taskId);
      if !granted {
        SaveResponse(p.taskId, TaskStatus.FAILED);
        consumer.SendToDlq(p, RateLimitTimeout);
      } else if ok {
        SaveResponse(p.taskId, SUCCESS);
      } else {
        SaveResponse(p.taskId, TaskStatus.FAILED);
        HandleRetry(p, now);
      }
      permits := permits + 1;
      tasks := tasks - {run};
    }
  }

  /** What an uninterrupted run comes to, section by section. */
  lemma UninterruptedRun(w: World, id: nat, granted: bool, ok: bool)
    requires id in w.runs && w.runs[id].engine in w.workers && w.runs[id].stage == Starting
    ensures var p, e, t := w.runs[id].payload, w.runs[id].engine, w.runs[id].payload.taskId;
            var marked := WithStatus(w.tasks, t, PROCESSING);
            var saved := WithResult(marked, t, if granted && ok then SUCCESS else TaskStatus.FAILED);
            var judged := if t in w.tasks then Evaluated(saved, w.scans, w.tasks[t].scanId) else w.scans;
            var f := Uninterrupted(w, id, granted, ok);
            && f.scans == judged
            && e in f.workers && f.workers[e].permits == w.workers[e].permits + 1
            && f.runs == w.runs - {id}
            && if granted && ok then f.store == w.store && f.tasks == saved
               else if !granted then f.store == DeadLettered(w.store, p, RateLimitTimeout) && f.tasks == saved
               else if p.attempt < p.maxRetries then
                 && f.store == Scheduled(w.store, p.(attempt := p.attempt + 1), w.clock + RetryDelay(w.cfg.backoff, p.attempt + 1))
                 && f.tasks == WithStatus(saved, t, RETRYING)
               else
                 && f.store == DeadLettered(w.store, p, RetriesExhausted)
                 && f.tasks == WithStatus(saved, t, TaskStatus.FAILED)
  {
    hide Evaluated;
    hide WithResult;
    hide RetryDelay;
    hide Scheduled;
    hide DeadLettered;
    var w1 := WorkStep(w, id, ok);
    var w2 := WorkStep(w1, id, granted);
    assert Uninterrupted(w, id, granted, ok) == Uninterrupted(w1, id, granted, ok) == Uninterrupted(w2, id, granted, ok);
    assert w2.runs == w.runs[id := w2.runs[id]];
    if granted {
      var w3 := WorkStep(w2, id, ok);
      assert Uninterrupted(w2, id, granted, ok) == Uninterrupted(w3, id, granted, ok);
      SavingOnwards(w3, id, granted, ok, if ok then Ok else Failure);
    } else {
      SavingOnwards(w2, id, granted, ok, TimedOut);
    }
  }

  /** From the save of the response to the end. */
  lemma SavingOnwards(w: World, id: nat, granted: bool, ok: bool, o: Outcome)
    requires id in w.runs && w.runs[id].engine in w.workers && w.runs[id].stage == Saving(o)
    ensures var p, e, t := w.runs[id].payload, w.runs[id].engine, w.runs[id].payload.taskId;
            var saved := WithResult(w.tasks, t, SavedStatus(o));
            var f := Uninterrupted(w, id, granted, ok);
            && f.scans == (if t in w.tasks then Evaluated(saved, w.scans, w.tasks[t].scanId) else w.scans)
            && e in f.workers && f.workers[e].permits == w.workers[e].permits + 1
            && f.runs == w.runs - {id}
            && match o
               case Ok => f.store == w.store && f.tasks == saved
               case TimedOut => f.store == DeadLettered(w.store, p, RateLimitTimeout) && f.tasks == saved
               case Failure =>
                 if p.attempt < p.maxRetries then
                   && f.store == Scheduled(w.store, p.(attempt := p.attempt + 1), w.clock + RetryDelay(w.cfg.backoff, p.attempt + 1))
                   && f.tasks == WithStatus(saved, t, RETRYING)
                 else
                   && f.store == DeadLettered(w.store, p, RetriesExhausted)
                   && f.tasks == WithStatus(saved, t, TaskStatus.FAILED)
  {
    hide Evaluated;
    hide WithStatus;
    hide WithResult;
    hide RetryDelay;
    hide Scheduled;
    hide DeadLettered;
    var t := w.runs[id].payload.taskId;
    var w1 := WorkStep(w, id, ok);
    assert Uninterrupted(w, id, granted, ok) == Uninterrupted(w1, id, granted, ok);
    if t in w.tasks {
      var w2 := WorkStep(w1, id, ok);
      assert Uninterrupted(w1, id, granted, ok) == Uninterrupted(w2, id, granted, ok);
      AfterSaveOnwards(w2, w.runs[id], id, granted, ok, o);
      assert w2.runs - {id} == w.runs - {id};
    } else {
      AfterSaveOnwards(w1, w.runs[id], id, granted, ok, o);
      assert w1.runs - {id} == w.runs - {id};
    }
  }

  /** From the retry decision to the end. */
  lemma AfterSaveOnwards(w: World, r: Run, id: nat, granted: bool, ok: bool, o: Outcome)
    requires r.stage == Saving(o) && r.engine in w.workers && id in w.runs && w.runs[id] == AfterSave(r, o)
    ensures var p, e, t, f := r.payload, r.engine, r.payload.taskId, Uninterrupted(w, id, granted, ok);
            && f.scans == w.scans
            && e in f.workers && f.workers[e].permits == w.workers[e].permits + 1
            && f.runs == w.runs - {id}
            && match o
               case Ok => f.store == w.store && f.tasks == w.tasks
               case TimedOut => f.store == DeadLettered(w.store, p, RateLimitTimeout) && f.tasks == w.tasks
               case Failure =>
                 if p.attempt < p.maxRetries then
                   && f.store == Scheduled(w.store, p.(attempt := p.attempt + 1), w.clock + RetryDelay(w.cfg.backoff, p.attempt + 1))
                   && f.tasks == WithStatus(w.tasks, t, RETRYING)
                 else
                   && f.store == DeadLettered(w.store, p, RetriesExhausted)
                   && f.tasks == WithStatus(w.tasks, t, TaskStatus.FAILED)
  {
    hide Evaluated;
    hide WithStatus;
    hide WithResult;
    hide RetryDelay;
    hide Scheduled;
    hide DeadLettered;
    match o
    case Ok => ReleasedLast(w, id, granted, ok);
    case TimedOut => BuriedLast(w, id, granted, ok);
    case Failure =>
      var w1 := WorkStep(w, id, ok);
      assert Uninterrupted(w, id, granted, ok) == Uninterrupted(w1, id, granted, ok);
      if r.payload.attempt < r.payload.maxRetries {
        ScheduledLast(w1, id, granted, ok);
      } else {
        BuriedLast(w1, id, granted, ok);
      }
      assert w1.runs - {id} == w.runs - {id};
  }

  lemma ReleasedLast(w: World, id: nat, granted: bool, ok: bool)
    requires id in w.runs && w.runs[id].stage == Releasing && w.runs[id].engine in w.workers
    ensures var e, f := w.runs[id].engine, Uninterrupted(w, id, granted, ok);
            && f.store == w.store && f.tasks == w.tasks && f.scans == w.scans && f.runs == w.runs - {id}
            && e in f.workers && f.workers[e].permits == w.workers[e].permits + 1
  {}

  lemma BuriedLast(w: World, id: nat, granted: bool, ok: bool)
    requires id in w.runs && w.runs[id].stage.Burying? && w.runs[id].engine in w.workers
    ensures var r, e, f := w.runs[id], w.runs[id].engine, Uninterrupted(w, id, granted, ok);
            && f.store == DeadLettered(w.store, r.payload, r.stage.reason)
            && f.tasks == w.tasks && f.scans == w.scans && f.runs == w.runs - {id}
            && e in f.workers && f.workers[e].permits == w.workers[e].permits + 1
  {
    var w1 := WorkStep(w, id, ok);
    ReleasedLast(w1, id, granted, ok);
    assert w1.runs - {id} == w.runs - {id};
  }

  lemma ScheduledLast(w: World, id: nat, granted: bool, ok: bool)
    requires id in w.runs && w.runs[id].stage == Scheduling && w.runs[id].engine in w.workers
    ensures var r, e, f := w.runs[id], w.runs[id].engine, Uninterrupted(w, id, granted, ok);
            && f.store == Scheduled(w.store, r.payload, w.clock + RetryDelay(w.cfg.backoff, r.payload.attempt))
            && f.tasks == w.tasks && f.scans == w.scans && f.runs == w.runs - {id}
            && e in f.workers && f.workers[e].permits == w.workers[e].permits + 1
  {
    var w1 := WorkStep(w, id, ok);
    ReleasedLast(w1, id, granted, ok);
    assert w1.runs - {id} == w.runs - {id};
  }

  /** What an uninterrupted run leaves alone. */
  lemma {:induction false} UninterruptedFrame(w: World, id: nat, granted: bool, ok: bool)
    requires id in w.runs && w.runs[id].engine in w.workers
    ensures var f, e := Uninterrupted(w, id, granted, ok), w.runs[id].engine;
            && f.cfg == w.cfg && f.clock == w.clock && f.tasks.Keys == w.tasks.Keys
            && f.workers == w.workers[e := w.workers[e].(permits := w.workers[e].permits + 1)]
    decreases Rank(w.runs[id].stage)
  {
    var choice := if w.runs[id].stage.Limiting? then granted else ok;
    var w' := WorkStep(w, id, choice);
    WorkFrameAt(w, id, choice);
    if !w.runs[id].stage.Releasing? {
      UninterruptedFrame(w', id, granted, ok);
    }
  }

  lemma WorkFrameAt(w: World, id: nat, ok: bool)
    requires id in w.runs && w.runs[id].engine in w.workers
    ensures var w', e := WorkStep(w, id, ok), w.runs[id].engine;
            && w'.cfg == w.cfg && w'.clock == w.clock && w'.tasks.Keys == w.tasks.Keys
            && if w.runs[id].stage.Releasing? then w'.workers == w.workers[e := w.workers[e].(permits := w.workers[e].permits + 1)]
               else w'.workers == w.workers && id in w'.runs && w'.runs[id].engine == e
  {
    hide Evaluated;
    hide RetryDelay;
    hide Scheduled;
    hide DeadLettered;
  }
}
