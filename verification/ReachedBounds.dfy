/** The retry bounds are exact.  For every pool size and every number of retries there is a run that costs as
    much as any can: whenever the task is rescheduled, all workers read it before any of them moves it. */
module ReachedBounds {
  import opened Wrappers
  import opened Payloads
  import opened TaskQueue
  import opened Engine
  import opened Tariffs
  import opened RetryBudget
  import opened RetryBounds
  import opened PoolSizes
  import opened Reachability
  import WorkerEngine

  // ---------------------------------------------------------------- runs and what they have cost

  /** Some run ends in `w` and has spent that much on task 0. */
  ghost predicate Reached(w: World, tf: Tariff, spent: real) {
    exists ws: seq<World>, steps: seq<Step> :: Spends(ws, steps, w, tf, spent)
  }

  ghost predicate Spends(ws: seq<World>, steps: seq<Step>, w: World, tf: Tariff, spent: real) {
    EndsIn(ws, steps, w, false) && Spent(ws, steps, tf, 0, |steps|) == spent
  }

  lemma {:induction false} SpentBefore(ws: seq<World>, steps: seq<Step>, vs: seq<World>, ts: seq<Step>, tf: Tariff, n: nat)
    requires n <= |steps| && |ws| == |steps| + 1 && |vs| == |ts| + 1 && ws <= vs && steps <= ts
    ensures Spent(vs, ts, tf, 0, n) == Spent(ws, steps, tf, 0, n)
  {
    if n > 0 {
      SpentBefore(ws, steps, vs, ts, tf, n - 1);
      assert vs[n - 1] == ws[n - 1] && ts[n - 1] == steps[n - 1];
    }
  }

  lemma Further(w: World, tf: Tariff, spent: real, step: Step, w': World)
    requires Reached(w, tf, spent) && Enabled(w, step) && FewDue(w, step) && Next(w, step) == w'
    ensures Reached(w', tf, spent + Price(tf, w, step, 0))
  {
    var ws: seq<World>, steps: seq<Step> :| Spends(ws, steps, w, tf, spent);
    var vs, ts := ws + [w'], steps + [step];
    hide Next, FewDue, Enabled, Price;
    OneMore(ws, steps, w, false, step, w');
    SpentBefore(ws, steps, vs, ts, tf, |steps|);
    assert vs[|steps|] == w && ts[|steps|] == step;
    assert Spends(vs, ts, w', tf, spent + Price(tf, w, step, 0));
  }

  lemma NothingSpent(w: World, tf: Tariff)
    requires Initial(w)
    ensures Reached(w, tf, 0.0)
  {
    assert EndsIn([w], [], w, false);
    assert Spends([w], [], w, tf, 0.0);
  }

  // ---------------------------------------------------------------- one execution that fails

  /** The attempt for which the run will reschedule its task, if it will. */
  function RetryAhead(r: Run, granted: bool, ok: bool): Option<nat> {
    var next := if r.payload.attempt < r.payload.maxRetries then Some(r.payload.attempt + 1) else None;
    match r.stage
    case Starting => if granted && !ok then next else None
    case Limiting => if granted && !ok then next else None
    case Executing => if !ok then next else None
    case Saving(o) => if o.Failure? then next else None
    case Evaluating(o, _) => if o.Failure? then next else None
    case MarkingRetry => Some(r.payload.attempt)
    case Scheduling => Some(r.payload.attempt)
    case _ => None
  }

  function RetryCost(tf: Tariff, attempt: Option<nat>): real {
    if attempt.Some? then RetryPrice(tf, attempt.value) else 0.0
  }

  lemma WorkPrice(w: World, id: nat, granted: bool, ok: bool, tf: Tariff)
    requires id in w.runs && w.runs[id].engine in w.workers && w.runs[id].payload.taskId == 0
    ensures var choice := if w.runs[id].stage.Limiting? then granted else ok;
            var w', before := WorkStep(w, id, choice), RetryCost(tf, RetryAhead(w.runs[id], granted, ok));
            if w.runs[id].stage.Releasing? then Price(tf, w, Work(id, choice), 0) == before == 0.0
            else && id in w'.runs && w'.runs[id].engine == w.runs[id].engine && w'.runs[id].payload.taskId == 0 && w'.workers == w.workers
                 && Price(tf, w, Work(id, choice), 0) + RetryCost(tf, RetryAhead(w'.runs[id], granted, ok)) == before
  {
    hide RetryPrice, Evaluated, WithStatus, WithResult, Scheduled, DeadLettered, RetryDelay;
  }

  lemma {:induction false} UninterruptedCosts(w: World, id: nat, granted: bool, ok: bool, tf: Tariff, spent: real)
    requires Reached(w, tf, spent) && id in w.runs && w.runs[id].engine in w.workers && w.runs[id].payload.taskId == 0
    ensures Reached(WorkerEngine.Uninterrupted(w, id, granted, ok), tf, spent + RetryCost(tf, RetryAhead(w.runs[id], granted, ok)))
    decreases Rank(w.runs[id].stage)
  {
    hide Reached, Price, RetryCost, RetryAhead;
    var choice := if w.runs[id].stage.Limiting? then granted else ok;
    var w' := WorkStep(w, id, choice);
    WorkPrice(w, id, granted, ok, tf);
    Further(w, tf, spent, Work(id, choice), w');
    if !w.runs[id].stage.Releasing? {
      UninterruptedCosts(w', id, granted, ok, tf, spent + Price(tf, w, Work(id, choice), 0));
    }
  }

  // ---------------------------------------------------------------- all workers read, then all move

  /** The task of the runs, which may be retried `m` times, at attempt `a`. */
  function Attempt(m: nat, a: nat): Payload {
    Payload(0, 0, "GET /", a, m, "")
  }

  /** Workers 0 to k - 1 run and wait for a permit, and each has at least `spare` of them. */
  ghost predicate IsTeam(workers: map<nat, Worker>, k: nat, spare: nat) {
    && (forall e: nat :: e in workers <==> e < k)
    && (forall e :: e in workers ==> workers[e] == Worker(true, workers[e].permits, AwaitingPermit) && workers[e].permits >= spare)
  }

  function Busy(v: Worker, loop: Loop): Worker {
    Worker(true, if v.permits == 0 then 0 else v.permits - 1, loop)
  }

  /** The first `j` workers have read. */
  function HaveRead(team: map<nat, Worker>, j: nat, held: Loop): map<nat, Worker> {
    map e | e in team :: if e < j then Busy(team[e], held) else team[e]
  }

  /** All have read, and the first `j` have moved and taken a payload. */
  function HaveMoved(team: map<nat, Worker>, j: nat, held: Loop): map<nat, Worker> {
    map e | e in team :: Busy(team[e], if e < j then AwaitingPermit else held)
  }

  /** Of the payloads they have taken the first `j` are done with. */
  function HaveDone(team: map<nat, Worker>, j: nat): map<nat, Worker> {
    map e | e in team :: if e < j then team[e] else Busy(team[e], AwaitingPermit)
  }

  /** Runs `top + i` to `top + j - 1` of a copy of `p` each, by workers `i` to `j - 1`. */
  function Brood(runs: map<nat, Run>, top: nat, p: Payload, i: nat, j: nat): map<nat, Run> {
    if j <= i then runs else Brood(runs, top, p, i, j - 1)[top + (j - 1) := Run(j - 1, p, Starting)]
  }

  lemma {:induction false} BroodMembers(runs: map<nat, Run>, top: nat, p: Payload, i: nat, j: nat)
    requires i <= j && forall id :: id in runs ==> id < top
    ensures forall id: nat :: id in Brood(runs, top, p, i, j) <==> id in runs || top + i <= id < top + j
    ensures i < j ==> Brood(runs, top, p, i, j)[top + i] == Run(i, p, Starting)
    ensures i < j ==> Brood(runs, top, p, i, j) - {top + i} == Brood(runs, top, p, i + 1, j)
    decreases j
  {
    if i < j {
      BroodMembers(runs, top, p, i, j - 1);
    }
  }

  /** Only `p` waits, and it is due now. */
  ghost predicate OnlyDue(w: World, p: Payload) {
    0.0 <= w.clock && w.store == EMPTY.(delayed := map[p := w.clock], dlq := w.store.dlq)
  }

  lemma OnlyDueIsRead(w: World, p: Payload)
    requires OnlyDue(w, p)
    ensures DueSet(w.store.delayed, w.clock) == {p} && IsDueRead(w.store.delayed, w.clock, [p])
  {
    assert DueSet(w.store.delayed, w.clock) == {p};
  }

  lemma OneReads(w: World, tf: Tariff, spent: real, p: Payload, e: nat, w1: World, w2: World)
    requires Reached(w, tf, spent) && OnlyDue(w, p) && e in w.workers
    requires w.workers[e] == Worker(true, w.workers[e].permits, AwaitingPermit) && w.workers[e].permits > 0
    requires w1 == w.(workers := w.workers[e := Worker(true, w.workers[e].permits - 1, Reading)])
    requires w2 == w.(workers := w.workers[e := Worker(true, w.workers[e].permits - 1, Moving(w.clock, [p]))])
    ensures Reached(w2, tf, spent)
  {
    OnlyDueIsRead(w1, p);
    hide Reached, IsDueRead, DueSet;
    Further(w, tf, spent, AcquirePermit(e), w1);
    assert w2.workers == w1.workers[e := w1.workers[e].(loop := Moving(w.clock, [p]))];
    Further(w1, tf, spent, ReadDue(e, [p]), w2);
  }

  lemma {:induction false} AllRead(w: World, tf: Tariff, spent: real, p: Payload, k: nat, j: nat)
    requires Reached(w, tf, spent) && OnlyDue(w, p) && IsTeam(w.workers, k, 1) && j <= k
    ensures Reached(w.(workers := HaveRead(w.workers, j, Moving(w.clock, [p]))), tf, spent)
  {
    var held := Moving(w.clock, [p]);
    if j == 0 {
      assert HaveRead(w.workers, 0, held) == w.workers;
    } else {
      AllRead(w, tf, spent, p, k, j - 1);
      hide Reached;
      var v := w.(workers := HaveRead(w.workers, j - 1, held));
      var permits := w.workers[j - 1].permits - 1;
      assert HaveRead(w.workers, j, held) == v.workers[j - 1 := Worker(true, permits, held)];
      OneReads(v, tf, spent, p, j - 1, v.(workers := v.workers[j - 1 := Worker(true, permits, Reading)]), w.(workers := HaveRead(w.workers, j, held)));
    }
  }

  lemma CopyIsPushed(s: Store, now: real, p: Payload)
    requires p.priority == "" && 0.0 <= now && (s.delayed == map[] || s.delayed == map[p := now]) && s == EMPTY.(delayed := s.delayed, dlq := s.dlq)
    ensures Promoted(s, now, [p]) == EMPTY.(medium := [p], dlq := s.dlq)
  {
    MediumIsListed(s, [p]);
    hide PublishedBatch;
    assert [] + [p] == [p];
    assert s.delayed - DueSet(s.delayed, now) == map[];
  }

  lemma CopyIsPolled(s: Store, p: Payload)
    requires s == EMPTY.(medium := [p], dlq := s.dlq)
    ensures Polled(s, 0.0) == (EMPTY.(dlq := s.dlq), Some(p))
  {
    var order := PollOrder(0.0);
    assert order[1..] == [High, Medium, Low];
    assert [High, Medium, Low][1..] == [Medium, Low];
    assert FirstReady(s, [Medium, Low]) == Some(Medium);
    assert FirstReady(s, [High, Medium, Low]) == Some(Medium);
    assert s.Pop(Medium) == EMPTY.(dlq := s.dlq);
  }

  lemma OnePushes(w: World, tf: Tariff, spent: real, p: Payload, e: nat, w1: World)
    requires Reached(w, tf, spent) && e in w.workers && w.workers[e].loop == Moving(w.clock, [p])
    requires Promoted(w.store, w.clock, [p]) == w1.store
    requires w1 == w.(store := w1.store, workers := w.workers[e := w.workers[e].(loop := Polling)])
    ensures Reached(w1, tf, spent)
  {
    hide Reached, Promoted;
    Further(w, tf, spent, MoveDue(e), w1);
  }

  lemma OnePolls(w1: World, tf: Tariff, spent: real, p: Payload, e: nat, id: nat, w2: World)
    requires Reached(w1, tf, spent) && p.taskId == 0 && e in w1.workers && id !in w1.runs
    requires w1.workers[e].running && w1.workers[e].loop == Polling && Polled(w1.store, 0.0) == (w2.store, Some(p))
    requires w2 == w1.(store := w2.store, workers := w1.workers[e := w1.workers[e].(loop := AwaitingPermit)], runs := w1.runs[id := Run(e, p, Starting)])
    ensures Reached(w2, tf, spent + PollPrice(tf))
  {
    hide Reached, Polled, PollPrice;
    Further(w1, tf, spent, Poll(e, 0.0, id), w2);
  }

  lemma OneMoves(w: World, tf: Tariff, spent: real, p: Payload, e: nat, id: nat, w2: World)
    requires Reached(w, tf, spent) && p.taskId == 0 && p.priority == "" && e in w.workers && id !in w.runs
    requires w.workers[e].running && w.workers[e].loop == Moving(w.clock, [p]) && 0.0 <= w.clock
    requires (w.store.delayed == map[] || w.store.delayed == map[p := w.clock]) && w.store == EMPTY.(delayed := w.store.delayed, dlq := w.store.dlq)
    requires w2 == w.(store := EMPTY.(dlq := w.store.dlq), workers := w.workers[e := w.workers[e].(loop := AwaitingPermit)],
                      runs := w.runs[id := Run(e, p, Starting)])
    ensures Reached(w2, tf, spent + PollPrice(tf))
  {
    hide *;
    var w1 := w.(store := EMPTY.(medium := [p], dlq := w.store.dlq), workers := w.workers[e := w.workers[e].(loop := Polling)]);
    CopyIsPushed(w.store, w.clock, p);
    CopyIsPolled(w1.store, p);
    OnePushes(w, tf, spent, p, e, w1);
    assert w2.workers == w1.workers[e := w1.workers[e].(loop := AwaitingPermit)];
    OnePolls(w1, tf, spent, p, e, id, w2);
  }

  /** The first `j` of the workers have moved the payload and taken it from the list. */
  function Scattered(w: World, p: Payload, top: nat, j: nat): World {
    w.(store := if j == 0 then w.store else EMPTY.(dlq := w.store.dlq),
       workers := HaveMoved(w.workers, j, Moving(w.clock, [p])), runs := Brood(w.runs, top, p, 0, j))
  }

  lemma {:induction false} AllMove(w: World, tf: Tariff, spent: real, p: Payload, k: nat, top: nat, j: nat)
    requires Reached(w, tf, spent) && OnlyDue(w, p) && IsTeam(w.workers, k, 1) && j <= k && p.taskId == 0 && p.priority == ""
    requires forall id :: id in w.runs ==> id < top
    ensures Reached(Scattered(w, p, top, j), tf, spent + Times(PollPrice(tf), j))
  {
    hide *;
    if j == 0 {
      AllRead(w, tf, spent, p, k, k);
      NoneScattered(w, p, k, top);
      TimesOne(PollPrice(tf));
    } else {
      AllMove(w, tf, spent, p, k, top, j - 1);
      ScatterOne(w, tf, spent + Times(PollPrice(tf), j - 1), p, k, top, j);
      TimesAdds(PollPrice(tf), j - 1, 1);
      TimesOne(PollPrice(tf));
    }
  }

  lemma NoneScattered(w: World, p: Payload, k: nat, top: nat)
    requires IsTeam(w.workers, k, 1)
    ensures Scattered(w, p, top, 0) == w.(workers := HaveRead(w.workers, k, Moving(w.clock, [p])))
  {
    assert Scattered(w, p, top, 0).workers == HaveRead(w.workers, k, Moving(w.clock, [p]));
    assert Brood(w.runs, top, p, 0, 0) == w.runs;
  }

  lemma ScatterOne(w: World, tf: Tariff, spent: real, p: Payload, k: nat, top: nat, j: nat)
    requires OnlyDue(w, p) && IsTeam(w.workers, k, 1) && 0 < j <= k && p.taskId == 0 && p.priority == ""
    requires (forall id :: id in w.runs ==> id < top) && Reached(Scattered(w, p, top, j - 1), tf, spent)
    ensures Reached(Scattered(w, p, top, j), tf, spent + PollPrice(tf))
  {
    hide Reached, PollPrice;
    var held, v, v' := Moving(w.clock, [p]), Scattered(w, p, top, j - 1), Scattered(w, p, top, j);
    assert v'.workers == v.workers[j - 1 := v.workers[j - 1].(loop := AwaitingPermit)];
    assert v'.runs == v.runs[top + (j - 1) := Run(j - 1, p, Starting)];
    BroodMembers(w.runs, top, p, 0, j - 1);
    OneMoves(v, tf, spent, p, j - 1, top + (j - 1), v');
  }

  // ---------------------------------------------------------------- a payload and all that becomes of it

  /** Nothing waits, and the workers are a team. */
  ghost predicate IsCalm(w: World, k: nat, m: nat, spare: nat) {
    && 0.0 <= w.clock && 0.0 < w.cfg.backoff && w.store == EMPTY.(dlq := w.store.dlq) && IsTeam(w.workers, k, spare)
    && 0 in w.tasks && w.tasks[0].maxRetries == m
  }

  /** Run `id` is about to execute attempt `a`, and the runs are numbered below `top`. */
  ghost predicate IsPending(w: World, m: nat, a: nat, id: nat, top: nat) {
    && id in w.runs && w.runs[id] == Run(w.runs[id].engine, Attempt(m, a), Starting) && w.runs[id].engine in w.workers
    && forall i :: i in w.runs ==> i < top
  }

  /** What is left when the run and all its retries are over. */
  ghost predicate IsDone(w: World, f: World, id: nat)
    requires id in w.runs && w.runs[id].engine in w.workers
  {
    var e := w.runs[id].engine;
    && f.cfg == w.cfg && w.clock <= f.clock && f.store == EMPTY.(dlq := f.store.dlq) && f.tasks.Keys == w.tasks.Keys
    && (0 in w.tasks ==> f.tasks[0].maxRetries == w.tasks[0].maxRetries)
    && f.workers == w.workers[e := w.workers[e].(permits := w.workers[e].permits + 1)] && f.runs == w.runs - {id}
  }

  lemma FailureIsDone(w: World, m: nat, a: nat, id: nat, top: nat)
    requires IsPending(w, m, a, id, top) && 0 in w.tasks
    ensures var f := WorkerEngine.Uninterrupted(w, id, true, false); IsDone(w, f.(store := EMPTY), id) && f.clock == w.clock
  {
    WorkerEngine.UninterruptedFrame(w, id, true, false);
    WorkerEngine.UninterruptedRun(w, id, true, false);
    hide WorkerEngine.Uninterrupted, Evaluated, Scheduled, DeadLettered;
  }

  lemma FailureStore(w: World, m: nat, a: nat, id: nat, top: nat)
    requires IsPending(w, m, a, id, top) && a <= m && w.store == EMPTY.(dlq := w.store.dlq)
    ensures var s := WorkerEngine.Uninterrupted(w, id, true, false).store;
            s == if a < m then w.store.(delayed := map[Attempt(m, a + 1) := w.clock + RetryDelay(w.cfg.backoff, a + 1)])
                 else EMPTY.(dlq := s.dlq)
  {
    WorkerEngine.UninterruptedRun(w, id, true, false);
    hide WorkerEngine.Uninterrupted, Evaluated, WithStatus, WithResult, RetryDelay;
  }

  lemma FailureCosts(w: World, tf: Tariff, spent: real, m: nat, a: nat, id: nat, top: nat)
    requires Reached(w, tf, spent) && IsPending(w, m, a, id, top)
    ensures Reached(WorkerEngine.Uninterrupted(w, id, true, false), tf, spent + if a < m then RetryPrice(tf, a + 1) else 0.0)
  {
    UninterruptedCosts(w, id, true, false, tf, spent);
    hide Reached, WorkerEngine.Uninterrupted, RetryPrice;
  }

  lemma LastAttempt(w: World, tf: Tariff, spent: real, k: nat, m: nat, id: nat, top: nat) returns (f: World)
    requires Reached(w, tf, spent) && IsCalm(w, k, m, 0) && IsPending(w, m, m, id, top)
    ensures Reached(f, tf, spent) && IsDone(w, f, id)
  {
    f := WorkerEngine.Uninterrupted(w, id, true, false);
    FailureIsDone(w, m, m, id, top);
    FailureStore(w, m, m, id, top);
    FailureCosts(w, tf, spent, m, m, id, top);
    hide Reached, WorkerEngine.Uninterrupted;
  }

  lemma PendingShape(w: World, m: nat, a: nat, id: nat, top: nat)
    requires IsPending(w, m, a, id, top)
    ensures id in w.runs && w.runs[id].engine in w.workers && (forall i :: i in w.runs ==> i < top)
    ensures forall b: nat :: Attempt(m, b).taskId == 0 && Attempt(m, b).priority == ""
  {}

  lemma CalmShape(w: World, k: nat, m: nat, spare: nat)
    requires IsCalm(w, k, m, spare)
    ensures 0.0 <= w.clock && 0.0 < w.cfg.backoff && 0 in w.tasks && w.store == EMPTY.(dlq := w.store.dlq)
    ensures spare >= 1 ==> IsTeam(w.workers, k, 1)
    ensures forall e: nat :: e in w.workers <==> e < k
  {}

  /** An attempt that fails, and its retry when it is due. */
  lemma FailsAndWaits(w: World, tf: Tariff, spent: real, k: nat, m: nat, a: nat, id: nat, top: nat) returns (v: World)
    requires Reached(w, tf, spent) && a < m && IsCalm(w, k, m, m - a) && IsPending(w, m, a, id, top)
    ensures Reached(v, tf, spent + RetryPrice(tf, a + 1)) && OnlyDue(v, Attempt(m, a + 1))
    ensures id in w.runs && w.runs[id].engine in w.workers && IsDone(w, v.(store := EMPTY.(dlq := v.store.dlq)), id)
  {
    hide *;
    PendingShape(w, m, a, id, top);
    CalmShape(w, k, m, m - a);
    var u := WorkerEngine.Uninterrupted(w, id, true, false);
    FailureIsDone(w, m, a, id, top);
    FailureStore(w, m, a, id, top);
    FailureCosts(w, tf, spent, m, a, id, top);
    DelayIsPositive(w.cfg.backoff, a + 1);
    var due := w.clock + RetryDelay(w.cfg.backoff, a + 1);
    v := u.(clock := due);
    Ticks(u, tf, spent + RetryPrice(tf, a + 1), due, v);
    WokenIsDue(w, u, v, Attempt(m, a + 1), id);
  }

  lemma Ticks(u: World, tf: Tariff, spent: real, due: real, v: World)
    requires Reached(u, tf, spent) && u.clock <= due && v == u.(clock := due)
    ensures Reached(v, tf, spent)
  {
    hide Reached;
    Further(u, tf, spent, Tick(due), v);
  }

  lemma WokenIsDue(w: World, u: World, v: World, p: Payload, id: nat)
    requires id in w.runs && w.runs[id].engine in w.workers && IsDone(w, u.(store := EMPTY), id) && 0.0 <= w.clock && w.store == EMPTY.(dlq := w.store.dlq)
    requires w.clock <= v.clock && v == u.(clock := v.clock) && u.store == w.store.(delayed := map[p := v.clock])
    ensures OnlyDue(v, p) && IsDone(w, v.(store := EMPTY.(dlq := v.store.dlq)), id)
  {}

  lemma DoneIsCalm(w: World, f: World, k: nat, m: nat, spare: nat, id: nat)
    requires IsCalm(w, k, m, spare) && id in w.runs && w.runs[id].engine in w.workers && IsDone(w, f, id)
    ensures IsCalm(f, k, m, spare) && forall i :: i in f.runs ==> i in w.runs
  {}

  /** ... and a copy of it for every worker. */
  lemma FailsForAll(w: World, tf: Tariff, spent: real, k: nat, m: nat, a: nat, id: nat, top: nat) returns (f: World, g: World)
    requires Reached(w, tf, spent) && a < m && IsCalm(w, k, m, m - a) && IsPending(w, m, a, id, top)
    ensures id in w.runs && w.runs[id].engine in w.workers && IsDone(w, f, id)
    ensures g == f.(workers := HaveDone(f.workers, 0), runs := Brood(f.runs, top, Attempt(m, a + 1), 0, k))
    ensures Reached(g, tf, spent + RetryPrice(tf, a + 1) + Times(PollPrice(tf), k))
  {
    hide *;
    var p := Attempt(m, a + 1);
    PendingShape(w, m, a, id, top);
    CalmShape(w, k, m, m - a);
    var v := FailsAndWaits(w, tf, spent, k, m, a, id, top);
    f := v.(store := EMPTY.(dlq := v.store.dlq));
    DoneIsCalm(w, f, k, m, m - a, id);
    CalmShape(f, k, m, m - a);
    AllMove(v, tf, spent + RetryPrice(tf, a + 1), p, k, top, k);
    g := Scattered(v, p, top, k);
    AllHaveMoved(v, p, k, top);
  }

  lemma AllHaveMoved(v: World, p: Payload, k: nat, top: nat)
    requires IsTeam(v.workers, k, 1) && k >= 1
    ensures Scattered(v, p, top, k) == v.(store := EMPTY.(dlq := v.store.dlq), workers := HaveDone(v.workers, 0), runs := Brood(v.runs, top, p, 0, k))
  {
    assert HaveMoved(v.workers, k, Moving(v.clock, [p])) == HaveDone(v.workers, 0);
  }

  /** The world has come back from `w` to these workers and runs. */
  ghost predicate IsBack(w: World, h: World, team: map<nat, Worker>, runs: map<nat, Run>) {
    && h.cfg == w.cfg && w.clock <= h.clock && h.store == EMPTY.(dlq := h.store.dlq) && h.tasks.Keys == w.tasks.Keys
    && (0 in w.tasks ==> h.tasks[0].maxRetries == w.tasks[0].maxRetries)
    && h.workers == team && h.runs == runs
  }

  /** The workers have taken a copy of attempt `a` each, and the first `j` copies are over. */
  ghost predicate HaveTaken(w: World, k: nat, m: nat, a: nat, team: map<nat, Worker>, runs: map<nat, Run>, j: nat, top: nat) {
    && j <= k && a <= m && IsCalm(w, k, m, m - a) && IsTeam(team, k, m - a + 1)
    && w.workers == HaveDone(team, j) && w.runs == Brood(runs, top, Attempt(m, a), j, k)
    && forall id :: id in runs ==> id < top
  }

  /** A run that fails, and so do all retries of all its copies: it costs all that it can. */
  lemma {:induction false} Multiplies(w: World, tf: Tariff, spent: real, k: nat, m: nat, a: nat, id: nat, top: nat) returns (f: World)
    requires Reached(w, tf, spent) && a <= m && IsCalm(w, k, m, m - a) && IsPending(w, m, a, id, top)
    ensures id in w.runs && w.runs[id].engine in w.workers && IsDone(w, f, id)
    ensures Reached(f, tf, spent + OnwardWorth(tf, k, m, a))
    decreases m - a, 0, 0
  {
    hide *;
    PendingShape(w, m, a, id, top);
    if a == m {
      f := LastAttempt(w, tf, spent, k, m, id, top);
      NothingOnward(tf, k, m);
    } else {
      var f0, g := FailsForAll(w, tf, spent, k, m, a, id, top);
      AllAreTaken(w, f0, g, k, m, a, id, top);
      f := AllMultiply(g, tf, spent + RetryPrice(tf, a + 1) + Times(PollPrice(tf), k), k, m, a + 1, f0.workers, f0.runs, 0, top);
      BackIsDone(w, f0, g, f, id);
      OnwardUnfolds(tf, k, m, a);
    }
  }

  lemma {:induction false} AllMultiply(w: World, tf: Tariff, spent: real, k: nat, m: nat, a: nat,
                                       team: map<nat, Worker>, runs: map<nat, Run>, j: nat, top: nat) returns (h: World)
    requires Reached(w, tf, spent) && HaveTaken(w, k, m, a, team, runs, j, top) && j <= k && a <= m
    ensures IsBack(w, h, team, runs) && Reached(h, tf, spent + Times(OnwardWorth(tf, k, m, a), k - j))
    decreases m - a, 1, k - j
  {
    hide *;
    if j == k {
      h := w;
      AllAreDone(w, k, m, a, team, runs, top);
      TimesOne(OnwardWorth(tf, k, m, a));
    } else {
      NextIsPending(w, k, m, a, team, runs, j, top);
      var x := Multiplies(w, tf, spent, k, m, a, top + j, top + k);
      OneIsDone(w, x, k, m, a, team, runs, j, top);
      h := AllMultiply(x, tf, spent + OnwardWorth(tf, k, m, a), k, m, a, team, runs, j + 1, top);
      BackAgain(w, x, h, team, runs, top + j);
      TimesOne(OnwardWorth(tf, k, m, a));
      TimesAdds(OnwardWorth(tf, k, m, a), 1, k - (j + 1));
      assert 1 + (k - (j + 1)) == k - j;
    }
  }

  lemma NothingOnward(tf: Tariff, k: nat, m: nat)
    ensures OnwardWorth(tf, k, m, m) == 0.0
  {}

  lemma PricesAdd(x: real, y: real, k: nat)
    ensures Times(x + y, k) == Times(x, k) + Times(y, k)
  {}

  lemma OnwardUnfolds(tf: Tariff, k: nat, m: nat, a: nat)
    requires a < m
    ensures OnwardWorth(tf, k, m, a) == RetryPrice(tf, a + 1) + Times(PollPrice(tf), k) + Times(OnwardWorth(tf, k, m, a + 1), k)
  {
    var later := Worth(tf, k, m, a + 1);
    assert OnwardWorth(tf, k, m, a) == Readmission(tf, k, m, a + 1) == RetryPrice(tf, a + 1) + Times(later, k);
    assert later == PollPrice(tf) + OnwardWorth(tf, k, m, a + 1);
    hide *;
    PricesAdd(PollPrice(tf), OnwardWorth(tf, k, m, a + 1), k);
  }

  lemma AllAreTaken(w: World, f: World, g: World, k: nat, m: nat, a: nat, id: nat, top: nat)
    requires a < m && IsCalm(w, k, m, m - a) && IsPending(w, m, a, id, top) && IsDone(w, f, id)
    requires g == f.(workers := HaveDone(f.workers, 0), runs := Brood(f.runs, top, Attempt(m, a + 1), 0, k))
    ensures HaveTaken(g, k, m, a + 1, f.workers, f.runs, 0, top)
  {}

  lemma BackIsDone(w: World, f: World, g: World, h: World, id: nat)
    requires id in w.runs && w.runs[id].engine in w.workers && IsDone(w, f, id) && IsBack(g, h, f.workers, f.runs)
    requires g == f.(workers := g.workers, runs := g.runs)
    ensures IsDone(w, h, id)
  {}

  lemma AllAreDone(w: World, k: nat, m: nat, a: nat, team: map<nat, Worker>, runs: map<nat, Run>, top: nat)
    requires HaveTaken(w, k, m, a, team, runs, k, top)
    ensures IsBack(w, w, team, runs)
  {
    assert HaveDone(team, k) == team;
  }

  lemma NextIsPending(w: World, k: nat, m: nat, a: nat, team: map<nat, Worker>, runs: map<nat, Run>, j: nat, top: nat)
    requires HaveTaken(w, k, m, a, team, runs, j, top) && j < k
    ensures IsCalm(w, k, m, m - a) && IsPending(w, m, a, top + j, top + k)
  {
    BroodMembers(runs, top, Attempt(m, a), j, k);
    hide Brood;
  }

  lemma OneIsDone(w: World, x: World, k: nat, m: nat, a: nat, team: map<nat, Worker>, runs: map<nat, Run>, j: nat, top: nat)
    requires HaveTaken(w, k, m, a, team, runs, j, top) && j < k && top + j in w.runs && w.runs[top + j].engine in w.workers && IsDone(w, x, top + j)
    ensures HaveTaken(x, k, m, a, team, runs, j + 1, top)
  {
    BroodMembers(runs, top, Attempt(m, a), j, k);
    hide Brood;
    assert x.workers == HaveDone(team, j + 1);
  }

  lemma BackAgain(w: World, x: World, h: World, team: map<nat, Worker>, runs: map<nat, Run>, id: nat)
    requires id in w.runs && w.runs[id].engine in w.workers && IsDone(w, x, id) && IsBack(x, h, team, runs)
    ensures IsBack(w, h, team, runs)
  {}

  // ---------------------------------------------------------------- from an empty system

  function Team(k: nat, permits: nat): map<nat, Worker> {
    if k == 0 then map[] else Team(k - 1, permits)[k - 1 := Worker(true, permits, AwaitingPermit)]
  }

  lemma {:induction false} TeamMembers(k: nat, permits: nat)
    ensures IsTeam(Team(k, permits), k, permits) && forall e: nat :: e < k ==> e in Team(k, permits) && Team(k, permits)[e] == Worker(true, permits, AwaitingPermit)
  {
    if k > 0 {
      TeamMembers(k - 1, permits);
    }
  }

  function Hired(backoff: real, m: nat, k: nat): World {
    World(Config(m + 1, backoff), 0.0, EMPTY, map[], map[0 := PENDING], Team(k, m + 1), map[])
  }

  lemma {:induction false} HiredIsReached(tf: Tariff, backoff: real, m: nat, k: nat)
    requires backoff > 0.0
    ensures Reached(Hired(backoff, m, k), tf, 0.0)
  {
    hide Reached;
    if k == 0 {
      var w := World(Config(m + 1, backoff), 0.0, EMPTY, map[], map[], map[], map[]);
      NothingSpent(w, tf);
      Further(w, tf, 0.0, CreateScan(0), Hired(backoff, m, 0));
    } else {
      HiredIsReached(tf, backoff, m, k - 1);
      TeamMembers(k - 1, m + 1);
      Further(Hired(backoff, m, k - 1), tf, 0.0, StartWorker(k - 1), Hired(backoff, m, k));
    }
  }

  /** The task is submitted; worker 0 may have begun to poll. */
  function Submitted(backoff: real, m: nat, workers: map<nat, Worker>): World {
    World(Config(m + 1, backoff), 0.0, EMPTY.(medium := [Attempt(m, 0)]), map[0 := Row(0, QUEUED, 0, m)], map[0 := RUNNING], workers, map[])
  }

  lemma SubmissionShape(m: nat)
    ensures var p := Attempt(m, 0);
            && PublishedBatch(EMPTY, [p]) == EMPTY.(medium := [p]) && SubmittedRows([p]) == map[0 := Row(0, QUEUED, 0, m)]
            && p.taskId == 0 && p.scanId == 0 && p.attempt == 0
  {
    var p := Attempt(m, 0);
    MediumIsListed(EMPTY, [p]);
    hide PublishedBatch;
    assert [p][1..] == [] && [] + [p] == [p];
  }

  lemma Submitting(w: World, tf: Tariff, p: Payload, w': World)
    requires Reached(w, tf, 0.0) && w.scans == map[0 := PENDING] && w.tasks == map[] && p.scanId == 0 && p.attempt == 0
    requires w' == w.(store := PublishedBatch(w.store, [p]), tasks := SubmittedRows([p]), scans := map[0 := RUNNING])
    ensures Reached(w', tf, 0.0)
  {
    hide Reached, PublishedBatch, SubmittedRows;
    assert w.tasks + SubmittedRows([p]) == SubmittedRows([p]);
    Further(w, tf, 0.0, Submit(0, [p]), w');
  }

  lemma SubmittedIsReached(tf: Tariff, backoff: real, m: nat, k: nat)
    requires backoff > 0.0
    ensures Reached(Submitted(backoff, m, Team(k, m + 1)), tf, 0.0)
  {
    HiredIsReached(tf, backoff, m, k);
    SubmissionShape(m);
    hide Reached, Team, PublishedBatch, SubmittedRows, Attempt;
    Submitting(Hired(backoff, m, k), tf, Attempt(m, 0), Submitted(backoff, m, Team(k, m + 1)));
  }

  lemma Promoting(w: World, tf: Tariff, w1: World, w2: World)
    requires Reached(w, tf, 0.0) && w.store.delayed == map[] && 0 in w.workers && w.workers[0] == Worker(true, w.workers[0].permits, AwaitingPermit)
    requires w.workers[0].permits > 0
    requires w1 == w.(workers := w.workers[0 := Worker(true, w.workers[0].permits - 1, Reading)])
    requires w2 == w.(workers := w.workers[0 := Worker(true, w.workers[0].permits - 1, Polling)])
    ensures Reached(w2, tf, 0.0)
  {
    hide Reached;
    Further(w, tf, 0.0, AcquirePermit(0), w1);
    assert DueSet(w1.store.delayed, w1.clock) == {};
    assert w2.workers == w1.workers[0 := w1.workers[0].(loop := Polling)];
    Further(w1, tf, 0.0, PromoteAtOnce(0, []), w2);
  }

  lemma PollingIsReached(tf: Tariff, backoff: real, m: nat, k: nat)
    requires backoff > 0.0 && k >= 1
    ensures Reached(Submitted(backoff, m, Team(k, m + 1)[0 := Worker(true, m, Polling)]), tf, 0.0)
  {
    var team := Team(k, m + 1);
    SubmittedIsReached(tf, backoff, m, k);
    TeamMembers(k, m + 1);
    hide Reached, Team, Attempt, IsTeam;
    Promoting(Submitted(backoff, m, team), tf, Submitted(backoff, m, team[0 := Worker(true, m, Reading)]),
              Submitted(backoff, m, team[0 := Worker(true, m, Polling)]));
  }

  lemma FirstIsTaken(tf: Tariff, backoff: real, m: nat, k: nat) returns (w: World)
    requires backoff > 0.0 && k >= 1
    ensures Reached(w, tf, PollPrice(tf)) && IsCalm(w, k, m, m) && IsPending(w, m, 0, 0, 1) && w.cfg.backoff == backoff
  {
    var team := Team(k, m + 1);
    var w2 := Submitted(backoff, m, team[0 := Worker(true, m, Polling)]);
    PollingIsReached(tf, backoff, m, k);
    TeamMembers(k, m + 1);
    CopyIsPolled(w2.store, Attempt(m, 0));
    w := w2.(store := EMPTY, workers := team[0 := Worker(true, m, AwaitingPermit)], runs := map[0 := Run(0, Attempt(m, 0), Starting)]);
    hide Team, Reached, Polled, PollPrice;
    assert w.workers == w2.workers[0 := w2.workers[0].(loop := AwaitingPermit)];
    OnePolls(w2, tf, 0.0, Attempt(m, 0), 0, 0, w);
  }

  // ---------------------------------------------------------------- the bounds are reached

  lemma {:induction false} AtMost(s: set<nat>, k: nat)
    requires forall e :: e in s ==> e < k
    ensures |s| <= k
  {
    if k == 0 {
      assert s == {};
    } else {
      AtMost(s - {k - 1}, k - 1);
      SubsetSize(s, s - {k - 1} + {k - 1});
    }
  }

  /** With `k` workers a task that may be retried `m` times can cost all that it is worth, for each tariff. */
  lemma WorthIsReached(tf: Tariff, backoff: real, m: nat, k: nat) returns (ws: seq<World>, steps: seq<Step>)
    requires backoff > 0.0 && k >= 1
    ensures IsRun(ws, steps) && NeverCrowded(ws, steps) && PoolWithin(ws, |steps|, k) && ws[0].cfg.backoff == backoff
    ensures 0 in ws[|steps|].tasks && ws[|steps|].tasks[0].maxRetries == m
    ensures Spent(ws, steps, tf, 0, |steps|) == Worth(tf, k, m, 0)
  {
    hide Reached, IsCalm, IsPending, IsDone, Spent, Worth, OnwardWorth, PollPrice;
    var w := FirstIsTaken(tf, backoff, m, k);
    var f := Multiplies(w, tf, PollPrice(tf), k, m, 0, 0, 1);
    DoneIsCalm(w, f, k, m, m, 0);
    DoneKeepsConfig(w, f, 0);
    ws, steps := RunTo(f, tf, PollPrice(tf) + OnwardWorth(tf, k, m, 0));
    FreshIsPolled(tf, k, m);
    CalmTeam(f, k, m, m);
    AllStarted(ws, steps, |steps|, k);
    ConfigIsFixed(ws, steps, |steps|);
  }

  lemma RunTo(f: World, tf: Tariff, spent: real) returns (ws: seq<World>, steps: seq<Step>)
    requires Reached(f, tf, spent)
    ensures IsRun(ws, steps) && NeverCrowded(ws, steps) && ws[|steps|] == f && Spent(ws, steps, tf, 0, |steps|) == spent
  {
    ws, steps :| Spends(ws, steps, f, tf, spent);
  }

  lemma DoneKeepsConfig(w: World, f: World, id: nat)
    requires id in w.runs && w.runs[id].engine in w.workers && IsDone(w, f, id)
    ensures f.cfg == w.cfg
  {}

  lemma CalmTeam(f: World, k: nat, m: nat, spare: nat)
    requires IsCalm(f, k, m, spare)
    ensures |f.workers.Keys| <= k && 0 in f.tasks && f.tasks[0].maxRetries == m
  {
    AtMost(f.workers.Keys, k);
  }

  lemma FreshIsPolled(tf: Tariff, k: nat, m: nat)
    ensures Worth(tf, k, m, 0) == PollPrice(tf) + OnwardWorth(tf, k, m, 0)
  {}
}
