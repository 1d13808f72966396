/** Runs in which more than fifty delayed payloads are due at once: all but fifty of the tasks are lost by the
    next promotion. */
module CrowdedRuns {
  import opened Wrappers
  import opened Payloads
  import opened TaskQueue
  import opened Engine
  import opened Places
  import opened Conservation
  import opened IntactMoves
  import opened Reachability
  import WorkerEngine

  function First(i: nat): Payload {
    Payload(i, 0, "GET /", 0, 1, "")
  }

  function Again(i: nat): Payload {
    Payload(i, 0, "GET /", 1, 1, "")
  }

  /** The retry of one of the first `k` tasks. */
  predicate IsRetry(p: Payload, k: nat) {
    p.taskId < k && p == Again(p.taskId)
  }

  function Batch(n: nat): seq<Payload> {
    seq(n, i requires 0 <= i < n => First(i))
  }

  const ALONE := map[0 := Worker(true, 1, AwaitingPermit)]

  /** The first `k` of `n` tasks have failed once and wait for their retry, the others are in a list. */
  ghost predicate HasFailed(w: World, n: nat, k: nat) {
    && k <= n && w.cfg == Config(1, 2.0) && w.clock == 0.0 && w.runs == map[] && w.workers == ALONE
    && w.store.critical == [] && w.store.high == [] && w.store.low == [] && w.store.medium == Batch(n)[k..]
    && (forall p :: p in w.store.delayed <==> IsRetry(p, k))
    && (forall p :: p in w.store.delayed ==> w.store.delayed[p] == 2.0)
    && (forall t: nat :: t in w.tasks <==> t < n)
  }

  // ---------------------------------------------------------------- submission

  lemma BatchIsListed(n: nat)
    ensures PublishedBatch(EMPTY, Batch(n)) == EMPTY.(medium := Batch(n))
  {
    MediumIsListed(EMPTY, Batch(n));
    hide PublishedBatch, Batch;
  }

  const BEGUN := World(Config(1, 2.0), 0.0, EMPTY, map[], map[0 := PENDING], ALONE, map[])

  lemma BegunIsReachable()
    ensures Reachable(BEGUN, true)
  {
    hide Reachable;
    var w0 := World(Config(1, 2.0), 0.0, EMPTY, map[], map[], map[], map[]);
    var w1 := w0.(scans := map[0 := PENDING]);
    EmptyIsReachable(w0, true);
    Onward(w0, true, CreateScan(0), w1);
    Onward(w1, true, StartWorker(0), BEGUN);
  }

  lemma SubmittedIsReachable(n: nat) returns (w: World)
    ensures Reachable(w, true) && HasFailed(w, n, 0)
  {
    BegunIsReachable();
    BatchIsListed(n);
    hide Reachable;
    hide PublishedBatch;
    w := Next(BEGUN, Submit(0, Batch(n)));
    Onward(BEGUN, true, Submit(0, Batch(n)), w);
    forall t: nat ensures t in w.tasks <==> t < n {
      SubmittedRow(Batch(n), t);
      assert t < n ==> Batch(n)[t].taskId == t;
    }
    assert Batch(n)[0..] == Batch(n);
  }

  // ---------------------------------------------------------------- one more failure

  /** An uninterrupted run is part of a run of the system. */
  lemma {:induction false} UninterruptedIsReachable(w: World, id: nat, granted: bool, ok: bool)
    requires Reachable(w, true) && id in w.runs && w.runs[id].engine in w.workers
    ensures Reachable(WorkerEngine.Uninterrupted(w, id, granted, ok), true)
    decreases Rank(w.runs[id].stage)
  {
    hide Reachable;
    var choice := if w.runs[id].stage.Limiting? then granted else ok;
    var w' := WorkStep(w, id, choice);
    Onward(w, true, Work(id, choice), w');
    if !w.runs[id].stage.Releasing? {
      UninterruptedIsReachable(w', id, granted, ok);
    }
  }

  lemma NothingIsDue(w: World, n: nat, k: nat)
    requires HasFailed(w, n, k)
    ensures DueSet(w.store.delayed, 0.0) == {} && IsDueRead(w.store.delayed, 0.0, [])
  {}

  lemma NextIsFirst(w: World, n: nat, k: nat)
    requires HasFailed(w, n, k) && k < n
    ensures Polled(w.store, 0.0) == (w.store.(medium := Batch(n)[k + 1..]), Some(First(k)))
  {
    var s, order := w.store, PollOrder(0.0);
    assert order[1..] == [High, Medium, Low];
    assert [High, Medium, Low][1..] == [Medium, Low];
    assert s.At(Medium) == Batch(n)[k..] && Batch(n)[k..] != [];
    assert FirstReady(s, [Medium, Low]) == Some(Medium);
    assert FirstReady(s, [High, Medium, Low]) == Some(Medium);
    assert Batch(n)[k..][1..] == Batch(n)[k + 1..];
  }

  /** The next task has been taken from the list. */
  ghost predicate IsFetched(w: World, w': World, n: nat, k: nat)
    requires k < n
  {
    w' == w.(store := w.store.(medium := Batch(n)[k + 1..]), workers := map[0 := Worker(true, 0, AwaitingPermit)],
             runs := map[0 := Run(0, First(k), Starting)])
  }

  lemma FailedShape(w: World, n: nat, k: nat)
    requires HasFailed(w, n, k)
    ensures w.clock == 0.0 && w.runs == map[] && w.workers == ALONE && |Batch(n)| == n
  {}

  lemma FetchingNext(w: World, n: nat, k: nat) returns (w': World)
    requires Reachable(w, true) && HasFailed(w, n, k) && k < n
    ensures Reachable(w', true) && IsFetched(w, w', n, k)
  {
    PromotingNothing(w, n, k);
    NextIsFirst(w, n, k);
    FailedShape(w, n, k);
    hide *;
    w' := Fetched(w, n, k);
    FetchedIs(w, n, k);
    PollingNext(w, w', Batch(n)[k + 1..], First(k));
  }

  function Fetched(w: World, n: nat, k: nat): World
    requires k < n
  {
    w.(store := w.store.(medium := Batch(n)[k + 1..]), workers := map[0 := Worker(true, 0, AwaitingPermit)],
       runs := map[0 := Run(0, First(k), Starting)])
  }

  lemma FetchedIs(w: World, n: nat, k: nat)
    requires k < n
    ensures IsFetched(w, Fetched(w, n, k), n, k) && |Batch(n)| == n
    ensures Fetched(w, n, k) == w.(store := w.store.(medium := Batch(n)[k + 1..]), workers := map[0 := Worker(true, 0, AwaitingPermit)],
                                   runs := map[0 := Run(0, First(k), Starting)])
  {}

  lemma PromotingNothing(w: World, n: nat, k: nat)
    requires Reachable(w, true) && HasFailed(w, n, k)
    ensures Reachable(w.(workers := map[0 := Worker(true, 0, Polling)]), true)
  {
    NothingIsDue(w, n, k);
    FailedShape(w, n, k);
    hide Reachable;
    hide HasFailed;
    hide IsDueRead;
    hide DueSet;
    var w1 := w.(workers := map[0 := Worker(true, 0, Reading)]);
    Onward(w, true, AcquirePermit(0), w1);
    Onward(w1, true, PromoteAtOnce(0, []), w.(workers := map[0 := Worker(true, 0, Polling)]));
  }

  lemma PollingNext(w: World, w': World, rest: seq<Payload>, p: Payload)
    requires Reachable(w.(workers := map[0 := Worker(true, 0, Polling)]), true) && w.runs == map[]
    requires Polled(w.store, 0.0) == (w.store.(medium := rest), Some(p))
    requires w' == w.(store := w.store.(medium := rest), workers := map[0 := Worker(true, 0, AwaitingPermit)], runs := map[0 := Run(0, p, Starting)])
    ensures Reachable(w', true)
  {
    hide Reachable;
    hide Polled;
    Onward(w.(workers := map[0 := Worker(true, 0, Polling)]), true, Poll(0, 0.0, 0), w');
  }

  lemma FailingNext(w: World, n: nat, k: nat) returns (f: World)
    requires Reachable(w, true) && HasFailed(w, n, k) && k < n
    ensures Reachable(f, true) && HasFailed(f, n, k + 1)
  {
    var w' := FetchingNext(w, n, k);
    hide Reachable;
    f := WorkerEngine.Uninterrupted(w', 0, true, false);
    UninterruptedIsReachable(w', 0, true, false);
    WorkerEngine.UninterruptedFrame(w', 0, true, false);
    WorkerEngine.UninterruptedRun(w', 0, true, false);
    assert RetryDelay(2.0, 1) == 2.0;
    assert First(k).(attempt := 1) == Again(k);
    hide WorkerEngine.Uninterrupted;
    assert f.store == Scheduled(w'.store, Again(k), 2.0);
    assert f.runs == map[];
    assert f.workers == ALONE;
    OneMoreDelayed(w.store.delayed, f.store.delayed, k);
  }

  lemma OneMoreDelayed(delayed: map<Payload, real>, delayed': map<Payload, real>, k: nat)
    requires (forall p :: p in delayed <==> IsRetry(p, k)) && delayed' == delayed[Again(k) := 2.0]
    ensures forall p :: p in delayed' <==> IsRetry(p, k + 1)
  {}

  lemma {:induction false} AllFail(n: nat, k: nat) returns (w: World)
    requires k <= n
    ensures Reachable(w, true) && HasFailed(w, n, k)
  {
    if k == 0 {
      w := SubmittedIsReachable(n);
    } else {
      w := AllFail(n, k - 1);
      w := FailingNext(w, n, k - 1);
    }
  }

  // ---------------------------------------------------------------- all are due

  /** All `n` tasks wait for a retry that is due, and a worker is about to promote. */
  ghost predicate IsCrowded(w: World, n: nat) {
    && AtLoop(w, 0, Reading) && w.clock == 2.0
    && (forall p :: p in w.store.delayed <==> IsRetry(p, n))
    && (forall p :: p in w.store.delayed ==> w.store.delayed[p] == 2.0)
    && (forall t: nat :: t in w.tasks <==> t < n)
  }

  lemma CrowdIsReachable(n: nat) returns (w: World)
    ensures Reachable(w, true) && IsCrowded(w, n)
  {
    var w0 := AllFail(n, n);
    hide Reachable;
    var w1 := w0.(workers := map[0 := Worker(true, 0, Reading)]);
    w := w1.(clock := 2.0);
    Onward(w0, true, AcquirePermit(0), w1);
    Onward(w1, true, Tick(2.0), w);
  }

  lemma {:induction false} ManyDue(n: nat) returns (due: set<Payload>)
    ensures |due| == n && forall p :: p in due <==> IsRetry(p, n)
  {
    if n == 0 {
      due := {};
    } else {
      var fewer := ManyDue(n - 1);
      due := fewer + {Again(n - 1)};
      assert Again(n - 1) !in fewer;
    }
  }

  lemma FirstFiftyAreRead(w: World, n: nat) returns (due: seq<Payload>)
    requires IsCrowded(w, n) && n > READ_LIMIT
    ensures |DueSet(w.store.delayed, w.clock)| == n && IsDueRead(w.store.delayed, w.clock, due)
    ensures due == seq(READ_LIMIT, i requires 0 <= i < READ_LIMIT => Again(i))
  {
    var all := ManyDue(n);
    assert DueSet(w.store.delayed, w.clock) == all;
    due := seq(READ_LIMIT, i requires 0 <= i < READ_LIMIT => Again(i));
    forall i | 0 <= i < |due| ensures due[i] in DueSet(w.store.delayed, w.clock) {
      assert due[i] == Again(i) && i < n;
    }
  }

  /** For every number of tasks beyond fifty there is a run in which a promotion loses all but fifty of
      them: their rows say RETRYING for ever, and they are in no place. */
  lemma CrowdedPromotionLoses(n: nat) returns (ws: seq<World>, steps: seq<Step>)
    requires n > 50
    ensures IsRun(ws, steps) && (forall t: nat :: 50 <= t < n ==> t in ws[|steps|].tasks && PlacesOf(ws[|steps|], t) == 0)
  {
    var w := CrowdIsReachable(n);
    var due := FirstFiftyAreRead(w, n);
    ws, steps :| EndsIn(ws, steps, w, true);
    AtOnceIsIntact(ws, steps);
    TasksAreConserved(ws, steps, |steps|);
    var step := PromoteAtOnce(0, due);
    forall t: nat | READ_LIMIT <= t < n ensures t in Next(w, step).tasks && PlacesOf(Next(w, step), t) == 0 {
      UnreadTaskIsLost(w, n, due, t);
    }
    hide Conserved;
    hide PlacesOf;
    hide IsDueRead;
    LongerRun(ws, steps, step);
    ws, steps := ws + [Next(w, step)], steps + [step];
  }

  lemma UnreadTaskIsLost(w: World, n: nat, due: seq<Payload>, t: nat)
    requires IsCrowded(w, n) && Conserved(w) && Enabled(w, PromoteAtOnce(0, due)) && READ_LIMIT <= t < n
    requires due == seq(READ_LIMIT, i requires 0 <= i < READ_LIMIT => Again(i))
    ensures t in Next(w, PromoteAtOnce(0, due)).tasks && PlacesOf(Next(w, PromoteAtOnce(0, due)), t) == 0
  {
    assert Again(t) in w.store.delayed && Again(t) !in due;
    UnreadIsLost(w, 0, due, Again(t));
  }

  lemma LongerRun(ws: seq<World>, steps: seq<Step>, step: Step)
    requires IsRun(ws, steps) && Enabled(ws[|steps|], step)
    ensures IsRun(ws + [Next(ws[|steps|], step)], steps + [step])
  {
    var vs, ts := ws + [Next(ws[|steps|], step)], steps + [step];
    forall i | 0 <= i < |ts| ensures Enabled(vs[i], ts[i]) && vs[i + 1] == Next(vs[i], ts[i]) {
      assert i < |steps| ==> vs[i] == ws[i] && vs[i + 1] == ws[i + 1] && ts[i] == steps[i];
    }
  }
}
