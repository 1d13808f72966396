/** A run in which two workers read one delayed payload before either moves it.  The task then waits twice,
    is executed three times although it may be retried once, and ends FAILED in a scan that is COMPLETED. */
module DuplicateRuns {
  import opened Wrappers
  import opened Payloads
  import opened TaskQueue
  import opened Engine
  import opened Places
  import opened Reachability
  import opened EarlyVerdict

  /** Two workers, their loops at `loop`, each with a permit left or none. */
  function Pair(permits: nat, loop: Loop, loop': Loop): map<nat, Worker> {
    map[0 := Worker(true, permits, loop), 1 := Worker(true, permits, loop')]
  }

  const RETRIED := Row(0, RETRYING, 1, 1)
  const DELAYED := EMPTY.(delayed := map[AGAIN := 2.0])
  const ONCE := EMPTY.(medium := [AGAIN])
  const TWICE := EMPTY.(medium := [AGAIN, AGAIN])
  const HELD := Moving(2.0, [AGAIN])

  /** The world once the task has failed and the clock stands at `clock`. */
  function Failed(clock: real, store: Store, workers: map<nat, Worker>, runs: map<nat, Run>): World {
    World(Config(1, 2.0), clock, store, map[0 := RETRIED], map[0 := ScanStatus.FAILED], workers, runs)
  }

  // ---------------------------------------------------------------- one task, two slots

  const RESCHEDULED := Failed(0.0, DELAYED, map[0 := Worker(true, 0, AwaitingPermit)], map[0 := Run(0, AGAIN, Releasing)])

  lemma Rescheduling()
    ensures Reachable(RESCHEDULED, true)
  {
    DoomedIsReachable();
    hide Reachable;
    assert RetryDelay(2.0, 1) == 2.0;
    assert DELAYED.delayed == map[][AGAIN := 2.0];
    Onward(DOOMED, true, Work(0, true), RESCHEDULED);
  }

  lemma Waking()
    ensures Reachable(Failed(2.0, DELAYED, Pair(1, AwaitingPermit, AwaitingPermit), map[]), false)
  {
    Rescheduling();
    AlsoInTwoSteps(RESCHEDULED);
    hide Reachable;
    var idle := Failed(0.0, DELAYED, map[0 := Worker(true, 1, AwaitingPermit)], map[]);
    var both := Failed(0.0, DELAYED, Pair(1, AwaitingPermit, AwaitingPermit), map[]);
    Onward(RESCHEDULED, false, Work(0, true), idle);
    Onward(idle, false, StartWorker(1), both);
    Onward(both, false, Tick(2.0), Failed(2.0, DELAYED, Pair(1, AwaitingPermit, AwaitingPermit), map[]));
  }

  lemma OneIsDue(now: real)
    requires now >= 2.0
    ensures DueSet(DELAYED.delayed, now) == {AGAIN} && IsDueRead(DELAYED.delayed, now, [AGAIN])
  {
    assert DueSet(DELAYED.delayed, now) == {AGAIN};
  }

  lemma Entering()
    ensures Reachable(Failed(2.0, DELAYED, Pair(0, Reading, Reading), map[]), false)
  {
    Waking();
    hide Reachable;
    var w := Failed(2.0, DELAYED, Pair(1, AwaitingPermit, AwaitingPermit), map[]);
    var w1 := Failed(2.0, DELAYED, map[0 := Worker(true, 0, Reading), 1 := Worker(true, 1, AwaitingPermit)], map[]);
    Onward(w, false, AcquirePermit(0), w1);
    Onward(w1, false, AcquirePermit(1), Failed(2.0, DELAYED, Pair(0, Reading, Reading), map[]));
  }

  lemma ReadingBoth()
    ensures Reachable(Failed(2.0, DELAYED, Pair(0, HELD, HELD), map[]), false)
  {
    Entering();
    OneIsDue(2.0);
    hide Reachable;
    hide DueSet;
    hide IsDueRead;
    var w, w1 := Failed(2.0, DELAYED, Pair(0, Reading, Reading), map[]), Failed(2.0, DELAYED, Pair(0, HELD, Reading), map[]);
    Onward(w, false, ReadDue(0, [AGAIN]), w1);
    Onward(w1, false, ReadDue(1, [AGAIN]), Failed(2.0, DELAYED, Pair(0, HELD, HELD), map[]));
  }

  lemma MovingOne(s: Store, t: Store)
    requires (s == DELAYED && t == ONCE) || (s == ONCE && t == TWICE)
    ensures Promoted(s, 2.0, [AGAIN]) == t
  {
    MediumIsListed(s, [AGAIN]);
    hide PublishedBatch;
    assert [AGAIN] + [AGAIN] == [AGAIN, AGAIN] && [] + [AGAIN] == [AGAIN];
    assert s.delayed - DueSet(s.delayed, 2.0) == map[];
  }

  const DUPLICATED := Failed(2.0, TWICE, Pair(0, Polling, Polling), map[])

  lemma MovingFirst()
    ensures Reachable(Failed(2.0, ONCE, Pair(0, Polling, HELD), map[]), false)
  {
    ReadingBoth();
    MovingOne(DELAYED, ONCE);
    hide Reachable;
    hide Promoted;
    Onward(Failed(2.0, DELAYED, Pair(0, HELD, HELD), map[]), false, MoveDue(0), Failed(2.0, ONCE, Pair(0, Polling, HELD), map[]));
  }

  lemma DuplicateIsReachable()
    ensures Reachable(DUPLICATED, false)
  {
    MovingFirst();
    MovingOne(ONCE, TWICE);
    hide Reachable;
    hide Promoted;
    Onward(Failed(2.0, ONCE, Pair(0, Polling, HELD), map[]), false, MoveDue(1), DUPLICATED);
  }

  /** In a run that never meets more than fifty due payloads one task can be in two slots of a list. */
  lemma TwoWorkersDuplicate() returns (ws: seq<World>, steps: seq<Step>)
    ensures IsRun(ws, steps) && NeverCrowded(ws, steps)
    ensures ws[|steps|].tasks == map[0 := RETRIED] && InLists(ws[|steps|].store, 0) == 2 && ws[|steps|].workers.Keys == {0, 1}
  {
    DuplicateIsReachable();
    ws, steps :| EndsIn(ws, steps, DUPLICATED, false);
    assert TWICE.medium == [AGAIN] + [AGAIN];
    OccurrencesAppend([AGAIN], [AGAIN], 0);
    assert [AGAIN][1..] == [];
  }

  // ---------------------------------------------------------------- both copies are executed

  function Holding(e: nat, stage: Option<Stage>): map<nat, Run> {
    if stage.Some? then map[e := Run(e, AGAIN, stage.value)] else map[]
  }

  /** Run 0 of worker 0 and run 1 of worker 1 execute the two copies. */
  function Working(row: Row, scan: ScanStatus, store: Store, a: Option<Stage>, b: Option<Stage>): World {
    World(Config(1, 2.0), 2.0, store, map[0 := row], map[0 := scan],
          map[0 := Worker(true, if a.Some? then 0 else 1, AwaitingPermit), 1 := Worker(true, if b.Some? then 0 else 1, AwaitingPermit)],
          Holding(0, a) + Holding(1, b))
  }

  lemma PoppingMedium(s: Store, t: Store)
    requires (s == TWICE && t == ONCE) || (s == ONCE && t == EMPTY)
    ensures Polled(s, 0.0) == (t, Some(AGAIN))
  {
    var order := PollOrder(0.0);
    assert order[1..] == [High, Medium, Low];
    assert [High, Medium, Low][1..] == [Medium, Low];
    assert FirstReady(s, [Medium, Low]) == Some(Medium);
    assert FirstReady(s, [High, Medium, Low]) == Some(Medium);
    assert s.Pop(Medium) == t;
  }

  lemma FetchingBoth()
    ensures Reachable(Working(RETRIED, ScanStatus.FAILED, EMPTY, Some(Stage.Starting), Some(Stage.Starting)), false)
  {
    DuplicateIsReachable();
    PoppingMedium(TWICE, ONCE);
    PoppingMedium(ONCE, EMPTY);
    hide Polled;
    hide Reachable;
    var w := Failed(2.0, ONCE, map[0 := Worker(true, 0, AwaitingPermit), 1 := Worker(true, 0, Polling)], map[0 := Run(0, AGAIN, Stage.Starting)]);
    Onward(DUPLICATED, false, Poll(0, 0.0, 0), w);
    Onward(w, false, Poll(1, 0.0, 1), Working(RETRIED, ScanStatus.FAILED, EMPTY, Some(Stage.Starting), Some(Stage.Starting)));
  }

  const AT_WORK := Row(0, PROCESSING, 1, 1)
  const FAILED_ONCE_MORE := Row(0, TaskStatus.FAILED, 2, 1)
  const AT_WORK_AGAIN := Row(0, PROCESSING, 2, 1)
  const SUCCEEDED := Row(0, SUCCESS, 3, 1)
  const OVERWRITTEN := Row(0, TaskStatus.FAILED, 3, 1)

  /** One step of one of the two runs. */
  lemma WorkOn(w: World, id: nat, ok: bool, w': World)
    requires Reachable(w, false) && id in w.runs && w.runs[id].engine in w.workers && WorkStep(w, id, ok) == w'
    ensures Reachable(w', false)
  {
    hide Reachable;
    Onward(w, false, Work(id, ok), w');
  }

  lemma FirstCopyFails()
    ensures Reachable(Working(FAILED_ONCE_MORE, ScanStatus.FAILED, EMPTY, Some(Evaluating(Failure, 0)), Some(Stage.Starting)), false)
  {
    FetchingBoth();
    hide Reachable;
    var b := Some(Stage.Starting);
    var w0 := Working(RETRIED, ScanStatus.FAILED, EMPTY, Some(Stage.Starting), b);
    var w1 := Working(AT_WORK, ScanStatus.FAILED, EMPTY, Some(Limiting), b);
    var w2 := Working(AT_WORK, ScanStatus.FAILED, EMPTY, Some(Stage.Executing), b);
    var w3 := Working(AT_WORK, ScanStatus.FAILED, EMPTY, Some(Saving(Failure)), b);
    WorkOn(w0, 0, true, w1);
    WorkOn(w1, 0, true, w2);
    WorkOn(w2, 0, false, w3);
    WorkOn(w3, 0, true, Working(FAILED_ONCE_MORE, ScanStatus.FAILED, EMPTY, Some(Evaluating(Failure, 0)), b));
  }

  lemma VerdictOnFirst()
    ensures Reachable(Working(FAILED_ONCE_MORE, ScanStatus.FAILED, EMPTY, Some(MarkingFailed), Some(Stage.Starting)), false)
  {
    FirstCopyFails();
    hide Reachable;
    var w := Working(FAILED_ONCE_MORE, ScanStatus.FAILED, EMPTY, Some(Evaluating(Failure, 0)), Some(Stage.Starting));
    assert 0 in w.tasks && w.tasks[0].scanId == 0;
    assert Evaluated(w.tasks, w.scans, 0) == map[0 := ScanStatus.FAILED];
    WorkOn(w, 0, true, Working(FAILED_ONCE_MORE, ScanStatus.FAILED, EMPTY, Some(MarkingFailed), Some(Stage.Starting)));
  }

  lemma SecondCopySucceeds()
    ensures Reachable(Working(SUCCEEDED, ScanStatus.FAILED, EMPTY, Some(MarkingFailed), Some(Evaluating(Ok, 0))), false)
  {
    VerdictOnFirst();
    hide Reachable;
    var a := Some(MarkingFailed);
    var w0 := Working(FAILED_ONCE_MORE, ScanStatus.FAILED, EMPTY, a, Some(Stage.Starting));
    var w1 := Working(AT_WORK_AGAIN, ScanStatus.FAILED, EMPTY, a, Some(Limiting));
    var w2 := Working(AT_WORK_AGAIN, ScanStatus.FAILED, EMPTY, a, Some(Stage.Executing));
    var w3 := Working(AT_WORK_AGAIN, ScanStatus.FAILED, EMPTY, a, Some(Saving(Ok)));
    WorkOn(w0, 1, true, w1);
    WorkOn(w1, 1, true, w2);
    WorkOn(w2, 1, true, w3);
    WorkOn(w3, 1, true, Working(SUCCEEDED, ScanStatus.FAILED, EMPTY, a, Some(Evaluating(Ok, 0))));
  }

  lemma VerdictOnSecond()
    ensures Reachable(Working(SUCCEEDED, COMPLETED, EMPTY, Some(MarkingFailed), None), false)
  {
    SecondCopySucceeds();
    hide Reachable;
    var a := Some(MarkingFailed);
    var w := Working(SUCCEEDED, ScanStatus.FAILED, EMPTY, a, Some(Evaluating(Ok, 0)));
    assert 0 in w.tasks && w.tasks[0].scanId == 0;
    assert Evaluated(w.tasks, w.scans, 0) == map[0 := COMPLETED];
    WorkOn(w, 1, true, Working(SUCCEEDED, COMPLETED, EMPTY, a, Some(Releasing)));
    WorkOn(Working(SUCCEEDED, COMPLETED, EMPTY, a, Some(Releasing)), 1, true, Working(SUCCEEDED, COMPLETED, EMPTY, a, None));
  }

  const BURIED := EMPTY.(dlq := [DeadLetter(AGAIN, RetriesExhausted)])

  lemma LateFailureIsReachable()
    ensures Reachable(Working(OVERWRITTEN, COMPLETED, BURIED, None, None), false)
  {
    VerdictOnSecond();
    hide Reachable;
    var w0 := Working(SUCCEEDED, COMPLETED, EMPTY, Some(MarkingFailed), None);
    var w1 := Working(OVERWRITTEN, COMPLETED, EMPTY, Some(Burying(RetriesExhausted)), None);
    var w2 := Working(OVERWRITTEN, COMPLETED, BURIED, Some(Releasing), None);
    WorkOn(w0, 0, true, w1);
    WorkOn(w1, 0, true, w2);
    WorkOn(w2, 0, true, Working(OVERWRITTEN, COMPLETED, BURIED, None, None));
  }

  /** In a run that never meets more than fifty due payloads everything can be over, with nothing waiting
      and nothing running, and a scan be COMPLETED whose only task is FAILED, after three attempts although
      it may be retried once. */
  lemma CompletedWithFailedTask() returns (ws: seq<World>, steps: seq<Step>)
    ensures IsRun(ws, steps) && NeverCrowded(ws, steps)
    ensures var w := ws[|steps|];
            && w.runs == map[] && w.store.delayed == map[] && (forall l: Level :: w.store.At(l) == [])
            && w.workers.Keys == {0, 1} && (forall e :: e in w.workers ==> w.workers[e].loop == AwaitingPermit)
            && w.scans == map[0 := COMPLETED] && w.tasks == map[0 := Row(0, TaskStatus.FAILED, 3, 1)]
  {
    LateFailureIsReachable();
    ws, steps :| EndsIn(ws, steps, Working(OVERWRITTEN, COMPLETED, BURIED, None, None), false);
  }
}
