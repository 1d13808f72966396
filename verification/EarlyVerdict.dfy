/** A run in which a scan is marked FAILED although its only task is about to be retried. */
module EarlyVerdict {
  import opened Wrappers
  import opened Payloads
  import opened TaskQueue
  import opened Engine
  import opened Reachability

  const FIRST := Payload(0, 0, "GET /", 0, 1, "")

  /** The world while the task is carried by run 0 of worker 0. */
  function Carried(row: Row, scan: ScanStatus, p: Payload, stage: Stage): World {
    World(Config(1, 2.0), 0.0, EMPTY, map[0 := row], map[0 := scan],
          map[0 := Worker(true, 0, AwaitingPermit)], map[0 := Run(0, p, stage)])
  }

  const ROW := Row(0, QUEUED, 0, 1)
  const LISTED := EMPTY.(medium := [FIRST])

  const W0 := World(Config(1, 2.0), 0.0, EMPTY, map[], map[], map[], map[])
  const W1 := W0.(scans := map[0 := PENDING])
  const W2 := W1.(workers := map[0 := Worker(true, 1, AwaitingPermit)])
  const W3 := W2.(scans := map[0 := RUNNING], tasks := map[0 := ROW], store := LISTED)
  const W4 := W3.(workers := map[0 := Worker(true, 0, Reading)])
  const W5 := W3.(workers := map[0 := Worker(true, 0, Polling)])

  lemma Starting()
    ensures Reachable(W2, true)
  {
    EmptyIsReachable(W0, true);
    Onward(W0, true, CreateScan(0), W1);
    Onward(W1, true, StartWorker(0), W2);
  }

  lemma Listing()
    ensures PublishedBatch(EMPTY, [FIRST]) == LISTED && SubmittedRows([FIRST]) == map[0 := ROW]
  {
    MediumIsListed(EMPTY, [FIRST]);
    hide PublishedBatch;
    assert [] + [FIRST] == [FIRST];
    assert [FIRST][1..] == [];
  }

  lemma Submitting()
    requires Reachable(W2, true)
    ensures Reachable(W3, true)
  {
    SubmitStep();
    hide *;
    Onward(W2, true, Submit(0, [FIRST]), W3);
  }

  lemma SubmitStep()
    ensures Enabled(W2, Submit(0, [FIRST])) && FewDue(W2, Submit(0, [FIRST])) && Next(W2, Submit(0, [FIRST])) == W3
  {
    Listing();
    hide PublishedBatch;
    hide SubmittedRows;
  }

  lemma Promoting()
    requires Reachable(W3, true)
    ensures Reachable(W5, true)
  {
    Onward(W3, true, AcquirePermit(0), W4);
    assert DueSet(map[], 0.0) == {};
    Onward(W4, true, PromoteAtOnce(0, []), W5);
  }

  lemma Popping()
    ensures Polled(LISTED, 0.0) == (EMPTY, Some(FIRST))
  {
    var order := PollOrder(0.0);
    assert order[1..] == [High, Medium, Low];
    assert [High, Medium, Low][1..] == [Medium, Low];
    assert FirstReady(LISTED, [Medium, Low]) == Some(Medium);
    assert FirstReady(LISTED, [High, Medium, Low]) == Some(Medium);
    assert LISTED.Pop(Medium) == EMPTY;
  }

  lemma Fetching()
    requires Reachable(W5, true)
    ensures Reachable(Carried(ROW, RUNNING, FIRST, Stage.Starting), true)
  {
    Popping();
    Onward(W5, true, Poll(0, 0.0, 0), Carried(ROW, RUNNING, FIRST, Stage.Starting));
  }

  const BUSY := Row(0, PROCESSING, 0, 1)
  const LOST := Row(0, TaskStatus.FAILED, 1, 1)
  const AGAIN := FIRST.(attempt := 1)

  lemma Executing()
    requires Reachable(Carried(ROW, RUNNING, FIRST, Stage.Starting), true)
    ensures Reachable(Carried(BUSY, RUNNING, FIRST, Saving(Failure)), true)
  {
    Onward(Carried(ROW, RUNNING, FIRST, Stage.Starting), true, Work(0, true), Carried(BUSY, RUNNING, FIRST, Limiting));
    Onward(Carried(BUSY, RUNNING, FIRST, Limiting), true, Work(0, true), Carried(BUSY, RUNNING, FIRST, Stage.Executing));
    Onward(Carried(BUSY, RUNNING, FIRST, Stage.Executing), true, Work(0, false), Carried(BUSY, RUNNING, FIRST, Saving(Failure)));
  }

  lemma Failing()
    requires Reachable(Carried(BUSY, RUNNING, FIRST, Saving(Failure)), true)
    ensures Reachable(Carried(LOST, RUNNING, FIRST, Evaluating(Failure, 0)), true)
  {
    Onward(Carried(BUSY, RUNNING, FIRST, Saving(Failure)), true, Work(0, true), Carried(LOST, RUNNING, FIRST, Evaluating(Failure, 0)));
  }

  lemma Judging()
    requires Reachable(Carried(LOST, RUNNING, FIRST, Evaluating(Failure, 0)), true)
    ensures Reachable(Carried(LOST, ScanStatus.FAILED, AGAIN, MarkingRetry), true)
  {
    var w := Carried(LOST, RUNNING, FIRST, Evaluating(Failure, 0));
    assert 0 in w.tasks && w.tasks[0].scanId == 0;
    assert Evaluated(w.tasks, w.scans, 0) == map[0 := ScanStatus.FAILED];
    Onward(w, true, Work(0, true), Carried(LOST, ScanStatus.FAILED, AGAIN, MarkingRetry));
  }

  const DOOMED := Carried(Row(0, RETRYING, 1, 1), ScanStatus.FAILED, AGAIN, Scheduling)

  lemma Retrying()
    requires Reachable(Carried(LOST, ScanStatus.FAILED, AGAIN, MarkingRetry), true)
    ensures Reachable(DOOMED, true)
  {
    Onward(Carried(LOST, ScanStatus.FAILED, AGAIN, MarkingRetry), true, Work(0, true), DOOMED);
  }

  lemma DoomedIsReachable()
    ensures Reachable(DOOMED, true)
  {
    Starting();
    Submitting();
    Promoting();
    Fetching();
    Executing();
    Failing();
    Judging();
    Retrying();
  }

  /** A scan can be FAILED while its only task is RETRYING, with its retry still to come. */
  lemma FailedBeforeRetry() returns (ws: seq<World>, steps: seq<Step>)
    ensures IsRun(ws, steps) && PromotesAtOnce(ws, steps)
    ensures var w := ws[|steps|];
            && w.scans == map[0 := ScanStatus.FAILED] && w.tasks == map[0 := Row(0, RETRYING, 1, 1)]
            && 0 in w.runs && w.runs[0].stage == Scheduling && w.runs[0].payload.attempt <= w.runs[0].payload.maxRetries
  {
    DoomedIsReachable();
    ws, steps :| EndsIn(ws, steps, DOOMED, true);
  }
}
