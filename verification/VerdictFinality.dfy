/** What an evaluation that writes a verdict can have seen, and when what it saw is final. */
module VerdictFinality {
  import opened Wrappers
  import opened Payloads
  import opened TaskQueue
  import opened Engine
  import opened Places
  import opened Conservation
  import opened IntactMoves
  import opened NoLoss
  import opened Accounting
  import opened Provenance
  import opened ScanVerdict
  import opened LateVerdict
  import opened VerdictRuns
  import opened Semaphore

  // ---------------------------------------------------------------- failed rows

  ghost predicate HasBetween(runs: map<nat, Run>, t: nat) {
    exists id :: id in runs && IsBetween(runs[id], t)
  }

  /** A FAILED row belongs to a dead-lettered task, or a run has saved a failure of it and has not decided
      on its retry. */
  ghost predicate FailuresPend(w: World) {
    forall t :: t in w.tasks && w.tasks[t].status == TaskStatus.FAILED ==> Buried(w.store.dlq, t) > 0 || HasBetween(w.runs, t)
  }

  lemma StepKeepsBuried(w: World, step: Step, t: nat)
    requires Enabled(w, step) && Buried(w.store.dlq, t) > 0
    ensures Buried(Next(w, step).store.dlq, t) > 0
  {
    match step
    case Poll(e, draw, id) => PollTakesOneHead(w.store, draw);
    case Work(id, ok) =>
      if w.runs[id].stage.Burying? {
        BuryPlaces(w.store.dlq, DeadLetter(w.runs[id].payload, w.runs[id].stage.reason), t);
      }
      hide Buried;
      hide RetryDelay;
    case _ =>
  }

  /** The row of a task that this step does not write. */
  lemma BystanderPends(w: World, step: Step, t: nat)
    requires Enabled(w, step) && (Buried(w.store.dlq, t) > 0 || HasBetween(w.runs, t))
    requires step.Work? ==> !IsBetween(w.runs[step.run], t)
    ensures Buried(Next(w, step).store.dlq, t) > 0 || HasBetween(Next(w, step).runs, t)
  {
    if Buried(w.store.dlq, t) > 0 {
      StepKeepsBuried(w, step, t);
    } else {
      var k :| k in w.runs && IsBetween(w.runs[k], t);
      StepKeepsRun(w, step, k);
      assert IsBetween(Next(w, step).runs[k], t);
    }
  }

  /** The task of the run itself. */
  lemma WorkerPends(w: World, id: nat, ok: bool)
    requires Enabled(w, Work(id, ok)) && Known(w.tasks, w.runs[id].payload) && FailuresPend(w)
    ensures var w', t := WorkStep(w, id, ok), w.runs[id].payload.taskId;
            t in w'.tasks && w'.tasks[t].status == TaskStatus.FAILED ==> Buried(w'.store.dlq, t) > 0 || HasBetween(w'.runs, t)
  {
    var w', r, t := WorkStep(w, id, ok), w.runs[id], w.runs[id].payload.taskId;
    assert Next(w, Work(id, ok)) == w';
    if r.stage.Burying? {
      BuryPlaces(w.store.dlq, DeadLetter(r.payload, r.stage.reason), t);
    } else if IsBetween(r, t) || r.stage.Saving? {
      BetweenStage(w, id, ok);
    } else {
      UndecidedStage(w, id, ok);
      if w'.tasks[t].status == TaskStatus.FAILED {
        BystanderPends(w, Work(id, ok), t);
      }
    }
  }

  lemma BetweenStage(w: World, id: nat, ok: bool)
    requires Enabled(w, Work(id, ok)) && Known(w.tasks, w.runs[id].payload) && !w.runs[id].stage.Burying?
    requires IsBetween(w.runs[id], w.runs[id].payload.taskId) || w.runs[id].stage.Saving?
    ensures var w', t := WorkStep(w, id, ok), w.runs[id].payload.taskId;
            t in w'.tasks && w'.tasks[t].status == TaskStatus.FAILED ==> HasBetween(w'.runs, t)
  {
    var w', t := WorkStep(w, id, ok), w.runs[id].payload.taskId;
    if w'.tasks[t].status == TaskStatus.FAILED {
      assert IsBetween(w'.runs[id], t);
    }
  }

  lemma UndecidedStage(w: World, id: nat, ok: bool)
    requires Enabled(w, Work(id, ok)) && Known(w.tasks, w.runs[id].payload)
    requires !IsBetween(w.runs[id], w.runs[id].payload.taskId) && !w.runs[id].stage.Saving?
    ensures var w', t := WorkStep(w, id, ok), w.runs[id].payload.taskId;
            t in w'.tasks && (w'.tasks[t].status == TaskStatus.FAILED ==> w.tasks[t].status == TaskStatus.FAILED)
  {}

  lemma StepKeepsFailuresPending(w: World, step: Step)
    requires Enabled(w, step) && AllKnown(w) && FailuresPend(w)
    ensures FailuresPend(Next(w, step))
  {
    var w' := Next(w, step);
    forall t | t in w'.tasks && w'.tasks[t].status == TaskStatus.FAILED ensures Buried(w'.store.dlq, t) > 0 || HasBetween(w'.runs, t) {
      if step.Work? && w.runs[step.run].payload.taskId == t {
        assert Known(w.tasks, w.runs[step.run].payload);
        WorkerPends(w, step.run, step.ok);
      } else if step.Submit? && t !in w.tasks {
        SubmittedRow(step.batch, t);
      } else {
        OtherRowStays(w, step, t);
        BystanderPends(w, step, t);
      }
    }
  }

  lemma {:induction false} FailuresArePending(ws: seq<World>, steps: seq<Step>, i: nat)
    requires IsRun(ws, steps) && i < |ws|
    ensures FailuresPend(ws[i])
  {
    if i > 0 {
      FailuresArePending(ws, steps, i - 1);
      AttemptsStayWithinCap(ws, steps, i - 1);
      StepKeepsFailuresPending(ws[i - 1], steps[i - 1]);
    }
  }

  /** The step evaluates the scan, and writes a verdict. */
  ghost predicate WritesVerdict(w: World, step: Step, scan: nat) {
    && step.Work? && step.run in w.runs && w.runs[step.run].stage.Evaluating? && w.runs[step.run].stage.scan == scan
    && HasTasks(w.tasks, scan) && !AnyActive(w.tasks, scan)
  }

  /** Over every run, whatever the interleaving: whenever an evaluation writes a verdict, every task of the
      scan is finished or dead-lettered, or a run stands between its failed save and its retry decision; for
      COMPLETED every one is finished. */
  lemma VerdictHasSeen(ws: seq<World>, steps: seq<Step>, i: nat, scan: nat)
    requires IsRun(ws, steps) && i < |steps| && WritesVerdict(ws[i], steps[i], scan)
    ensures var w := ws[i];
            && scan in w.scans && ws[i + 1].scans[scan] == Verdict(w.tasks, scan)
            && (forall t :: t in w.tasks && w.tasks[t].scanId == scan ==> IsOver(w, t) || HasBetween(w.runs, t))
            && (ws[i + 1].scans[scan] == COMPLETED ==> forall t :: t in w.tasks && w.tasks[t].scanId == scan ==> Finished(w.tasks, t) == 1)
  {
    FailuresArePending(ws, steps, i);
    ScansAreKnown(ws, steps, i);
    var w := ws[i];
    forall t | t in w.tasks && w.tasks[t].scanId == scan ensures IsOver(w, t) || HasBetween(w.runs, t) {
      assert !IsActive(w.tasks[t].status);
    }
  }

  // ---------------------------------------------------------------- rows that are final

  /** The run writes the row no more, or writes what it says. */
  predicate WritesNoMore(r: Run, failed: bool) {
    || r.stage.Burying? || r.stage.Releasing?
    || (r.stage.Evaluating? && !r.stage.outcome.Failure?)
    || (failed && (r.stage.MarkingFailed? || (r.stage.Evaluating? && r.payload.attempt >= r.payload.maxRetries)))
  }

  /** No payload of the task waits, and no run will change its row. */
  ghost predicate IsAtRest(w: World, t: nat) {
    && t in w.tasks
    && (forall p: Payload :: p.taskId == t ==> !Waits(w, p))
    && (forall id :: id in w.runs && w.runs[id].payload.taskId == t ==> WritesNoMore(w.runs[id], w.tasks[t].status == TaskStatus.FAILED))
  }

  lemma NothingNewWaits(w: World, step: Step, p: Payload)
    requires Enabled(w, step) && Waits(Next(w, step), p) && !Waits(w, p) && p.taskId in w.tasks
    ensures step.Work? && w.runs[step.run].stage.Scheduling? && p == w.runs[step.run].payload
  {
    match step
    case PromoteAtOnce(e, due) =>
      WaitsAfterMove(w, step, p);
      PushedWaits(w, step, p);
    case MoveDue(e) =>
      WaitsAfterMove(w, step, p);
      PushedWaits(w, step, p);
    case Submit(scan, batch) => SubmitAddsFresh(w, scan, batch, p);
    case Poll(e, draw, id) => PollAddsNothing(w, e, draw, id, p);
    case Work(id, ok) => WorkAddsScheduled(w, id, ok, p);
    case _ => QuietAddsNothing(w, step, p);
  }

  lemma SubmitAddsFresh(w: World, scan: nat, batch: seq<Payload>, p: Payload)
    requires Enabled(w, Submit(scan, batch)) && p.taskId in w.tasks
    ensures Waits(Next(w, Submit(scan, batch)), p) ==> Waits(w, p)
  {
    var w' := Next(w, Submit(scan, batch));
    if l: Level :| p in w'.store.At(l) {
      OfLevelMember(batch, l, p);
      assert p in w.store.At(l);
    }
    if e :| e in w'.workers && Holds(w'.workers[e].loop, p) { assert Holds(w.workers[e].loop, p); }
  }

  lemma PollAddsNothing(w: World, e: nat, draw: real, id: nat, p: Payload)
    requires Enabled(w, Poll(e, draw, id))
    ensures Waits(PollStep(w, e, draw, id), p) ==> Waits(w, p)
  {
    var w' := PollStep(w, e, draw, id);
    PollTakesOneHead(w.store, draw);
    hide Polled;
    if l: Level :| p in w'.store.At(l) { assert p in w.store.At(l); }
    if k :| k in w'.workers && Holds(w'.workers[k].loop, p) { assert Holds(w.workers[k].loop, p); }
  }

  lemma WorkAddsScheduled(w: World, id: nat, ok: bool, p: Payload)
    requires Enabled(w, Work(id, ok))
    ensures Waits(WorkStep(w, id, ok), p) ==> Waits(w, p) || (w.runs[id].stage.Scheduling? && p == w.runs[id].payload)
  {
    var w' := WorkStep(w, id, ok);
    WorkFrame(w, id, ok);
    if p in w'.store.delayed {
      WorkDelays(w, id, ok, p);
    }
    WorkLoops(w, id, ok);
    hide WorkStep;
    if l: Level :| p in w'.store.At(l) { assert p in w.store.At(l); }
    if k :| k in w'.workers && Holds(w'.workers[k].loop, p) { assert Holds(w.workers[k].loop, p); }
  }

  lemma WorkLoops(w: World, id: nat, ok: bool)
    requires Enabled(w, Work(id, ok))
    ensures forall e :: e in WorkStep(w, id, ok).workers ==> e in w.workers && WorkStep(w, id, ok).workers[e].loop == w.workers[e].loop
  {
    hide Evaluated;
    hide WithStatus;
    hide WithResult;
    hide RetryDelay;
  }

  lemma WorkDelays(w: World, id: nat, ok: bool, p: Payload)
    requires Enabled(w, Work(id, ok)) && p in WorkStep(w, id, ok).store.delayed
    ensures p in w.store.delayed || (w.runs[id].stage.Scheduling? && p == w.runs[id].payload)
  {
    hide RetryDelay;
  }

  lemma QuietAddsNothing(w: World, step: Step, p: Payload)
    requires Enabled(w, step) && !step.PromoteAtOnce? && !step.MoveDue? && !step.Poll? && !step.Work? && !step.Submit?
    ensures Waits(Next(w, step), p) ==> Waits(w, p)
  {
    var w' := Next(w, step);
    if l: Level :| p in w'.store.At(l) { assert p in w.store.At(l); }
    if k :| k in w'.workers && Holds(w'.workers[k].loop, p) {
      if step.ReadDue? && k == step.worker {
        assert p in DueSet(w.store.delayed, w.clock);
      } else {
        assert Holds(w.workers[k].loop, p);
      }
    }
  }

  lemma StepKeepsRest(w: World, step: Step, t: nat)
    requires Enabled(w, step) && AllKnown(w) && IsAtRest(w, t)
    ensures IsAtRest(Next(w, step), t) && Next(w, step).tasks[t] == w.tasks[t]
  {
    var w' := Next(w, step);
    RestKeepsRow(w, step, t);
    forall p: Payload | p.taskId == t ensures !Waits(w', p) {
      if Waits(w', p) {
        NothingNewWaits(w, step, p);
        assert false;
      }
    }
    forall id | id in w'.runs && w'.runs[id].payload.taskId == t ensures WritesNoMore(w'.runs[id], w'.tasks[t].status == TaskStatus.FAILED) {
      RestKeepsRuns(w, step, t, id);
    }
  }

  lemma RestKeepsRow(w: World, step: Step, t: nat)
    requires Enabled(w, step) && IsAtRest(w, t)
    ensures t in Next(w, step).tasks && Next(w, step).tasks[t] == w.tasks[t]
  {
    if step.Submit? {
      SubmittedRow(step.batch, t);
    } else if step.Work? {
      RestingWork(w, step.run, step.ok, t);
    }
  }

  lemma RestingWork(w: World, id: nat, ok: bool, t: nat)
    requires Enabled(w, Work(id, ok)) && t in w.tasks
    requires w.runs[id].payload.taskId == t ==> WritesNoMore(w.runs[id], w.tasks[t].status == TaskStatus.FAILED)
    ensures var w' := WorkStep(w, id, ok);
            && t in w'.tasks && w'.tasks[t] == w.tasks[t]
            && (id in w'.runs && w'.runs[id].payload.taskId == t ==> WritesNoMore(w'.runs[id], w.tasks[t].status == TaskStatus.FAILED))
  {
    hide Evaluated;
    hide RetryDelay;
  }

  lemma RestKeepsRuns(w: World, step: Step, t: nat, id: nat)
    requires Enabled(w, step) && IsAtRest(w, t) && id in Next(w, step).runs && Next(w, step).runs[id].payload.taskId == t
    ensures WritesNoMore(Next(w, step).runs[id], w.tasks[t].status == TaskStatus.FAILED)
  {
    if step.Work? && step.run == id {
      RestingWork(w, id, step.ok, t);
    } else if step.Poll? && id !in w.runs {
      PolledWaited(w, step.draw);
    } else {
      OldRun(w, step, id);
    }
  }

  lemma PolledWaited(w: World, draw: real)
    ensures Polled(w.store, draw).1.Some? ==> Waits(w, Polled(w.store, draw).1.value)
  {
    PollTakesOneHead(w.store, draw);
    var (s', o) := Polled(w.store, draw);
    if o.Some? {
      var l: Level :| w.store.At(l) != [] && w.store.At(l)[0] == o.value && s' == w.store.Pop(l);
      assert o.value in w.store.At(l);
    }
  }

  lemma OldRun(w: World, step: Step, id: nat)
    requires Enabled(w, step) && id in Next(w, step).runs && (step.Work? ==> step.run != id) && (step.Poll? ==> id in w.runs)
    ensures id in w.runs && Next(w, step).runs[id] == w.runs[id]
  {
    hide Evaluated;
    hide RetryDelay;
    hide WithStatus;
    hide WithResult;
    hide PublishedBatch;
    hide Promoted;
    hide Polled;
  }

  /** Over every run, whatever the interleaving: the row of a task at rest never changes again. */
  lemma {:induction false} RestIsForever(ws: seq<World>, steps: seq<Step>, t: nat, i: nat, j: nat)
    requires IsRun(ws, steps) && i <= j < |ws| && IsAtRest(ws[i], t)
    ensures IsAtRest(ws[j], t) && ws[j].tasks[t] == ws[i].tasks[t]
  {
    if i < j {
      RestIsForever(ws, steps, t, i, j - 1);
      AttemptsStayWithinCap(ws, steps, j - 1);
      StepKeepsRest(ws[j - 1], steps[j - 1], t);
    }
  }

  // ---------------------------------------------------------------- when a verdict is early

  /** Any states and steps from `w` on in which every move finds what it has read. */
  ghost predicate Continues(w: World, vs: seq<World>, ts: seq<Step>) {
    && MovesIntact(vs, ts) && vs[0] == w
    && forall i :: 0 <= i < |ts| ==> Enabled(vs[i], ts[i]) && vs[i + 1] == Next(vs[i], ts[i])
  }

  ghost predicate RowsKept(tasks: Tasks, tasks': Tasks, scan: nat) {
    forall t :: t in tasks && tasks[t].scanId == scan ==> t in tasks' && tasks'[t] == tasks[t]
  }

  /** Some run will reschedule a task of the scan. */
  ghost predicate RetryIsDue(w: World, scan: nat) {
    exists id, t :: id in w.runs && t in w.tasks && w.tasks[t].scanId == scan && IsRetrying(w.runs[id], t)
  }

  /** What holds in every state of an intact run. */
  ghost predicate IsSound(w: World) {
    Conserved(w) && Agrees(w) && Lossless(w) && ReadsDistinct(w)
  }

  lemma StepKeepsSound(w: World, step: Step)
    requires IsSound(w) && Enabled(w, step) && FewDue(w, step) && FindsRead(w, step)
    ensures IsSound(Next(w, step))
  {
    hide *;
    SoundIs(w);
    SoundIs(Next(w, step));
    CoverIs(w);
    IntactStepConserves(w, step);
    StepAgrees(w, step);
    StepIsLossless(w, step);
    StepKeepsReadsDistinct(w, step);
  }

  lemma SoundIs(w: World)
    ensures IsSound(w) <==> Conserved(w) && Agrees(w) && Lossless(w) && ReadsDistinct(w)
  {}

  lemma CoverIs(w: World)
    ensures Lossless(w) ==> MoversCover(w)
  {}

  lemma IntactRunIsSound(ws: seq<World>, steps: seq<Step>, i: nat)
    requires IsRun(ws, steps) && MovesIntact(ws, steps) && i < |ws|
    ensures IsSound(ws[i])
  {
    TasksAreConserved(ws, steps, i);
    RowsMatchPlaces(ws, steps, i);
    RunsAreLossless(ws, steps, i);
    ReadsAreDistinct(ws, steps, i);
  }

  lemma {:induction false} SettledInContinuation(w: World, vs: seq<World>, ts: seq<Step>, t: nat, j: nat)
    requires Continues(w, vs, ts) && |vs| == |ts| + 1 && IsSound(w) && IsSettled(w, t) && j <= |ts|
    ensures t in w.tasks && t in vs[j].tasks && IsSound(vs[j]) && IsSettled(vs[j], t) && vs[j].tasks[t] == w.tasks[t]
  {
    hide *;
    ContinuesFrom(w, vs, ts);
    SettledHasRow(w, t);
    if j > 0 {
      SettledInContinuation(w, vs, ts, t, j - 1);
      ContinuesBy(w, vs, ts, j - 1);
      StepKeepsSound(vs[j - 1], ts[j - 1]);
      SoundIs(vs[j - 1]);
      SettledHasRow(vs[j - 1], t);
      SettledStays(vs[j - 1], ts[j - 1], t);
      SettledHasRow(vs[j], t);
    }
  }

  lemma ContinuesFrom(w: World, vs: seq<World>, ts: seq<Step>)
    requires Continues(w, vs, ts)
    ensures |vs| == |ts| + 1 && vs[0] == w
  {}

  lemma SettledHasRow(w: World, t: nat)
    ensures IsSettled(w, t) ==> t in w.tasks
  {}

  lemma ContinuesBy(w: World, vs: seq<World>, ts: seq<Step>, j: nat)
    requires Continues(w, vs, ts) && j < |ts|
    ensures |vs| == |ts| + 1 && vs[0] == w && Enabled(vs[j], ts[j]) && vs[j + 1] == Next(vs[j], ts[j]) && FewDue(vs[j], ts[j]) && FindsRead(vs[j], ts[j])
  {}

  /** If no retry is due, what the verdict has seen is final. */
  lemma NoRetryKeepsRows(w: World, vs: seq<World>, ts: seq<Step>, scan: nat)
    requires IsSound(w) && !AnyActive(w.tasks, scan) && !RetryIsDue(w, scan) && Continues(w, vs, ts) && |vs| == |ts| + 1
    ensures RowsKept(w.tasks, vs[|ts|].tasks, scan)
  {
    forall t | t in w.tasks && w.tasks[t].scanId == scan ensures t in vs[|ts|].tasks && vs[|ts|].tasks[t] == w.tasks[t] {
      NoRetrySettles(w, scan, t);
      hide *;
      SettledInContinuation(w, vs, ts, t, |ts|);
    }
  }

  lemma NoRetrySettles(w: World, scan: nat, t: nat)
    requires IsSound(w) && !AnyActive(w.tasks, scan) && !RetryIsDue(w, scan) && t in w.tasks && w.tasks[t].scanId == scan
    ensures IsSettled(w, t)
  {
    hide Conserved;
    hide Agrees;
    hide Lossless;
    hide IsSettled;
    assert !IsActive(w.tasks[t].status);
    InactiveIsSettledOrRetries(w, t);
  }

  /** If a retry is due, the next steps of its run make the row of the task RETRYING. */
  lemma DueRetryChangesRow(w: World, scan: nat) returns (vs: seq<World>, ts: seq<Step>)
    requires RetryIsDue(w, scan) && !AnyActive(w.tasks, scan) && (forall id :: id in w.runs ==> w.runs[id].engine in w.workers)
    ensures Continues(w, vs, ts) && |vs| == |ts| + 1 && !RowsKept(w.tasks, vs[|ts|].tasks, scan)
  {
    var id, t :| id in w.runs && t in w.tasks && w.tasks[t].scanId == scan && IsRetrying(w.runs[id], t);
    RetryReactivates(w, id, t);
    var w1 := WorkStep(w, id, true);
    assert !IsActive(w.tasks[t].status);
    assert Next(w, Work(id, true)) == w1;
    if w.runs[id].stage.MarkingRetry? {
      vs, ts := [w, w1], [Work(id, true)];
    } else {
      var w2 := WorkStep(w1, id, true);
      assert Next(w1, Work(id, true)) == w2;
      vs, ts := [w, w1, w2], [Work(id, true), Work(id, true)];
    }
    hide WorkStep;
    assert vs[|ts|].tasks[t].status == RETRYING;
  }

  /** When a verdict is early: the rows that it has seen are final in every intact continuation of an intact
      run if and only if no run is about to reschedule a task of the scan. */
  lemma VerdictIsFinalIff(ws: seq<World>, steps: seq<Step>, i: nat, scan: nat)
    requires IsRun(ws, steps) && MovesIntact(ws, steps) && i < |steps| && WritesVerdict(ws[i], steps[i], scan)
    ensures (forall vs: seq<World>, ts: seq<Step> :: Continues(ws[i + 1], vs, ts) ==> RowsKept(ws[i].tasks, vs[|ts|].tasks, scan)) <==> !RetryIsDue(ws[i + 1], scan)
  {
    var w := ws[i + 1];
    EvaluatingKeepsRows(ws, steps, i, scan);
    IntactRunIsSound(ws, steps, i + 1);
    PermitsAreConserved(ws, steps, i + 1);
    assert forall id :: id in w.runs ==> w.runs[id].engine in w.workers;
    hide PermitsBalance;
    hide IsSound;
    hide IsRun;
    hide RetryIsDue;
    hide AnyActive;
    if RetryIsDue(w, scan) {
      var vs, ts := DueRetryChangesRow(w, scan);
    } else {
      forall vs: seq<World>, ts: seq<Step> | Continues(w, vs, ts) ensures RowsKept(ws[i].tasks, vs[|ts|].tasks, scan) {
        ContinuesFrom(w, vs, ts);
        NoRetryKeepsRows(w, vs, ts, scan);
      }
    }
  }

  lemma EvaluatingKeepsRows(ws: seq<World>, steps: seq<Step>, i: nat, scan: nat)
    requires IsRun(ws, steps) && i < |steps| && WritesVerdict(ws[i], steps[i], scan)
    ensures |ws| == |steps| + 1 && ws[i + 1].tasks == ws[i].tasks && !AnyActive(ws[i + 1].tasks, scan)
  {}
}
