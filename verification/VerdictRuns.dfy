/** The verdict on a scan over whole runs. */
module VerdictRuns {
  import opened Wrappers
  import opened Payloads
  import opened TaskQueue
  import opened Engine
  import opened Conservation
  import opened NoLoss
  import opened Provenance
  import opened LateVerdict
  import DuplicateRuns

  lemma {:induction false} ScansAreKnown(ws: seq<World>, steps: seq<Step>, i: nat)
    requires IsRun(ws, steps) && i < |ws|
    ensures ScansKnown(ws[i])
  {
    if i > 0 {
      ScansAreKnown(ws, steps, i - 1);
      StepKeepsScansKnown(ws[i - 1], steps[i - 1]);
    }
  }

  /** No step so far has left the scan with a wrong verdict. */
  ghost predicate NeverUnsettled(ws: seq<World>, steps: seq<Step>, i: nat, scan: nat)
    requires i <= |steps| && |ws| == |steps| + 1
  {
    forall j :: 0 <= j < i ==> !Overwrites(ws[j], steps[j], scan) && !LosesLast(ws[j], steps[j], scan)
  }

  /** Over every run, whatever the interleaving, a scan is settled until a late failure or a loss. */
  lemma {:induction false} SettledUntilUnsettled(ws: seq<World>, steps: seq<Step>, i: nat, scan: nat)
    requires IsRun(ws, steps) && i <= |steps| && NeverUnsettled(ws, steps, i, scan)
    ensures Settled(ws[i], scan)
  {
    if i > 0 {
      SettledUntilUnsettled(ws, steps, i - 1, scan);
      AttemptsStayWithinCap(ws, steps, i - 1);
      ScansAreKnown(ws, steps, i - 1);
      StepUnsettlesIff(ws[i - 1], steps[i - 1], scan);
    }
  }

  /** No task of the scan is active, and no payload of it waits or is worked on. */
  ghost predicate IsQuiet(w: World, scan: nat) {
    scan in w.scans && HasTasks(w.tasks, scan) && !AnyActive(w.tasks, scan) && !ToCome(w, scan)
  }

  ghost predicate IsRight(w: World, scan: nat)
    requires scan in w.scans
  {
    && (w.scans[scan] == COMPLETED <==> forall t :: t in w.tasks && w.tasks[t].scanId == scan ==> w.tasks[t].status == SUCCESS)
    && (w.scans[scan] == ScanStatus.FAILED <==> exists t :: t in w.tasks && w.tasks[t].scanId == scan && w.tasks[t].status == TaskStatus.FAILED)
  }

  lemma QuietVerdictIsRight(w: World, scan: nat)
    requires IsQuiet(w, scan)
    ensures IsRight(w, scan) <==> Settled(w, scan)
  {
    if !AllSucceeded(w.tasks, scan) {
      var t :| t in w.tasks && w.tasks[t].scanId == scan && w.tasks[t].status != SUCCESS;
      assert !IsActive(w.tasks[t].status);
    }
  }

  /** At quiescence of every run, whatever the interleaving, the verdict on a scan that was never unsettled
      is right: COMPLETED exactly when all its tasks are SUCCESS and FAILED exactly when one is FAILED. */
  lemma QuietVerdict(ws: seq<World>, steps: seq<Step>, i: nat, scan: nat)
    requires IsRun(ws, steps) && i <= |steps| && NeverUnsettled(ws, steps, i, scan) && IsQuiet(ws[i], scan)
    ensures IsRight(ws[i], scan)
  {
    SettledUntilUnsettled(ws, steps, i, scan);
    QuietVerdictIsRight(ws[i], scan);
  }

  // ---------------------------------------------------------------- active tasks have something to come

  predicate IsAlive(stage: Stage) {
    stage.Starting? || stage.Limiting? || stage.Executing? || stage.Saving? || stage.Scheduling?
  }

  ghost predicate HasAliveRun(runs: map<nat, Run>, p: Payload) {
    exists id :: id in runs && runs[id].payload == p && IsAlive(runs[id].stage)
  }

  ghost predicate TaskLives(w: World, t: nat) {
    exists p: Payload :: p.taskId == t && (Waits(w, p) || HasAliveRun(w.runs, p))
  }

  ghost predicate ActiveLives(w: World) {
    forall t :: t in w.tasks && IsActive(w.tasks[t].status) ==> TaskLives(w, t)
  }

  /** The step pushes all that it removes. */
  ghost predicate LosesNothing(w: World, step: Step) {
    forall p :: p in Removed(w, step) ==> p in Pushed(w, step)
  }

  lemma StepKeepsWaiting(w: World, step: Step, p: Payload)
    requires Enabled(w, step) && LosesNothing(w, step) && Waits(w, p)
    requires step.Poll? ==> Polled(w.store, step.draw).1 != Some(p)
    ensures Waits(Next(w, step), p)
  {
    match step
    case PromoteAtOnce(e, due) => WaitsAfterMove(w, step, p);
    case MoveDue(e) => WaitsAfterMove(w, step, p);
    case Poll(e, draw, id) =>
      PollTakesOneHead(w.store, draw);
      hide Polled;
      PollKeepsWaiting(w, PollStep(w, e, draw, id), Polled(w.store, draw).1, p);
    case Work(id, ok) =>
      WorkFrame(w, id, ok);
      WorkKeepsWaiting(w, WorkStep(w, id, ok), p);
    case _ => QuietKeepsWaiting(w, step, p);
  }

  lemma QuietKeepsWaiting(w: World, step: Step, p: Payload)
    requires Enabled(w, step) && Waits(w, p)
    requires !step.PromoteAtOnce? && !step.MoveDue? && !step.Poll? && !step.Work?
    ensures Waits(Next(w, step), p)
  {
    var w' := Next(w, step);
    if l: Level :| p in w.store.At(l) { assert p in w'.store.At(l); }
    if e :| e in w.workers && Holds(w.workers[e].loop, p) { assert Holds(w'.workers[e].loop, p); }
  }

  /** A task whose row this step does not write stays alive. */
  lemma BystanderLives(w: World, step: Step, t: nat)
    requires Enabled(w, step) && LosesNothing(w, step) && TaskLives(w, t)
    requires step.Work? ==> w.runs[step.run].payload.taskId != t || !IsAlive(w.runs[step.run].stage)
    ensures TaskLives(Next(w, step), t)
  {
    var p: Payload :| p.taskId == t && (Waits(w, p) || HasAliveRun(w.runs, p));
    if Waits(w, p) {
      if step.Poll? && Polled(w.store, step.draw).1 == Some(p) {
        PolledLives(w, step, p);
      } else {
        StepKeepsWaiting(w, step, p);
      }
    } else {
      var k :| k in w.runs && w.runs[k].payload == p && IsAlive(w.runs[k].stage);
      StepKeepsRun(w, step, k);
      assert HasAliveRun(Next(w, step).runs, p);
    }
  }

  lemma PolledLives(w: World, step: Step, p: Payload)
    requires Enabled(w, step) && step.Poll? && Polled(w.store, step.draw).1 == Some(p)
    ensures HasAliveRun(Next(w, step).runs, p)
  {
    hide Polled;
    assert Next(w, step).runs[step.run] == Run(step.worker, p, Starting);
  }

  lemma StepKeepsRun(w: World, step: Step, k: nat)
    requires Enabled(w, step) && k in w.runs && (step.Work? ==> step.run != k)
    ensures k in Next(w, step).runs && Next(w, step).runs[k] == w.runs[k]
  {
    if step.Work? {
      WorkFrame(w, step.run, step.ok);
      hide WorkStep;
    }
    hide PublishedBatch;
    hide Promoted;
    hide SubmittedRows;
  }

  /** The task of the run itself. */
  lemma WorkerLives(w: World, id: nat, ok: bool)
    requires Enabled(w, Work(id, ok)) && Known(w.tasks, w.runs[id].payload) && ActiveLives(w)
    ensures var w', t := WorkStep(w, id, ok), w.runs[id].payload.taskId;
            t in w'.tasks && IsActive(w'.tasks[t].status) ==> TaskLives(w', t)
  {
    var w', r := WorkStep(w, id, ok), w.runs[id];
    if r.stage.Scheduling? {
      SchedulingStage(w, id, ok);
      assert Waits(w', r.payload);
    } else if IsAlive(r.stage) || r.stage.MarkingRetry? {
      AliveStage(w, id, ok);
    } else {
      IdleStage(w, id, ok);
      var t := r.payload.taskId;
      if t in w'.tasks && IsActive(w'.tasks[t].status) {
        BystanderLives(w, Work(id, ok), t);
        assert Next(w, Work(id, ok)) == w';
      }
    }
  }

  lemma AliveStage(w: World, id: nat, ok: bool)
    requires Enabled(w, Work(id, ok)) && Known(w.tasks, w.runs[id].payload) && !w.runs[id].stage.Scheduling?
    requires IsAlive(w.runs[id].stage) || w.runs[id].stage.MarkingRetry?
    ensures var w', p := WorkStep(w, id, ok), w.runs[id].payload;
            p.taskId in w'.tasks && IsActive(w'.tasks[p.taskId].status) ==> HasAliveRun(w'.runs, p)
  {
    var w' := WorkStep(w, id, ok);
    if !w.runs[id].stage.Saving? {
      assert w'.runs[id].payload == w.runs[id].payload && IsAlive(w'.runs[id].stage);
    }
  }

  lemma IdleStage(w: World, id: nat, ok: bool)
    requires Enabled(w, Work(id, ok)) && Known(w.tasks, w.runs[id].payload)
    requires !IsAlive(w.runs[id].stage) && !w.runs[id].stage.MarkingRetry?
    ensures var w', t := WorkStep(w, id, ok), w.runs[id].payload.taskId;
            && t in w'.tasks && (IsActive(w'.tasks[t].status) ==> IsActive(w.tasks[t].status))
            && LosesNothing(w, Work(id, ok))
  {}

  lemma StepKeepsActiveLives(w: World, step: Step)
    requires Enabled(w, step) && AllKnown(w) && ActiveLives(w) && LosesNothing(w, step)
    ensures ActiveLives(Next(w, step))
  {
    var w' := Next(w, step);
    forall t | t in w'.tasks && IsActive(w'.tasks[t].status) ensures TaskLives(w', t) {
      if step.Work? && w.runs[step.run].payload.taskId == t {
        assert Known(w.tasks, w.runs[step.run].payload);
        WorkerLives(w, step.run, step.ok);
      } else if step.Submit? && t !in w.tasks {
        SubmittedLives(w, step.scan, step.batch, t);
      } else {
        OtherRowStays(w, step, t);
        BystanderLives(w, step, t);
      }
    }
  }

  lemma SubmittedLives(w: World, scan: nat, batch: seq<Payload>, t: nat)
    requires Enabled(w, Submit(scan, batch)) && t !in w.tasks && t in Next(w, Submit(scan, batch)).tasks
    ensures TaskLives(Next(w, Submit(scan, batch)), t)
  {
    var w' := Next(w, Submit(scan, batch));
    SubmittedRow(batch, t);
    var i :| 0 <= i < |batch| && batch[i].taskId == t;
    OfLevelMember(batch, QueueOf(batch[i].priority), batch[i]);
    assert batch[i] in w'.store.At(QueueOf(batch[i].priority));
    assert Waits(w', batch[i]);
  }

  lemma OtherRowStays(w: World, step: Step, t: nat)
    requires Enabled(w, step) && t in Next(w, step).tasks && (step.Submit? ==> t in w.tasks)
    requires step.Work? ==> w.runs[step.run].payload.taskId != t
    ensures t in w.tasks && Next(w, step).tasks[t] == w.tasks[t]
  {
    if step.Submit? {
      SubmittedRow(step.batch, t);
    }
  }

  // ---------------------------------------------------------------- runs with few due

  lemma FewDueLosesNothing(ws: seq<World>, steps: seq<Step>, i: nat)
    requires IsRun(ws, steps) && NeverCrowded(ws, steps) && i < |steps|
    ensures LosesNothing(ws[i], steps[i])
  {
    RunsAreLossless(ws, steps, i);
    if steps[i].PromoteAtOnce? {
      DueReadIsComplete(ws[i].store.delayed, ws[i].clock, steps[i].due);
      assert forall p :: p in DueSet(ws[i].store.delayed, ws[i].clock) ==> p in (set q | q in steps[i].due);
    }
  }

  lemma {:induction false} ActiveTasksLive(ws: seq<World>, steps: seq<Step>, i: nat)
    requires IsRun(ws, steps) && NeverCrowded(ws, steps) && i < |ws|
    ensures ActiveLives(ws[i])
  {
    if i > 0 {
      ActiveTasksLive(ws, steps, i - 1);
      AttemptsStayWithinCap(ws, steps, i - 1);
      FewDueLosesNothing(ws, steps, i - 1);
      StepKeepsActiveLives(ws[i - 1], steps[i - 1]);
    }
  }

  lemma ActiveIsToCome(w: World, scan: nat)
    requires ActiveLives(w) && AllKnown(w) && AnyActive(w.tasks, scan)
    ensures ToCome(w, scan)
  {
    var t :| t in w.tasks && w.tasks[t].scanId == scan && IsActive(w.tasks[t].status);
    var p: Payload :| p.taskId == t && (Waits(w, p) || HasAliveRun(w.runs, p));
    if Waits(w, p) {
      WaitingIsKnown(w, p);
    } else {
      var id :| id in w.runs && w.runs[id].payload == p && IsAlive(w.runs[id].stage);
      assert Known(w.tasks, w.runs[id].payload);
    }
  }

  lemma WaitingIsKnown(w: World, p: Payload)
    requires AllKnown(w) && Waits(w, p)
    ensures Known(w.tasks, p)
  {}

  /** A run writes FAILED over the success of a copy, in a scan that is COMPLETED and of which nothing waits
      or is worked on. */
  ghost predicate LateFailure(w: World, step: Step, scan: nat) {
    && step.Work? && step.run in w.runs && w.runs[step.run].stage.MarkingFailed?
    && scan in w.scans && w.scans[scan] == COMPLETED && !ToCome(w, scan)
    && var t := w.runs[step.run].payload.taskId; t in w.tasks && w.tasks[t].scanId == scan && w.tasks[t].status == SUCCESS
  }

  /** In every run that never meets more than fifty due payloads, a step leaves a settled scan with a wrong
      verdict and nothing to come if and only if it is a late failure. */
  lemma UnsettledIffLateFailure(ws: seq<World>, steps: seq<Step>, i: nat, scan: nat)
    requires IsRun(ws, steps) && NeverCrowded(ws, steps) && i < |steps| && Settled(ws[i], scan)
    ensures !Settled(ws[i + 1], scan) <==> LateFailure(ws[i], steps[i], scan)
  {
    hide *;
    RunStepAt(ws, steps, i);
    AttemptsStayWithinCap(ws, steps, i);
    ScansAreKnown(ws, steps, i);
    ActiveTasksLive(ws, steps, i);
    FewDueLosesNothing(ws, steps, i);
    StepUnsettlesIff(ws[i], steps[i], scan);
    OverwritesIsLateFailure(ws[i], steps[i], scan);
    NothingLost(ws[i], steps[i], scan);
  }

  lemma RunStepAt(ws: seq<World>, steps: seq<Step>, i: nat)
    requires IsRun(ws, steps) && i < |steps|
    ensures |ws| == |steps| + 1 && Enabled(ws[i], steps[i]) && ws[i + 1] == Next(ws[i], steps[i])
  {}

  lemma NothingLost(w: World, step: Step, scan: nat)
    requires LosesNothing(w, step)
    ensures !LosesLast(w, step, scan)
  {
    if ScanWaits(w, scan) {
      var p :| Waits(w, p) && p.scanId == scan;
      assert !LosesPayload(w, step, p);
    }
  }

  lemma OverwritesIsLateFailure(w: World, step: Step, scan: nat)
    requires Settled(w, scan) && ActiveLives(w) && AllKnown(w)
    ensures Overwrites(w, step, scan) <==> LateFailure(w, step, scan)
  {
    if AnyActive(w.tasks, scan) {
      ActiveIsToCome(w, scan);
    }
    hide AllKnown;
    hide ActiveLives;
    hide ToCome;
    if Overwrites(w, step, scan) {
      var t := w.runs[step.run].payload.taskId;
      assert HasTasks(w.tasks, scan) && !IsActive(w.tasks[t].status);
    }
  }

  /** So in such a run the verdict at quiescence is right unless a late failure came before. */
  lemma VerdictUnlessLateFailure(ws: seq<World>, steps: seq<Step>, i: nat, scan: nat)
    requires IsRun(ws, steps) && NeverCrowded(ws, steps) && i <= |steps| && IsQuiet(ws[i], scan)
    requires forall j :: 0 <= j < i ==> !LateFailure(ws[j], steps[j], scan)
    ensures IsRight(ws[i], scan)
  {
    SettledUnlessLateFailure(ws, steps, i, scan);
    QuietVerdictIsRight(ws[i], scan);
  }

  lemma {:induction false} SettledUnlessLateFailure(ws: seq<World>, steps: seq<Step>, i: nat, scan: nat)
    requires IsRun(ws, steps) && NeverCrowded(ws, steps) && i <= |steps|
    requires forall j :: 0 <= j < i ==> !LateFailure(ws[j], steps[j], scan)
    ensures Settled(ws[i], scan)
  {
    if i > 0 {
      SettledUnlessLateFailure(ws, steps, i - 1, scan);
      UnsettledIffLateFailure(ws, steps, i - 1, scan);
    }
  }

  /** And late failures do happen. */
  lemma LateFailuresHappen() returns (ws: seq<World>, steps: seq<Step>, j: nat)
    ensures IsRun(ws, steps) && NeverCrowded(ws, steps) && j < |steps| && LateFailure(ws[j], steps[j], 0)
    ensures IsQuiet(ws[|steps|], 0) && !IsRight(ws[|steps|], 0)
  {
    ws, steps := DuplicateRuns.CompletedWithFailedTask();
    var w := ws[|steps|];
    assert w.tasks[0].scanId == 0;
    assert IsQuiet(w, 0) by {
      assert forall p :: !Waits(w, p);
    }
    assert !IsRight(w, 0);
    if forall j :: 0 <= j < |steps| ==> !LateFailure(ws[j], steps[j], 0) {
      VerdictUnlessLateFailure(ws, steps, |steps|, 0);
    }
    j :| 0 <= j < |steps| && LateFailure(ws[j], steps[j], 0);
  }
}
