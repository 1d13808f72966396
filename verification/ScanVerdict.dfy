/** The verdict on a scan: what its row says once nothing is left to do, and what an evaluation that
    writes it can have seen. */
module ScanVerdict {
  import opened Payloads
  import opened TaskQueue
  import opened Engine
  import opened Places
  import opened Conservation
  import opened IntactMoves
  import opened Accounting

  ghost predicate AwaitsEvaluation(w: World, scan: nat) {
    exists id :: id in w.runs && w.runs[id].stage.Evaluating? && w.runs[id].stage.scan == scan
  }

  function Verdict(tasks: Tasks, scan: nat): ScanStatus {
    if AllSucceeded(tasks, scan) then COMPLETED else ScanStatus.FAILED
  }

  /** A scan with tasks has an active one, or awaits an evaluation, or carries the right verdict. */
  ghost predicate ScanSettled(w: World, scan: nat) {
    scan in w.scans && HasTasks(w.tasks, scan) ==>
      AnyActive(w.tasks, scan) || AwaitsEvaluation(w, scan) || w.scans[scan] == Verdict(w.tasks, scan)
  }

  ghost predicate ScansSettled(w: World) {
    && (forall t :: t in w.tasks ==> w.tasks[t].scanId in w.scans)
    && (forall scan: nat :: ScanSettled(w, scan))
  }

  /** Rows of other scans do not matter to a scan. */
  lemma OtherRow(tasks: Tasks, t: nat, row: Row, scan: nat)
    requires t in tasks && row.scanId == tasks[t].scanId != scan
    ensures var tasks' := tasks[t := row];
            && (HasTasks(tasks', scan) <==> HasTasks(tasks, scan))
            && (AnyActive(tasks', scan) <==> AnyActive(tasks, scan))
            && (AllSucceeded(tasks', scan) <==> AllSucceeded(tasks, scan))
  {
    var tasks' := tasks[t := row];
    if k :| k in tasks && tasks[k].scanId == scan { assert tasks'[k] == tasks[k]; }
    if k :| k in tasks' && tasks'[k].scanId == scan { assert tasks'[k] == tasks[k]; }
    if k :| k in tasks && tasks[k].scanId == scan && IsActive(tasks[k].status) { assert tasks'[k] == tasks[k]; }
    if k :| k in tasks' && tasks'[k].scanId == scan && IsActive(tasks'[k].status) { assert tasks'[k] == tasks[k]; }
    forall k | k in tasks && tasks[k].scanId == scan ensures k in tasks' && tasks'[k] == tasks[k] {}
    forall k | k in tasks' && tasks'[k].scanId == scan ensures k in tasks && tasks'[k] == tasks[k] {}
  }

  /** Making a row active settles its scan; no other scan notices. */
  lemma ActivatingSettles(w: World, w': World, id: nat)
    requires ScansSettled(w) && id in w.runs && !w.runs[id].stage.Evaluating?
    requires var t := w.runs[id].payload.taskId;
             && t in w.tasks && t in w'.tasks && w'.tasks == w.tasks[t := w'.tasks[t]]
             && w'.tasks[t].scanId == w.tasks[t].scanId && IsActive(w'.tasks[t].status)
    requires w'.scans == w.scans && id in w'.runs && w'.runs == w.runs[id := w'.runs[id]]
    ensures ScansSettled(w')
  {
    var t := w.runs[id].payload.taskId;
    forall scan: nat ensures ScanSettled(w', scan) {
      assert ScanSettled(w, scan);
      if scan == w.tasks[t].scanId {
        assert AnyActive(w'.tasks, scan);
      } else {
        OtherRow(w.tasks, t, w'.tasks[t], scan);
        OthersStillAwait(w, w', id, scan);
      }
    }
  }

  lemma OthersStillAwait(w: World, w': World, id: nat, scan: nat)
    requires id in w.runs && (w.runs[id].stage.Evaluating? ==> w.runs[id].stage.scan != scan)
    requires forall k :: k in w.runs && k != id ==> k in w'.runs && w'.runs[k] == w.runs[k]
    ensures AwaitsEvaluation(w, scan) ==> AwaitsEvaluation(w', scan)
  {
    if AwaitsEvaluation(w, scan) {
      var k :| k in w.runs && w.runs[k].stage.Evaluating? && w.runs[k].stage.scan == scan;
      assert k in w'.runs && w'.runs[k].stage.Evaluating? && w'.runs[k].stage.scan == scan;
    }
  }

  /** Saving a response leaves its scan awaiting an evaluation. */
  lemma SavingSettles(w: World, id: nat, ok: bool)
    requires Agrees(w) && ScansSettled(w) && Enabled(w, Work(id, ok)) && w.runs[id].stage.Saving?
    ensures ScansSettled(WorkStep(w, id, ok))
  {
    var w', t := WorkStep(w, id, ok), w.runs[id].payload.taskId;
    assert RunAgrees(w.tasks, w.runs[id]);
    forall scan: nat ensures ScanSettled(w', scan) {
      assert ScanSettled(w, scan);
      if scan == w.tasks[t].scanId {
        assert w'.runs[id].stage.Evaluating? && w'.runs[id].stage.scan == scan;
      } else {
        OtherRow(w.tasks, t, w'.tasks[t], scan);
        OthersStillAwait(w, w', id, scan);
      }
    }
  }

  lemma EvaluatingSettles(w: World, id: nat, ok: bool)
    requires ScansSettled(w) && Enabled(w, Work(id, ok)) && w.runs[id].stage.Evaluating?
    ensures ScansSettled(WorkStep(w, id, ok))
  {
    var w' := WorkStep(w, id, ok);
    forall scan: nat ensures ScanSettled(w', scan) {
      assert ScanSettled(w, scan);
      if scan != w.runs[id].stage.scan {
        OthersStillAwait(w, w', id, scan);
      }
    }
  }

  /** Stages that change neither rows nor scans. */
  lemma QuietWorkSettles(w: World, id: nat, ok: bool)
    requires ScansSettled(w) && Enabled(w, Work(id, ok)) && !w.runs[id].stage.Evaluating?
    requires WorkStep(w, id, ok).tasks == w.tasks && WorkStep(w, id, ok).scans == w.scans
    ensures ScansSettled(WorkStep(w, id, ok))
  {
    var w' := WorkStep(w, id, ok);
    forall scan: nat ensures ScanSettled(w', scan) {
      assert ScanSettled(w, scan);
      OthersStillAwait(w, w', id, scan);
    }
  }

  lemma WorkSettles(w: World, id: nat, ok: bool)
    requires Agrees(w) && ScansSettled(w) && Enabled(w, Work(id, ok))
    ensures ScansSettled(WorkStep(w, id, ok))
  {
    assert RunAgrees(w.tasks, w.runs[id]);
    match w.runs[id].stage
    case Starting => ActivatingSettles(w, WorkStep(w, id, ok), id);
    case MarkingRetry => ActivatingSettles(w, WorkStep(w, id, ok), id);
    case Saving(o) => SavingSettles(w, id, ok);
    case Evaluating(o, scan) => EvaluatingSettles(w, id, ok);
    case _ => QuietWorkSettles(w, id, ok);
  }

  lemma SubmitSettles(w: World, scan: nat, batch: seq<Payload>)
    requires ScansSettled(w) && Enabled(w, Submit(scan, batch))
    ensures ScansSettled(Next(w, Submit(scan, batch)))
  {
    var w' := Next(w, Submit(scan, batch));
    forall t: nat ensures t in w.tasks ==> t in w'.tasks && w'.tasks[t] == w.tasks[t]
                  ensures t in w'.tasks && t !in w.tasks ==> w'.tasks[t].scanId == scan && w'.tasks[t].status == QUEUED
    {
      SubmittedRow(batch, t);
    }
    forall s: nat ensures ScanSettled(w', s) {
      assert ScanSettled(w, s);
      if added :| added in w'.tasks && added !in w.tasks && s == scan {
        assert AnyActive(w'.tasks, s);
      } else {
        SameRowsOf(w.tasks, w'.tasks, s);
        assert AwaitsEvaluation(w, s) ==> AwaitsEvaluation(w', s);
      }
    }
  }

  lemma SameRowsOf(tasks: Tasks, tasks': Tasks, scan: nat)
    requires forall t :: t in tasks ==> t in tasks' && tasks'[t] == tasks[t]
    requires forall t :: t in tasks' && t !in tasks ==> tasks'[t].scanId != scan
    ensures HasTasks(tasks', scan) <==> HasTasks(tasks, scan)
    ensures AnyActive(tasks', scan) <==> AnyActive(tasks, scan)
    ensures AllSucceeded(tasks', scan) <==> AllSucceeded(tasks, scan)
  {
    if k :| k in tasks && tasks[k].scanId == scan { assert tasks'[k] == tasks[k]; }
    if k :| k in tasks && tasks[k].scanId == scan && IsActive(tasks[k].status) { assert tasks'[k] == tasks[k]; }
  }

  lemma PollSettles(w: World, e: nat, draw: real, id: nat)
    requires ScansSettled(w) && Enabled(w, Poll(e, draw, id))
    ensures ScansSettled(PollStep(w, e, draw, id))
  {
    var w' := PollStep(w, e, draw, id);
    forall scan: nat ensures ScanSettled(w', scan) {
      assert ScanSettled(w, scan);
      if AwaitsEvaluation(w, scan) {
        var k :| k in w.runs && w.runs[k].stage.Evaluating? && w.runs[k].stage.scan == scan;
        assert w'.runs[k] == w.runs[k];
      }
    }
  }

  lemma OtherStepSettles(w: World, w': World)
    requires ScansSettled(w) && w'.tasks == w.tasks && w'.runs == w.runs
    requires forall scan :: scan in w.scans ==> scan in w'.scans && w'.scans[scan] == w.scans[scan]
    ensures ScansSettled(w')
  {
    forall scan: nat ensures ScanSettled(w', scan) {
      assert ScanSettled(w, scan);
      assert AwaitsEvaluation(w, scan) ==> AwaitsEvaluation(w', scan);
    }
  }

  lemma StepSettles(w: World, step: Step)
    requires Agrees(w) && ScansSettled(w) && Enabled(w, step)
    ensures ScansSettled(Next(w, step))
  {
    match step
    case Submit(scan, batch) => SubmitSettles(w, scan, batch);
    case Poll(e, draw, id) => PollSettles(w, e, draw, id);
    case Work(id, ok) => WorkSettles(w, id, ok);
    case _ => OtherStepSettles(w, Next(w, step));
  }

  lemma {:induction false} ScansSettle(ws: seq<World>, steps: seq<Step>, i: nat)
    requires IsRun(ws, steps) && MovesIntact(ws, steps) && i < |ws|
    ensures ScansSettled(ws[i])
  {
    if i > 0 {
      ScansSettle(ws, steps, i - 1);
      RowsMatchPlaces(ws, steps, i - 1);
      StepSettles(ws[i - 1], steps[i - 1]);
    }
  }

  /** At quiescence of every intact run: once no task of a scan is active and no evaluation
      of it is pending, the scan is COMPLETED if all its tasks succeeded and FAILED otherwise. */
  lemma VerdictAtQuiescence(ws: seq<World>, steps: seq<Step>, i: nat, scan: nat)
    requires IsRun(ws, steps) && MovesIntact(ws, steps) && i < |ws|
    requires var w := ws[i];
             scan in w.scans && HasTasks(w.tasks, scan) && !AnyActive(w.tasks, scan) && !AwaitsEvaluation(w, scan)
    ensures var w := ws[i];
            && (w.scans[scan] == COMPLETED <==> forall t :: t in w.tasks && w.tasks[t].scanId == scan ==> w.tasks[t].status == SUCCESS)
            && (w.scans[scan] == ScanStatus.FAILED <==> exists t :: t in w.tasks && w.tasks[t].scanId == scan && w.tasks[t].status == TaskStatus.FAILED)
  {
    ScansSettle(ws, steps, i);
    var w := ws[i];
    assert ScanSettled(w, scan);
    if !AllSucceeded(w.tasks, scan) {
      var t :| t in w.tasks && w.tasks[t].scanId == scan && w.tasks[t].status != SUCCESS;
      assert !IsActive(w.tasks[t].status);
    }
  }

  // ---------------------------------------------------------------- what a verdict has seen

  /** The task will never run again. */
  predicate IsOver(w: World, t: nat) {
    Finished(w.tasks, t) == 1 || Buried(w.store.dlq, t) > 0
  }

  /** The run has saved a failure of the task and has neither rescheduled nor buried it yet. */
  predicate IsBetween(r: Run, t: nat) {
    && r.payload.taskId == t
    && ((r.stage.Evaluating? && !r.stage.outcome.Ok?) || r.stage.MarkingRetry? || r.stage.MarkingFailed? || r.stage.Burying?)
  }

  /** A task that is not active is over, or a run stands between its failed save and its retry
      decision. */
  lemma InactiveTask(w: World, t: nat)
    requires Conserved(w) && Agrees(w) && t in w.tasks && !IsActive(w.tasks[t].status)
    ensures IsOver(w, t) || exists id :: id in w.runs && IsBetween(w.runs[id], t)
  {
    assert PlacesOf(w, t) == 1;
    NotWaiting(w, t);
    if CarriersOf(w.runs, t) != {} {
      var id :| id in CarriersOf(w.runs, t);
      assert RunAgrees(w.tasks, w.runs[id]);
      assert IsBetween(w.runs[id], t);
    }
  }

  lemma NotWaiting(w: World, t: nat)
    requires Agrees(w) && t in w.tasks && !IsActive(w.tasks[t].status)
    ensures InLists(w.store, t) == 0 && DelayedOf(w.store, t) == {}
  {
    AtEach(w.store, t);
    forall l: Level ensures Occurrences(w.store.At(l), t) == 0 {
      OccurrencesZero(w.store.At(l), t);
      forall i | 0 <= i < |w.store.At(l)| ensures w.store.At(l)[i].taskId != t {
        assert WaitsAs(w.tasks, w.store.At(l)[i]);
      }
    }
  }

  /** What is over stays over, and its row never changes again. */
  lemma OverStays(w: World, step: Step, t: nat)
    requires Conserved(w) && Enabled(w, step) && t in w.tasks && IsOver(w, t)
    ensures var w' := Next(w, step); t in w'.tasks && w'.tasks[t] == w.tasks[t] && IsOver(w', t)
  {
    assert PlacesOf(w, t) == 1;
    match step
    case Submit(scan, batch) => SubmittedRow(batch, t);
    case Poll(e, draw, id) => PopPlaces(w.store, draw, t);
    case Work(id, ok) => OverStaysAtWork(w, id, ok, t);
    case _ =>
  }

  lemma OverStaysAtWork(w: World, id: nat, ok: bool, t: nat)
    requires Conserved(w) && Enabled(w, Work(id, ok)) && t in w.tasks && IsOver(w, t)
    ensures var w' := WorkStep(w, id, ok); t in w'.tasks && w'.tasks[t] == w.tasks[t] && IsOver(w', t)
  {
    var r := w.runs[id];
    if Carries(r.stage) && r.payload.taskId == t {
      CarrierIsAlone(w, id);
    }
    if r.stage.Burying? {
      BuryPlaces(w.store.dlq, DeadLetter(r.payload, r.stage.reason), t);
    }
  }

  /** In every intact run: once a task has succeeded or been dead-lettered, its row is final. */
  lemma {:induction false} OverIsForever(ws: seq<World>, steps: seq<Step>, t: nat, i: nat, j: nat)
    requires IsRun(ws, steps) && MovesIntact(ws, steps) && i <= j < |ws| && t in ws[i].tasks && IsOver(ws[i], t)
    ensures t in ws[j].tasks && ws[j].tasks[t] == ws[i].tasks[t] && IsOver(ws[j], t)
  {
    if i < j {
      OverIsForever(ws, steps, t, i, j - 1);
      TasksAreConserved(ws, steps, j - 1);
      OverStays(ws[j - 1], steps[j - 1], t);
    }
  }

  // ---------------------------------------------------------------- when a verdict is early

  /** The run is on its way to reschedule the task. */
  predicate IsRetrying(r: Run, t: nat) {
    && r.payload.taskId == t
    && (r.stage.MarkingRetry? || (r.stage.Evaluating? && r.stage.outcome.Failure? && r.payload.attempt < r.payload.maxRetries))
  }

  /** The run is on its way to bury the task. */
  predicate IsBurying(r: Run, t: nat) {
    IsBetween(r, t) && !IsRetrying(r, t)
  }

  /** The task is over, or the run that carries it will bury it. */
  ghost predicate IsSettled(w: World, t: nat) {
    t in w.tasks && (IsOver(w, t) || exists id :: id in w.runs && IsBurying(w.runs[id], t))
  }

  ghost predicate WillRetry(w: World, t: nat) {
    exists id :: id in w.runs && IsRetrying(w.runs[id], t)
  }

  /** A task a verdict has seen inactive is either settled or will retry, never both. */
  lemma InactiveIsSettledOrRetries(w: World, t: nat)
    requires Conserved(w) && Agrees(w) && t in w.tasks && !IsActive(w.tasks[t].status)
    ensures IsSettled(w, t) <==> !WillRetry(w, t)
  {
    InactiveTask(w, t);
    assert PlacesOf(w, t) == 1;
    if id :| id in w.runs && IsRetrying(w.runs[id], t) {
      CarrierIsAlone(w, id);
      assert forall k :: k in w.runs && CarrierFor(w.runs[k], t) <==> k in CarriersOf(w.runs, t);
    }
  }

  lemma SettledStaysAtWork(w: World, id: nat, ok: bool, t: nat)
    requires Conserved(w) && Agrees(w) && Enabled(w, Work(id, ok)) && id in w.runs && IsBurying(w.runs[id], t)
    ensures var w' := WorkStep(w, id, ok); IsSettled(w', t) && w'.tasks == w.tasks
  {
    assert RunAgrees(w.tasks, w.runs[id]);
    var w', r := WorkStep(w, id, ok), w.runs[id];
    if r.stage.Burying? {
      BuryPlaces(w.store.dlq, DeadLetter(r.payload, r.stage.reason), t);
    } else {
      assert id in w'.runs && IsBurying(w'.runs[id], t);
    }
  }

  /** The work of another run cannot touch the row of a task that run `k` carries. */
  lemma OtherWorkKeepsRow(w: World, id: nat, ok: bool, k: nat, t: nat)
    requires Conserved(w) && Enabled(w, Work(id, ok)) && k in w.runs && k != id && CarrierFor(w.runs[k], t)
    ensures var w' := WorkStep(w, id, ok);
            k in w'.runs && w'.runs[k] == w.runs[k] && t in w'.tasks && w'.tasks[t] == w.tasks[t]
  {
    CarrierIsAlone(w, k);
    assert CarrierFor(w.runs[id], t) <==> id in CarriersOf(w.runs, t);
  }

  lemma SettledStays(w: World, step: Step, t: nat)
    requires Conserved(w) && Agrees(w) && Enabled(w, step) && IsSettled(w, t)
    ensures var w' := Next(w, step); IsSettled(w', t) && w'.tasks[t] == w.tasks[t]
  {
    if IsOver(w, t) {
      OverStays(w, step, t);
    } else {
      var k :| k in w.runs && IsBurying(w.runs[k], t);
      BuryingStays(w, step, t, k);
    }
  }

  lemma BuryingStays(w: World, step: Step, t: nat, k: nat)
    requires Conserved(w) && Agrees(w) && Enabled(w, step) && k in w.runs && IsBurying(w.runs[k], t) && t in w.tasks
    ensures var w' := Next(w, step); IsSettled(w', t) && w'.tasks[t] == w.tasks[t]
  {
    if step.Work? {
      if step.run == k {
        SettledStaysAtWork(w, k, step.ok, t);
      } else {
        OtherWorkKeepsRow(w, step.run, step.ok, k, t);
      }
    } else {
      OtherStepKeeps(w, step, k, t);
    }
  }

  lemma OtherStepKeeps(w: World, step: Step, k: nat, t: nat)
    requires Enabled(w, step) && !step.Work? && k in w.runs && t in w.tasks
    ensures var w' := Next(w, step);
            k in w'.runs && w'.runs[k] == w.runs[k] && t in w'.tasks && w'.tasks[t] == w.tasks[t]
  {
    if step.Submit? {
      SubmittedRow(step.batch, t);
    }
  }

  /** A verdict is final on every settled task: in every intact run its row never changes again. */
  lemma {:induction false} SettledIsForever(ws: seq<World>, steps: seq<Step>, t: nat, i: nat, j: nat)
    requires IsRun(ws, steps) && MovesIntact(ws, steps) && i <= j < |ws| && IsSettled(ws[i], t)
    ensures IsSettled(ws[j], t) && ws[j].tasks[t] == ws[i].tasks[t]
  {
    if i < j {
      SettledIsForever(ws, steps, t, i, j - 1);
      TasksAreConserved(ws, steps, j - 1);
      RowsMatchPlaces(ws, steps, j - 1);
      SettledStays(ws[j - 1], steps[j - 1], t);
    }
  }

  /** A verdict that has seen a task that will retry is early: the very next steps of that run make the
      task RETRYING. */
  lemma RetryReactivates(w: World, id: nat, t: nat)
    requires id in w.runs && w.runs[id].engine in w.workers && IsRetrying(w.runs[id], t) && t in w.tasks
    ensures Enabled(w, Work(id, true))
    ensures var w1 := WorkStep(w, id, true);
            if w.runs[id].stage.MarkingRetry? then t in w1.tasks && w1.tasks[t].status == RETRYING
            else Enabled(w1, Work(id, true)) && t in WorkStep(w1, id, true).tasks && WorkStep(w1, id, true).tasks[t].status == RETRYING
  {
    var w1 := WorkStep(w, id, true);
    if !w.runs[id].stage.MarkingRetry? {
      assert w1.runs[id].stage == MarkingRetry && w1.tasks == w.tasks && w1.workers == w.workers;
    }
  }
}
