/** The verdict on a scan over every run, whatever the interleaving: which steps can leave a scan with the
    wrong verdict and nothing to come that would correct it, and that no other step does. */
module LateVerdict {
  import opened Wrappers
  import opened Payloads
  import opened TaskQueue
  import opened Engine
  import opened Conservation
  import opened Provenance
  import opened ScanVerdict

  // ---------------------------------------------------------------- what is still to come

  ghost predicate IsListed(s: Store, p: Payload) {
    exists l: Level :: p in s.At(l)
  }

  ghost predicate IsHeld(w: World, p: Payload) {
    exists e :: e in w.workers && Holds(w.workers[e].loop, p)
  }

  /** The payload is in a list or in the sorted set, or a worker is about to move it. */
  ghost predicate Waits(w: World, p: Payload) {
    IsListed(w.store, p) || p in w.store.delayed || IsHeld(w, p)
  }

  /** The run will evaluate its scan, or reschedule its payload. */
  predicate WillEvaluate(stage: Stage) {
    !stage.MarkingFailed? && !stage.Burying? && !stage.Releasing?
  }

  ghost predicate ScanWaits(w: World, scan: nat) {
    exists p :: Waits(w, p) && p.scanId == scan
  }

  ghost predicate ScanRuns(runs: map<nat, Run>, scan: nat) {
    exists id :: id in runs && WillEvaluate(runs[id].stage) && runs[id].payload.scanId == scan
  }

  /** Some payload of the scan waits or is worked on, so another evaluation is to come. */
  ghost predicate ToCome(w: World, scan: nat) {
    ScanWaits(w, scan) || ScanRuns(w.runs, scan)
  }

  /** A scan with tasks has an active one, or an evaluation to come, or carries the right verdict. */
  ghost predicate Settled(w: World, scan: nat) {
    scan in w.scans && HasTasks(w.tasks, scan) ==>
      AnyActive(w.tasks, scan) || ToCome(w, scan) || w.scans[scan] == Verdict(w.tasks, scan)
  }

  ghost predicate ScansKnown(w: World) {
    forall t :: t in w.tasks ==> w.tasks[t].scanId in w.scans
  }

  lemma StepKeepsScansKnown(w: World, step: Step)
    requires Enabled(w, step) && ScansKnown(w)
    ensures ScansKnown(Next(w, step))
  {
    if step.Submit? {
      forall t | t in Next(w, step).tasks ensures Next(w, step).tasks[t].scanId in Next(w, step).scans {
        SubmittedRow(step.batch, t);
      }
    }
  }

  // ---------------------------------------------------------------- the two ways to unsettle a scan

  /** The row of the task is FAILED by a run that will not evaluate the scan again, although it was not
      FAILED before, nothing of the scan is otherwise active or to come, and the scan is not FAILED. */
  ghost predicate Overwrites(w: World, step: Step, scan: nat) {
    && step.Work? && step.run in w.runs && w.runs[step.run].stage.MarkingFailed?
    && scan in w.scans && w.scans[scan] != ScanStatus.FAILED && !ToCome(w, scan)
    && var t := w.runs[step.run].payload.taskId;
       && t in w.tasks && w.tasks[t].scanId == scan && w.tasks[t].status != TaskStatus.FAILED
       && forall u :: u in w.tasks && u != t && w.tasks[u].scanId == scan ==> !IsActive(w.tasks[u].status)
  }

  /** What a step takes out of the sorted set, and what it pushes. */
  function Removed(w: World, step: Step): set<Payload> {
    if step.PromoteAtOnce? && step.due != [] then DueSet(w.store.delayed, w.clock)
    else if step.MoveDue? && step.worker in w.workers && w.workers[step.worker].loop.Moving? && w.workers[step.worker].loop.due != [] then
      DueSet(w.store.delayed, w.workers[step.worker].loop.now)
    else {}
  }

  function Pushed(w: World, step: Step): seq<Payload> {
    if step.PromoteAtOnce? then step.due
    else if step.MoveDue? && step.worker in w.workers && w.workers[step.worker].loop.Moving? then w.workers[step.worker].loop.due
    else []
  }

  /** The payload is removed unread, and is nowhere else. */
  ghost predicate LosesPayload(w: World, step: Step, p: Payload) {
    p in Removed(w, step) && p !in Pushed(w, step) && !IsListed(w.store, p) && !IsHeld(w, p)
  }

  /** All that was to come of the scan is lost, while none of its tasks is active and its verdict is wrong. */
  ghost predicate LosesLast(w: World, step: Step, scan: nat) {
    && scan in w.scans && HasTasks(w.tasks, scan) && !AnyActive(w.tasks, scan) && w.scans[scan] != Verdict(w.tasks, scan)
    && !ScanRuns(w.runs, scan)
    && ScanWaits(w, scan) && forall p :: Waits(w, p) && p.scanId == scan ==> LosesPayload(w, step, p)
  }

  // ---------------------------------------------------------------- moves

  lemma MoveShape(w: World, step: Step)
    requires Enabled(w, step) && (step.MoveDue? || step.PromoteAtOnce?)
    ensures var w', e := Next(w, step), step.worker;
            && e in w.workers && w'.tasks == w.tasks && w'.scans == w.scans && w'.runs == w.runs
            && w'.workers == w.workers[e := w.workers[e].(loop := Polling)]
            && (forall l: Level :: w'.store.At(l) == w.store.At(l) + OfLevel(Pushed(w, step), l))
            && (forall p :: p in w'.store.delayed <==> p in w.store.delayed && p !in Removed(w, step))
            && (forall p :: Holds(w.workers[e].loop, p) ==> p in Pushed(w, step))
  {
    var now := if step.MoveDue? then w.workers[step.worker].loop.now else w.clock;
    PromotionLists(w.store, now, Pushed(w, step));
    hide PublishedBatch;
  }

  lemma WaitsAfterMove(w: World, step: Step, p: Payload)
    requires Enabled(w, step) && (step.MoveDue? || step.PromoteAtOnce?)
    ensures Waits(Next(w, step), p) <==> (Waits(w, p) && !LosesPayload(w, step, p)) || p in Pushed(w, step)
  {
    MoveShape(w, step);
    var w' := Next(w, step);
    hide Next;
    hide Removed;
    hide Pushed;
    ListedAfterPush(w.store, w'.store, Pushed(w, step), p);
    HeldAfterMove(w, w', step.worker, p);
  }

  lemma ListedAfterPush(s: Store, s': Store, due: seq<Payload>, p: Payload)
    requires forall l: Level :: s'.At(l) == s.At(l) + OfLevel(due, l)
    ensures IsListed(s', p) <==> IsListed(s, p) || p in due
  {
    if l: Level :| p in s.At(l) { assert p in s'.At(l); }
    if p in due {
      OfLevelMember(due, QueueOf(p.priority), p);
      assert p in s'.At(QueueOf(p.priority));
    }
    if l: Level :| p in s'.At(l) {
      if p !in s.At(l) { OfLevelMember(due, l, p); }
    }
  }

  lemma HeldAfterMove(w: World, w': World, e: nat, p: Payload)
    requires e in w.workers && w'.workers == w.workers[e := w.workers[e].(loop := Polling)]
    ensures IsHeld(w', p) ==> IsHeld(w, p)
    ensures IsHeld(w, p) ==> IsHeld(w', p) || Holds(w.workers[e].loop, p)
  {
    if k :| k in w'.workers && Holds(w'.workers[k].loop, p) { assert w.workers[k] == w'.workers[k]; }
    if k :| k in w.workers && Holds(w.workers[k].loop, p) { assert k != e ==> w'.workers[k] == w.workers[k]; }
  }

  /** Pushed payloads were waiting. */
  lemma PushedWaits(w: World, step: Step, p: Payload)
    requires Enabled(w, step) && (step.MoveDue? || step.PromoteAtOnce?) && p in Pushed(w, step)
    ensures Waits(w, p) && !LosesPayload(w, step, p)
  {
    if step.MoveDue? {
      assert Holds(w.workers[step.worker].loop, p);
    } else {
      assert p in DueSet(w.store.delayed, w.clock);
    }
  }

  lemma MoveUnsettlesIff(w: World, step: Step, scan: nat)
    requires Enabled(w, step) && (step.MoveDue? || step.PromoteAtOnce?) && Settled(w, scan)
    ensures !Settled(Next(w, step), scan) <==> LosesLast(w, step, scan)
  {
    MoveShape(w, step);
    var w' := Next(w, step);
    forall p: Payload ensures Waits(w', p) <==> Waits(w, p) && !LosesPayload(w, step, p) {
      WaitsAfterMove(w, step, p);
      if p in Pushed(w, step) {
        PushedWaits(w, step, p);
      }
    }
    hide Next;
    hide Enabled;
    hide Waits;
    hide LosesPayload;
    assert w'.runs == w.runs && w'.tasks == w.tasks && w'.scans == w.scans;
    if ScanWaits(w', scan) {
      var p :| Waits(w', p) && p.scanId == scan;
      assert Waits(w, p);
    }
    if ScanWaits(w, scan) && !ScanWaits(w', scan) {
      forall p | Waits(w, p) && p.scanId == scan ensures LosesPayload(w, step, p) {
        assert !Waits(w', p);
      }
    }
  }

  // ---------------------------------------------------------------- steps that touch no row

  /** Nothing that was to come is gone, and neither the rows nor the verdict of the scan have changed. */
  lemma StaysSettled(w: World, w': World, scan: nat)
    requires Settled(w, scan) && (ToCome(w, scan) ==> ToCome(w', scan))
    requires (HasTasks(w'.tasks, scan) <==> HasTasks(w.tasks, scan)) && (AnyActive(w'.tasks, scan) <==> AnyActive(w.tasks, scan))
    requires AllSucceeded(w'.tasks, scan) <==> AllSucceeded(w.tasks, scan)
    requires scan in w'.scans && HasTasks(w.tasks, scan) ==> scan in w.scans
    requires scan in w.scans && (w.scans[scan] == COMPLETED || w.scans[scan] == ScanStatus.FAILED) ==> scan in w'.scans && w'.scans[scan] == w.scans[scan]
    ensures Settled(w', scan)
  {
    hide ToCome;
    hide HasTasks;
    hide AnyActive;
    hide AllSucceeded;
  }

  lemma QuietStaysSettled(w: World, step: Step, scan: nat)
    requires Enabled(w, step) && Settled(w, scan) && ScansKnown(w)
    requires step.Tick? || step.CreateScan? || step.StartWorker? || step.StopWorker? || step.AcquirePermit? || step.ReadDue?
    ensures Settled(Next(w, step), scan)
  {
    var w' := Next(w, step);
    if ToCome(w, scan) {
      QuietKeepsToCome(w, step, scan);
    }
  }

  lemma QuietKeepsToCome(w: World, step: Step, scan: nat)
    requires Enabled(w, step) && ToCome(w, scan)
    requires step.Tick? || step.CreateScan? || step.StartWorker? || step.StopWorker? || step.AcquirePermit? || step.ReadDue?
    ensures ToCome(Next(w, step), scan)
  {
    var w' := Next(w, step);
    assert w'.store == w.store && w'.runs == w.runs;
    if ScanWaits(w, scan) {
      var p :| Waits(w, p) && p.scanId == scan;
      if IsHeld(w, p) {
        var e :| e in w.workers && Holds(w.workers[e].loop, p);
        assert Holds(w'.workers[e].loop, p);
      }
      assert Waits(w', p);
    }
  }

  lemma PollKeepsToCome(w: World, e: nat, draw: real, id: nat, scan: nat)
    requires Enabled(w, Poll(e, draw, id)) && ToCome(w, scan)
    ensures ToCome(PollStep(w, e, draw, id), scan)
  {
    PollTakesOneHead(w.store, draw);
    var (s', o) := Polled(w.store, draw);
    var w' := PollStep(w, e, draw, id);
    hide Polled;
    if ScanWaits(w, scan) {
      var p :| Waits(w, p) && p.scanId == scan;
      if o.Some? && o.value == p {
        assert w'.runs[id] == Run(e, p, Starting);
      } else {
        PollKeepsWaiting(w, w', o, p);
      }
    } else {
      var k :| k in w.runs && WillEvaluate(w.runs[k].stage) && w.runs[k].payload.scanId == scan;
      assert k in w'.runs && w'.runs[k] == w.runs[k];
    }
  }

  lemma PollKeepsWaiting(w: World, w': World, o: Option<Payload>, p: Payload)
    requires Waits(w, p) && o != Some(p) && w'.store.delayed == w.store.delayed
    requires match o case None => w'.store == w.store
             case Some(q) => exists l: Level :: w.store.At(l) != [] && w.store.At(l)[0] == q && w'.store == w.store.Pop(l)
    requires forall e :: e in w.workers && w.workers[e].loop.Moving? ==> e in w'.workers && w'.workers[e].loop == w.workers[e].loop
    ensures Waits(w', p)
  {
    if l: Level :| p in w.store.At(l) {
      if o.Some? {
        var k: Level :| w.store.At(k) != [] && w.store.At(k)[0] == o.value && w'.store == w.store.Pop(k);
        assert p in w'.store.At(l);
      }
      assert IsListed(w'.store, p);
    }
    if e :| e in w.workers && Holds(w.workers[e].loop, p) {
      assert Holds(w'.workers[e].loop, p);
    }
  }

  lemma PollStaysSettled(w: World, e: nat, draw: real, id: nat, scan: nat)
    requires Enabled(w, Poll(e, draw, id)) && Settled(w, scan)
    ensures Settled(PollStep(w, e, draw, id), scan)
  {
    if ToCome(w, scan) {
      PollKeepsToCome(w, e, draw, id, scan);
    }
    hide Polled;
    StaysSettled(w, PollStep(w, e, draw, id), scan);
  }

  lemma SubmitStaysSettled(w: World, scan: nat, batch: seq<Payload>, s: nat)
    requires Enabled(w, Submit(scan, batch)) && Settled(w, s)
    ensures Settled(Next(w, Submit(scan, batch)), s)
  {
    var w' := Next(w, Submit(scan, batch));
    SubmitRows(w, scan, batch);
    if s == scan && batch != [] {
      assert w'.tasks[batch[0].taskId].scanId == s && IsActive(w'.tasks[batch[0].taskId].status);
    } else {
      SameRowsOf(w.tasks, w'.tasks, s);
      if ToCome(w, s) {
        SubmitKeepsToCome(w, w', batch, s);
      }
      hide PublishedBatch;
      hide SubmittedRows;
      StaysSettled(w, w', s);
    }
  }

  lemma SubmitRows(w: World, scan: nat, batch: seq<Payload>)
    requires Enabled(w, Submit(scan, batch))
    ensures var w' := Next(w, Submit(scan, batch));
            && (forall t :: t in w.tasks ==> t in w'.tasks && w'.tasks[t] == w.tasks[t])
            && (forall t :: t in w'.tasks && t !in w.tasks ==> w'.tasks[t].scanId == scan && batch != [])
            && (batch != [] ==> var t := batch[0].taskId; t in w'.tasks && w'.tasks[t].scanId == scan && w'.tasks[t].status == QUEUED)
  {
    var w' := Next(w, Submit(scan, batch));
    forall t | t in w'.tasks ensures t in w.tasks || (w'.tasks[t].scanId == scan && batch != []) {
      SubmittedRow(batch, t);
    }
    forall t | t in w.tasks ensures w'.tasks[t] == w.tasks[t] {
      SubmittedRow(batch, t);
    }
    if batch != [] {
      SubmittedRow(batch, batch[0].taskId);
    }
  }

  lemma SubmitKeepsToCome(w: World, w': World, batch: seq<Payload>, scan: nat)
    requires ToCome(w, scan) && w'.store == PublishedBatch(w.store, batch) && w'.runs == w.runs && w'.workers == w.workers
    ensures ToCome(w', scan)
  {
    if ScanWaits(w, scan) {
      var p :| Waits(w, p) && p.scanId == scan;
      if IsListed(w.store, p) {
        var l: Level :| p in w.store.At(l);
        assert p in w'.store.At(l);
      }
      if IsHeld(w, p) {
        var e :| e in w.workers && Holds(w.workers[e].loop, p);
        assert Holds(w'.workers[e].loop, p);
      }
      assert Waits(w', p);
    }
  }

  // ---------------------------------------------------------------- work

  /** Work takes nothing from the queue and leaves all other runs alone. */
  lemma WorkFrame(w: World, id: nat, ok: bool)
    requires Enabled(w, Work(id, ok))
    ensures var w' := WorkStep(w, id, ok);
            && (forall l: Level :: w'.store.At(l) == w.store.At(l))
            && (forall p :: p in w.store.delayed ==> p in w'.store.delayed)
            && (forall e :: e in w.workers ==> e in w'.workers && w'.workers[e].loop == w.workers[e].loop)
            && (forall k :: k in w.runs && k != id ==> k in w'.runs && w'.runs[k] == w.runs[k])
  {
    hide RetryDelay;
    hide Evaluated;
    hide WithStatus;
    hide WithResult;
  }

  lemma WorkKeepsWaiting(w: World, w': World, p: Payload)
    requires forall l: Level :: w'.store.At(l) == w.store.At(l)
    requires forall q :: q in w.store.delayed ==> q in w'.store.delayed
    requires forall e :: e in w.workers ==> e in w'.workers && w'.workers[e].loop == w.workers[e].loop
    ensures Waits(w, p) ==> Waits(w', p)
  {
    if l: Level :| p in w.store.At(l) { assert p in w'.store.At(l); }
    if e :| e in w.workers && Holds(w.workers[e].loop, p) { assert Holds(w'.workers[e].loop, p); }
  }

  /** What else is to come of a scan stays to come. */
  lemma WorkKeepsToCome(w: World, id: nat, ok: bool, scan: nat)
    requires Enabled(w, Work(id, ok)) && ToCome(w, scan)
    requires w.runs[id].payload.scanId == scan && WillEvaluate(w.runs[id].stage) ==> ToCome(WorkStep(w, id, ok), scan)
    ensures ToCome(WorkStep(w, id, ok), scan)
  {
    var w' := WorkStep(w, id, ok);
    WorkFrame(w, id, ok);
    hide WorkStep;
    if ScanWaits(w, scan) {
      var p :| Waits(w, p) && p.scanId == scan;
      WorkKeepsWaiting(w, w', p);
    } else {
      var k :| k in w.runs && WillEvaluate(w.runs[k].stage) && w.runs[k].payload.scanId == scan;
      if k != id {
        assert k in w'.runs && w'.runs[k] == w.runs[k];
      }
    }
  }

  /** Rows and verdicts change only for the scan of the run. */
  lemma WorkRows(w: World, id: nat, ok: bool)
    requires Enabled(w, Work(id, ok)) && w.runs[id].payload.taskId in w.tasks && FitsStage(w.runs[id])
    requires w.tasks[w.runs[id].payload.taskId].scanId == w.runs[id].payload.scanId
    ensures var w', t := WorkStep(w, id, ok), w.runs[id].payload.taskId;
            && t in w'.tasks && w'.tasks == w.tasks[t := w'.tasks[t]] && w'.tasks[t].scanId == w.tasks[t].scanId
            && forall s :: s != w.runs[id].payload.scanId ==> (s in w'.scans <==> s in w.scans) && (s in w.scans ==> w'.scans[s] == w.scans[s])
  {
    hide RetryDelay;
  }

  lemma OtherScanStaysSettled(w: World, id: nat, ok: bool, scan: nat)
    requires Enabled(w, Work(id, ok)) && Known(w.tasks, w.runs[id].payload) && FitsStage(w.runs[id]) && Settled(w, scan)
    requires w.runs[id].payload.scanId != scan
    ensures Settled(WorkStep(w, id, ok), scan)
  {
    var w', t := WorkStep(w, id, ok), w.runs[id].payload.taskId;
    WorkRows(w, id, ok);
    if ToCome(w, scan) {
      WorkKeepsToCome(w, id, ok, scan);
    }
    hide WorkStep;
    OtherRow(w.tasks, t, w'.tasks[t], scan);
    StaysSettled(w, w', scan);
  }

  /** A run that will evaluate its scan still will, or makes its row active, or has just evaluated. */
  lemma GoingOnSettles(w: World, id: nat, ok: bool)
    requires Enabled(w, Work(id, ok)) && Known(w.tasks, w.runs[id].payload) && FitsStage(w.runs[id]) && WillEvaluate(w.runs[id].stage)
    ensures Settled(WorkStep(w, id, ok), w.runs[id].payload.scanId)
  {
    var r, t := w.runs[id], w.runs[id].payload.taskId;
    if r.stage.Starting? || r.stage.MarkingRetry? {
      ActivatingStage(w, id, ok);
      assert IsActive(WorkStep(w, id, ok).tasks[t].status);
    } else if r.stage.Evaluating? {
      EvaluatingStage(w, id, ok);
      hide WorkStep;
    } else if r.stage.Scheduling? {
      SchedulingStage(w, id, ok);
      assert Waits(WorkStep(w, id, ok), r.payload);
    } else {
      RunningStage(w, id, ok);
    }
  }

  lemma ActivatingStage(w: World, id: nat, ok: bool)
    requires Enabled(w, Work(id, ok)) && Known(w.tasks, w.runs[id].payload) && (w.runs[id].stage.Starting? || w.runs[id].stage.MarkingRetry?)
    ensures var w', t := WorkStep(w, id, ok), w.runs[id].payload.taskId;
            t in w'.tasks && w'.tasks[t].scanId == w.runs[id].payload.scanId && IsActive(w'.tasks[t].status)
  {}

  lemma EvaluatingStage(w: World, id: nat, ok: bool)
    requires Enabled(w, Work(id, ok)) && FitsStage(w.runs[id]) && w.runs[id].stage.Evaluating?
    ensures var w', s := WorkStep(w, id, ok), w.runs[id].payload.scanId;
            s in w'.scans && HasTasks(w'.tasks, s) ==> AnyActive(w'.tasks, s) || w'.scans[s] == Verdict(w'.tasks, s)
  {
    hide HasTasks;
    hide AnyActive;
    hide AllSucceeded;
  }

  lemma SchedulingStage(w: World, id: nat, ok: bool)
    requires Enabled(w, Work(id, ok)) && w.runs[id].stage.Scheduling?
    ensures w.runs[id].payload in WorkStep(w, id, ok).store.delayed
  {
    hide RetryDelay;
  }

  lemma RunningStage(w: World, id: nat, ok: bool)
    requires Enabled(w, Work(id, ok)) && Known(w.tasks, w.runs[id].payload)
    requires w.runs[id].stage.Limiting? || w.runs[id].stage.Executing? || w.runs[id].stage.Saving?
    ensures var w' := WorkStep(w, id, ok);
            id in w'.runs && WillEvaluate(w'.runs[id].stage) && w'.runs[id].payload.scanId == w.runs[id].payload.scanId
  {}

  /** The last stages of a run touch neither rows nor what is to come. */
  lemma EndingStaysSettled(w: World, id: nat, ok: bool, scan: nat)
    requires Enabled(w, Work(id, ok)) && Settled(w, scan) && (w.runs[id].stage.Burying? || w.runs[id].stage.Releasing?)
    ensures Settled(WorkStep(w, id, ok), scan)
  {
    if ToCome(w, scan) {
      WorkKeepsToCome(w, id, ok, scan);
    }
    EndingRows(w, id, ok);
    hide WorkStep;
    StaysSettled(w, WorkStep(w, id, ok), scan);
  }

  lemma EndingRows(w: World, id: nat, ok: bool)
    requires Enabled(w, Work(id, ok)) && (w.runs[id].stage.Burying? || w.runs[id].stage.Releasing?)
    ensures WorkStep(w, id, ok).tasks == w.tasks && WorkStep(w, id, ok).scans == w.scans
  {}

  /** A run that gives its task up writes the last row. */
  lemma GivingUpUnsettlesIff(w: World, id: nat, ok: bool)
    requires Enabled(w, Work(id, ok)) && Known(w.tasks, w.runs[id].payload) && w.runs[id].stage.MarkingFailed?
    requires Settled(w, w.runs[id].payload.scanId) && ScansKnown(w)
    ensures !Settled(WorkStep(w, id, ok), w.runs[id].payload.scanId) <==> Overwrites(w, Work(id, ok), w.runs[id].payload.scanId)
  {
    var w', t, scan := WorkStep(w, id, ok), w.runs[id].payload.taskId, w.runs[id].payload.scanId;
    GivingUpStage(w, id, ok);
    GivingUpToCome(w, id, ok);
    hide WorkStep;
    assert w'.tasks[t].scanId == scan && !AllSucceeded(w'.tasks, scan);
    hide ToCome;
    FailedRow(w.tasks, t);
    if w.tasks[t].status == TaskStatus.FAILED {
      assert w'.tasks == w.tasks;
    }
  }

  lemma GivingUpStage(w: World, id: nat, ok: bool)
    requires Enabled(w, Work(id, ok)) && Known(w.tasks, w.runs[id].payload) && w.runs[id].stage.MarkingFailed?
    ensures var w', t := WorkStep(w, id, ok), w.runs[id].payload.taskId;
            && w'.tasks == w.tasks[t := w.tasks[t].(status := TaskStatus.FAILED)] && w'.scans == w.scans
            && w'.store == w.store && w'.workers == w.workers
            && w'.runs == w.runs[id := w.runs[id].(stage := Burying(RetriesExhausted))]
  {}

  lemma GivingUpToCome(w: World, id: nat, ok: bool)
    requires Enabled(w, Work(id, ok)) && Known(w.tasks, w.runs[id].payload) && w.runs[id].stage.MarkingFailed?
    ensures ToCome(WorkStep(w, id, ok), w.runs[id].payload.scanId) <==> ToCome(w, w.runs[id].payload.scanId)
  {
    var w', scan := WorkStep(w, id, ok), w.runs[id].payload.scanId;
    GivingUpStage(w, id, ok);
    if ToCome(w, scan) {
      WorkKeepsToCome(w, id, ok, scan);
    }
    hide WorkStep;
    if ScanWaits(w', scan) {
      var p :| Waits(w', p) && p.scanId == scan;
      WorkKeepsWaiting(w', w, p);
    }
    if ScanRuns(w'.runs, scan) {
      var k :| k in w'.runs && WillEvaluate(w'.runs[k].stage) && w'.runs[k].payload.scanId == scan;
      assert k in w.runs && w.runs[k] == w'.runs[k];
    }
  }

  /** What a row that becomes FAILED means for its scan. */
  lemma FailedRow(tasks: Tasks, t: nat)
    requires t in tasks
    ensures var tasks', scan := tasks[t := tasks[t].(status := TaskStatus.FAILED)], tasks[t].scanId;
            && HasTasks(tasks', scan) && HasTasks(tasks, scan)
            && (AnyActive(tasks', scan) <==> exists u :: u in tasks && u != t && tasks[u].scanId == scan && IsActive(tasks[u].status))
            && (AnyActive(tasks', scan) ==> AnyActive(tasks, scan))
  {
    var tasks' := tasks[t := tasks[t].(status := TaskStatus.FAILED)];
    assert tasks'[t].scanId == tasks[t].scanId;
    if u :| u in tasks && u != t && tasks[u].scanId == tasks[t].scanId && IsActive(tasks[u].status) { assert tasks'[u] == tasks[u]; }
    if u :| u in tasks' && tasks'[u].scanId == tasks[t].scanId && IsActive(tasks'[u].status) { assert tasks'[u] == tasks[u]; }
  }

  lemma WorkUnsettlesIff(w: World, id: nat, ok: bool, scan: nat)
    requires Enabled(w, Work(id, ok)) && AllKnown(w) && ScansKnown(w) && Settled(w, scan)
    ensures !Settled(WorkStep(w, id, ok), scan) <==> Overwrites(w, Work(id, ok), scan)
  {
    var r := w.runs[id];
    assert Known(w.tasks, r.payload) && FitsStage(r);
    hide AllKnown;
    if r.payload.scanId != scan {
      OtherScanStaysSettled(w, id, ok, scan);
    } else if WillEvaluate(r.stage) {
      GoingOnSettles(w, id, ok);
    } else if r.stage.MarkingFailed? {
      GivingUpUnsettlesIff(w, id, ok);
    } else {
      EndingStaysSettled(w, id, ok, scan);
    }
  }

  // ---------------------------------------------------------------- theorems

  /** A step leaves a settled scan unsettled if and only if it overwrites the last row of the scan with a
      late failure, or loses the last of its payloads. */
  lemma StepUnsettlesIff(w: World, step: Step, scan: nat)
    requires Enabled(w, step) && AllKnown(w) && ScansKnown(w) && Settled(w, scan)
    ensures !Settled(Next(w, step), scan) <==> Overwrites(w, step, scan) || LosesLast(w, step, scan)
  {
    NothingRemoved(w, step, scan);
    match step
    case Submit(s, batch) => SubmitStaysSettled(w, s, batch, scan);
    case PromoteAtOnce(e, due) => MoveUnsettlesIff(w, step, scan);
    case MoveDue(e) => MoveUnsettlesIff(w, step, scan);
    case Poll(e, draw, id) => PollStaysSettled(w, e, draw, id, scan);
    case Work(id, ok) => WorkUnsettlesIff(w, id, ok, scan);
    case _ => QuietStaysSettled(w, step, scan);
  }

  lemma NothingRemoved(w: World, step: Step, scan: nat)
    ensures !step.MoveDue? && !step.PromoteAtOnce? ==> !LosesLast(w, step, scan)
  {
    if !step.MoveDue? && !step.PromoteAtOnce? && ScanWaits(w, scan) {
      var p :| Waits(w, p) && p.scanId == scan;
      assert !LosesPayload(w, step, p);
    }
  }
}
