/** Where payloads come from: over every run, whatever the interleaving, each payload anywhere belongs to a
    submitted task and is an attempt that the task allows. */
module Provenance {
  import opened Payloads
  import opened TaskQueue
  import opened Engine
  import opened Conservation

  /** The retries the payload allows; a negative limit allows none. */
  function Cap(maxRetries: int): nat {
    if maxRetries < 0 then 0 else maxRetries
  }

  /** The row of the payload's task exists and agrees with it, and the attempt is within the limit. */
  predicate Known(tasks: Tasks, p: Payload) {
    && p.taskId in tasks
    && tasks[p.taskId].scanId == p.scanId
    && tasks[p.taskId].maxRetries == p.maxRetries
    && p.attempt <= Cap(p.maxRetries)
  }

  /** What the stage of a run says about its payload. */
  predicate FitsStage(r: Run) {
    match r.stage
    case Evaluating(_, scan) => scan == r.payload.scanId
    case MarkingRetry => r.payload.attempt >= 1
    case Scheduling => r.payload.attempt >= 1
    case MarkingFailed => r.payload.attempt >= r.payload.maxRetries
    case Burying(reason) => reason == RetriesExhausted ==> r.payload.attempt >= r.payload.maxRetries
    case _ => true
  }

  ghost predicate QueueKnown(tasks: Tasks, s: Store) {
    && (forall l: Level, p :: p in s.At(l) ==> Known(tasks, p))
    && (forall p :: p in s.delayed ==> Known(tasks, p) && p.attempt >= 1)
  }

  ghost predicate DeadKnown(tasks: Tasks, dlq: seq<DeadLetter>) {
    forall d :: d in dlq ==> Known(tasks, d.payload) && (d.reason == RetriesExhausted ==> d.payload.attempt >= d.payload.maxRetries)
  }

  ghost predicate ReadsKnown(w: World) {
    forall e, p :: e in w.workers && w.workers[e].loop.Moving? && p in w.workers[e].loop.due ==> Known(w.tasks, p) && p.attempt >= 1
  }

  ghost predicate RunsKnown(tasks: Tasks, runs: map<nat, Run>) {
    forall id :: id in runs ==> Known(tasks, runs[id].payload) && FitsStage(runs[id])
  }

  ghost predicate AllKnown(w: World) {
    QueueKnown(w.tasks, w.store) && DeadKnown(w.tasks, w.store.dlq) && ReadsKnown(w) && RunsKnown(w.tasks, w.runs)
  }

  /** Rows only change in status and attempts. */
  ghost predicate RowsEvolve(tasks: Tasks, tasks': Tasks) {
    forall t :: t in tasks ==> t in tasks' && tasks'[t].scanId == tasks[t].scanId && tasks'[t].maxRetries == tasks[t].maxRetries
  }

  lemma StillKnown(w: World, tasks': Tasks)
    requires AllKnown(w) && RowsEvolve(w.tasks, tasks')
    ensures QueueKnown(tasks', w.store) && DeadKnown(tasks', w.store.dlq) && RunsKnown(tasks', w.runs) && ReadsKnown(w.(tasks := tasks'))
  {
    forall l: Level, p | p in w.store.At(l) ensures Known(tasks', p) {
      assert Known(w.tasks, p);
    }
    forall id | id in w.runs ensures Known(tasks', w.runs[id].payload) {
      assert Known(w.tasks, w.runs[id].payload);
    }
  }

  lemma StepEvolvesRows(w: World, step: Step)
    requires Enabled(w, step)
    ensures RowsEvolve(w.tasks, Next(w, step).tasks)
  {
    if step.Submit? {
      forall t | t in w.tasks ensures t in Next(w, step).tasks && Next(w, step).tasks[t] == w.tasks[t] {
        SubmittedRow(step.batch, t);
      }
    }
  }

  lemma SubmitKeepsKnown(w: World, scan: nat, batch: seq<Payload>)
    requires AllKnown(w) && Enabled(w, Submit(scan, batch))
    ensures AllKnown(Next(w, Submit(scan, batch)))
  {
    var w' := Next(w, Submit(scan, batch));
    StepEvolvesRows(w, Submit(scan, batch));
    StillKnown(w, w'.tasks);
    forall l: Level, p | p in w'.store.At(l) ensures Known(w'.tasks, p) {
      if p !in w.store.At(l) {
        OfLevelMember(batch, l, p);
        SubmittedRow(batch, p.taskId);
      }
    }
  }

  lemma MoveKeepsKnown(tasks: Tasks, s: Store, now: real, due: seq<Payload>)
    requires QueueKnown(tasks, s) && forall p :: p in due ==> Known(tasks, p)
    ensures QueueKnown(tasks, Promoted(s, now, due)) && Promoted(s, now, due).dlq == s.dlq
  {
    var s' := Promoted(s, now, due);
    forall l: Level, p | p in s'.At(l) ensures Known(tasks, p) {
      if p !in s.At(l) {
        OfLevelMember(due, l, p);
      }
    }
  }

  lemma PollKeepsKnown(w: World, e: nat, draw: real, id: nat)
    requires AllKnown(w) && Enabled(w, Poll(e, draw, id))
    ensures AllKnown(PollStep(w, e, draw, id))
  {
    PollTakesOneHead(w.store, draw);
    var (s', o) := Polled(w.store, draw);
    if o.Some? {
      var l: Level :| w.store.At(l) != [] && w.store.At(l)[0] == o.value && s' == w.store.Pop(l);
      assert o.value in w.store.At(l);
      forall k: Level, p | p in s'.At(k) ensures Known(w.tasks, p) {
        assert p in w.store.At(k);
      }
    }
  }

  /** What a stage of a run changes: rows in status and attempts, the run itself, and what it hands on. */
  lemma WorkHandsOnKnown(w: World, id: nat, ok: bool)
    requires AllKnown(w) && Enabled(w, Work(id, ok))
    ensures var w' := WorkStep(w, id, ok);
            && QueueKnown(w.tasks, w'.store) && DeadKnown(w.tasks, w'.store.dlq)
            && (forall e :: e in w'.workers ==> e in w.workers && w'.workers[e].loop == w.workers[e].loop)
            && RunsKnown(w.tasks, w'.runs)
  {
    var w', r := WorkStep(w, id, ok), w.runs[id];
    assert Known(w.tasks, r.payload) && FitsStage(r);
    forall l: Level, p | p in w'.store.At(l) ensures Known(w.tasks, p) {
      assert p in w.store.At(l);
    }
  }

  lemma WorkKeepsKnown(w: World, id: nat, ok: bool)
    requires AllKnown(w) && Enabled(w, Work(id, ok))
    ensures AllKnown(WorkStep(w, id, ok))
  {
    var w' := WorkStep(w, id, ok);
    StepEvolvesRows(w, Work(id, ok));
    WorkHandsOnKnown(w, id, ok);
    assert Next(w, Work(id, ok)) == w';
    hide WorkStep;
    hide Next;
    StillKnown(w.(store := w'.store, runs := w'.runs), w'.tasks);
  }

  lemma StepKeepsKnown(w: World, step: Step)
    requires AllKnown(w) && Enabled(w, step)
    ensures AllKnown(Next(w, step))
  {
    match step
    case Submit(scan, batch) => SubmitKeepsKnown(w, scan, batch);
    case PromoteAtOnce(e, due) => MoveKeepsKnown(w.tasks, w.store, w.clock, due);
    case MoveDue(e) => MoveKeepsKnown(w.tasks, w.store, w.workers[e].loop.now, w.workers[e].loop.due);
    case Poll(e, draw, id) => PollKeepsKnown(w, e, draw, id);
    case Work(id, ok) => WorkKeepsKnown(w, id, ok);
    case _ =>
  }

  /** In every reachable state of every run: each payload that waits, is held by a worker about to move it,
      or is worked on, is an attempt number its task allows, and a payload was dead-lettered for too many
      retries only at the last attempt. */
  lemma {:induction false} AttemptsStayWithinCap(ws: seq<World>, steps: seq<Step>, i: nat)
    requires IsRun(ws, steps) && i < |ws|
    ensures AllKnown(ws[i])
  {
    if i > 0 {
      AttemptsStayWithinCap(ws, steps, i - 1);
      StepKeepsKnown(ws[i - 1], steps[i - 1]);
    } else {
      assert forall l: Level :: ws[0].store.At(l) == [];
    }
  }
}
