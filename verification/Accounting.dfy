/** Status and attempt accounting: in every state of an intact run the row of a task matches the place the
    task is in. */
module Accounting {
  import opened Wrappers
  import opened Payloads
  import opened TaskQueue
  import opened Engine
  import opened Places
  import opened Conservation
  import opened IntactMoves
  import opened Provenance

  predicate RowIs(tasks: Tasks, p: Payload, status: TaskStatus, attempts: nat) {
    Known(tasks, p) && tasks[p.taskId].status == status && tasks[p.taskId].attempts == attempts
  }

  /** A first attempt waits as QUEUED, a retry as RETRYING, and every attempt before it is counted. */
  predicate WaitsAs(tasks: Tasks, p: Payload) {
    RowIs(tasks, p, if p.attempt == 0 then QUEUED else RETRYING, p.attempt)
  }

  predicate DeadAs(tasks: Tasks, p: Payload, reason: Reason) {
    && RowIs(tasks, p, TaskStatus.FAILED, p.attempt + 1)
    && (reason == RetriesExhausted ==> p.attempt >= p.maxRetries)
  }

  predicate RunAgrees(tasks: Tasks, r: Run) {
    var p := r.payload;
    match r.stage
    case Starting => WaitsAs(tasks, p)
    case Limiting => RowIs(tasks, p, PROCESSING, p.attempt)
    case Executing => RowIs(tasks, p, PROCESSING, p.attempt)
    case Saving(o) => RowIs(tasks, p, PROCESSING, p.attempt)
    case Evaluating(o, scan) => RowIs(tasks, p, SavedStatus(o), p.attempt + 1) && scan == p.scanId
    case MarkingRetry => RowIs(tasks, p, TaskStatus.FAILED, p.attempt) && p.attempt >= 1
    case Scheduling => RowIs(tasks, p, RETRYING, p.attempt) && p.attempt >= 1
    case MarkingFailed => DeadAs(tasks, p, RetriesExhausted)
    case Burying(reason) => DeadAs(tasks, p, reason)
    case Releasing => true
  }

  ghost predicate ListsAgree(tasks: Tasks, s: Store) {
    forall l: Level, p :: p in s.At(l) ==> WaitsAs(tasks, p)
  }

  ghost predicate DelayedAgrees(tasks: Tasks, s: Store) {
    forall p :: p in s.delayed ==> WaitsAs(tasks, p) && p.attempt >= 1
  }

  ghost predicate DeadAgree(tasks: Tasks, s: Store) {
    forall i :: 0 <= i < |s.dlq| ==> DeadAs(tasks, s.dlq[i].payload, s.dlq[i].reason)
  }

  ghost predicate RunsAgree(tasks: Tasks, runs: map<nat, Run>) {
    forall id :: id in runs ==> RunAgrees(tasks, runs[id])
  }

  ghost predicate RowsBounded(tasks: Tasks) {
    forall t :: t in tasks ==> tasks[t].attempts <= Cap(tasks[t].maxRetries) + 1
  }

  ghost predicate Agrees(w: World) {
    && ListsAgree(w.tasks, w.store)
    && DelayedAgrees(w.tasks, w.store)
    && DeadAgree(w.tasks, w.store)
    && RunsAgree(w.tasks, w.runs)
    && RowsBounded(w.tasks)
  }

  // ---------------------------------------------------------------- a carrying run owns its row

  /** No place but run `id` mentions task `t`, except runs that are already done with it. */
  ghost predicate Owned(w: World, id: nat, t: nat) {
    && (forall l: Level, p :: p in w.store.At(l) ==> p.taskId != t)
    && (forall p :: p in w.store.delayed ==> p.taskId != t)
    && (forall i :: 0 <= i < |w.store.dlq| ==> w.store.dlq[i].payload.taskId != t)
    && (forall k :: k in w.runs && k != id && w.runs[k].payload.taskId == t ==> w.runs[k].stage.Releasing?)
  }

  lemma CarrierOwns(w: World, id: nat)
    requires Conserved(w) && Agrees(w) && id in w.runs && Carries(w.runs[id].stage)
    ensures Owned(w, id, w.runs[id].payload.taskId)
  {
    var t := w.runs[id].payload.taskId;
    CarrierIsAlone(w, id);
    AtEach(w.store, t);
    forall l: Level, p | p in w.store.At(l) ensures p.taskId != t {
      OccurrencesZero(w.store.At(l), t);
    }
    forall p | p in w.store.delayed ensures p.taskId != t {
      assert p !in DelayedOf(w.store, t);
    }
    BuriedZero(w.store.dlq, t);
    forall k | k in w.runs && k != id && w.runs[k].payload.taskId == t ensures w.runs[k].stage.Releasing? {
      assert k !in CarriersOf(w.runs, t);
      assert RunAgrees(w.tasks, w.runs[k]);
    }
  }

  /** Rewriting the row of an owned task leaves every other place in agreement. */
  lemma OwnedRowFrame(w: World, id: nat, row: Row)
    requires Agrees(w) && id in w.runs && Owned(w, id, w.runs[id].payload.taskId)
    ensures var tasks' := w.tasks[w.runs[id].payload.taskId := row];
            && ListsAgree(tasks', w.store) && DelayedAgrees(tasks', w.store) && DeadAgree(tasks', w.store)
            && forall k :: k in w.runs && k != id ==> RunAgrees(tasks', w.runs[k])
  {
    var t := w.runs[id].payload.taskId;
    var tasks' := w.tasks[t := row];
    forall l: Level, p | p in w.store.At(l) ensures WaitsAs(tasks', p) {
      assert WaitsAs(w.tasks, p);
    }
    forall k | k in w.runs && k != id ensures RunAgrees(tasks', w.runs[k]) {
      assert RunAgrees(w.tasks, w.runs[k]);
    }
  }

  /** What a stage that writes rows can change: its own run and the row of its own task. */
  lemma RowStepShape(w: World, id: nat, ok: bool)
    requires Enabled(w, Work(id, ok)) && WritesRows(w.runs[id].stage) && w.runs[id].payload.taskId in w.tasks
    ensures var w', t := WorkStep(w, id, ok), w.runs[id].payload.taskId;
            && w'.store == w.store && id in w'.runs && t in w'.tasks
            && w'.runs == w.runs[id := w'.runs[id]]
            && w'.tasks == w.tasks[t := w'.tasks[t]]
            && w'.runs[id].payload.taskId == t
  {}

  lemma CarrierStepAgrees(w: World, id: nat, ok: bool)
    requires Conserved(w) && Agrees(w) && Enabled(w, Work(id, ok)) && WritesRows(w.runs[id].stage) && Carries(w.runs[id].stage)
    ensures Agrees(WorkStep(w, id, ok))
  {
    CarrierIsAlone(w, id);
    CarrierOwns(w, id);
    WorkAgreesHere(w, id, ok);
    RowStepShape(w, id, ok);
    OwnedStepAgrees(w, id, WorkStep(w, id, ok));
  }

  lemma OwnedStepAgrees(w: World, id: nat, w': World)
    requires Agrees(w) && id in w.runs && Owned(w, id, w.runs[id].payload.taskId)
    requires w'.store == w.store && id in w'.runs && w'.runs == w.runs[id := w'.runs[id]]
    requires var t := w.runs[id].payload.taskId; t in w'.tasks && w'.tasks == w.tasks[t := w'.tasks[t]]
    requires RunAgrees(w'.tasks, w'.runs[id]) && RowsBounded(w'.tasks)
    ensures Agrees(w')
  {
    OwnedRowFrame(w, id, w'.tasks[w.runs[id].payload.taskId]);
  }

  /** Evaluating the scan after a success touches no task row. */
  lemma LastEvaluationAgrees(w: World, id: nat, ok: bool)
    requires Agrees(w) && Enabled(w, Work(id, ok)) && WritesRows(w.runs[id].stage) && !Carries(w.runs[id].stage)
    ensures Agrees(WorkStep(w, id, ok))
  {
    var w' := WorkStep(w, id, ok);
    forall k | k in w'.runs ensures RunAgrees(w'.tasks, w'.runs[k]) {
      assert k != id ==> RunAgrees(w.tasks, w.runs[k]);
    }
  }

  /** The run that moves keeps agreeing with its own row. */
  lemma WorkAgreesHere(w: World, id: nat, ok: bool)
    requires Agrees(w) && Enabled(w, Work(id, ok)) && WritesRows(w.runs[id].stage) && Carries(w.runs[id].stage)
    ensures var w' := WorkStep(w, id, ok);
            RunAgrees(w'.tasks, w'.runs[id]) && RowsBounded(w'.tasks)
  {
    assert RunAgrees(w.tasks, w.runs[id]);
  }

  lemma ScheduleAgrees(w: World, id: nat, ok: bool)
    requires Agrees(w) && Enabled(w, Work(id, ok)) && w.runs[id].stage.Scheduling?
    ensures Agrees(WorkStep(w, id, ok))
  {
    var w', r := WorkStep(w, id, ok), w.runs[id];
    assert RunAgrees(w.tasks, r);
    forall l: Level, p | p in w'.store.At(l) ensures WaitsAs(w'.tasks, p) {
      assert p in w.store.At(l);
    }
    forall k | k in w'.runs ensures RunAgrees(w'.tasks, w'.runs[k]) {
      assert k != id ==> RunAgrees(w.tasks, w.runs[k]);
    }
  }

  lemma BuryAgrees(w: World, id: nat, ok: bool)
    requires Agrees(w) && Enabled(w, Work(id, ok)) && w.runs[id].stage.Burying?
    ensures Agrees(WorkStep(w, id, ok))
  {
    var w', r := WorkStep(w, id, ok), w.runs[id];
    assert RunAgrees(w.tasks, r);
    forall l: Level, p | p in w'.store.At(l) ensures WaitsAs(w'.tasks, p) {
      assert p in w.store.At(l);
    }
    forall k | k in w'.runs ensures RunAgrees(w'.tasks, w'.runs[k]) {
      assert k != id ==> RunAgrees(w.tasks, w.runs[k]);
    }
  }

  lemma ReleaseAgrees(w: World, id: nat, ok: bool)
    requires Agrees(w) && Enabled(w, Work(id, ok)) && w.runs[id].stage.Releasing?
    ensures Agrees(WorkStep(w, id, ok))
  {}

  lemma PollAgrees(w: World, e: nat, draw: real, id: nat)
    requires Agrees(w) && Enabled(w, Poll(e, draw, id))
    ensures Agrees(PollStep(w, e, draw, id))
  {
    var w' := PollStep(w, e, draw, id);
    PollTakesOneHead(w.store, draw);
    var (s', o) := Polled(w.store, draw);
    if o.Some? {
      var l: Level :| w.store.At(l) != [] && w.store.At(l)[0] == o.value && s' == w.store.Pop(l);
      assert o.value in w.store.At(l);
      assert WaitsAs(w.tasks, o.value);
      forall k: Level, p | p in s'.At(k) ensures WaitsAs(w'.tasks, p) {
        assert p in w.store.At(k);
      }
      forall k | k in w'.runs ensures RunAgrees(w'.tasks, w'.runs[k]) {
        assert k != id ==> RunAgrees(w.tasks, w.runs[k]);
      }
    }
  }

  lemma SubmitAgrees(w: World, scan: nat, batch: seq<Payload>)
    requires Agrees(w) && Enabled(w, Submit(scan, batch))
    ensures Agrees(Next(w, Submit(scan, batch)))
  {
    var w' := Next(w, Submit(scan, batch));
    forall t | t in w.tasks ensures t in w'.tasks && w'.tasks[t] == w.tasks[t] {
      SubmittedRow(batch, t);
    }
    forall l: Level, p | p in w'.store.At(l) ensures WaitsAs(w'.tasks, p) {
      if p in w.store.At(l) {
        assert WaitsAs(w.tasks, p);
      } else {
        OfLevelMember(batch, l, p);
        SubmittedRow(batch, p.taskId);
      }
    }
    forall k | k in w'.runs ensures RunAgrees(w'.tasks, w'.runs[k]) {
      assert RunAgrees(w.tasks, w.runs[k]);
    }
    forall t | t in w'.tasks ensures w'.tasks[t].attempts <= Cap(w'.tasks[t].maxRetries) + 1 {
      SubmittedRow(batch, t);
    }
  }

  lemma MoveAgrees(w: World, e: nat, now: real, due: seq<Payload>)
    requires Agrees(w) && e in w.workers && forall p :: p in due ==> p in w.store.delayed
    ensures Agrees(SetLoop(w, e, Polling).(store := Promoted(w.store, now, due)))
  {
    var w' := SetLoop(w, e, Polling).(store := Promoted(w.store, now, due));
    forall l: Level, p | p in w'.store.At(l) ensures WaitsAs(w'.tasks, p) {
      if p !in w.store.At(l) {
        OfLevelMember(due, l, p);
        assert p in w.store.delayed;
      }
    }
  }

  lemma StepAgrees(w: World, step: Step)
    requires Conserved(w) && Agrees(w) && Enabled(w, step) && FindsRead(w, step)
    ensures Agrees(Next(w, step))
  {
    match step
    case Submit(scan, batch) => SubmitAgrees(w, scan, batch);
    case PromoteAtOnce(e, due) => MoveAgrees(w, e, w.clock, due);
    case MoveDue(e) => MoveAgrees(w, e, w.workers[e].loop.now, w.workers[e].loop.due);
    case Poll(e, draw, id) => PollAgrees(w, e, draw, id);
    case Work(id, ok) =>
      match w.runs[id].stage {
        case Releasing => ReleaseAgrees(w, id, ok);
        case Scheduling => ScheduleAgrees(w, id, ok);
        case Burying(reason) => BuryAgrees(w, id, ok);
        case _ =>
          if Carries(w.runs[id].stage) { CarrierStepAgrees(w, id, ok); } else { LastEvaluationAgrees(w, id, ok); }
      }
    case _ =>
  }

  /** In every state of an intact run the rows match the places: a task in a list is QUEUED on its first
      attempt and RETRYING later, a delayed one RETRYING, a dead one FAILED, and `attempts` is the
      attempt number while the task waits and one more once it has ended. */
  lemma {:induction false} RowsMatchPlaces(ws: seq<World>, steps: seq<Step>, i: nat)
    requires IsRun(ws, steps) && MovesIntact(ws, steps) && i < |ws|
    ensures Agrees(ws[i])
  {
    if i > 0 {
      RowsMatchPlaces(ws, steps, i - 1);
      TasksAreConserved(ws, steps, i - 1);
      StepAgrees(ws[i - 1], steps[i - 1]);
    } else {
      assert forall l: Level :: ws[0].store.At(l) == [];
    }
  }
}
