/** Task conservation, step by step: a step that moves nothing, or promotes at most fifty due payloads at
    once, keeps every submitted task in exactly one place. */
module Conservation {
  import opened Wrappers
  import opened Payloads
  import opened TaskQueue
  import opened Engine
  import opened Places

  ghost predicate Conserved(w: World) {
    forall t: nat :: PlacesOf(w, t) == if t in w.tasks then 1 else 0
  }

  function Bit(b: bool): nat {
    if b then 1 else 0
  }

  predicate CarrierFor(r: Run, t: nat) {
    r.payload.taskId == t && Carries(r.stage)
  }

  lemma CarrierUpdate(runs: map<nat, Run>, id: nat, r: Run, t: nat)
    ensures |CarriersOf(runs[id := r], t)| + Bit(id in runs && CarrierFor(runs[id], t))
         == |CarriersOf(runs, t)| + Bit(CarrierFor(r, t))
  {
    SameButOne(CarriersOf(runs, t), CarriersOf(runs[id := r], t), id);
  }

  /** Two sets that differ at most in `x` have sizes that differ accordingly. */
  lemma SameButOne<T>(a: set<T>, b: set<T>, x: T)
    requires forall y :: y != x ==> (y in a <==> y in b)
    ensures |a| + Bit(x in b) == |b| + Bit(x in a)
  {
    assert a - {x} == b - {x};
    WithoutOne(a, x);
    WithoutOne(b, x);
  }

  lemma WithoutOne<T>(a: set<T>, x: T)
    ensures |a| == |a - {x}| + Bit(x in a)
  {
    if x !in a {
      assert a - {x} == a;
    }
  }

  /** A run that carries a task is its only place. */
  lemma CarrierIsAlone(w: World, id: nat)
    requires Conserved(w) && id in w.runs && Carries(w.runs[id].stage)
    ensures var t := w.runs[id].payload.taskId;
            && t in w.tasks
            && CarriersOf(w.runs, t) == {id}
            && InLists(w.store, t) == 0 && DelayedOf(w.store, t) == {} && Buried(w.store.dlq, t) == 0
            && w.tasks[t].status != SUCCESS
  {
    var t := w.runs[id].payload.taskId;
    var c := CarriersOf(w.runs, t);
    assert PlacesOf(w, t) <= 1;
    assert id in c;
    assert |c| == |c - {id}| + 1;
  }

  /** The stages that only write rows. */
  predicate WritesRows(stage: Stage) {
    !stage.Releasing? && !stage.Scheduling? && !stage.Burying?
  }

  lemma RowStepConserves(w: World, id: nat, ok: bool)
    requires Conserved(w) && Enabled(w, Work(id, ok)) && WritesRows(w.runs[id].stage)
    ensures Conserved(WorkStep(w, id, ok))
  {
    var w', r := WorkStep(w, id, ok), w.runs[id];
    if Carries(r.stage) {
      CarrierIsAlone(w, id);
    }
    var r' := w'.runs[id];
    assert w'.runs == w.runs[id := r'] && w'.store == w.store && r'.payload.taskId == r.payload.taskId;
    forall t: nat ensures PlacesOf(w', t) == if t in w'.tasks then 1 else 0 {
      assert PlacesOf(w, t) == if t in w.tasks then 1 else 0;
      CarrierUpdate(w.runs, id, r', t);
      RowStepBalance(w, id, ok, t);
    }
  }

  /** A stage that writes rows gives up the task exactly when it makes the row a success. */
  lemma RowStepBalance(w: World, id: nat, ok: bool, t: nat)
    requires Enabled(w, Work(id, ok)) && WritesRows(w.runs[id].stage)
    requires var r := w.runs[id]; Carries(r.stage) ==> r.payload.taskId in w.tasks && w.tasks[r.payload.taskId].status != SUCCESS
    ensures var w' := WorkStep(w, id, ok);
            && Bit(CarrierFor(w'.runs[id], t)) + Finished(w'.tasks, t) == Bit(CarrierFor(w.runs[id], t)) + Finished(w.tasks, t)
            && (t in w'.tasks <==> t in w.tasks)
  {}

  lemma ScheduleConserves(w: World, id: nat, ok: bool)
    requires Conserved(w) && Enabled(w, Work(id, ok)) && w.runs[id].stage.Scheduling?
    ensures Conserved(WorkStep(w, id, ok))
  {
    var w', r := WorkStep(w, id, ok), w.runs[id];
    CarrierIsAlone(w, id);
    assert r.payload !in w.store.delayed by {
      assert r.payload !in DelayedOf(w.store, r.payload.taskId);
    }
    forall t: nat ensures PlacesOf(w', t) == if t in w'.tasks then 1 else 0 {
      assert PlacesOf(w, t) == if t in w.tasks then 1 else 0;
      CarrierUpdate(w.runs, id, w'.runs[id], t);
      SchedulePlaces(w.store, r.payload, w.clock + RetryDelay(w.cfg.backoff, r.payload.attempt), t);
    }
  }

  lemma BuryConserves(w: World, id: nat, ok: bool)
    requires Conserved(w) && Enabled(w, Work(id, ok)) && w.runs[id].stage.Burying?
    ensures Conserved(WorkStep(w, id, ok))
  {
    var w', r := WorkStep(w, id, ok), w.runs[id];
    forall t: nat ensures PlacesOf(w', t) == if t in w'.tasks then 1 else 0 {
      assert PlacesOf(w, t) == if t in w.tasks then 1 else 0;
      CarrierUpdate(w.runs, id, w'.runs[id], t);
      BuryPlaces(w.store.dlq, DeadLetter(r.payload, r.stage.reason), t);
      assert DelayedOf(w'.store, t) == DelayedOf(w.store, t);
    }
  }

  lemma ReleaseConserves(w: World, id: nat, ok: bool)
    requires Conserved(w) && Enabled(w, Work(id, ok)) && w.runs[id].stage.Releasing?
    ensures Conserved(WorkStep(w, id, ok))
  {
    var w' := WorkStep(w, id, ok);
    forall t: nat ensures PlacesOf(w', t) == if t in w'.tasks then 1 else 0 {
      assert PlacesOf(w, t) == if t in w.tasks then 1 else 0;
      assert CarriersOf(w'.runs, t) == CarriersOf(w.runs, t);
    }
  }

  lemma PollConserves(w: World, e: nat, draw: real, id: nat)
    requires Conserved(w) && Enabled(w, Poll(e, draw, id))
    ensures Conserved(PollStep(w, e, draw, id))
  {
    var w' := PollStep(w, e, draw, id);
    forall t: nat ensures PlacesOf(w', t) == if t in w'.tasks then 1 else 0 {
      assert PlacesOf(w, t) == if t in w.tasks then 1 else 0;
      PopPlaces(w.store, draw, t);
      var (s', o) := Polled(w.store, draw);
      if o.Some? {
        CarrierUpdate(w.runs, id, Run(e, o.value, Starting), t);
      }
    }
  }

  lemma {:induction false} SubmittedRow(batch: seq<Payload>, t: nat)
    ensures t in SubmittedRows(batch) <==> exists i :: 0 <= i < |batch| && batch[i].taskId == t
    ensures t in SubmittedRows(batch) ==>
              exists i :: 0 <= i < |batch| && batch[i].taskId == t && SubmittedRows(batch)[t] == Row(batch[i].scanId, QUEUED, 0, batch[i].maxRetries)
  {
    if batch != [] {
      SubmittedRow(batch[1..], t);
      assert forall i :: 0 <= i < |batch[1..]| ==> batch[1..][i] == batch[i + 1];
      if batch[0].taskId != t && t in SubmittedRows(batch[1..]) {
        var i :| 0 <= i < |batch[1..]| && batch[1..][i].taskId == t && SubmittedRows(batch[1..])[t] == Row(batch[1..][i].scanId, QUEUED, 0, batch[1..][i].maxRetries);
        assert batch[i + 1].taskId == t;
      }
      if batch[0].taskId != t && exists i :: 0 <= i < |batch| && batch[i].taskId == t {
        var i :| 0 <= i < |batch| && batch[i].taskId == t;
        assert batch[1..][i - 1].taskId == t;
      }
    }
  }

  lemma {:induction false} DistinctIdsOnce(batch: seq<Payload>, t: nat)
    requires forall i, j :: 0 <= i < j < |batch| ==> batch[i].taskId != batch[j].taskId
    ensures Occurrences(batch, t) == Bit(t in SubmittedRows(batch))
  {
    if batch != [] {
      assert forall i :: 0 <= i < |batch[1..]| ==> batch[1..][i] == batch[i + 1];
      DistinctIdsOnce(batch[1..], t);
      SubmittedRow(batch[1..], t);
    }
  }

  /** A submission gives every payload of the batch a queued row without attempts and a place at the end of its
      list, in order; it starts a scan that is pending or paused, and touches no other row, scan or payload. */
  lemma SubmissionIs(w: World, scan: nat, batch: seq<Payload>)
    requires Enabled(w, Submit(scan, batch))
    ensures var w' := Next(w, Submit(scan, batch));
            && (forall i :: 0 <= i < |batch| ==> batch[i].taskId in w'.tasks && w'.tasks[batch[i].taskId] == Row(scan, QUEUED, 0, batch[i].maxRetries))
            && (forall t :: t in w.tasks ==> t in w'.tasks && w'.tasks[t] == w.tasks[t])
            && (forall t :: t in w'.tasks ==> t in w.tasks || exists i :: 0 <= i < |batch| && batch[i].taskId == t)
            && w'.scans == w.scans[scan := if w.scans[scan] in {PENDING, PAUSED} then RUNNING else w.scans[scan]]
            && (forall l: Level :: w'.store.At(l) == w.store.At(l) + OfLevel(batch, l))
            && w'.store.delayed == w.store.delayed && w'.store.dlq == w.store.dlq && w'.runs == w.runs && w'.workers == w.workers
  {
    hide SubmittedRows, PublishedBatch, OfLevel;
    SubmittedTasks(w.tasks, scan, batch, w.tasks + SubmittedRows(batch));
  }

  lemma SubmittedTasks(tasks: Tasks, scan: nat, batch: seq<Payload>, tasks': Tasks)
    requires tasks' == tasks + SubmittedRows(batch)
    requires forall i :: 0 <= i < |batch| ==> batch[i].taskId !in tasks && batch[i].scanId == scan
    requires forall i, j :: 0 <= i < j < |batch| ==> batch[i].taskId != batch[j].taskId
    ensures forall i :: 0 <= i < |batch| ==> batch[i].taskId in tasks' && tasks'[batch[i].taskId] == Row(scan, QUEUED, 0, batch[i].maxRetries)
    ensures forall t :: t in tasks ==> t in tasks' && tasks'[t] == tasks[t]
    ensures forall t :: t in tasks' ==> t in tasks || exists i :: 0 <= i < |batch| && batch[i].taskId == t
  {
    hide SubmittedRows;
    forall i | 0 <= i < |batch| ensures batch[i].taskId in tasks' && tasks'[batch[i].taskId] == Row(scan, QUEUED, 0, batch[i].maxRetries) {
      SubmittedRow(batch, batch[i].taskId);
    }
    forall t | t in tasks ensures t in tasks' && tasks'[t] == tasks[t] {
      SubmittedRow(batch, t);
    }
    forall t | t in tasks' && t !in tasks ensures exists i :: 0 <= i < |batch| && batch[i].taskId == t {
      SubmittedRow(batch, t);
    }
  }

  lemma SubmitConserves(w: World, scan: nat, batch: seq<Payload>)
    requires Conserved(w) && Enabled(w, Submit(scan, batch))
    ensures Conserved(Next(w, Submit(scan, batch)))
  {
    var w' := Next(w, Submit(scan, batch));
    assert w'.runs == w.runs && w'.store == PublishedBatch(w.store, batch);
    forall t: nat ensures PlacesOf(w', t) == if t in w'.tasks then 1 else 0 {
      assert PlacesOf(w, t) == if t in w.tasks then 1 else 0;
      BatchPlaces(w.store, batch, t);
      DistinctIdsOnce(batch, t);
      SubmittedRow(batch, t);
    }
  }

  lemma PromotionConserves(w: World, e: nat, due: seq<Payload>)
    requires Conserved(w) && Enabled(w, PromoteAtOnce(e, due)) && FewDue(w, PromoteAtOnce(e, due))
    ensures Conserved(Next(w, PromoteAtOnce(e, due)))
  {
    var w' := Next(w, PromoteAtOnce(e, due));
    forall t: nat ensures PlacesOf(w', t) == if t in w'.tasks then 1 else 0 {
      assert PlacesOf(w, t) == if t in w.tasks then 1 else 0;
      PromotionPlaces(w.store, w.clock, due, t);
    }
  }

  /** Promotion keeps every task in one place if and only if no more than fifty are due: with more, a
      task that was due but not read is in no place afterwards. */
  lemma PromotionConservesIffFewDue(w: World, e: nat, due: seq<Payload>)
    requires Conserved(w) && Enabled(w, PromoteAtOnce(e, due))
    ensures Conserved(Next(w, PromoteAtOnce(e, due))) <==> |DueSet(w.store.delayed, w.clock)| <= 50
  {
    var dues := DueSet(w.store.delayed, w.clock);
    if |dues| <= READ_LIMIT {
      PromotionConserves(w, e, due);
    } else {
      DueReadIsComplete(w.store.delayed, w.clock, due);
      var p :| p in dues && p !in due;
      UnreadIsLost(w, e, due, p);
    }
  }

  lemma UnreadIsLost(w: World, e: nat, due: seq<Payload>, p: Payload)
    requires Conserved(w) && Enabled(w, PromoteAtOnce(e, due)) && due != []
    requires p in DueSet(w.store.delayed, w.clock) && p !in due
    ensures p.taskId in w.tasks && PlacesOf(Next(w, PromoteAtOnce(e, due)), p.taskId) == 0
  {
    var w', t := Next(w, PromoteAtOnce(e, due)), p.taskId;
    var before := DelayedOf(w.store, t);
    assert p in before;
    WithoutOne(before, p);
    assert PlacesOf(w, t) <= 1;
    assert before - {p} == {};
    BatchPlaces(w.store, due, t);
    OccurrencesZero(due, t);
    forall i | 0 <= i < |due| ensures due[i].taskId != t {
      assert due[i] in w.store.delayed && due[i] != p;
      assert due[i] !in before - {p};
    }
    assert DelayedOf(w'.store, t) == {};
  }

  lemma StepConserves(w: World, step: Step)
    requires Conserved(w) && Enabled(w, step) && FewDue(w, step) && !step.MoveDue?
    ensures Conserved(Next(w, step))
  {
    match step
    case Submit(scan, batch) => SubmitConserves(w, scan, batch);
    case PromoteAtOnce(e, due) => PromotionConserves(w, e, due);
    case Poll(e, draw, id) => PollConserves(w, e, draw, id);
    case Work(id, ok) =>
      match w.runs[id].stage {
        case Releasing => ReleaseConserves(w, id, ok);
        case Scheduling => ScheduleConserves(w, id, ok);
        case Burying(reason) => BuryConserves(w, id, ok);
        case _ => RowStepConserves(w, id, ok);
      }
    case MoveDue(e) => assert false;
    case _ => QuietStepConserves(w, Next(w, step));
  }

  lemma QuietStepConserves(w: World, w': World)
    requires Conserved(w) && w'.store == w.store && w'.tasks == w.tasks && w'.runs == w.runs
    ensures Conserved(w')
  {
    forall t: nat ensures PlacesOf(w', t) == if t in w'.tasks then 1 else 0 {
      assert PlacesOf(w, t) == if t in w.tasks then 1 else 0;
    }
  }
}
