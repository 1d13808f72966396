/** The retry bounds over every run: by the number of workers whatever the interleaving, by the number of
    copies that late moves push, and without either factor when every move finds what it has read. */
module RetryBounds {
  import opened Payloads
  import opened TaskQueue
  import opened Engine
  import opened Conservation
  import opened IntactMoves
  import opened Provenance
  import opened Retries
  import opened Tariffs
  import opened RetryBudget

  // ---------------------------------------------------------------- counting over a run

  function Spent(ws: seq<World>, steps: seq<Step>, tf: Tariff, t: nat, n: nat): real
    requires n <= |steps| && |ws| == |steps| + 1
  {
    if n == 0 then 0.0 else Spent(ws, steps, tf, t, n - 1) + Price(tf, ws[n - 1], steps[n - 1], t)
  }

  /** The copies of a task that late moves have pushed. */
  function CopiesPushedLate(ws: seq<World>, steps: seq<Step>, t: nat, n: nat): nat
    requires n <= |steps| && |ws| == |steps| + 1
  {
    if n == 0 then 0 else CopiesPushedLate(ws, steps, t, n - 1) + |LateCopies(ws[n - 1], steps[n - 1], t)|
  }

  lemma {:induction false} SpentOnExecutions(ws: seq<World>, steps: seq<Step>, t: nat, n: nat)
    requires n <= |steps| && |ws| == |steps| + 1
    ensures Spent(ws, steps, PerExecution, t, n) == Executions(ws, steps, t, n) as real
  {
    if n > 0 {
      SpentOnExecutions(ws, steps, t, n - 1);
    }
  }

  lemma {:induction false} SpentOnRetries(ws: seq<World>, steps: seq<Step>, t: nat, n: nat)
    requires n <= |steps| && |ws| == |steps| + 1
    ensures Spent(ws, steps, PerRetry, t, n) == RetriesScheduled(ws, steps, t, n) as real
  {
    if n > 0 {
      SpentOnRetries(ws, steps, t, n - 1);
    }
  }

  lemma {:induction false} SpentOnDelay(ws: seq<World>, steps: seq<Step>, t: nat, n: nat)
    requires IsRun(ws, steps) && n <= |steps|
    ensures Spent(ws, steps, PerDelay(ws[0].cfg.backoff), t, n) == TotalDelay(ws, steps, t, n)
  {
    if n > 0 {
      SpentOnDelay(ws, steps, t, n - 1);
      ConfigIsFixed(ws, steps, n - 1);
    }
  }

  // ---------------------------------------------------------------- one step

  lemma StepKeepsOrigin(w: World, step: Step, base: Payload)
    requires Enabled(w, step) && SameOrigin(w, base) && base.taskId in w.tasks && AllKnown(w)
    ensures SameOrigin(Next(w, step), base)
  {
    hide PublishedBatch, Polled, RetryDelay, Evaluated;
    match step
    case Submit(scan, batch) => SubmitKeepsOrigin(w, scan, batch, base);
    case PromoteAtOnce(e, due) => MoveKeepsOrigin(w.store, w.clock, due, base);
    case MoveDue(e) => MoveKeepsOrigin(w.store, w.workers[e].loop.now, w.workers[e].loop.due, base);
    case Poll(e, draw, id) => PollKeepsOrigin(w, e, draw, id, base);
    case Work(id, ok) =>
      assert Known(w.tasks, w.runs[id].payload);
      WorkKeepsOrigin(w, id, ok, base);
    case _ =>
  }

  lemma SubmitKeepsOrigin(w: World, scan: nat, batch: seq<Payload>, base: Payload)
    requires Enabled(w, Submit(scan, batch)) && SameOrigin(w, base) && base.taskId in w.tasks
    ensures SameOrigin(Next(w, Submit(scan, batch)), base)
  {
    var w' := Next(w, Submit(scan, batch));
    forall l: Level, p | p in w'.store.At(l) ensures IsAttemptOf(p, base) {
      if p !in w.store.At(l) {
        OfLevelMember(batch, l, p);
      }
    }
  }

  lemma MoveKeepsOrigin(s: Store, now: real, due: seq<Payload>, base: Payload)
    requires (forall l: Level, p :: p in s.At(l) ==> IsAttemptOf(p, base)) && (forall p :: p in due ==> IsAttemptOf(p, base))
    ensures forall l: Level, p :: p in Promoted(s, now, due).At(l) ==> IsAttemptOf(p, base)
  {
    forall l: Level, p | p in Promoted(s, now, due).At(l) ensures IsAttemptOf(p, base) {
      if p !in s.At(l) {
        OfLevelMember(due, l, p);
      }
    }
  }

  lemma PollKeepsOrigin(w: World, e: nat, draw: real, id: nat, base: Payload)
    requires Enabled(w, Poll(e, draw, id)) && SameOrigin(w, base)
    ensures SameOrigin(PollStep(w, e, draw, id), base)
  {
    PollTakesOneHead(w.store, draw);
    var (s', o) := Polled(w.store, draw);
    if o.Some? {
      var l: Level :| w.store.At(l) != [] && w.store.At(l)[0] == o.value && s' == w.store.Pop(l);
      assert o.value in w.store.At(l);
      forall k: Level, p | p in s'.At(k) ensures IsAttemptOf(p, base) {
        assert p in w.store.At(k);
      }
    }
  }

  lemma WorkKeepsOrigin(w: World, id: nat, ok: bool, base: Payload)
    requires Enabled(w, Work(id, ok)) && SameOrigin(w, base) && w.runs[id].payload.taskId in w.tasks
    ensures SameOrigin(WorkStep(w, id, ok), base)
  {
    if w.runs[id].stage.Scheduling? {
      ScheduleShape(w, id, ok);
      ScheduleKeepsLists(w, id, ok);
    } else if WillReschedule(w.runs[id]) {
      RescheduleShape(w, id, ok);
    } else {
      PlainWork(w, id, ok);
    }
    var w' := WorkStep(w, id, ok);
    hide WorkStep;
    HandedOnOrigin(w, w', id, base);
  }

  lemma ScheduleKeepsLists(w: World, id: nat, ok: bool)
    requires Enabled(w, Work(id, ok)) && w.runs[id].stage.Scheduling?
    ensures forall l: Level :: WorkStep(w, id, ok).store.At(l) == w.store.At(l)
  {
    hide RetryDelay;
  }

  lemma HandedOnOrigin(w: World, w': World, id: nat, base: Payload)
    requires SameOrigin(w, base) && SameLoops(w, w') && id in w.runs
    requires forall l: Level :: w'.store.At(l) == w.store.At(l)
    requires forall p :: p in w'.store.delayed ==> p in w.store.delayed || p == w.runs[id].payload
    requires forall k :: k in w'.runs ==> (k in w.runs && w'.runs[k].payload == w.runs[k].payload)
                                          || w'.runs[k].payload == CopyAt(w.runs[id].payload, w'.runs[k].payload.attempt)
    requires forall e :: e in w'.workers && w'.workers[e].loop.Moving? ==> e in w.workers && w'.workers[e].loop == w.workers[e].loop
    ensures SameOrigin(w', base)
  {
    assert IsAttemptOf(w.runs[id].payload, base);
    forall l: Level, p | p in w'.store.At(l) ensures IsAttemptOf(p, base) {
      assert p in w.store.At(l);
    }
  }

  /** A step spends no more than the copies lose in worth, except for the copies that it pushes late. */
  lemma StepKeepsBudget(w: World, step: Step, plan: Plan, base: Payload)
    requires Enabled(w, step) && AllKnown(w) && ReadsDistinct(w) && SameOrigin(w, base) && Covers(plan, w, step)
    requires base.taskId in w.tasks && w.tasks[base.taskId].maxRetries == base.maxRetries
    ensures Potential(Next(w, step), plan, base) + Price(plan.tariff, w, step, base.taskId)
         <= Potential(w, plan, base) + Times(Worth(plan.tariff, plan.copies, Cap(base.maxRetries), 0),
                                             if plan.stale then 0 else |LateCopies(w, step, base.taskId)|)
  {
    hide *;
    var first := Worth(plan.tariff, plan.copies, Cap(base.maxRetries), 0);
    FairCover(plan, w, step);
    WorthIsPositive(plan.tariff, plan.copies, Cap(base.maxRetries), 0);
    TimesGrows(first, 0, |LateCopies(w, step, base.taskId)|);
    TimesOne(first);
    NextAndPrice(w, step, plan.tariff, base.taskId);
    match step
    case Submit(scan, batch) => SubmitBudget(w, scan, batch, plan, base);
    case PromoteAtOnce(e, due) => MoveBudget(w, step, plan, base);
    case MoveDue(e) => MoveBudget(w, step, plan, base);
    case Poll(e, draw, id) => PollBudget(w, e, draw, id, plan, base);
    case Work(id, ok) => WorkBudget(w, id, ok, plan, base);
    case _ => QuietBudget(w, step, plan, base);
  }

  lemma NextAndPrice(w: World, step: Step, tf: Tariff, t: nat)
    requires Enabled(w, step)
    ensures step.Poll? ==> step.worker in w.workers && Next(w, step) == PollStep(w, step.worker, step.draw, step.run)
    ensures step.Work? ==> step.run in w.runs && w.runs[step.run].engine in w.workers && Next(w, step) == WorkStep(w, step.run, step.ok)
    ensures !step.Poll? && !step.Work? ==> Price(tf, w, step, t) == 0.0
  {
    hide IsDueRead;
    hide PollStep;
    hide WorkStep;
  }

  // ---------------------------------------------------------------- the submission

  /** No payload of the task is anywhere. */
  ghost predicate IsUnheardOf(w: World, t: nat) {
    && (forall l: Level, p :: p in w.store.At(l) ==> p.taskId != t)
    && (forall p :: p in w.store.delayed ==> p.taskId != t)
    && (forall e, p :: e in w.workers && w.workers[e].loop.Moving? && p in w.workers[e].loop.due ==> p.taskId != t)
    && (forall id :: id in w.runs ==> w.runs[id].payload.taskId != t)
  }

  lemma UnknownIsUnheardOf(w: World, t: nat)
    requires AllKnown(w) && t !in w.tasks
    ensures IsUnheardOf(w, t)
  {
    forall l: Level, p | p in w.store.At(l) ensures p.taskId != t {
      assert Known(w.tasks, p);
    }
  }

  lemma UnheardOfCostsNothing(w: World, step: Step, tf: Tariff, t: nat)
    requires Enabled(w, step) && IsUnheardOf(w, t)
    ensures Price(tf, w, step, t) == 0.0 && |LateCopies(w, step, t)| == 0
  {
    if step.Poll? {
      PollTakesOneHead(w.store, step.draw);
      var (s', o) := Polled(w.store, step.draw);
      if o.Some? {
        var l: Level :| w.store.At(l) != [] && w.store.At(l)[0] == o.value && s' == w.store.Pop(l);
        assert o.value in w.store.At(l);
      }
    }
    assert LateCopies(w, step, t) == {};
  }

  lemma UnknownStepCostsNothing(w: World, step: Step, tf: Tariff, t: nat)
    requires AllKnown(w) && Enabled(w, step) && t !in Next(w, step).tasks
    ensures t !in w.tasks && Price(tf, w, step, t) == 0.0 && LateCopies(w, step, t) == {}
  {
    StepEvolvesRows(w, step);
    UnknownIsUnheardOf(w, t);
    UnheardOfCostsNothing(w, step, tf, t);
    hide *;
  }

  lemma UnknownAt(ws: seq<World>, steps: seq<Step>, tf: Tariff, t: nat, n: nat)
    requires IsRun(ws, steps) && |ws| == |steps| + 1 && n < |steps| && t !in ws[n + 1].tasks
    ensures t !in ws[n].tasks && Price(tf, ws[n], steps[n], t) == 0.0 && |LateCopies(ws[n], steps[n], t)| == 0
  {
    hide Enabled, Next, Price, LateCopies, AllKnown;
    AttemptsStayWithinCap(ws, steps, n);
    UnknownStepCostsNothing(ws[n], steps[n], tf, t);
  }

  lemma {:induction false} UnknownCostsNothing(ws: seq<World>, steps: seq<Step>, tf: Tariff, t: nat, n: nat)
    requires IsRun(ws, steps) && |ws| == |steps| + 1 && n <= |steps| && t !in ws[n].tasks
    ensures Spent(ws, steps, tf, t, n) == 0.0 && CopiesPushedLate(ws, steps, t, n) == 0
  {
    hide IsRun, Price, LateCopies;
    if n > 0 {
      UnknownAt(ws, steps, tf, t, n - 1);
      UnknownCostsNothing(ws, steps, tf, t, n - 1);
    }
  }

  /** A submitted payload is the origin of all payloads of its task, and the only one so far. */
  lemma SubmitStartsOrigin(w: World, scan: nat, batch: seq<Payload>, i: nat)
    requires Enabled(w, Submit(scan, batch)) && i < |batch| && IsUnheardOf(w, batch[i].taskId)
    ensures SameOrigin(Next(w, Submit(scan, batch)), batch[i])
  {
    SubmitKeepsOthers(w, scan, batch);
    BatchIsOrigin(w.store, batch, i);
    hide Next;
    hide PublishedBatch;
  }

  lemma BatchIsOrigin(s: Store, batch: seq<Payload>, i: nat)
    requires i < |batch| && (forall l: Level, p :: p in s.At(l) ==> p.taskId != batch[i].taskId)
    requires forall j, k :: 0 <= j < k < |batch| ==> batch[j].taskId != batch[k].taskId
    ensures forall l: Level, p :: p in PublishedBatch(s, batch).At(l) ==> IsAttemptOf(p, batch[i])
  {
    hide PublishedBatch;
    hide OfLevel;
    hide QueueOf;
    forall l: Level, p | p in PublishedBatch(s, batch).At(l) ensures IsAttemptOf(p, batch[i]) {
      if p !in s.At(l) {
        OfLevelMember(batch, l, p);
      }
    }
  }

  lemma SubmitCopies(w: World, scan: nat, batch: seq<Payload>, i: nat, plan: Plan, a: nat)
    requires Enabled(w, Submit(scan, batch)) && i < |batch| && IsUnheardOf(w, batch[i].taskId)
    ensures var w', p := Next(w, Submit(scan, batch)), CopyAt(batch[i], a);
            WaitingCopies(w', plan, p) == Bit(a == 0) && OpenRuns(w'.runs, p) == {} && ReschedulingRuns(w'.runs, p) == {}
  {
    var w', p := Next(w, Submit(scan, batch)), CopyAt(batch[i], a);
    QueuedAfterBatch(w.store, batch, p);
    UnheardOfIsNotQueued(w.store, p);
    InBatchOnce(batch, i, a);
    SubmitKeepsOthers(w, scan, batch);
    hide Queued;
    hide Next;
    assert StaleReaders(w', p) == {};
  }

  lemma SubmitKeepsOthers(w: World, scan: nat, batch: seq<Payload>)
    requires Enabled(w, Submit(scan, batch))
    ensures var w' := Next(w, Submit(scan, batch));
            w'.workers == w.workers && w'.runs == w.runs && w'.store == PublishedBatch(w.store, batch) && w'.store.delayed == w.store.delayed
  {}

  lemma UnheardOfIsNotQueued(s: Store, p: Payload)
    requires forall l: Level, q :: q in s.At(l) ==> q.taskId != p.taskId
    ensures Queued(s)[p] == 0
  {
    EachQueued(s, p);
    assert forall l: Level :: p !in s.At(l);
  }

  lemma InBatchOnce(batch: seq<Payload>, i: nat, a: nat)
    requires i < |batch| && batch[i].attempt == 0
    requires forall j, k :: 0 <= j < k < |batch| ==> batch[j].taskId != batch[k].taskId
    requires forall j :: 0 <= j < |batch| ==> batch[j].attempt == 0
    ensures multiset(batch)[CopyAt(batch[i], a)] == Bit(a == 0)
  {
    DistinctOnce(batch, CopyAt(batch[i], a));
    if a == 0 {
      assert CopyAt(batch[i], a) == batch[i];
    }
  }

  lemma SubmitTerm(w: World, scan: nat, batch: seq<Payload>, i: nat, plan: Plan, a: nat)
    requires Enabled(w, Submit(scan, batch)) && i < |batch| && IsUnheardOf(w, batch[i].taskId)
    ensures Term(Next(w, Submit(scan, batch)), plan, batch[i], a)
         == if a == 0 then Worth(plan.tariff, plan.copies, Cap(batch[i].maxRetries), 0) else 0.0
  {
    var cap := Cap(batch[i].maxRetries);
    SubmitCopies(w, scan, batch, i, plan, a);
    hide *;
    TermIs(Next(w, Submit(scan, batch)), plan, batch[i], a);
    BitIs(a == 0);
    TimesOne(Worth(plan.tariff, plan.copies, cap, a));
    TimesOne(OnwardWorth(plan.tariff, plan.copies, cap, a));
    TimesOne(Readmission(plan.tariff, plan.copies, cap, a));
  }

  /** A fresh task is worth one payload at its first attempt. */
  lemma SubmitStartsBudget(w: World, scan: nat, batch: seq<Payload>, i: nat, plan: Plan)
    requires Enabled(w, Submit(scan, batch)) && i < |batch| && IsUnheardOf(w, batch[i].taskId)
    ensures Potential(Next(w, Submit(scan, batch)), plan, batch[i]) <= Worth(plan.tariff, plan.copies, Cap(batch[i].maxRetries), 0)
  {
    var w', base, cap := Next(w, Submit(scan, batch)), batch[i], Cap(batch[i].maxRetries);
    var first := Worth(plan.tariff, plan.copies, cap, 0);
    forall a: nat ensures Terms(w', plan, base)(a) <= Nothing()(a) + Spike(0, first)(a) {
      SubmitTerm(w, scan, batch, i, plan, a);
    }
    hide Term;
    SumExceeds(Terms(w', plan, base), Nothing(), Spike(0, first), cap);
    SumOfNothing(cap);
    SumOfSpike(0, first, cap);
  }

  // ---------------------------------------------------------------- whole runs

  /** Along the run the plan provides for all sharing of reads. */
  ghost predicate Provides(plan: Plan, ws: seq<World>, steps: seq<Step>, n: nat) {
    && |ws| == |steps| + 1 && n <= |steps|
    && plan.copies >= 1 && IsFair(plan.tariff)
    && (plan.stale ==> forall i :: 0 <= i < n ==> IsShared(ws[i], steps[i], plan.copies))
  }

  /** What has been spent and may still be spent is what the submission was worth, once and once more for
      each copy pushed late. */
  ghost predicate WithinBudget(w: World, plan: Plan, base: Payload, spent: real, late: nat) {
    && SameOrigin(w, base) && base.taskId in w.tasks && w.tasks[base.taskId].maxRetries == base.maxRetries
    && spent + Potential(w, plan, base) <= Times(Worth(plan.tariff, plan.copies, Cap(base.maxRetries), 0), 1 + if plan.stale then 0 else late)
  }

  lemma StepStaysWithinBudget(w: World, step: Step, plan: Plan, base: Payload, spent: real, late: nat)
    requires Enabled(w, step) && AllKnown(w) && ReadsDistinct(w) && Covers(plan, w, step) && WithinBudget(w, plan, base, spent, late)
    ensures WithinBudget(Next(w, step), plan, base, spent + Price(plan.tariff, w, step, base.taskId), late + |LateCopies(w, step, base.taskId)|)
  {
    hide *;
    WithinHasRow(w, plan, base, spent, late);
    RowStays(w, step, base);
    StepKeepsOrigin(w, step, base);
    StepKeepsBudget(w, step, plan, base);
    SpendingStaysWithin(w, Next(w, step), plan, base, spent, late, Price(plan.tariff, w, step, base.taskId), |LateCopies(w, step, base.taskId)|);
  }

  lemma WithinHasRow(w: World, plan: Plan, base: Payload, spent: real, late: nat)
    requires WithinBudget(w, plan, base, spent, late)
    ensures SameOrigin(w, base) && base.taskId in w.tasks && w.tasks[base.taskId].maxRetries == base.maxRetries
  {}

  lemma RowStays(w: World, step: Step, base: Payload)
    requires Enabled(w, step) && base.taskId in w.tasks
    ensures base.taskId in Next(w, step).tasks && Next(w, step).tasks[base.taskId].maxRetries == w.tasks[base.taskId].maxRetries
  {
    StepEvolvesRows(w, step);
    hide Next;
  }

  lemma SpendingStaysWithin(w: World, w': World, plan: Plan, base: Payload, spent: real, late: nat, price: real, more: nat)
    requires WithinBudget(w, plan, base, spent, late)
    requires SameOrigin(w', base) && base.taskId in w'.tasks && w'.tasks[base.taskId].maxRetries == base.maxRetries
    requires Potential(w', plan, base) + price
          <= Potential(w, plan, base) + Times(Worth(plan.tariff, plan.copies, Cap(base.maxRetries), 0), if plan.stale then 0 else more)
    ensures WithinBudget(w', plan, base, spent + price, late + more)
  {
    var first := Worth(plan.tariff, plan.copies, Cap(base.maxRetries), 0);
    hide Worth;
    hide Potential;
    hide SameOrigin;
    TimesAdds(first, 1 + if plan.stale then 0 else late, if plan.stale then 0 else more);
    TimesOne(first);
    hide Times;
  }

  lemma {:induction false} RunsStayWithinBudget(ws: seq<World>, steps: seq<Step>, plan: Plan, t: nat, n: nat) returns (base: Payload)
    requires IsRun(ws, steps) && n <= |steps| && t in ws[n].tasks && Provides(plan, ws, steps, n)
    ensures base.taskId == t
    ensures WithinBudget(ws[n], plan, base, Spent(ws, steps, plan.tariff, t, n), CopiesPushedLate(ws, steps, t, n))
  {
    hide *;
    RunStep(ws, steps, plan, t, n);
    AttemptsStayWithinCap(ws, steps, n - 1);
    ReadsAreDistinct(ws, steps, n - 1);
    var w, step := ws[n - 1], steps[n - 1];
    if t in w.tasks {
      base := RunsStayWithinBudget(ws, steps, plan, t, n - 1);
      StepStaysWithinBudget(w, step, plan, base, Spent(ws, steps, plan.tariff, t, n - 1), CopiesPushedLate(ws, steps, t, n - 1));
    } else {
      UnknownIsUnheardOf(w, t);
      UnheardOfCostsNothing(w, step, plan.tariff, t);
      UnknownCostsNothing(ws, steps, plan.tariff, t, n - 1);
      base := SubmissionOf(w, step, t, plan);
    }
  }

  /** The last step of a run that knows the task. */
  lemma RunStep(ws: seq<World>, steps: seq<Step>, plan: Plan, t: nat, n: nat)
    requires IsRun(ws, steps) && n <= |steps| && t in ws[n].tasks && Provides(plan, ws, steps, n)
    ensures |ws| == |steps| + 1 && n >= 1 && Enabled(ws[n - 1], steps[n - 1]) && ws[n] == Next(ws[n - 1], steps[n - 1])
    ensures Provides(plan, ws, steps, n - 1) && Covers(plan, ws[n - 1], steps[n - 1])
    ensures Spent(ws, steps, plan.tariff, t, n) == Spent(ws, steps, plan.tariff, t, n - 1) + Price(plan.tariff, ws[n - 1], steps[n - 1], t)
    ensures CopiesPushedLate(ws, steps, t, n) == CopiesPushedLate(ws, steps, t, n - 1) + |LateCopies(ws[n - 1], steps[n - 1], t)|
  {
    hide Next;
    hide Enabled;
    hide Price;
    hide LateCopies;
    hide IsShared;
  }

  /** The payload with which a task appears. */
  lemma SubmissionOf(w: World, step: Step, t: nat, plan: Plan) returns (base: Payload)
    requires Enabled(w, step) && t !in w.tasks && t in Next(w, step).tasks && IsUnheardOf(w, t)
    ensures base.taskId == t && WithinBudget(Next(w, step), plan, base, 0.0, 0)
  {
    OnlySubmitAdds(w, step, t);
    SubmittedRow(step.batch, t);
    var i :| 0 <= i < |step.batch| && step.batch[i].taskId == t
             && SubmittedRows(step.batch)[t] == Row(step.batch[i].scanId, QUEUED, 0, step.batch[i].maxRetries);
    base := step.batch[i];
    SubmitStartsOrigin(w, step.scan, step.batch, i);
    SubmitStartsBudget(w, step.scan, step.batch, i, plan);
    TimesOne(Worth(plan.tariff, plan.copies, Cap(base.maxRetries), 0));
  }

  lemma OnlySubmitAdds(w: World, step: Step, t: nat)
    requires Enabled(w, step) && t !in w.tasks && t in Next(w, step).tasks
    ensures step.Submit? && t in SubmittedRows(step.batch)
  {}

  // ---------------------------------------------------------------- attempts count the executions

  /** The attempts in the row are the executions that have been saved. */
  ghost predicate IsCounted(w: World, t: nat, executions: nat) {
    executions == AttemptsOf(w.tasks, t) + |UnsavedOf(w.runs, t)|
  }

  lemma WorkCounts(w: World, id: nat, ok: bool, t: nat, executions: nat)
    requires Enabled(w, Work(id, ok)) && w.runs[id].payload.taskId in w.tasks && IsCounted(w, t, executions)
    ensures IsCounted(WorkStep(w, id, ok), t, executions)
  {
    var w' := WorkStep(w, id, ok);
    if w.runs[id].stage.Releasing? {
      assert UnsavedOf(w'.runs, t) == UnsavedOf(w.runs, t);
    } else {
      WorkMovesOneRun(w, id, ok);
      WorkSaves(w, id, ok, t);
      UnsavedUpdate(w.runs, id, w'.runs[id], t);
    }
  }

  lemma WorkSaves(w: World, id: nat, ok: bool, t: nat)
    requires Enabled(w, Work(id, ok)) && w.runs[id].payload.taskId in w.tasks && !w.runs[id].stage.Releasing?
    ensures var w', r := WorkStep(w, id, ok), w.runs[id];
            AttemptsOf(w'.tasks, t) + Bit(r.payload.taskId == t && IsUnsaved(w'.runs[id].stage))
            == AttemptsOf(w.tasks, t) + Bit(r.payload.taskId == t && IsUnsaved(r.stage))
  {}

  lemma StepCounts(w: World, step: Step, t: nat, executions: nat)
    requires Enabled(w, step) && AllKnown(w) && IsCounted(w, t, executions)
    ensures IsCounted(Next(w, step), t, executions + Bit(PopsTask(w, step, t)))
  {
    match step
    case Submit(scan, batch) => SubmittedRow(batch, t);
    case Poll(e, draw, id) =>
      var (s', o) := Polled(w.store, draw);
      if o.Some? {
        UnsavedUpdate(w.runs, id, Run(e, o.value, Starting), t);
      }
    case Work(id, ok) =>
      assert Known(w.tasks, w.runs[id].payload);
      WorkCounts(w, id, ok, t, executions);
    case _ =>
  }

  /** In every run, whatever the interleaving, the executions of a task are the attempts that its row counts
      and those not yet saved. */
  lemma {:induction false} ExecutionsAreCounted(ws: seq<World>, steps: seq<Step>, t: nat, n: nat)
    requires IsRun(ws, steps) && n <= |steps|
    ensures Executions(ws, steps, t, n) == AttemptsOf(ws[n].tasks, t) + |UnsavedOf(ws[n].runs, t)|
  {
    if n > 0 {
      ExecutionsAreCounted(ws, steps, t, n - 1);
      AttemptsStayWithinCap(ws, steps, n - 1);
      StepCounts(ws[n - 1], steps[n - 1], t, Executions(ws, steps, t, n - 1));
    }
  }

  // ---------------------------------------------------------------- the bounds

  /** What a task has cost is at most the worth of its submission. */
  lemma SpentAtMost(ws: seq<World>, steps: seq<Step>, plan: Plan, t: nat, n: nat)
    requires IsRun(ws, steps) && n <= |steps| && |ws| == |steps| + 1 && t in ws[n].tasks && Provides(plan, ws, steps, n)
    ensures Spent(ws, steps, plan.tariff, t, n)
         <= Times(Worth(plan.tariff, plan.copies, Cap(ws[n].tasks[t].maxRetries), 0),
                  1 + if plan.stale then 0 else CopiesPushedLate(ws, steps, t, n))
  {
    hide *;
    var base := RunsStayWithinBudget(ws, steps, plan, t, n);
    WithinIsSpent(ws[n], plan, base, Spent(ws, steps, plan.tariff, t, n), CopiesPushedLate(ws, steps, t, n));
    ProvidesFairly(plan, ws, steps, n);
    PotentialIsPositive(ws[n], plan, base);
  }

  lemma WithinIsSpent(w: World, plan: Plan, base: Payload, spent: real, late: nat)
    requires WithinBudget(w, plan, base, spent, late)
    ensures base.taskId in w.tasks && w.tasks[base.taskId].maxRetries == base.maxRetries
    ensures spent + Potential(w, plan, base) <= Times(Worth(plan.tariff, plan.copies, Cap(base.maxRetries), 0), 1 + if plan.stale then 0 else late)
  {}

  lemma ProvidesFairly(plan: Plan, ws: seq<World>, steps: seq<Step>, n: nat)
    requires Provides(plan, ws, steps, n)
    ensures |ws| == |steps| + 1 && n <= |steps| && IsFair(plan.tariff)
  {}

  lemma PotentialIsPositive(w: World, plan: Plan, base: Payload)
    requires IsFair(plan.tariff)
    ensures Potential(w, plan, base) >= 0.0
  {
    forall a: nat ensures Terms(w, plan, base)(a) >= 0.0 {
      WorthIsPositive(plan.tariff, plan.copies, Cap(base.maxRetries), a);
      TermIsPositive(w, plan, base, a);
    }
    hide Term;
    SumIsPositive(Terms(w, plan, base), Cap(base.maxRetries));
  }

  lemma TermIsPositive(w: World, plan: Plan, base: Payload, a: nat)
    requires IsFair(plan.tariff)
    ensures Term(w, plan, base, a) >= 0.0
  {
    hide *;
    var cap, p := Cap(base.maxRetries), CopyAt(base, a);
    WorthIsPositive(plan.tariff, plan.copies, cap, a);
    TermIs(w, plan, base, a);
    TimesGrows(Worth(plan.tariff, plan.copies, cap, a), 0, WaitingCopies(w, plan, p));
    TimesGrows(OnwardWorth(plan.tariff, plan.copies, cap, a), 0, |OpenRuns(w.runs, p)|);
    TimesGrows(Readmission(plan.tariff, plan.copies, cap, a), 0, |ReschedulingRuns(w.runs, p)|);
  }

  lemma {:induction false} GeometricOfTwo(n: nat)
    ensures Geometric(2, n) + 1 == Pow2(n)
  {
    if n > 0 {
      GeometricOfTwo(n - 1);
    }
  }

  lemma BackoffSumIsGeometric(backoff: real, n: nat)
    ensures BackoffSum(backoff, n) == Times(backoff, Geometric(2, n))
  {
    BackoffClosedForm(backoff, n);
    GeometricOfTwo(n);
  }

  /** The worth of a fresh task, for each tariff. */
  lemma FreshWorth(backoff: real, copies: nat, cap: nat)
    ensures Worth(PerExecution, copies, cap, 0) == Geometric(copies, cap + 1) as real
    ensures Worth(PerRetry, copies, cap, 0) == Geometric(copies, cap) as real
    ensures Worth(PerDelay(backoff), copies, cap, 0) == Times(backoff, Geometric(2 * copies, cap))
  {
    ExecutionWorth(copies, cap, 0);
    RetryWorth(copies, cap, 0);
    DelayWorth(backoff, copies, cap, 0);
  }

  /** That much for each of the copies. */
  function ForEach(amount: nat, copies: nat): nat {
    amount * copies
  }

  lemma ExecutionsPerCopy(ws: seq<World>, steps: seq<Step>, t: nat, n: nat)
    requires IsRun(ws, steps) && |ws| == |steps| + 1 && n <= |steps| && t in ws[n].tasks
    ensures Executions(ws, steps, t, n) <= ForEach(Cap(ws[n].tasks[t].maxRetries) + 1, 1 + CopiesPushedLate(ws, steps, t, n))
  {
    hide *;
    var cap, copies := Cap(ws[n].tasks[t].maxRetries), 1 + CopiesPushedLate(ws, steps, t, n);
    PlainPlan(PerExecution, ws, steps, n);
    SpentAtMost(ws, steps, Plan(PerExecution, 1, false), t, n);
    SpentOnExecutions(ws, steps, t, n);
    ExecutionWorth(1, cap, 0);
    GeometricOfOne(cap + 1);
    NatBound(Executions(ws, steps, t, n), cap + 1, copies);
  }

  lemma RetriesPerCopy(ws: seq<World>, steps: seq<Step>, t: nat, n: nat)
    requires IsRun(ws, steps) && |ws| == |steps| + 1 && n <= |steps| && t in ws[n].tasks
    ensures RetriesScheduled(ws, steps, t, n) <= ForEach(Cap(ws[n].tasks[t].maxRetries), 1 + CopiesPushedLate(ws, steps, t, n))
  {
    hide *;
    var cap, copies := Cap(ws[n].tasks[t].maxRetries), 1 + CopiesPushedLate(ws, steps, t, n);
    PlainPlan(PerRetry, ws, steps, n);
    SpentAtMost(ws, steps, Plan(PerRetry, 1, false), t, n);
    SpentOnRetries(ws, steps, t, n);
    RetryWorth(1, cap, 0);
    GeometricOfOne(cap);
    NatBound(RetriesScheduled(ws, steps, t, n), cap, copies);
  }

  lemma DelayPerCopy(ws: seq<World>, steps: seq<Step>, t: nat, n: nat)
    requires IsRun(ws, steps) && |ws| == |steps| + 1 && n <= |steps| && t in ws[n].tasks
    ensures TotalDelay(ws, steps, t, n)
         <= Times(BackoffSum(ws[0].cfg.backoff, Cap(ws[n].tasks[t].maxRetries)), 1 + CopiesPushedLate(ws, steps, t, n))
  {
    hide *;
    var cap, backoff := Cap(ws[n].tasks[t].maxRetries), ws[0].cfg.backoff;
    RunShape(ws, steps);
    PlainPlan(PerDelay(backoff), ws, steps, n);
    SpentAtMost(ws, steps, Plan(PerDelay(backoff), 1, false), t, n);
    SpentOnDelay(ws, steps, t, n);
    FreshWorth(backoff, 1, cap);
    BackoffSumIsGeometric(backoff, cap);
    assert 2 * 1 == 2;
  }

  /** The retry bounds over every run, with the copies that late moves push as their only other term: each
      adds at most what the task itself may cost. */
  lemma CostsPerCopy(ws: seq<World>, steps: seq<Step>, t: nat, n: nat)
    requires IsRun(ws, steps) && n <= |steps| && t in ws[n].tasks
    ensures var cap, copies := Cap(ws[n].tasks[t].maxRetries), 1 + CopiesPushedLate(ws, steps, t, n);
            && Executions(ws, steps, t, n) <= ForEach(cap + 1, copies)
            && RetriesScheduled(ws, steps, t, n) <= ForEach(cap, copies)
            && TotalDelay(ws, steps, t, n) <= Times(BackoffSum(ws[0].cfg.backoff, cap), copies)
  {
    hide *;
    RunShape(ws, steps);
    ExecutionsPerCopy(ws, steps, t, n);
    RetriesPerCopy(ws, steps, t, n);
    DelayPerCopy(ws, steps, t, n);
  }

  lemma NatBound(m: nat, worth: nat, copies: nat)
    ensures m as real <= Times(worth as real, copies) ==> m <= ForEach(worth, copies)
  {
    assert (worth * copies) as real == worth as real * copies as real;
  }

  lemma RunShape(ws: seq<World>, steps: seq<Step>)
    requires IsRun(ws, steps)
    ensures |ws| == |steps| + 1 && ws[0].cfg.backoff > 0.0
  {}

  lemma PlainPlan(tf: Tariff, ws: seq<World>, steps: seq<Step>, n: nat)
    requires |ws| == |steps| + 1 && n <= |steps| && (tf.PerDelay? ==> tf.backoff > 0.0)
    ensures Provides(Plan(tf, 1, false), ws, steps, n)
  {}

  /** The retry bounds over every run, whatever the interleaving: with at most `k` workers at a time, however
      many come and go, a task is executed at most 1 + k + ... + k^max_retries times, so it terminates. */
  lemma CostsPerWorker(ws: seq<World>, steps: seq<Step>, t: nat, n: nat, k: nat)
    requires IsRun(ws, steps) && n <= |steps| && t in ws[n].tasks && k >= 1 && PoolWithin(ws, n, k)
    ensures var cap := Cap(ws[n].tasks[t].maxRetries);
            && Executions(ws, steps, t, n) <= Geometric(k, cap + 1)
            && RetriesScheduled(ws, steps, t, n) <= Geometric(k, cap)
            && TotalDelay(ws, steps, t, n) <= Times(ws[0].cfg.backoff, Geometric(2 * k, cap))
            && WorkSteps(ws, steps, t, n) <= 8 * Geometric(k, cap + 1)
  {
    hide *;
    RunShape(ws, steps);
    var cap, backoff := Cap(ws[n].tasks[t].maxRetries), ws[0].cfg.backoff;
    FreshWorth(backoff, k, cap);
    SpentPerWorker(ws, steps, PerExecution, t, n, k);
    SpentPerWorker(ws, steps, PerRetry, t, n, k);
    SpentPerWorker(ws, steps, PerDelay(backoff), t, n, k);
    SpentOnExecutions(ws, steps, t, n);
    SpentOnRetries(ws, steps, t, n);
    SpentOnDelay(ws, steps, t, n);
    WorkIsPaidByExecutions(ws, steps, t, n);
  }

  /** With at most `k` workers at a time a task costs at most its worth for `k` copies. */
  lemma SpentPerWorker(ws: seq<World>, steps: seq<Step>, tf: Tariff, t: nat, n: nat, k: nat)
    requires IsRun(ws, steps) && |ws| == |steps| + 1 && n <= |steps| && t in ws[n].tasks && k >= 1 && PoolWithin(ws, n, k)
    requires tf.PerDelay? ==> tf.backoff > 0.0
    ensures Spent(ws, steps, tf, t, n) <= Worth(tf, k, Cap(ws[n].tasks[t].maxRetries), 0)
  {
    hide *;
    SharedPlan(tf, ws, steps, n, k);
    SpentAtMost(ws, steps, Plan(tf, k, true), t, n);
    TimesOne(Worth(tf, k, Cap(ws[n].tasks[t].maxRetries), 0));
  }

  lemma SharedPlan(tf: Tariff, ws: seq<World>, steps: seq<Step>, n: nat, k: nat)
    requires IsRun(ws, steps) && n <= |steps| && k >= 1 && PoolWithin(ws, n, k) && (tf.PerDelay? ==> tf.backoff > 0.0)
    ensures Provides(Plan(tf, k, true), ws, steps, n)
  {
    forall i | 0 <= i < n ensures IsShared(ws[i], steps[i], k) {
      WorkersShare(ws[i], steps[i], k);
    }
    hide IsShared;
  }

  lemma WorkersShare(w: World, step: Step, k: nat)
    requires Enabled(w, step) && |LiveWorkers(w)| <= k
    ensures IsShared(w, step, k)
  {
    forall p: Payload ensures |Readers(w, p)| + Bit(step.PromoteAtOnce?) <= k {
      if step.PromoteAtOnce? {
        WithoutOne(LiveWorkers(w), step.worker);
        SubsetSize(Readers(w, p), LiveWorkers(w) - {step.worker});
      } else {
        SubsetSize(Readers(w, p), LiveWorkers(w));
      }
    }
  }

  // ---------------------------------------------------------------- when every move finds its read

  lemma {:induction false} NothingIsPushedLate(ws: seq<World>, steps: seq<Step>, t: nat, n: nat)
    requires MovesIntact(ws, steps) && n <= |steps|
    ensures CopiesPushedLate(ws, steps, t, n) == 0
  {
    if n > 0 {
      NothingIsPushedLate(ws, steps, t, n - 1);
      assert FindsRead(ws[n - 1], steps[n - 1]);
      assert LateCopies(ws[n - 1], steps[n - 1], t) == {};
    }
  }

  /** So then each task is executed at most `max_retries + 1` times and rescheduled at most `max_retries`
      times ... */
  lemma ExecutionsAreBounded(ws: seq<World>, steps: seq<Step>, t: nat, n: nat)
    requires IsRun(ws, steps) && MovesIntact(ws, steps) && n <= |steps| && t in ws[n].tasks
    ensures Executions(ws, steps, t, n) <= Cap(ws[n].tasks[t].maxRetries) + 1
    ensures RetriesScheduled(ws, steps, t, n) <= Cap(ws[n].tasks[t].maxRetries)
  {
    hide *;
    RunShape(ws, steps);
    NothingIsPushedLate(ws, steps, t, n);
    ExecutionsPerCopy(ws, steps, t, n);
    RetriesPerCopy(ws, steps, t, n);
    NoLateCopies(Cap(ws[n].tasks[t].maxRetries) + 1, CopiesPushedLate(ws, steps, t, n));
    NoLateCopies(Cap(ws[n].tasks[t].maxRetries), CopiesPushedLate(ws, steps, t, n));
  }

  /** ... is delayed no longer than its delays add up to ... */
  lemma TotalDelayIsBounded(ws: seq<World>, steps: seq<Step>, t: nat, n: nat)
    requires IsRun(ws, steps) && MovesIntact(ws, steps) && n <= |steps| && t in ws[n].tasks
    ensures TotalDelay(ws, steps, t, n) <= BackoffSum(ws[0].cfg.backoff, Cap(ws[n].tasks[t].maxRetries))
  {
    hide *;
    RunShape(ws, steps);
    NothingIsPushedLate(ws, steps, t, n);
    DelayPerCopy(ws, steps, t, n);
    TimesOne(BackoffSum(ws[0].cfg.backoff, Cap(ws[n].tasks[t].maxRetries)));
  }

  /** ... and costs at most eight steps of work for each execution. */
  lemma RetriesTerminate(ws: seq<World>, steps: seq<Step>, t: nat, n: nat)
    requires IsRun(ws, steps) && MovesIntact(ws, steps) && n <= |steps| && t in ws[n].tasks
    ensures WorkSteps(ws, steps, t, n) <= 8 * (Cap(ws[n].tasks[t].maxRetries) + 1)
  {
    hide *;
    RunShape(ws, steps);
    ExecutionsAreBounded(ws, steps, t, n);
    WorkIsPaidByExecutions(ws, steps, t, n);
  }

  lemma NoLateCopies(worth: nat, late: nat)
    requires late == 0
    ensures ForEach(worth, 1 + late) == worth
  {}
}
