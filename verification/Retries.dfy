/** Retry accounting over whole runs: how often a task is executed, how many steps that costs, and how
    long its retries are delayed. */
module Retries {
  import opened Wrappers
  import opened Payloads
  import opened TaskQueue
  import opened Engine
  import opened Places
  import opened Conservation
  import opened IntactMoves
  import opened Accounting

  // ---------------------------------------------------------------- counting over a run

  predicate PopsTask(w: World, step: Step, t: nat) {
    step.Poll? && Polled(w.store, step.draw).1.Some? && Polled(w.store, step.draw).1.value.taskId == t
  }

  predicate WorksOn(w: World, step: Step, t: nat) {
    step.Work? && step.run in w.runs && w.runs[step.run].payload.taskId == t
  }

  predicate SchedulesTask(w: World, step: Step, t: nat) {
    WorksOn(w, step, t) && w.runs[step.run].stage.Scheduling?
  }

  /** The delay a step gives to a retry of the task. */
  function DelayGiven(w: World, step: Step, t: nat): real {
    if SchedulesTask(w, step, t) then RetryDelay(w.cfg.backoff, w.runs[step.run].payload.attempt) else 0.0
  }

  function Executions(ws: seq<World>, steps: seq<Step>, t: nat, n: nat): nat
    requires n <= |steps| && |ws| == |steps| + 1
  {
    if n == 0 then 0 else Executions(ws, steps, t, n - 1) + Bit(PopsTask(ws[n - 1], steps[n - 1], t))
  }

  function WorkSteps(ws: seq<World>, steps: seq<Step>, t: nat, n: nat): nat
    requires n <= |steps| && |ws| == |steps| + 1
  {
    if n == 0 then 0 else WorkSteps(ws, steps, t, n - 1) + Bit(WorksOn(ws[n - 1], steps[n - 1], t))
  }

  function RetriesScheduled(ws: seq<World>, steps: seq<Step>, t: nat, n: nat): nat
    requires n <= |steps| && |ws| == |steps| + 1
  {
    if n == 0 then 0 else RetriesScheduled(ws, steps, t, n - 1) + Bit(SchedulesTask(ws[n - 1], steps[n - 1], t))
  }

  function TotalDelay(ws: seq<World>, steps: seq<Step>, t: nat, n: nat): real
    requires n <= |steps| && |ws| == |steps| + 1
  {
    if n == 0 then 0.0 else TotalDelay(ws, steps, t, n - 1) + DelayGiven(ws[n - 1], steps[n - 1], t)
  }

  // ---------------------------------------------------------------- executions

  predicate IsUnsaved(stage: Stage) {
    stage.Starting? || stage.Limiting? || stage.Executing? || stage.Saving?
  }

  function UnsavedOf(runs: map<nat, Run>, t: nat): set<nat> {
    set id | id in runs && runs[id].payload.taskId == t && IsUnsaved(runs[id].stage)
  }

  function SchedulingOf(runs: map<nat, Run>, t: nat): set<nat> {
    set id | id in runs && runs[id].payload.taskId == t && runs[id].stage.Scheduling?
  }

  function AttemptsOf(tasks: Tasks, t: nat): nat {
    if t in tasks then tasks[t].attempts else 0
  }

  predicate HasEnded(tasks: Tasks, t: nat) {
    t in tasks && (tasks[t].status == SUCCESS || tasks[t].status == TaskStatus.FAILED)
  }

  lemma UnsavedUpdate(runs: map<nat, Run>, id: nat, r: Run, t: nat)
    ensures |UnsavedOf(runs[id := r], t)| + Bit(id in runs && runs[id].payload.taskId == t && IsUnsaved(runs[id].stage))
         == |UnsavedOf(runs, t)| + Bit(r.payload.taskId == t && IsUnsaved(r.stage))
  {
    SameButOne(UnsavedOf(runs, t), UnsavedOf(runs[id := r], t), id);
  }

  lemma SchedulingUpdate(runs: map<nat, Run>, id: nat, r: Run, t: nat)
    ensures |SchedulingOf(runs[id := r], t)| + Bit(id in runs && runs[id].payload.taskId == t && runs[id].stage.Scheduling?)
         == |SchedulingOf(runs, t)| + Bit(r.payload.taskId == t && r.stage.Scheduling?)
  {
    SameButOne(SchedulingOf(runs, t), SchedulingOf(runs[id := r], t), id);
  }

  /** Executions taken out equal attempts counted plus executions not yet saved; retries scheduled plus
      the attempt that ended or is about to be rescheduled equal attempts counted. */
  ghost predicate Balanced(w: World, t: nat, executions: nat, retries: nat) {
    && executions == AttemptsOf(w.tasks, t) + |UnsavedOf(w.runs, t)|
    && retries + Bit(HasEnded(w.tasks, t)) + |SchedulingOf(w.runs, t)| == AttemptsOf(w.tasks, t)
  }

  /** How one stage moves the counted attempts, and whether the attempt has ended, for one task. */
  lemma WorkBalance(w: World, id: nat, ok: bool, t: nat)
    requires Agrees(w) && Enabled(w, Work(id, ok)) && !w.runs[id].stage.Releasing?
    ensures var w', r := WorkStep(w, id, ok), w.runs[id];
            if r.payload.taskId == t
            then && AttemptsOf(w'.tasks, t) + Bit(IsUnsaved(w'.runs[id].stage)) == AttemptsOf(w.tasks, t) + Bit(IsUnsaved(r.stage))
                 && Bit(HasEnded(w'.tasks, t)) + Bit(w'.runs[id].stage.Scheduling?) + AttemptsOf(w.tasks, t)
                 == Bit(HasEnded(w.tasks, t)) + AttemptsOf(w'.tasks, t)
            else AttemptsOf(w'.tasks, t) == AttemptsOf(w.tasks, t) && HasEnded(w'.tasks, t) == HasEnded(w.tasks, t)
  {
    assert RunAgrees(w.tasks, w.runs[id]);
  }

  lemma WorkMovesOneRun(w: World, id: nat, ok: bool)
    requires Enabled(w, Work(id, ok)) && !w.runs[id].stage.Releasing?
    ensures var w' := WorkStep(w, id, ok);
            id in w'.runs && w'.runs == w.runs[id := w'.runs[id]] && w'.runs[id].payload.taskId == w.runs[id].payload.taskId
  {}

  lemma WorkKeepsBalance(w: World, id: nat, ok: bool, t: nat, executions: nat, retries: nat)
    requires Agrees(w) && Enabled(w, Work(id, ok)) && Balanced(w, t, executions, retries)
    ensures Balanced(WorkStep(w, id, ok), t, executions, retries + Bit(SchedulesTask(w, Work(id, ok), t)))
  {
    var w' := WorkStep(w, id, ok);
    if w.runs[id].stage.Releasing? {
      assert UnsavedOf(w'.runs, t) == UnsavedOf(w.runs, t) && SchedulingOf(w'.runs, t) == SchedulingOf(w.runs, t);
    } else {
      WorkBalance(w, id, ok, t);
      WorkMovesOneRun(w, id, ok);
      UnsavedUpdate(w.runs, id, w'.runs[id], t);
      SchedulingUpdate(w.runs, id, w'.runs[id], t);
    }
  }

  lemma PollKeepsBalance(w: World, e: nat, draw: real, id: nat, t: nat, executions: nat, retries: nat)
    requires Enabled(w, Poll(e, draw, id)) && Balanced(w, t, executions, retries)
    ensures Balanced(PollStep(w, e, draw, id), t, executions + Bit(PopsTask(w, Poll(e, draw, id), t)), retries)
  {
    var (s', o) := Polled(w.store, draw);
    if o.Some? {
      UnsavedUpdate(w.runs, id, Run(e, o.value, Starting), t);
      SchedulingUpdate(w.runs, id, Run(e, o.value, Starting), t);
    }
  }

  lemma SubmitKeepsBalance(w: World, scan: nat, batch: seq<Payload>, t: nat, executions: nat, retries: nat)
    requires Enabled(w, Submit(scan, batch)) && Balanced(w, t, executions, retries)
    ensures Balanced(Next(w, Submit(scan, batch)), t, executions, retries)
  {
    SubmittedRow(batch, t);
  }

  lemma StepKeepsBalance(w: World, step: Step, t: nat, executions: nat, retries: nat)
    requires Agrees(w) && Enabled(w, step) && Balanced(w, t, executions, retries)
    ensures Balanced(Next(w, step), t, executions + Bit(PopsTask(w, step, t)), retries + Bit(SchedulesTask(w, step, t)))
  {
    match step
    case Submit(scan, batch) => SubmitKeepsBalance(w, scan, batch, t, executions, retries);
    case Poll(e, draw, id) => PollKeepsBalance(w, e, draw, id, t, executions, retries);
    case Work(id, ok) => WorkKeepsBalance(w, id, ok, t, executions, retries);
    case _ =>
  }

  lemma {:induction false} RunsAreBalanced(ws: seq<World>, steps: seq<Step>, t: nat, n: nat)
    requires IsRun(ws, steps) && MovesIntact(ws, steps) && n <= |steps|
    ensures Balanced(ws[n], t, Executions(ws, steps, t, n), RetriesScheduled(ws, steps, t, n))
  {
    if n > 0 {
      RunsAreBalanced(ws, steps, t, n - 1);
      RowsMatchPlaces(ws, steps, n - 1);
      StepKeepsBalance(ws[n - 1], steps[n - 1], t, Executions(ws, steps, t, n - 1), RetriesScheduled(ws, steps, t, n - 1));
    }
  }

  // ---------------------------------------------------------------- backoff

  /** The total delay of the first `k` retries. */
  function BackoffSum(backoff: real, k: nat): real {
    if k == 0 then 0.0 else BackoffSum(backoff, k - 1) + RetryDelay(backoff, k)
  }

  lemma {:induction false} BackoffClosedForm(backoff: real, k: nat)
    ensures BackoffSum(backoff, k) == backoff * (Pow2(k) as real - 1.0)
  {
    if k > 0 {
      BackoffClosedForm(backoff, k - 1);
      RetryDelayIsPower(backoff, k);
      assert Pow2(k) == 2 * Pow2(k - 1);
    }
  }

  /** Later retries wait strictly longer. */
  lemma {:induction false} DelaysIncrease(backoff: real, j: nat, k: nat)
    requires 0.0 < backoff && 1 <= j < k
    ensures 0.0 < RetryDelay(backoff, j) < RetryDelay(backoff, k)
    decreases k
  {
    if j > 1 {
      DelaysIncrease(backoff, j - 1, k - 1);
    } else if k > 2 {
      DelaysIncrease(backoff, 1, k - 1);
    }
  }

  /** The attempt that is rescheduled is the next retry: retry `k` carries attempt number `k`. */
  lemma RetryNumber(w: World, step: Step, t: nat, executions: nat, retries: nat)
    requires Conserved(w) && Agrees(w) && Enabled(w, step) && Balanced(w, t, executions, retries) && SchedulesTask(w, step, t)
    ensures w.runs[step.run].payload.attempt == retries + 1
  {
    var id := step.run;
    assert RunAgrees(w.tasks, w.runs[id]);
    CarrierIsAlone(w, id);
    assert SchedulingOf(w.runs, t) == {id} by {
      assert forall k :: k in SchedulingOf(w.runs, t) ==> k in CarriersOf(w.runs, t);
    }
  }

  lemma RetryNumberInRun(ws: seq<World>, steps: seq<Step>, t: nat, n: nat)
    requires IsRun(ws, steps) && MovesIntact(ws, steps) && n < |steps| && SchedulesTask(ws[n], steps[n], t)
    ensures ws[n].runs[steps[n].run].payload.attempt == RetriesScheduled(ws, steps, t, n) + 1
  {
    RunsAreBalanced(ws, steps, t, n);
    RowsMatchPlaces(ws, steps, n);
    TasksAreConserved(ws, steps, n);
    RetryNumber(ws[n], steps[n], t, Executions(ws, steps, t, n), RetriesScheduled(ws, steps, t, n));
  }

  lemma DelayIsNextTerm(w: World, step: Step, t: nat, backoff: real, retries: nat)
    requires w.cfg.backoff == backoff
    requires SchedulesTask(w, step, t) ==> w.runs[step.run].payload.attempt == retries + 1
    ensures BackoffSum(backoff, retries + Bit(SchedulesTask(w, step, t))) == BackoffSum(backoff, retries) + DelayGiven(w, step, t)
  {}

  /** In every intact run the delays given to one task add up to the closed form for the retries it had. */
  lemma {:induction false} TotalDelayIsClosedForm(ws: seq<World>, steps: seq<Step>, t: nat, n: nat)
    requires IsRun(ws, steps) && MovesIntact(ws, steps) && n <= |steps|
    ensures TotalDelay(ws, steps, t, n) == BackoffSum(ws[0].cfg.backoff, RetriesScheduled(ws, steps, t, n))
  {
    if n > 0 {
      TotalDelayIsClosedForm(ws, steps, t, n - 1);
      if SchedulesTask(ws[n - 1], steps[n - 1], t) {
        RetryNumberInRun(ws, steps, t, n - 1);
      }
      ConfigIsFixed(ws, steps, n - 1);
      DelayIsNextTerm(ws[n - 1], steps[n - 1], t, ws[0].cfg.backoff, RetriesScheduled(ws, steps, t, n - 1));
    }
  }

  // ---------------------------------------------------------------- steps of work

  function RankFor(r: Run, t: nat): nat {
    if r.payload.taskId == t then Rank(r.stage) else 0
  }

  /** The work left in all current runs of a task. */
  ghost function WorkLeft(runs: map<nat, Run>, t: nat): nat {
    if runs == map[] then 0 else
      var id :| id in runs;
      RankFor(runs[id], t) + WorkLeft(runs - {id}, t)
  }

  lemma {:induction false} WorkLeftSplit(runs: map<nat, Run>, t: nat, id: nat)
    requires id in runs
    ensures WorkLeft(runs, t) == RankFor(runs[id], t) + WorkLeft(runs - {id}, t)
    decreases |runs|
  {
    var k :| k in runs && WorkLeft(runs, t) == RankFor(runs[k], t) + WorkLeft(runs - {k}, t);
    if k != id {
      WorkLeftSplit(runs - {k}, t, id);
      WorkLeftSplit(runs - {id}, t, k);
      assert runs - {k} - {id} == runs - {id} - {k};
    }
  }

  lemma WorkLeftUpdate(runs: map<nat, Run>, t: nat, id: nat, r: Run)
    ensures WorkLeft(runs[id := r], t) + (if id in runs then RankFor(runs[id], t) else 0) == WorkLeft(runs, t) + RankFor(r, t)
  {
    WorkLeftSplit(runs[id := r], t, id);
    if id in runs {
      WorkLeftSplit(runs, t, id);
      assert runs[id := r] - {id} == runs - {id};
    } else {
      assert runs[id := r] - {id} == runs;
    }
  }

  /** Every stage leads to one with less work left. */
  lemma WorkShrinksRank(w: World, id: nat, ok: bool)
    requires Enabled(w, Work(id, ok)) && !w.runs[id].stage.Releasing?
    ensures var w' := WorkStep(w, id, ok);
            id in w'.runs && w'.runs == w.runs[id := w'.runs[id]] && Rank(w'.runs[id].stage) < Rank(w.runs[id].stage)
            && w'.runs[id].payload.taskId == w.runs[id].payload.taskId
  {}

  lemma WorkShrinksWorkLeft(w: World, id: nat, ok: bool, t: nat)
    requires Enabled(w, Work(id, ok))
    ensures WorkLeft(WorkStep(w, id, ok).runs, t) + Bit(WorksOn(w, Work(id, ok), t)) <= WorkLeft(w.runs, t)
  {
    var runs' := WorkStep(w, id, ok).runs;
    if w.runs[id].stage.Releasing? {
      WorkLeftSplit(w.runs, t, id);
    } else {
      WorkShrinksRank(w, id, ok);
      WorkLeftUpdate(w.runs, t, id, runs'[id]);
    }
  }

  lemma StepShrinksWorkLeft(w: World, step: Step, t: nat)
    requires Enabled(w, step)
    ensures WorkLeft(Next(w, step).runs, t) + Bit(WorksOn(w, step, t)) <= WorkLeft(w.runs, t) + 8 * Bit(PopsTask(w, step, t))
  {
    match step
    case Work(id, ok) => WorkShrinksWorkLeft(w, id, ok, t);
    case Poll(e, draw, id) =>
      var (s', o) := Polled(w.store, draw);
      if o.Some? {
        WorkLeftUpdate(w.runs, t, id, Run(e, o.value, Starting));
      }
    case _ =>
  }

  lemma {:induction false} WorkIsPaidByExecutions(ws: seq<World>, steps: seq<Step>, t: nat, n: nat)
    requires IsRun(ws, steps) && n <= |steps|
    ensures WorkSteps(ws, steps, t, n) + WorkLeft(ws[n].runs, t) <= 8 * Executions(ws, steps, t, n)
  {
    if n > 0 {
      WorkIsPaidByExecutions(ws, steps, t, n - 1);
      StepShrinksWorkLeft(ws[n - 1], steps[n - 1], t);
    }
  }
}
