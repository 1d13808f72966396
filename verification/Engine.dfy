/** The execution engine as a system of concurrent steps.  The state is what the workers share (the
    queue, the task and scan rows, the clock) together with where every worker loop and every payload
    run stands.  Between two steps of one run any step of any other run may happen; a step is the code
    between two awaits that reach Redis or the database. */
module Engine {
  import opened Wrappers
  import opened Payloads
  import opened TaskQueue

  datatype TaskStatus = QUEUED | PROCESSING | RETRYING | SUCCESS | FAILED

  datatype ScanStatus = PENDING | RUNNING | PAUSED | COMPLETED | FAILED | CANCELLED

  datatype Row = Row(scanId: nat, status: TaskStatus, attempts: nat, maxRetries: int)

  type Tasks = map<nat, Row>

  type Scans = map<nat, ScanStatus>

  // ---------------------------------------------------------------- database sections

  function WithStatus(tasks: Tasks, id: nat, status: TaskStatus): Tasks {
    if id in tasks then tasks[id := tasks[id].(status := status)] else tasks
  }

  /** The response is saved: the row gets the status and counts one more attempt. */
  function WithResult(tasks: Tasks, id: nat, status: TaskStatus): Tasks {
    if id in tasks then tasks[id := tasks[id].(status := status, attempts := tasks[id].attempts + 1)] else tasks
  }

  predicate IsActive(status: TaskStatus) {
    status == QUEUED || status == PROCESSING || status == RETRYING
  }

  predicate HasTasks(tasks: Tasks, scan: nat) {
    exists t :: t in tasks && tasks[t].scanId == scan
  }

  predicate AnyActive(tasks: Tasks, scan: nat) {
    exists t :: t in tasks && tasks[t].scanId == scan && IsActive(tasks[t].status)
  }

  predicate AllSucceeded(tasks: Tasks, scan: nat) {
    forall t :: t in tasks && tasks[t].scanId == scan ==> tasks[t].status == SUCCESS
  }

  /** The scan row after one evaluation of its completion. */
  function Evaluated(tasks: Tasks, scans: Scans, scan: nat): Scans {
    if scan !in scans || !HasTasks(tasks, scan) || AnyActive(tasks, scan) then scans
    else scans[scan := if AllSucceeded(tasks, scan) then COMPLETED else ScanStatus.FAILED]
  }

  // ---------------------------------------------------------------- payload runs

  /** How the attempt went: a response other than 429, a 429 or an exception, or no rate limit token in
      time. */
  datatype Outcome = Ok | Failure | TimedOut

  datatype Stage =
    | Starting
    | Limiting
    | Executing
    | Saving(outcome: Outcome)
    | Evaluating(outcome: Outcome, scan: nat)
    | MarkingRetry
    | Scheduling
    | MarkingFailed
    | Burying(reason: Reason)
    | Releasing

  datatype Run = Run(engine: nat, payload: Payload, stage: Stage)

  function SavedStatus(o: Outcome): TaskStatus {
    if o.Ok? then SUCCESS else TaskStatus.FAILED
  }

  /** Where a run goes once its response is saved and the scan evaluated. */
  function AfterSave(r: Run, o: Outcome): Run {
    match o
    case Ok => r.(stage := Releasing)
    case TimedOut => r.(stage := Burying(RateLimitTimeout))
    case Failure =>
      if r.payload.attempt < r.payload.maxRetries
      then r.(payload := r.payload.(attempt := r.payload.attempt + 1), stage := MarkingRetry)
      else r.(stage := MarkingFailed)
  }

  /** The longest way from a stage to the end of the run. */
  function Rank(stage: Stage): nat {
    match stage
    case Starting => 8
    case Limiting => 7
    case Executing => 6
    case Saving(o) => 5
    case Evaluating(o, scan) => 4
    case MarkingRetry => 3
    case MarkingFailed => 3
    case Scheduling => 2
    case Burying(reason) => 2
    case Releasing => 1
  }

  function Pow2(n: nat): nat {
    if n == 0 then 1 else 2 * Pow2(n - 1)
  }

  /** The delay before attempt number `attempt`: it doubles with every attempt. */
  function RetryDelay(backoff: real, attempt: nat): real {
    if attempt == 0 then backoff / 2.0 else if attempt == 1 then backoff else 2.0 * RetryDelay(backoff, attempt - 1)
  }

  lemma {:induction false} DelayIsPositive(backoff: real, attempt: nat)
    requires 0.0 < backoff
    ensures 0.0 < RetryDelay(backoff, attempt)
  {
    if attempt > 1 { DelayIsPositive(backoff, attempt - 1); }
  }

  /** In closed form, `backoff * 2 ** (attempt - 1)`; the engine only asks with `attempt >= 1`. */
  lemma {:induction false} RetryDelayIsPower(backoff: real, attempt: nat)
    requires attempt >= 1
    ensures RetryDelay(backoff, attempt) == backoff * Pow2(attempt - 1) as real
  {
    if attempt > 1 {
      RetryDelayIsPower(backoff, attempt - 1);
      assert Pow2(attempt - 1) == 2 * Pow2(attempt - 2);
    }
  }

  // ---------------------------------------------------------------- worker loops

  datatype Loop =
    | AwaitingPermit
    | Reading
    | Moving(now: real, due: seq<Payload>)
    | Polling
    | Exited

  /** The loop has read the payload and has yet to move it. */
  predicate Holds(l: Loop, p: Payload) {
    l.Moving? && p in l.due
  }

  datatype Worker = Worker(running: bool, permits: nat, loop: Loop)

  datatype Config = Config(concurrency: nat, backoff: real)

  datatype World = World(
    cfg: Config,
    clock: real,
    store: Store,
    tasks: Tasks,
    scans: Scans,
    workers: map<nat, Worker>,
    runs: map<nat, Run>)

  datatype Step =
    | Tick(now: real)
    | CreateScan(scan: nat)
    | Submit(scan: nat, batch: seq<Payload>)
    | StartWorker(worker: nat)
    | StopWorker(worker: nat)
    | AcquirePermit(worker: nat)
    | ReadDue(worker: nat, due: seq<Payload>)
    | MoveDue(worker: nat)
    | PromoteAtOnce(worker: nat, due: seq<Payload>)   // ReadDue and MoveDue with nothing in between
    | Poll(worker: nat, draw: real, run: nat)
    | Work(run: nat, ok: bool)

  // ---------------------------------------------------------------- when a step can happen

  predicate AtLoop(w: World, e: nat, l: Loop) {
    e in w.workers && w.workers[e].loop == l
  }

  /** A submission creates rows under fresh identifiers and publishes first attempts of that scan. */
  predicate FreshBatch(w: World, scan: nat, batch: seq<Payload>) {
    && (forall i :: 0 <= i < |batch| ==> batch[i].taskId !in w.tasks && batch[i].attempt == 0 && batch[i].scanId == scan)
    && (forall i, j :: 0 <= i < j < |batch| ==> batch[i].taskId != batch[j].taskId)
  }

  ghost predicate Enabled(w: World, step: Step) {
    match step
    case Tick(now) => w.clock <= now
    case CreateScan(scan) => scan !in w.scans
    case Submit(scan, batch) => scan in w.scans && FreshBatch(w, scan, batch)
    case StartWorker(e) => e !in w.workers
    case StopWorker(e) => e in w.workers
    case AcquirePermit(e) => AtLoop(w, e, AwaitingPermit) && w.workers[e].permits > 0
    case ReadDue(e, due) => AtLoop(w, e, Reading) && IsDueRead(w.store.delayed, w.clock, due)
    case MoveDue(e) => e in w.workers && w.workers[e].loop.Moving?
    case PromoteAtOnce(e, due) => AtLoop(w, e, Reading) && IsDueRead(w.store.delayed, w.clock, due)
    case Poll(e, draw, id) => AtLoop(w, e, Polling) && id !in w.runs
    case Work(id, ok) => id in w.runs && w.runs[id].engine in w.workers
  }

  // ---------------------------------------------------------------- what a step does

  function SubmittedRows(batch: seq<Payload>): Tasks {
    if batch == [] then map[]
    else SubmittedRows(batch[1..])[batch[0].taskId := Row(batch[0].scanId, QUEUED, 0, batch[0].maxRetries)]
  }

  function SetLoop(w: World, e: nat, l: Loop): World
    requires e in w.workers
  {
    w.(workers := w.workers[e := w.workers[e].(loop := l)])
  }

  function BackToTop(v: Worker): Loop {
    if v.running then AwaitingPermit else Exited
  }

  function WorkStep(w: World, id: nat, ok: bool): World
    requires id in w.runs && w.runs[id].engine in w.workers
  {
    var r := w.runs[id];
    var t := r.payload.taskId;
    match r.stage
    case Starting =>
      w.(tasks := WithStatus(w.tasks, t, PROCESSING), runs := w.runs[id := r.(stage := Limiting)])
    case Limiting =>
      w.(runs := w.runs[id := r.(stage := if ok then Executing else Saving(TimedOut))])
    case Executing =>
      w.(runs := w.runs[id := r.(stage := Saving(if ok then Ok else Failure))])
    case Saving(o) =>
      var next := if t in w.tasks then r.(stage := Evaluating(o, w.tasks[t].scanId)) else AfterSave(r, o);
      w.(tasks := WithResult(w.tasks, t, SavedStatus(o)), runs := w.runs[id := next])
    case Evaluating(o, scan) =>
      w.(scans := Evaluated(w.tasks, w.scans, scan), runs := w.runs[id := AfterSave(r, o)])
    case MarkingRetry =>
      w.(tasks := WithStatus(w.tasks, t, RETRYING), runs := w.runs[id := r.(stage := Scheduling)])
    case Scheduling =>
      w.(store := Scheduled(w.store, r.payload, w.clock + RetryDelay(w.cfg.backoff, r.payload.attempt)),
         runs := w.runs[id := r.(stage := Releasing)])
    case MarkingFailed =>
      w.(tasks := WithStatus(w.tasks, t, TaskStatus.FAILED), runs := w.runs[id := r.(stage := Burying(RetriesExhausted))])
    case Burying(reason) =>
      w.(store := DeadLettered(w.store, r.payload, reason), runs := w.runs[id := r.(stage := Releasing)])
    case Releasing =>
      w.(workers := w.workers[r.engine := w.workers[r.engine].(permits := w.workers[r.engine].permits + 1)],
         runs := w.runs - {id})
  }

  function PollStep(w: World, e: nat, draw: real, id: nat): World
    requires e in w.workers
  {
    var v := w.workers[e];
    match Polled(w.store, draw)
    case (s, Some(p)) =>
      w.(store := s, runs := w.runs[id := Run(e, p, Starting)], workers := w.workers[e := v.(loop := BackToTop(v))])
    case (_, None) =>
      w.(workers := w.workers[e := v.(permits := v.permits + 1, loop := BackToTop(v))])
  }

  function Next(w: World, step: Step): World
    requires Enabled(w, step)
  {
    match step
    case Tick(now) => w.(clock := now)
    case CreateScan(scan) => w.(scans := w.scans[scan := PENDING])
    case Submit(scan, batch) =>
      w.(scans := if w.scans[scan] == PENDING || w.scans[scan] == PAUSED then w.scans[scan := RUNNING] else w.scans,
         tasks := w.tasks + SubmittedRows(batch),
         store := PublishedBatch(w.store, batch))
    case StartWorker(e) => w.(workers := w.workers[e := Worker(true, w.cfg.concurrency, AwaitingPermit)])
    case StopWorker(e) => w.(workers := w.workers[e := w.workers[e].(running := false)])
    case AcquirePermit(e) =>
      var v := w.workers[e];
      if v.running then w.(workers := w.workers[e := v.(permits := v.permits - 1, loop := Reading)])
      else SetLoop(w, e, Exited)
    case ReadDue(e, due) => SetLoop(w, e, Moving(w.clock, due))
    case MoveDue(e) =>
      SetLoop(w, e, Polling).(store := Promoted(w.store, w.workers[e].loop.now, w.workers[e].loop.due))
    case PromoteAtOnce(e, due) =>
      SetLoop(w, e, Polling).(store := Promoted(w.store, w.clock, due))
    case Poll(e, draw, id) => PollStep(w, e, draw, id)
    case Work(id, ok) => WorkStep(w, id, ok)
  }

  // ---------------------------------------------------------------- runs of the whole system

  ghost predicate Initial(w: World) {
    && w.store == EMPTY && w.tasks == map[] && w.scans == map[] && w.workers == map[] && w.runs == map[]
    && 0.0 <= w.clock && 0.0 < w.cfg.backoff
  }

  /** `ws` are the states and `steps` the steps between them, from an empty system. */
  ghost predicate IsRun(ws: seq<World>, steps: seq<Step>) {
    && |ws| == |steps| + 1
    && Initial(ws[0])
    && forall i :: 0 <= i < |steps| ==> Enabled(ws[i], steps[i]) && ws[i + 1] == Next(ws[i], steps[i])
  }

  /** The step reads at most fifty due payloads, if it reads any. */
  ghost predicate FewDue(w: World, step: Step) {
    step.ReadDue? || step.PromoteAtOnce? ==> |DueSet(w.store.delayed, w.clock)| <= 50
  }

  /** Reads of due payloads never meet more than fifty. */
  ghost predicate NeverCrowded(ws: seq<World>, steps: seq<Step>) {
    |ws| == |steps| + 1 && forall i :: 0 <= i < |steps| ==> FewDue(ws[i], steps[i])
  }

  /** A move finds all that its worker has read still due: no other worker has moved it since. */
  ghost predicate FindsRead(w: World, step: Step) {
    step.MoveDue? && step.worker in w.workers && w.workers[step.worker].loop.Moving? ==>
      var l := w.workers[step.worker].loop; forall p :: p in l.due ==> p in DueSet(w.store.delayed, l.now)
  }

  /** An intact run: in addition no worker moves what another has moved since it was read. */
  ghost predicate MovesIntact(ws: seq<World>, steps: seq<Step>) {
    NeverCrowded(ws, steps) && forall i :: 0 <= i < |steps| ==> FindsRead(ws[i], steps[i])
  }

  /** In addition to few due, every promotion reads and moves in one step. */
  ghost predicate PromotesAtOnce(ws: seq<World>, steps: seq<Step>) {
    NeverCrowded(ws, steps) && forall i :: 0 <= i < |steps| ==> !steps[i].ReadDue? && !steps[i].MoveDue?
  }

  /** So promotions in one step are the plainest case. */
  lemma AtOnceIsIntact(ws: seq<World>, steps: seq<Step>)
    requires PromotesAtOnce(ws, steps)
    ensures MovesIntact(ws, steps)
  {}

  /** The workers whose loop has not ended. */
  function LiveWorkers(w: World): set<nat> {
    set e | e in w.workers && !w.workers[e].loop.Exited?
  }

  /** Up to state `n` there are never more than `k` of them at once, however many have come and gone. */
  ghost predicate PoolWithin(ws: seq<World>, n: nat, k: nat) {
    forall i :: 0 <= i <= n && i < |ws| ==> |LiveWorkers(ws[i])| <= k
  }

  lemma StepKeepsConfig(w: World, step: Step)
    requires Enabled(w, step)
    ensures Next(w, step).cfg == w.cfg
  {}

  lemma {:induction false} ConfigIsFixed(ws: seq<World>, steps: seq<Step>, i: nat)
    requires IsRun(ws, steps) && i < |ws|
    ensures ws[i].cfg == ws[0].cfg
  {
    if i > 0 {
      ConfigIsFixed(ws, steps, i - 1);
      StepKeepsConfig(ws[i - 1], steps[i - 1]);
    }
  }
}
