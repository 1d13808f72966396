/** Permit conservation: the concurrency limit of each worker over every run. */
module Semaphore {
  import opened Wrappers
  import opened TaskQueue
  import opened Engine
  import opened Conservation

  function RunsOf(runs: map<nat, Run>, e: nat): set<nat> {
    set id | id in runs && runs[id].engine == e
  }

  /** The loop owns a permit from the moment it got one until the payload run takes it over. */
  predicate HoldsPermit(l: Loop) {
    l.Reading? || l.Moving? || l.Polling?
  }

  ghost predicate PermitsBalance(w: World) {
    && (forall e :: e in w.workers ==>
          w.workers[e].permits + |RunsOf(w.runs, e)| + Bit(HoldsPermit(w.workers[e].loop)) == w.cfg.concurrency)
    && (forall id :: id in w.runs ==> w.runs[id].engine in w.workers)
  }

  lemma RunsUpdate(runs: map<nat, Run>, id: nat, r: Run, e: nat)
    ensures |RunsOf(runs[id := r], e)| + Bit(id in runs && runs[id].engine == e) == |RunsOf(runs, e)| + Bit(r.engine == e)
  {
    SameButOne(RunsOf(runs, e), RunsOf(runs[id := r], e), id);
  }

  lemma WorkKeepsPermits(w: World, id: nat, ok: bool)
    requires PermitsBalance(w) && Enabled(w, Work(id, ok))
    ensures PermitsBalance(WorkStep(w, id, ok))
  {
    if w.runs[id].stage.Releasing? {
      ReleaseKeepsPermits(w, id, ok);
    } else {
      StageKeepsEngine(w, id, ok);
      StageKeepsPermits(w, id, WorkStep(w, id, ok));
    }
  }

  lemma ReleaseKeepsPermits(w: World, id: nat, ok: bool)
    requires PermitsBalance(w) && Enabled(w, Work(id, ok)) && w.runs[id].stage.Releasing?
    ensures PermitsBalance(WorkStep(w, id, ok))
  {
    var w' := WorkStep(w, id, ok);
    forall e | e in w'.workers
      ensures w'.workers[e].permits + |RunsOf(w'.runs, e)| + Bit(HoldsPermit(w'.workers[e].loop)) == w'.cfg.concurrency
    {
      SameButOne(RunsOf(w.runs, e), RunsOf(w'.runs, e), id);
    }
  }

  lemma StageKeepsPermits(w: World, id: nat, w': World)
    requires PermitsBalance(w) && id in w.runs && id in w'.runs && w'.workers == w.workers && w'.cfg == w.cfg
    requires w'.runs == w.runs[id := w'.runs[id]] && w'.runs[id].engine == w.runs[id].engine
    ensures PermitsBalance(w')
  {
    forall e | e in w'.workers
      ensures w'.workers[e].permits + |RunsOf(w'.runs, e)| + Bit(HoldsPermit(w'.workers[e].loop)) == w'.cfg.concurrency
    {
      RunsUpdate(w.runs, id, w'.runs[id], e);
    }
  }

  lemma StageKeepsEngine(w: World, id: nat, ok: bool)
    requires Enabled(w, Work(id, ok)) && !w.runs[id].stage.Releasing?
    ensures var w' := WorkStep(w, id, ok);
            && w'.workers == w.workers && w'.cfg == w.cfg && id in w'.runs
            && w'.runs == w.runs[id := w'.runs[id]] && w'.runs[id].engine == w.runs[id].engine
  {}

  lemma PollKeepsPermits(w: World, e: nat, draw: real, id: nat)
    requires PermitsBalance(w) && Enabled(w, Poll(e, draw, id))
    ensures PermitsBalance(PollStep(w, e, draw, id))
  {
    var w' := PollStep(w, e, draw, id);
    var (s', o) := Polled(w.store, draw);
    forall f | f in w'.workers
      ensures w'.workers[f].permits + |RunsOf(w'.runs, f)| + Bit(HoldsPermit(w'.workers[f].loop)) == w'.cfg.concurrency
    {
      if o.Some? {
        RunsUpdate(w.runs, id, Run(e, o.value, Starting), f);
      }
    }
  }

  lemma StepKeepsPermits(w: World, step: Step)
    requires PermitsBalance(w) && Enabled(w, step)
    ensures PermitsBalance(Next(w, step))
  {
    match step
    case Poll(e, draw, id) => PollKeepsPermits(w, e, draw, id);
    case Work(id, ok) => WorkKeepsPermits(w, id, ok);
    case StartWorker(e) => LoopKeepsPermits(w, Next(w, step));
    case StopWorker(e) => LoopKeepsPermits(w, Next(w, step));
    case AcquirePermit(e) => LoopKeepsPermits(w, Next(w, step));
    case _ => PromotingKeepsPermits(w, step);
  }

  lemma PromotingKeepsPermits(w: World, step: Step)
    requires PermitsBalance(w) && Enabled(w, step)
    requires step.Tick? || step.CreateScan? || step.Submit? || step.ReadDue? || step.MoveDue? || step.PromoteAtOnce?
    ensures PermitsBalance(Next(w, step))
  {
    LoopKeepsPermits(w, Next(w, step));
  }

  /** A step of a worker loop alone keeps the permits that are free or held by the loop. */
  lemma LoopKeepsPermits(w: World, w': World)
    requires PermitsBalance(w) && w'.runs == w.runs && w'.cfg == w.cfg
    requires forall e :: e in w.workers ==> e in w'.workers
    requires forall e :: e in w'.workers ==>
               w'.workers[e].permits + Bit(HoldsPermit(w'.workers[e].loop))
               == if e in w.workers then w.workers[e].permits + Bit(HoldsPermit(w.workers[e].loop)) else w.cfg.concurrency
    ensures PermitsBalance(w')
  {
    forall e | e in w'.workers
      ensures w'.workers[e].permits + |RunsOf(w'.runs, e)| + Bit(HoldsPermit(w'.workers[e].loop)) == w'.cfg.concurrency
    {
      if e !in w.workers {
        assert RunsOf(w.runs, e) == {};
      }
    }
  }

  /** In every reachable state the free permits of a worker, its payload runs and the permit its loop
      holds add up to the concurrency limit. */
  lemma {:induction false} PermitsAreConserved(ws: seq<World>, steps: seq<Step>, i: nat)
    requires IsRun(ws, steps) && i < |ws|
    ensures PermitsBalance(ws[i])
  {
    if i > 0 {
      PermitsAreConserved(ws, steps, i - 1);
      StepKeepsPermits(ws[i - 1], steps[i - 1]);
    }
  }

  /** So no worker ever runs more payloads at a time than its limit. */
  lemma ConcurrencyIsLimited(ws: seq<World>, steps: seq<Step>, i: nat, e: nat)
    requires IsRun(ws, steps) && i < |ws| && e in ws[i].workers
    ensures |RunsOf(ws[i].runs, e)| <= ws[0].cfg.concurrency
  {
    PermitsAreConserved(ws, steps, i);
    ConfigIsFixed(ws, steps, i);
  }
}
