/** What the number of workers at a time decides: with one, every move finds what it has read, so tasks are
    conserved; with two, they need not be. */
module PoolSizes {
  import opened Payloads
  import opened TaskQueue
  import opened Engine
  import opened Places
  import opened Conservation
  import opened NoLoss
  import opened IntactMoves
  import DuplicateRuns

  // ---------------------------------------------------------------- workers only become more

  lemma StepKeepsWorkers(w: World, step: Step)
    requires Enabled(w, step)
    ensures w.workers.Keys <= Next(w, step).workers.Keys
  {}

  lemma {:induction false} WorkersStay(ws: seq<World>, steps: seq<Step>, i: nat, n: nat)
    requires IsRun(ws, steps) && i <= n < |ws|
    ensures ws[i].workers.Keys <= ws[n].workers.Keys
    decreases n
  {
    if i < n {
      WorkersStay(ws, steps, i, n - 1);
      StepKeepsWorkers(ws[n - 1], steps[n - 1]);
    }
  }

  /** As many workers as were ever started are enough. */
  lemma AllStarted(ws: seq<World>, steps: seq<Step>, n: nat, k: nat)
    requires IsRun(ws, steps) && n < |ws| && |ws[n].workers.Keys| <= k
    ensures PoolWithin(ws, n, k)
  {
    forall i | 0 <= i <= n ensures |LiveWorkers(ws[i])| <= k {
      WorkersStay(ws, steps, i, n);
      SubsetSize(LiveWorkers(ws[i]), ws[n].workers.Keys);
    }
  }

  // ---------------------------------------------------------------- one worker at a time

  /** What is about to be moved is still due. */
  ghost predicate ReadsAreDue(w: World) {
    forall e, p :: e in w.workers && Holds(w.workers[e].loop, p) ==> p in DueSet(w.store.delayed, w.workers[e].loop.now)
  }

  lemma LoneFindsRead(w: World, step: Step)
    requires ReadsAreDue(w)
    ensures FindsRead(w, step)
  {
    if step.MoveDue? && step.worker in w.workers && w.workers[step.worker].loop.Moving? {
      var l := w.workers[step.worker].loop;
      forall p | p in l.due ensures p in DueSet(w.store.delayed, l.now) {
        assert Holds(l, p);
      }
    }
  }

  lemma LoneKeepsDue(w: World, step: Step)
    requires Enabled(w, step) && |LiveWorkers(w)| <= 1 && ReadsAreDue(w) && Conserved(w)
    ensures ReadsAreDue(Next(w, step))
  {
    var w' := Next(w, step);
    forall e, p | e in w'.workers && Holds(w'.workers[e].loop, p) ensures p in DueSet(w'.store.delayed, w'.workers[e].loop.now) {
      if step.ReadDue? && step.worker == e {
      } else {
        OtherStepHolds(w, step, e, p);
        LoneMoverIsIt(w, step, e);
        DelayedStays(w, step, p);
      }
    }
  }

  lemma OtherStepHolds(w: World, step: Step, e: nat, p: Payload)
    requires Enabled(w, step) && e in Next(w, step).workers && Holds(Next(w, step).workers[e].loop, p)
    requires !(step.ReadDue? && step.worker == e)
    ensures e in w.workers && w.workers[e].loop == Next(w, step).workers[e].loop
    ensures (step.MoveDue? || step.PromoteAtOnce?) ==> step.worker != e
  {}

  /** Nobody else moves. */
  lemma LoneMoverIsIt(w: World, step: Step, e: nat)
    requires Enabled(w, step) && |LiveWorkers(w)| <= 1 && e in w.workers && w.workers[e].loop.Moving?
    ensures (step.MoveDue? || step.PromoteAtOnce?) ==> step.worker == e
  {
    if (step.MoveDue? || step.PromoteAtOnce?) && step.worker != e {
      SubsetSize({e, step.worker}, LiveWorkers(w));
      assert false;
    }
  }

  /** In the sorted set a payload keeps its score: no run reschedules what is there. */
  lemma DelayedStays(w: World, step: Step, p: Payload)
    requires Enabled(w, step) && Conserved(w) && p in w.store.delayed && !step.MoveDue? && !step.PromoteAtOnce?
    ensures p in Next(w, step).store.delayed && Next(w, step).store.delayed[p] == w.store.delayed[p]
  {
    if step.Work? && w.runs[step.run].stage.Scheduling? && w.runs[step.run].payload == p {
      assert p in DelayedOf(w.store, p.taskId);
      CarrierIsAlone(w, step.run);
      assert false;
    }
    hide PublishedBatch;
  }

  lemma {:induction false} LoneRun(ws: seq<World>, steps: seq<Step>, n: nat)
    requires IsRun(ws, steps) && NeverCrowded(ws, steps) && PoolWithin(ws, |steps|, 1) && n <= |steps|
    ensures Conserved(ws[n]) && ReadsAreDue(ws[n])
  {
    if n == 0 {
      assert forall t: nat :: PlacesOf(ws[0], t) == 0;
    } else {
      LoneRun(ws, steps, n - 1);
      RunsAreLossless(ws, steps, n - 1);
      ReadsAreDistinct(ws, steps, n - 1);
      LoneStep(ws[n - 1], steps[n - 1]);
    }
  }

  lemma LoneStep(w: World, step: Step)
    requires Enabled(w, step) && FewDue(w, step) && |LiveWorkers(w)| <= 1
    requires ReadsAreDue(w) && Conserved(w) && MoversCover(w) && ReadsDistinct(w)
    ensures ReadsAreDue(Next(w, step)) && Conserved(Next(w, step))
  {
    hide *;
    LoneFindsRead(w, step);
    LoneKeepsDue(w, step);
    IntactStepConserves(w, step);
  }

  /** A run with one worker at a time, and never more than fifty due, is intact. */
  lemma OneWorkerIsIntact(ws: seq<World>, steps: seq<Step>)
    requires IsRun(ws, steps) && NeverCrowded(ws, steps) && PoolWithin(ws, |steps|, 1)
    ensures MovesIntact(ws, steps)
  {
    forall i | 0 <= i < |steps| ensures FindsRead(ws[i], steps[i]) {
      LoneRun(ws, steps, i);
      LoneFindsRead(ws[i], steps[i]);
    }
    hide FindsRead;
  }

  // ---------------------------------------------------------------- more than one

  /** The run conserves all tasks at all times. */
  ghost predicate Conserves(ws: seq<World>) {
    forall i :: 0 <= i < |ws| ==> Conserved(ws[i])
  }

  /** All runs with at most `k` workers at a time, and never more than fifty due, conserve all tasks exactly
      when `k` is at most one. */
  lemma PoolConservesIff(k: nat)
    ensures (forall ws: seq<World>, steps: seq<Step> :: IsRun(ws, steps) && NeverCrowded(ws, steps) && PoolWithin(ws, |steps|, k) ==> Conserves(ws))
       <==> k <= 1
  {
    if k <= 1 {
      forall ws: seq<World>, steps: seq<Step> | IsRun(ws, steps) && NeverCrowded(ws, steps) && PoolWithin(ws, |steps|, k) ensures Conserves(ws) {
        OneWorkerIsIntact(ws, steps);
        ConservedIffIntact(ws, steps);
      }
    } else {
      var ws, steps := DuplicateRuns.TwoWorkersDuplicate();
      assert |ws[|steps|].workers.Keys| == |{0, 1}| == 2;
      AllStarted(ws, steps, |steps|, k);
      assert !Conserved(ws[|steps|]);
    }
  }
}
