/** Task conservation over runs, with the read and the move of due payloads as separate steps: exactly when
    no worker moves what another has moved since it was read, every task stays in one place. */
module IntactMoves {
  import opened Payloads
  import opened TaskQueue
  import opened Engine
  import opened Places
  import opened Conservation
  import opened NoLoss

  /** No worker holds a payload twice. */
  ghost predicate ReadsDistinct(w: World) {
    forall e :: e in w.workers && w.workers[e].loop.Moving? ==> Distinct(w.workers[e].loop.due)
  }

  lemma StepKeepsReadsDistinct(w: World, step: Step)
    requires ReadsDistinct(w) && Enabled(w, step)
    ensures ReadsDistinct(Next(w, step))
  {
    hide Distinct;
    if step.ReadDue? {
      ReadIsDistinct(w.store, w.clock, step.due);
    }
  }

  lemma ReadIsDistinct(s: Store, now: real, due: seq<Payload>)
    requires IsDueRead(s.delayed, now, due)
    ensures Distinct(due)
  {}

  lemma {:induction false} ReadsAreDistinct(ws: seq<World>, steps: seq<Step>, i: nat)
    requires IsRun(ws, steps) && i < |ws|
    ensures ReadsDistinct(ws[i])
  {
    if i > 0 {
      ReadsAreDistinct(ws, steps, i - 1);
      StepKeepsReadsDistinct(ws[i - 1], steps[i - 1]);
    }
  }

  // ---------------------------------------------------------------- one move

  /** A move keeps every task in its one place if and only if all that was read is still due: otherwise a
      payload that another worker has moved meanwhile is put into a list once more. */
  lemma MoveConservesIff(w: World, e: nat)
    requires Conserved(w) && MoversCover(w) && ReadsDistinct(w) && Enabled(w, MoveDue(e))
    ensures Conserved(Next(w, MoveDue(e))) <==> FindsRead(w, MoveDue(e))
  {
    var l := w.workers[e].loop;
    if FindsRead(w, MoveDue(e)) {
      IntactMoveConserves(w, e);
    } else {
      var p :| p in l.due && p !in DueSet(w.store.delayed, l.now);
      LatePushDuplicates(w, e, p);
    }
  }

  lemma IntactMoveConserves(w: World, e: nat)
    requires Conserved(w) && MoversCover(w) && ReadsDistinct(w) && Enabled(w, MoveDue(e)) && FindsRead(w, MoveDue(e))
    ensures Conserved(Next(w, MoveDue(e)))
  {
    var w', l := Next(w, MoveDue(e)), w.workers[e].loop;
    assert (set p | p in l.due) == DueSet(w.store.delayed, l.now);
    forall t: nat ensures PlacesOf(w', t) == if t in w'.tasks then 1 else 0 {
      assert PlacesOf(w, t) == if t in w.tasks then 1 else 0;
      MovePlaces(w.store, l.now, l.due, t);
    }
  }

  lemma LatePushDuplicates(w: World, e: nat, p: Payload)
    requires MoversCover(w) && ReadsDistinct(w) && Enabled(w, MoveDue(e))
    requires p in w.workers[e].loop.due && p !in DueSet(w.store.delayed, w.workers[e].loop.now)
    ensures PlacesOf(Next(w, MoveDue(e)), p.taskId) > PlacesOf(w, p.taskId)
  {
    var l, t := w.workers[e].loop, p.taskId;
    MovePushes(w.store, l.now, l.due, t);
    MoveTakesDue(w.store, l.now, l.due, t);
    MoreAreRead(w.store, l.now, l.due, p);
    hide Promoted;
    assert Promoted(w.store, l.now, l.due).dlq == w.store.dlq by { MoveKeepsDead(w.store, l.now, l.due); }
  }

  lemma MoveKeepsDead(s: Store, now: real, due: seq<Payload>)
    ensures Promoted(s, now, due).dlq == s.dlq
  {}

  lemma MoreAreRead(s: Store, now: real, due: seq<Payload>, p: Payload)
    requires p in due && p !in DueSet(s.delayed, now) && forall q :: q in DueSet(s.delayed, now) ==> q in due
    ensures |DueOf(s, now, p.taskId)| < |set q | q in due && q.taskId == p.taskId|
  {
    var pushed := set q | q in due && q.taskId == p.taskId;
    assert DueOf(s, now, p.taskId) <= pushed - {p};
    SubsetSize(DueOf(s, now, p.taskId), pushed - {p});
  }

  // ---------------------------------------------------------------- whole runs

  lemma IntactStepConserves(w: World, step: Step)
    requires Conserved(w) && MoversCover(w) && ReadsDistinct(w) && Enabled(w, step) && FewDue(w, step) && FindsRead(w, step)
    ensures Conserved(Next(w, step))
  {
    if step.MoveDue? {
      IntactMoveConserves(w, step.worker);
    } else {
      StepConserves(w, step);
    }
  }

  /** Conservation in every intact run, with any number of workers: each submitted task is in exactly one
      place, and nothing else is anywhere. */
  lemma {:induction false} TasksAreConserved(ws: seq<World>, steps: seq<Step>, i: nat)
    requires IsRun(ws, steps) && MovesIntact(ws, steps) && i < |ws|
    ensures Conserved(ws[i])
  {
    if i == 0 {
      assert forall t: nat :: PlacesOf(ws[0], t) == 0;
    } else {
      TasksAreConserved(ws, steps, i - 1);
      RunsAreLossless(ws, steps, i - 1);
      ReadsAreDistinct(ws, steps, i - 1);
      IntactStepConserves(ws[i - 1], steps[i - 1]);
    }
  }

  /** Of the runs that never meet more than fifty due payloads, exactly those conserve all tasks in which
      every move finds what it has read. */
  lemma ConservedIffIntact(ws: seq<World>, steps: seq<Step>)
    requires IsRun(ws, steps) && NeverCrowded(ws, steps)
    ensures (forall i :: 0 <= i < |ws| ==> Conserved(ws[i])) <==> MovesIntact(ws, steps)
  {
    if MovesIntact(ws, steps) {
      forall i | 0 <= i < |ws| ensures Conserved(ws[i]) {
        TasksAreConserved(ws, steps, i);
      }
    } else {
      var i :| 0 <= i < |steps| && !FindsRead(ws[i], steps[i]);
      RunsAreLossless(ws, steps, i);
      ReadsAreDistinct(ws, steps, i);
      if Conserved(ws[i]) {
        MoveConservesIff(ws[i], steps[i].worker);
        assert !Conserved(ws[i + 1]);
      }
    }
  }
}
