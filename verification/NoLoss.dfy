/** No loss under every interleaving: here the read of due payloads and the pipeline that moves them are
    separate steps, so other workers may promote, pop and reschedule in between.  Tasks can then be
    duplicated, but none ever disappears and none is invented. */
module NoLoss {
  import opened Wrappers
  import opened Payloads
  import opened TaskQueue
  import opened Engine
  import opened Places
  import opened Conservation

  ghost predicate InSomeList(s: Store, t: nat) {
    exists l: Level, p :: p in s.At(l) && p.taskId == t
  }

  ghost predicate IsDelayed(s: Store, t: nat) {
    exists p :: p in s.delayed && p.taskId == t
  }

  ghost predicate IsCarried(w: World, t: nat) {
    exists id :: id in w.runs && CarrierFor(w.runs[id], t)
  }

  ghost predicate IsBuried(s: Store, t: nat) {
    exists i :: 0 <= i < |s.dlq| && s.dlq[i].payload.taskId == t
  }

  ghost predicate Present(w: World, t: nat) {
    InSomeList(w.store, t) || IsDelayed(w.store, t) || IsCarried(w, t) || IsBuried(w.store, t) || Finished(w.tasks, t) == 1
  }

  /** Being somewhere means being counted in some place. */
  lemma PresentMeansPlaced(w: World, t: nat)
    ensures Present(w, t) <==> PlacesOf(w, t) >= 1
  {
    AtEach(w.store, t);
    BuriedZero(w.store.dlq, t);
    forall l: Level ensures Occurrences(w.store.At(l), t) == 0 <==> forall p :: p in w.store.At(l) ==> p.taskId != t {
      OccurrencesZero(w.store.At(l), t);
      if forall p :: p in w.store.At(l) ==> p.taskId != t {
        assert forall i :: 0 <= i < |w.store.At(l)| ==> w.store.At(l)[i] in w.store.At(l);
      }
    }
    assert IsDelayed(w.store, t) <==> DelayedOf(w.store, t) != {} by {
      if p :| p in w.store.delayed && p.taskId == t { assert p in DelayedOf(w.store, t); }
    }
    assert IsCarried(w, t) <==> CarriersOf(w.runs, t) != {} by {
      if id :| id in w.runs && CarrierFor(w.runs[id], t) { assert id in CarriersOf(w.runs, t); }
    }
  }

  /** Whoever is about to move has read everything its removal will remove. */
  ghost predicate MoversCover(w: World) {
    forall e :: e in w.workers && w.workers[e].loop.Moving? ==>
      w.workers[e].loop.now <= w.clock
      && forall p :: p in DueSet(w.store.delayed, w.workers[e].loop.now) ==> p in w.workers[e].loop.due
  }

  /** What is listed, delayed, carried or about to be moved belongs to submitted tasks. */
  ghost predicate NothingInvented(w: World) {
    && (forall t: nat :: Present(w, t) ==> t in w.tasks)
    && (forall e :: e in w.workers && w.workers[e].loop.Moving? ==> forall p :: p in w.workers[e].loop.due ==> p.taskId in w.tasks)
    && (forall id :: id in w.runs ==> w.runs[id].payload.taskId in w.tasks)
  }

  ghost predicate AllPresent(w: World) {
    forall t: nat :: t in w.tasks ==> Present(w, t)
  }

  ghost predicate Lossless(w: World) {
    MoversCover(w) && NothingInvented(w) && AllPresent(w) && 0.0 < w.cfg.backoff
  }

  // ---------------------------------------------------------------- promotion

  /** A move pushes at least what it removes ... */
  lemma MoveKeeps(s: Store, now: real, due: seq<Payload>, t: nat)
    requires forall p :: p in DueSet(s.delayed, now) ==> p in due
    requires InSomeList(s, t) || IsDelayed(s, t)
    ensures InSomeList(Promoted(s, now, due), t) || IsDelayed(Promoted(s, now, due), t)
  {
    var s' := Promoted(s, now, due);
    if due == [] { return; }
    if l: Level, p :| p in s.At(l) && p.taskId == t {
      assert p in s'.At(l);
    } else {
      var p :| p in s.delayed && p.taskId == t;
      if p in DueSet(s.delayed, now) {
        OfLevelMember(due, QueueOf(p.priority), p);
        assert p in s'.At(QueueOf(p.priority));
      } else {
        assert p in s'.delayed;
      }
    }
  }

  /** ... and only what it read. */
  lemma MoveInventsNothing(s: Store, now: real, due: seq<Payload>, t: nat)
    requires InSomeList(Promoted(s, now, due), t) || IsDelayed(Promoted(s, now, due), t)
    ensures InSomeList(s, t) || IsDelayed(s, t) || exists p :: p in due && p.taskId == t
  {
    var s' := Promoted(s, now, due);
    if due == [] { return; }
    if l: Level, p :| p in s'.At(l) && p.taskId == t {
      if p !in s.At(l) {
        OfLevelMember(due, l, p);
      }
    } else {
      var p :| p in s'.delayed && p.taskId == t;
      assert p in s.delayed;
    }
  }

  lemma MoveIsLossless(w: World, e: nat)
    requires Lossless(w) && Enabled(w, MoveDue(e))
    ensures Lossless(Next(w, MoveDue(e)))
  {
    PromotionIsLossless(w, e, w.workers[e].loop.now, w.workers[e].loop.due);
  }

  lemma PromotionIsLossless(w: World, e: nat, now: real, due: seq<Payload>)
    requires Lossless(w) && e in w.workers
    requires forall p :: p in DueSet(w.store.delayed, now) ==> p in due
    requires forall p :: p in due ==> p.taskId in w.tasks
    ensures Lossless(SetLoop(w, e, Polling).(store := Promoted(w.store, now, due)))
  {
    var w' := SetLoop(w, e, Polling).(store := Promoted(w.store, now, due));
    forall t: nat ensures Present(w', t) <==> t in w'.tasks {
      if InSomeList(w.store, t) || IsDelayed(w.store, t) { MoveKeeps(w.store, now, due, t); }
      if InSomeList(w'.store, t) || IsDelayed(w'.store, t) { MoveInventsNothing(w.store, now, due, t); }
      assert w'.store.dlq == w.store.dlq;
      assert IsCarried(w', t) == IsCarried(w, t);
      assert t in w.tasks <==> Present(w, t);
    }
    forall k, p | k in w'.workers && w'.workers[k].loop.Moving? && p in DueSet(w'.store.delayed, w'.workers[k].loop.now)
      ensures p in w'.workers[k].loop.due
    {
      assert p in DueSet(w.store.delayed, w.workers[k].loop.now);
    }
  }

  // ---------------------------------------------------------------- the other steps

  /** A step that neither moves nor reschedules is lossless when it is so for each task. */
  lemma LosslessFrom(w: World, w': World)
    requires Lossless(w) && w'.store.delayed == w.store.delayed && w.clock <= w'.clock && w'.cfg == w.cfg
    requires forall t :: t in w.tasks ==> t in w'.tasks
    requires forall e :: e in w'.workers && w'.workers[e].loop.Moving? ==> e in w.workers && w.workers[e].loop == w'.workers[e].loop
    requires forall t: nat :: Present(w', t) <==> t in w'.tasks
    requires forall id :: id in w'.runs ==> w'.runs[id].payload.taskId in w'.tasks
    ensures Lossless(w')
  {}

  lemma ReadIsLossless(w: World, e: nat, due: seq<Payload>)
    requires Lossless(w) && Enabled(w, ReadDue(e, due)) && FewDue(w, ReadDue(e, due))
    ensures Lossless(Next(w, ReadDue(e, due)))
  {
    var w' := Next(w, ReadDue(e, due));
    DueReadIsComplete(w.store.delayed, w.clock, due);
    forall t: nat ensures Present(w', t) <==> Present(w, t) {
      assert IsCarried(w', t) == IsCarried(w, t);
    }
    forall p | p in due ensures p.taskId in w.tasks {
      assert p in w.store.delayed;
      assert Present(w, p.taskId);
    }
  }

  /** Other runs still carry what they carried. */
  ghost predicate OnlyRunMoves(w: World, w': World, id: nat) {
    && id in w.runs
    && (forall k :: k != id ==> (k in w'.runs <==> k in w.runs) && (k in w.runs ==> w'.runs[k] == w.runs[k]))
    && (id in w'.runs ==> w'.runs[id].payload.taskId == w.runs[id].payload.taskId)
    && w'.cfg == w.cfg && w'.clock == w.clock
    && (forall t :: t in w'.tasks <==> t in w.tasks)
    && (forall e :: e in w'.workers && w'.workers[e].loop.Moving? ==> e in w.workers && w.workers[e].loop == w'.workers[e].loop)
  }

  lemma WorkTouchesOneRun(w: World, id: nat, ok: bool)
    requires Enabled(w, Work(id, ok)) && w.runs[id].payload.taskId in w.tasks
    ensures OnlyRunMoves(w, WorkStep(w, id, ok), id)
  {}

  lemma KeptByWork(w: World, w': World, id: nat, t: nat)
    requires OnlyRunMoves(w, w', id)
    ensures IsCarried(w, t) ==> IsCarried(w', t) || CarrierFor(w.runs[id], t)
    ensures IsCarried(w', t) ==> IsCarried(w, t) || (id in w'.runs && CarrierFor(w'.runs[id], t))
  {
    if k :| k in w.runs && CarrierFor(w.runs[k], t) { assert k != id ==> CarrierFor(w'.runs[k], t); }
    if k :| k in w'.runs && CarrierFor(w'.runs[k], t) { assert k != id ==> CarrierFor(w.runs[k], t); }
  }

  lemma SchedulingShape(w: World, id: nat, ok: bool)
    requires Enabled(w, Work(id, ok)) && w.runs[id].stage.Scheduling?
    ensures var w', p := WorkStep(w, id, ok), w.runs[id].payload;
            && w'.store == Scheduled(w.store, p, w.clock + RetryDelay(w.cfg.backoff, p.attempt))
            && w'.tasks == w.tasks && id in w'.runs && w'.runs[id].stage == Releasing
  {}

  lemma SchedulingIsLossless(w: World, id: nat, ok: bool)
    requires Lossless(w) && Enabled(w, Work(id, ok)) && w.runs[id].stage.Scheduling?
    ensures Lossless(WorkStep(w, id, ok))
  {
    hide WorkStep;
    hide OnlyRunMoves;
    hide Present;
    hide MoversCover;
    hide AllPresent;
    hide Scheduled;
    DelayIsPositive(w.cfg.backoff, w.runs[id].payload.attempt);
    WorkTouchesOneRun(w, id, ok);
    SchedulingShape(w, id, ok);
    ReschedulingIsLossless(w, WorkStep(w, id, ok), id, w.clock + RetryDelay(w.cfg.backoff, w.runs[id].payload.attempt));
  }

  lemma ReschedulingIsLossless(w: World, w': World, id: nat, at: real)
    requires Lossless(w) && OnlyRunMoves(w, w', id) && w.clock < at
    requires w'.store == Scheduled(w.store, w.runs[id].payload, at) && w'.tasks == w.tasks
    requires id in w'.runs && w'.runs[id].stage == Releasing
    ensures Lossless(w')
  {
    var p := w.runs[id].payload;
    assert p in w'.store.delayed;
    forall t: nat ensures Present(w', t) <==> t in w'.tasks {
      assert t in w.tasks <==> Present(w, t);
      KeptByWork(w, w', id, t);
      SchedulePresence(w.store, p, at, t);
    }
    forall k, q | k in w'.workers && w'.workers[k].loop.Moving? && q in DueSet(w'.store.delayed, w'.workers[k].loop.now)
      ensures q in w'.workers[k].loop.due
    {
      assert q in DueSet(w.store.delayed, w.workers[k].loop.now);
    }
  }

  lemma SchedulePresence(s: Store, p: Payload, at: real, t: nat)
    ensures var s' := Scheduled(s, p, at);
            && (IsDelayed(s', t) <==> IsDelayed(s, t) || p.taskId == t)
            && (InSomeList(s', t) <==> InSomeList(s, t)) && (IsBuried(s', t) <==> IsBuried(s, t))
  {
    var s' := Scheduled(s, p, at);
    assert p in s'.delayed;
    if q :| q in s.delayed && q.taskId == t { assert q in s'.delayed; }
    forall l: Level ensures s'.At(l) == s.At(l) {}
  }

  lemma BuryPresence(s: Store, p: Payload, reason: Reason, t: nat)
    ensures var s' := DeadLettered(s, p, reason);
            && (IsBuried(s', t) <==> IsBuried(s, t) || p.taskId == t)
            && (InSomeList(s', t) <==> InSomeList(s, t)) && (IsDelayed(s', t) <==> IsDelayed(s, t))
  {
    var s', n := DeadLettered(s, p, reason), |s.dlq|;
    assert s'.dlq[n].payload == p;
    if i :| 0 <= i < n && s.dlq[i].payload.taskId == t { assert s'.dlq[i] == s.dlq[i]; }
    forall l: Level ensures s'.At(l) == s.At(l) {}
  }

  lemma BuryingShape(w: World, id: nat, ok: bool)
    requires Enabled(w, Work(id, ok)) && w.runs[id].stage.Burying?
    ensures var w' := WorkStep(w, id, ok);
            && w'.store == DeadLettered(w.store, w.runs[id].payload, w.runs[id].stage.reason)
            && w'.tasks == w.tasks && id in w'.runs && w'.runs[id].stage == Releasing
  {}

  lemma BuryingIsLossless(w: World, id: nat, ok: bool)
    requires Lossless(w) && Enabled(w, Work(id, ok)) && w.runs[id].stage.Burying?
    ensures Lossless(WorkStep(w, id, ok))
  {
    WorkTouchesOneRun(w, id, ok);
    BuryingShape(w, id, ok);
    BuriedIsLossless(w, WorkStep(w, id, ok), id);
  }

  lemma BuriedIsLossless(w: World, w': World, id: nat)
    requires Lossless(w) && OnlyRunMoves(w, w', id) && w.runs[id].stage.Burying?
    requires w'.store == DeadLettered(w.store, w.runs[id].payload, w.runs[id].stage.reason) && w'.tasks == w.tasks
    requires id in w'.runs && w'.runs[id].stage == Releasing
    ensures Lossless(w')
  {
    forall t: nat ensures Present(w', t) <==> t in w'.tasks {
      assert t in w.tasks <==> Present(w, t);
      KeptByWork(w, w', id, t);
      BuryPresence(w.store, w.runs[id].payload, w.runs[id].stage.reason, t);
    }
    LosslessFrom(w, w');
  }

  /** A stage that writes rows keeps carrying the task or has just finished it. */
  ghost predicate KeepsOrFinishes(w: World, w': World, id: nat, t: nat) {
    && id in w.runs
    && w'.store == w.store
    && (CarrierFor(w.runs[id], t) ==> Finished(w'.tasks, t) == 1 || (id in w'.runs && CarrierFor(w'.runs[id], t)))
    && (id in w'.runs && CarrierFor(w'.runs[id], t) ==> CarrierFor(w.runs[id], t))
    && (!CarrierFor(w.runs[id], t) ==> Finished(w'.tasks, t) == Finished(w.tasks, t))
  }

  lemma RowWorkKeepsOrFinishes(w: World, id: nat, ok: bool, t: nat)
    requires Enabled(w, Work(id, ok)) && w.runs[id].payload.taskId in w.tasks
    requires !w.runs[id].stage.Scheduling? && !w.runs[id].stage.Burying?
    ensures KeepsOrFinishes(w, WorkStep(w, id, ok), id, t)
  {}

  lemma RowWorkIsLossless(w: World, id: nat, ok: bool)
    requires Lossless(w) && Enabled(w, Work(id, ok)) && !w.runs[id].stage.Scheduling? && !w.runs[id].stage.Burying?
    ensures Lossless(WorkStep(w, id, ok))
  {
    var w' := WorkStep(w, id, ok);
    WorkTouchesOneRun(w, id, ok);
    forall t: nat ensures KeepsOrFinishes(w, w', id, t) {
      RowWorkKeepsOrFinishes(w, id, ok, t);
    }
    assert KeepsOrFinishes(w, w', id, 0);
    RowsWrittenIsLossless(w, w', id);
  }

  lemma RowsWrittenIsLossless(w: World, w': World, id: nat)
    requires Lossless(w) && OnlyRunMoves(w, w', id) && w'.store == w.store
    requires forall t: nat :: KeepsOrFinishes(w, w', id, t)
    ensures Lossless(w')
  {
    forall t: nat ensures Present(w', t) <==> t in w'.tasks {
      assert t in w.tasks <==> Present(w, t);
      assert KeepsOrFinishes(w, w', id, t);
      KeptByWork(w, w', id, t);
    }
    LosslessFrom(w, w');
  }

  lemma PollPresence(s: Store, l: Level, t: nat)
    requires s.At(l) != []
    ensures var s' := s.Pop(l);
            && (InSomeList(s, t) <==> InSomeList(s', t) || s.At(l)[0].taskId == t)
            && (IsDelayed(s', t) <==> IsDelayed(s, t)) && (IsBuried(s', t) <==> IsBuried(s, t))
  {
    var s' := s.Pop(l);
    assert s.At(l)[0] in s.At(l);
    if k: Level, p :| p in s.At(k) && p.taskId == t { assert p == s.At(l)[0] || p in s'.At(k); }
    if k: Level, p :| p in s'.At(k) && p.taskId == t { assert p in s.At(k); }
  }

  lemma NewRunCarries(w: World, w': World, id: nat, t: nat)
    requires id !in w.runs && id in w'.runs && w'.runs == w.runs[id := w'.runs[id]] && Carries(w'.runs[id].stage)
    ensures IsCarried(w', t) <==> IsCarried(w, t) || w'.runs[id].payload.taskId == t
  {
    assert CarrierFor(w'.runs[id], w'.runs[id].payload.taskId);
    if k :| k in w.runs && CarrierFor(w.runs[k], t) { assert w'.runs[k] == w.runs[k]; }
    if k :| k in w'.runs && CarrierFor(w'.runs[k], t) { assert k != id ==> w.runs[k] == w'.runs[k]; }
  }

  lemma EmptyPollIsLossless(w: World, e: nat, draw: real, id: nat)
    requires Lossless(w) && Enabled(w, Poll(e, draw, id)) && Polled(w.store, draw).1.None?
    ensures Lossless(PollStep(w, e, draw, id))
  {
    PollTakesOneHead(w.store, draw);
    OtherStepIsLossless(w, PollStep(w, e, draw, id));
  }

  lemma PollIsLossless(w: World, e: nat, draw: real, id: nat)
    requires Lossless(w) && Enabled(w, Poll(e, draw, id))
    ensures Lossless(PollStep(w, e, draw, id))
  {
    if Polled(w.store, draw).1.None? {
      EmptyPollIsLossless(w, e, draw, id);
    } else {
      PollTakesOneHead(w.store, draw);
      var (s', o) := Polled(w.store, draw);
      var l: Level :| w.store.At(l) != [] && w.store.At(l)[0] == o.value && s' == w.store.Pop(l);
      PopIsLossless(w, PollStep(w, e, draw, id), l, id);
    }
  }

  lemma PopIsLossless(w: World, w': World, l: Level, id: nat)
    requires Lossless(w) && w.store.At(l) != [] && w'.store == w.store.Pop(l)
    requires id !in w.runs && id in w'.runs && w'.runs == w.runs[id := w'.runs[id]] && Carries(w'.runs[id].stage)
    requires w'.runs[id].payload == w.store.At(l)[0]
    requires w'.tasks == w.tasks && w'.cfg == w.cfg && w'.clock == w.clock
    requires forall e :: e in w'.workers && w'.workers[e].loop.Moving? ==> e in w.workers && w.workers[e].loop == w'.workers[e].loop
    ensures Lossless(w')
  {
    forall t: nat ensures Present(w', t) <==> t in w'.tasks {
      assert t in w.tasks <==> Present(w, t);
      PollPresence(w.store, l, t);
      NewRunCarries(w, w', id, t);
    }
    assert w.store.At(l)[0] in w.store.At(l);
    assert Present(w, w.store.At(l)[0].taskId);
    LosslessFrom(w, w');
  }

  lemma BatchPresence(s: Store, batch: seq<Payload>, t: nat)
    ensures var s' := PublishedBatch(s, batch);
            && (InSomeList(s', t) <==> InSomeList(s, t) || exists i :: 0 <= i < |batch| && batch[i].taskId == t)
            && (IsDelayed(s', t) <==> IsDelayed(s, t)) && (IsBuried(s', t) <==> IsBuried(s, t))
  {
    var s' := PublishedBatch(s, batch);
    if l: Level, p :| p in s.At(l) && p.taskId == t { assert p in s'.At(l); }
    if i :| 0 <= i < |batch| && batch[i].taskId == t {
      OfLevelMember(batch, QueueOf(batch[i].priority), batch[i]);
      assert batch[i] in s'.At(QueueOf(batch[i].priority));
    }
    if l: Level, p :| p in s'.At(l) && p.taskId == t && p !in s.At(l) {
      OfLevelMember(batch, l, p);
    }
  }

  lemma SubmitIsLossless(w: World, scan: nat, batch: seq<Payload>)
    requires Lossless(w) && Enabled(w, Submit(scan, batch))
    ensures Lossless(Next(w, Submit(scan, batch)))
  {
    var w' := Next(w, Submit(scan, batch));
    forall t: nat ensures Present(w', t) <==> t in w'.tasks {
      SubmittedRow(batch, t);
      assert t in w.tasks <==> Present(w, t);
      assert IsCarried(w', t) == IsCarried(w, t);
      BatchPresence(w.store, batch, t);
    }
    LosslessFrom(w, w');
  }

  lemma OtherStepIsLossless(w: World, w': World)
    requires Lossless(w) && w'.store == w.store && w'.tasks == w.tasks && w'.runs == w.runs && w'.cfg == w.cfg && w.clock <= w'.clock
    requires forall e :: e in w'.workers && w'.workers[e].loop.Moving? ==> e in w.workers && w.workers[e].loop == w'.workers[e].loop
    ensures Lossless(w')
  {
    forall t: nat ensures Present(w', t) <==> Present(w, t) {
      assert IsCarried(w', t) == IsCarried(w, t);
    }
  }

  lemma StepIsLossless(w: World, step: Step)
    requires Lossless(w) && Enabled(w, step) && FewDue(w, step)
    ensures Lossless(Next(w, step))
  {
    match step
    case Submit(scan, batch) => SubmitIsLossless(w, scan, batch);
    case ReadDue(e, due) => ReadIsLossless(w, e, due);
    case MoveDue(e) => MoveIsLossless(w, e);
    case PromoteAtOnce(e, due) =>
      DueReadIsComplete(w.store.delayed, w.clock, due);
      forall p | p in due ensures p.taskId in w.tasks {
        assert p in w.store.delayed;
        assert Present(w, p.taskId);
      }
      PromotionIsLossless(w, e, w.clock, due);
    case Poll(e, draw, id) => PollIsLossless(w, e, draw, id);
    case Work(id, ok) =>
      if w.runs[id].stage.Scheduling? { SchedulingIsLossless(w, id, ok); }
      else if w.runs[id].stage.Burying? { BuryingIsLossless(w, id, ok); }
      else { RowWorkIsLossless(w, id, ok); }
    case _ => OtherStepIsLossless(w, Next(w, step));
  }

  lemma {:induction false} RunsAreLossless(ws: seq<World>, steps: seq<Step>, i: nat)
    requires IsRun(ws, steps) && NeverCrowded(ws, steps) && i < |ws|
    ensures Lossless(ws[i])
  {
    if i > 0 {
      RunsAreLossless(ws, steps, i - 1);
      StepIsLossless(ws[i - 1], steps[i - 1]);
    } else {
      assert forall l: Level :: ws[0].store.At(l) == [];
    }
  }

  /** In every reachable state of every interleaving exactly the submitted tasks are somewhere. */
  lemma NoTaskDisappears(ws: seq<World>, steps: seq<Step>, i: nat, t: nat)
    requires IsRun(ws, steps) && NeverCrowded(ws, steps) && i < |ws|
    ensures PlacesOf(ws[i], t) >= 1 <==> t in ws[i].tasks
  {
    RunsAreLossless(ws, steps, i);
    PresentMeansPlaced(ws[i], t);
    assert t in ws[i].tasks <==> Present(ws[i], t);
  }

  /** Why only `at least one`: two workers that both hold a payload of one task put it into the lists twice. */
  lemma TwoMoversDuplicate(w: World, e: nat, f: nat, p: Payload, q: Payload)
    requires e != f && Enabled(w, MoveDue(e)) && Enabled(w, MoveDue(f))
    requires Holds(w.workers[e].loop, p) && Holds(w.workers[f].loop, q) && p.taskId == q.taskId
    ensures Enabled(Next(w, MoveDue(e)), MoveDue(f))
    ensures var w' := Next(Next(w, MoveDue(e)), MoveDue(f));
            && InLists(w'.store, p.taskId) == InLists(w.store, p.taskId) + Occurrences(w.workers[e].loop.due, p.taskId)
                                            + Occurrences(w.workers[f].loop.due, p.taskId)
            && InLists(w'.store, p.taskId) >= 2
  {
    var t := p.taskId;
    var w1 := Next(w, MoveDue(e));
    BatchPlaces(w.store, w.workers[e].loop.due, t);
    BatchPlaces(w1.store, w.workers[f].loop.due, t);
    OccurrencesZero(w.workers[e].loop.due, t);
    OccurrencesZero(w.workers[f].loop.due, t);
    assert InLists(w1.store, t) == InLists(w.store, t) + Occurrences(w.workers[e].loop.due, t);
  }
}
