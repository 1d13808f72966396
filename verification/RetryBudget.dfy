/** What a task can cost in any run: executions, retries and delay, whatever the interleaving.  Workers that
    read one delayed payload before any of them moves it multiply the task, so the bounds grow with the
    number of workers that share a read, or with the number of copies that late moves push. */
module RetryBudget {
  import opened Wrappers
  import opened Payloads
  import opened TaskQueue
  import opened Engine
  import opened Conservation
  import opened IntactMoves
  import opened Provenance
  import opened Retries
  import opened Tariffs

  /** How a budget is drawn up: what is paid for; how many copies a rescheduled payload may become; and
      whether a worker that still holds a payload another has moved is provided for (`stale`), or its late
      copy is accounted for when it is pushed. */
  datatype Plan = Plan(tariff: Tariff, copies: nat, stale: bool)

  function CopyAt(base: Payload, a: nat): Payload {
    base.(attempt := a)
  }

  /** Every payload of the task is an attempt of one and the same request. */
  ghost predicate SameOrigin(w: World, base: Payload) {
    && (forall l: Level, p :: p in w.store.At(l) ==> IsAttemptOf(p, base))
    && (forall p :: p in w.store.delayed ==> IsAttemptOf(p, base))
    && (forall e, p :: e in w.workers && w.workers[e].loop.Moving? && p in w.workers[e].loop.due ==> IsAttemptOf(p, base))
    && (forall id :: id in w.runs ==> IsAttemptOf(w.runs[id].payload, base))
  }

  predicate IsAttemptOf(p: Payload, base: Payload) {
    p.taskId == base.taskId ==> p == CopyAt(base, p.attempt)
  }

  // ---------------------------------------------------------------- counting copies

  /** The workers about to move the payload. */
  function Readers(w: World, p: Payload): set<nat> {
    set e | e in w.workers && w.workers[e].loop.Moving? && p in w.workers[e].loop.due
  }

  /** Those whose move will not take it out of the sorted set. */
  function StaleReaders(w: World, p: Payload): set<nat> {
    set e | e in w.workers && w.workers[e].loop.Moving? && p in w.workers[e].loop.due
            && p !in DueSet(w.store.delayed, w.workers[e].loop.now)
  }

  ghost function WaitingCopies(w: World, plan: Plan, p: Payload): nat {
    Queued(w.store)[p] + (if p in w.store.delayed then plan.copies else 0) + (if plan.stale then |StaleReaders(w, p)| else 0)
  }

  /** The result of the execution is not decided, or it has failed and will be rescheduled. */
  predicate IsOpen(stage: Stage) {
    stage.Starting? || stage.Limiting? || stage.Executing? || stage.Saving? || (stage.Evaluating? && stage.outcome.Failure?)
  }

  predicate IsRescheduling(stage: Stage) {
    stage.MarkingRetry? || stage.Scheduling?
  }

  function OpenRuns(runs: map<nat, Run>, p: Payload): set<nat> {
    set id | id in runs && runs[id].payload == p && IsOpen(runs[id].stage)
  }

  function ReschedulingRuns(runs: map<nat, Run>, p: Payload): set<nat> {
    set id | id in runs && runs[id].payload == p && IsRescheduling(runs[id].stage)
  }

  /** What the copies of attempt `a` may still cost. */
  ghost function Term(w: World, plan: Plan, base: Payload, a: nat): real {
    var cap, p := Cap(base.maxRetries), CopyAt(base, a);
    Times(Worth(plan.tariff, plan.copies, cap, a), WaitingCopies(w, plan, p))
    + Times(OnwardWorth(plan.tariff, plan.copies, cap, a), |OpenRuns(w.runs, p)|)
    + Times(Readmission(plan.tariff, plan.copies, cap, a), |ReschedulingRuns(w.runs, p)|)
  }

  ghost function Terms(w: World, plan: Plan, base: Payload): nat -> real {
    (a: nat) => Term(w, plan, base, a)
  }

  /** What all copies of the task may still cost. */
  ghost function Potential(w: World, plan: Plan, base: Payload): real {
    SumTo(Terms(w, plan, base), Cap(base.maxRetries))
  }

  // ---------------------------------------------------------------- what a step costs

  function Price(tf: Tariff, w: World, step: Step, t: nat): real {
    if PopsTask(w, step, t) then PollPrice(tf)
    else if SchedulesTask(w, step, t) then RetryPrice(tf, w.runs[step.run].payload.attempt)
    else 0.0
  }

  /** The payloads of the task that a move pushes without taking them out of the sorted set. */
  function LateCopies(w: World, step: Step, t: nat): set<Payload> {
    if step.MoveDue? && step.worker in w.workers && w.workers[step.worker].loop.Moving? then
      var l := w.workers[step.worker].loop;
      set p | p in l.due && p.taskId == t && p !in DueSet(w.store.delayed, l.now)
    else {}
  }

  /** No payload is read, and not yet moved, by more than `copies` workers, the one that moves included. */
  ghost predicate IsShared(w: World, step: Step, copies: nat) {
    forall p :: |Readers(w, p)| + Bit(step.PromoteAtOnce?) <= copies
  }

  ghost predicate Covers(plan: Plan, w: World, step: Step) {
    plan.copies >= 1 && IsFair(plan.tariff) && (plan.stale ==> IsShared(w, step, plan.copies))
  }

  // ---------------------------------------------------------------- from terms to the potential

  /** If the terms of `w'` exceed those of `w` by at most `d`, so does the potential. */
  lemma PotentialExceeds(w: World, w': World, plan: Plan, base: Payload, d: nat -> real)
    requires forall a: nat :: a <= Cap(base.maxRetries) ==> Term(w', plan, base, a) <= Term(w, plan, base, a) + d(a)
    ensures Potential(w', plan, base) <= Potential(w, plan, base) + SumTo(d, Cap(base.maxRetries))
  {
    hide Term;
    SumExceeds(Terms(w', plan, base), Terms(w, plan, base), d, Cap(base.maxRetries));
  }

  /** The copies of no attempt become more. */
  ghost predicate NoMore(w: World, w': World, plan: Plan, p: Payload) {
    && WaitingCopies(w', plan, p) <= WaitingCopies(w, plan, p)
    && |OpenRuns(w'.runs, p)| <= |OpenRuns(w.runs, p)|
    && |ReschedulingRuns(w'.runs, p)| <= |ReschedulingRuns(w.runs, p)|
  }

  lemma NoMoreCosts(w: World, w': World, plan: Plan, base: Payload, a: nat)
    requires IsFair(plan.tariff) && NoMore(w, w', plan, CopyAt(base, a))
    ensures Term(w', plan, base, a) <= Term(w, plan, base, a)
  {
    var cap, p := Cap(base.maxRetries), CopyAt(base, a);
    WorthIsPositive(plan.tariff, plan.copies, cap, a);
    TimesGrows(Worth(plan.tariff, plan.copies, cap, a), WaitingCopies(w', plan, p), WaitingCopies(w, plan, p));
    TimesGrows(OnwardWorth(plan.tariff, plan.copies, cap, a), |OpenRuns(w'.runs, p)|, |OpenRuns(w.runs, p)|);
    TimesGrows(Readmission(plan.tariff, plan.copies, cap, a), |ReschedulingRuns(w'.runs, p)|, |ReschedulingRuns(w.runs, p)|);
  }

  lemma NoMoreAtAll(w: World, w': World, plan: Plan, base: Payload)
    requires IsFair(plan.tariff) && forall a: nat :: NoMore(w, w', plan, CopyAt(base, a))
    ensures Potential(w', plan, base) <= Potential(w, plan, base)
  {
    forall a: nat | a <= Cap(base.maxRetries) ensures Term(w', plan, base, a) <= Term(w, plan, base, a) + Nothing()(a) {
      NoMoreCosts(w, w', plan, base, a);
    }
    PotentialExceeds(w, w', plan, base, Nothing());
    SumOfNothing(Cap(base.maxRetries));
  }

  // ---------------------------------------------------------------- moves

  lemma QueuedAfterMove(s: Store, now: real, due: seq<Payload>, p: Payload)
    requires Distinct(due)
    ensures Queued(Promoted(s, now, due))[p] == Queued(s)[p] + Bit(p in due)
  {
    PromotionLists(s, now, due);
    ListMultisets(s, due, Promoted(s, now, due));
    DistinctOnce(due, p);
  }

  lemma DelayedAfterMove(s: Store, now: real, due: seq<Payload>, p: Payload)
    requires due != []
    ensures var s' := Promoted(s, now, due);
            && (p in s'.delayed <==> p in s.delayed && p !in DueSet(s.delayed, now))
            && (p in s'.delayed ==> s'.delayed[p] == s.delayed[p])
  {
    hide PublishedBatch;
  }

  /** Once the payload is out of the sorted set, every other worker that has read it comes too late. */
  lemma StaleAfterRemoval(w: World, w': World, e: nat, p: Payload)
    requires e in w.workers && w'.workers == w.workers[e := w.workers[e].(loop := Polling)] && p !in w'.store.delayed
    ensures |StaleReaders(w', p)| + Bit(Holds(w.workers[e].loop, p)) == |Readers(w, p)|
  {
    assert StaleReaders(w', p) == Readers(w, p) - {e};
    WithoutOne(Readers(w, p), e);
  }

  lemma StaleOtherwise(w: World, w': World, e: nat, p: Payload)
    requires e in w.workers && w'.workers == w.workers[e := w.workers[e].(loop := Polling)]
    requires p in w'.store.delayed <==> p in w.store.delayed
    requires p in w'.store.delayed ==> w'.store.delayed[p] == w.store.delayed[p]
    ensures |StaleReaders(w', p)| + Bit(e in StaleReaders(w, p)) == |StaleReaders(w, p)|
  {
    assert StaleReaders(w', p) == StaleReaders(w, p) - {e};
    WithoutOne(StaleReaders(w, p), e);
  }

  /** How a move by `e` changes the copies that wait. */
  lemma MoveWaiting(w: World, e: nat, now: real, due: seq<Payload>, plan: Plan, p: Payload)
    requires e in w.workers && Distinct(due) && plan.copies >= 1 && due != []
    requires w.workers[e].loop == Moving(now, due) || (w.workers[e].loop == Reading && forall q :: q in due ==> q in DueSet(w.store.delayed, now))
    requires plan.stale ==> |Readers(w, p)| + Bit(w.workers[e].loop.Reading?) <= plan.copies
    ensures var w' := SetLoop(w, e, Polling).(store := Promoted(w.store, now, due));
            WaitingCopies(w', plan, p) <= WaitingCopies(w, plan, p) + Bit(!plan.stale && p in due && p !in DueSet(w.store.delayed, now))
  {
    var w' := SetLoop(w, e, Polling).(store := Promoted(w.store, now, due));
    QueuedAfterMove(w.store, now, due, p);
    DelayedAfterMove(w.store, now, due, p);
    if p in DueSet(w.store.delayed, now) {
      StaleAfterRemoval(w, w', e, p);
    } else {
      StaleOtherwise(w, w', e, p);
      assert e in StaleReaders(w, p) <==> w.workers[e].loop.Moving? && p in due;
    }
    hide Promoted;
    hide Queued;
    hide StaleReaders;
    hide Readers;
    hide Distinct;
  }

  lemma EmptyMoveWaiting(w: World, e: nat, now: real, plan: Plan, p: Payload)
    requires e in w.workers && (w.workers[e].loop == Moving(now, []) || w.workers[e].loop == Reading)
    ensures var w' := SetLoop(w, e, Polling).(store := Promoted(w.store, now, []));
            WaitingCopies(w', plan, p) == WaitingCopies(w, plan, p)
  {
    var w' := SetLoop(w, e, Polling).(store := Promoted(w.store, now, []));
    assert StaleReaders(w', p) == StaleReaders(w, p);
  }

  /** The worth of the copies that a late move pushes. */
  ghost function LateWorth(w: World, step: Step, plan: Plan, base: Payload): nat -> real {
    (a: nat) => if !plan.stale && CopyAt(base, a) in LateCopies(w, step, base.taskId)
                then Worth(plan.tariff, plan.copies, Cap(base.maxRetries), a) else 0.0
  }

  function UpTo(ps: set<Payload>, a: nat): set<Payload> {
    set p | p in ps && p.attempt <= a
  }

  lemma {:induction false} LateWorthIsBounded(w: World, step: Step, plan: Plan, base: Payload, n: nat)
    requires IsFair(plan.tariff) && plan.copies >= 1
    ensures SumTo(LateWorth(w, step, plan, base), n)
         <= Times(Worth(plan.tariff, plan.copies, Cap(base.maxRetries), 0), if plan.stale then 0 else |UpTo(LateCopies(w, step, base.taskId), n)|)
  {
    var first := Worth(plan.tariff, plan.copies, Cap(base.maxRetries), 0);
    var late := LateCopies(w, step, base.taskId);
    var p := CopyAt(base, n);
    hide LateCopies;
    WorthFalls(plan.tariff, plan.copies, Cap(base.maxRetries), n);
    WorthFalls(plan.tariff, plan.copies, Cap(base.maxRetries), 0);
    hide Worth;
    TimesOne(first);
    if n > 0 {
      LateWorthIsBounded(w, step, plan, base, n - 1);
      if !plan.stale {
        MoreUpTo(late, n, p);
        TimesAdds(first, |UpTo(late, n - 1)|, Bit(p in late));
        TimesGrows(first, |UpTo(late, n - 1)| + Bit(p in late), |UpTo(late, n)|);
      }
    } else if !plan.stale && p in late {
      assert p in UpTo(late, 0);
      WithoutOne(UpTo(late, 0), p);
      TimesGrows(first, 1, |UpTo(late, 0)|);
    } else if !plan.stale {
      TimesGrows(first, 0, |UpTo(late, 0)|);
    }
  }

  lemma MoreUpTo(ps: set<Payload>, n: nat, p: Payload)
    requires n > 0 && p.attempt == n
    ensures |UpTo(ps, n - 1)| + Bit(p in ps) <= |UpTo(ps, n)|
  {
    WithoutOne(UpTo(ps, n), p);
    assert UpTo(ps, n - 1) <= UpTo(ps, n) - {p};
    SubsetSize(UpTo(ps, n - 1), UpTo(ps, n) - {p});
  }

  lemma MoveTerm(w: World, step: Step, plan: Plan, base: Payload, a: nat)
    requires Enabled(w, step) && (step.MoveDue? || step.PromoteAtOnce?) && ReadsDistinct(w) && Covers(plan, w, step)
    ensures Term(Next(w, step), plan, base, a) <= Term(w, plan, base, a) + LateWorth(w, step, plan, base)(a)
  {
    var p, cap := CopyAt(base, a), Cap(base.maxRetries);
    var late := Bit(!plan.stale && p in LateCopies(w, step, base.taskId));
    var worth := Worth(plan.tariff, plan.copies, cap, a);
    hide *;
    FairCover(plan, w, step);
    BitIs(!plan.stale && p in LateCopies(w, step, base.taskId));
    MoveCopies(w, step, plan, base, a);
    LateWorthIs(w, step, plan, base, a);
    WorthIsPositive(plan.tariff, plan.copies, cap, a);
    TimesGrows(worth, WaitingCopies(Next(w, step), plan, p), WaitingCopies(w, plan, p) + late);
    TimesAdds(worth, WaitingCopies(w, plan, p), late);
    TimesOne(worth);
    TermIs(w, plan, base, a);
    TermIs(Next(w, step), plan, base, a);
  }

  lemma FairCover(plan: Plan, w: World, step: Step)
    requires Covers(plan, w, step)
    ensures IsFair(plan.tariff) && plan.copies >= 1
  {}

  lemma LateWorthIs(w: World, step: Step, plan: Plan, base: Payload, a: nat)
    ensures LateWorth(w, step, plan, base)(a)
         == if !plan.stale && CopyAt(base, a) in LateCopies(w, step, base.taskId) then Worth(plan.tariff, plan.copies, Cap(base.maxRetries), a) else 0.0
  {}

  lemma MoveCopies(w: World, step: Step, plan: Plan, base: Payload, a: nat)
    requires Enabled(w, step) && (step.MoveDue? || step.PromoteAtOnce?) && ReadsDistinct(w) && Covers(plan, w, step)
    ensures var p := CopyAt(base, a);
            WaitingCopies(Next(w, step), plan, p) <= WaitingCopies(w, plan, p) + Bit(!plan.stale && p in LateCopies(w, step, base.taskId))
    ensures Next(w, step).runs == w.runs
  {
    var p := CopyAt(base, a);
    if step.PromoteAtOnce? {
      AtOnceCopies(w, step.worker, step.due, plan, p);
    } else {
      LaterCopies(w, step.worker, plan, p);
      hide Readers;
      hide WaitingCopies;
      hide Distinct;
    }
  }

  lemma AtOnceCopies(w: World, e: nat, due: seq<Payload>, plan: Plan, p: Payload)
    requires Enabled(w, PromoteAtOnce(e, due)) && Covers(plan, w, PromoteAtOnce(e, due))
    ensures WaitingCopies(Next(w, PromoteAtOnce(e, due)), plan, p) <= WaitingCopies(w, plan, p)
  {
    hide WaitingCopies;
    if due == [] {
      EmptyMoveWaiting(w, e, w.clock, plan, p);
    } else {
      assert forall q :: q in due ==> q in DueSet(w.store.delayed, w.clock);
      MoveWaiting(w, e, w.clock, due, plan, p);
    }
  }

  lemma LaterCopies(w: World, e: nat, plan: Plan, p: Payload)
    requires Enabled(w, MoveDue(e)) && ReadsDistinct(w) && Covers(plan, w, MoveDue(e))
    ensures var l := w.workers[e].loop;
            WaitingCopies(Next(w, MoveDue(e)), plan, p)
            <= WaitingCopies(w, plan, p) + Bit(!plan.stale && p in l.due && p !in DueSet(w.store.delayed, l.now))
  {
    var l := w.workers[e].loop;
    hide WaitingCopies;
    if l.due == [] {
      EmptyMoveWaiting(w, e, l.now, plan, p);
    } else {
      MoveWaiting(w, e, l.now, l.due, plan, p);
    }
  }

  /** A move costs at most the worth of the copies it pushes late. */
  lemma MoveBudget(w: World, step: Step, plan: Plan, base: Payload)
    requires Enabled(w, step) && (step.MoveDue? || step.PromoteAtOnce?) && ReadsDistinct(w) && Covers(plan, w, step)
    ensures Potential(Next(w, step), plan, base)
         <= Potential(w, plan, base) + Times(Worth(plan.tariff, plan.copies, Cap(base.maxRetries), 0),
                                            if plan.stale then 0 else |LateCopies(w, step, base.taskId)|)
  {
    var cap, late := Cap(base.maxRetries), LateCopies(w, step, base.taskId);
    forall a: nat | a <= cap ensures Term(Next(w, step), plan, base, a) <= Term(w, plan, base, a) + LateWorth(w, step, plan, base)(a) {
      MoveTerm(w, step, plan, base, a);
    }
    PotentialExceeds(w, Next(w, step), plan, base, LateWorth(w, step, plan, base));
    LateWorthIsBounded(w, step, plan, base, cap);
    SubsetSize(UpTo(late, cap), late);
    WorthIsPositive(plan.tariff, plan.copies, cap, 0);
    TimesGrows(Worth(plan.tariff, plan.copies, cap, 0), |UpTo(late, cap)|, |late|);
  }

  // ---------------------------------------------------------------- steps that move nothing

  /** Steps that touch neither the queue nor a run, but may read what is due. */
  lemma QuietBudget(w: World, step: Step, plan: Plan, base: Payload)
    requires Enabled(w, step) && IsFair(plan.tariff)
    requires step.Tick? || step.CreateScan? || step.StartWorker? || step.StopWorker? || step.AcquirePermit? || step.ReadDue?
    ensures Potential(Next(w, step), plan, base) <= Potential(w, plan, base)
  {
    var w' := Next(w, step);
    forall a: nat ensures NoMore(w, w', plan, CopyAt(base, a)) {
      QuietReaders(w, step, CopyAt(base, a));
    }
    NoMoreAtAll(w, w', plan, base);
  }

  lemma QuietReaders(w: World, step: Step, p: Payload)
    requires Enabled(w, step)
    requires step.Tick? || step.CreateScan? || step.StartWorker? || step.StopWorker? || step.AcquirePermit? || step.ReadDue?
    ensures StaleReaders(Next(w, step), p) == StaleReaders(w, p) && Next(w, step).store == w.store && Next(w, step).runs == w.runs
  {}

  lemma SubmitBudget(w: World, scan: nat, batch: seq<Payload>, plan: Plan, base: Payload)
    requires Enabled(w, Submit(scan, batch)) && IsFair(plan.tariff) && base.taskId in w.tasks
    ensures Potential(Next(w, Submit(scan, batch)), plan, base) <= Potential(w, plan, base)
  {
    var w' := Next(w, Submit(scan, batch));
    forall a: nat ensures NoMore(w, w', plan, CopyAt(base, a)) {
      SubmitNoMore(w, scan, batch, plan, CopyAt(base, a));
    }
    hide Next;
    hide NoMore;
    NoMoreAtAll(w, w', plan, base);
  }

  lemma SubmitNoMore(w: World, scan: nat, batch: seq<Payload>, plan: Plan, p: Payload)
    requires Enabled(w, Submit(scan, batch)) && p.taskId in w.tasks
    ensures NoMore(w, Next(w, Submit(scan, batch)), plan, p)
  {
    var w' := Next(w, Submit(scan, batch));
    SubmitShape(w, scan, batch, p);
    hide *;
    QueuedAfterBatch(w.store, batch, p);
    WaitingIs(w, plan, p);
    WaitingIs(w', plan, p);
    NoMoreIs(w, w', plan, p);
  }

  lemma SubmitShape(w: World, scan: nat, batch: seq<Payload>, p: Payload)
    requires Enabled(w, Submit(scan, batch)) && p.taskId in w.tasks
    ensures var w' := Next(w, Submit(scan, batch));
            && p !in batch && multiset(batch)[p] == 0
            && w'.store == PublishedBatch(w.store, batch) && w'.store.delayed == w.store.delayed && w'.runs == w.runs
            && StaleReaders(w', p) == StaleReaders(w, p)
  {}

  lemma NoMoreIs(w: World, w': World, plan: Plan, p: Payload)
    requires WaitingCopies(w', plan, p) <= WaitingCopies(w, plan, p) && w'.runs == w.runs
    ensures NoMore(w, w', plan, p)
  {}

  lemma QueuedAfterBatch(s: Store, batch: seq<Payload>, p: Payload)
    ensures Queued(PublishedBatch(s, batch))[p] == Queued(s)[p] + multiset(batch)[p]
  {
    ListMultisets(s, batch, PublishedBatch(s, batch));
  }

  // ---------------------------------------------------------------- polls

  lemma QueuedAfterPop(s: Store, l: Level, p: Payload)
    requires s.At(l) != []
    ensures Queued(s.Pop(l))[p] + Bit(p == s.At(l)[0]) == Queued(s)[p]
  {
    var s' := s.Pop(l);
    assert s.At(l) == [s.At(l)[0]] + s'.At(l);
    assert multiset(s.At(l)) == multiset{s.At(l)[0]} + multiset(s'.At(l));
    EachQueued(s, p);
    EachQueued(s', p);
  }

  lemma EachQueued(s: Store, p: Payload)
    ensures Queued(s)[p] == multiset(s.At(Critical))[p] + multiset(s.At(High))[p] + multiset(s.At(Medium))[p] + multiset(s.At(Low))[p]
  {}

  /** A run added or changed. */
  lemma RunsWith(runs: map<nat, Run>, id: nat, r: Run, p: Payload)
    ensures |OpenRuns(runs[id := r], p)| + Bit(id in runs && runs[id].payload == p && IsOpen(runs[id].stage))
         == |OpenRuns(runs, p)| + Bit(r.payload == p && IsOpen(r.stage))
    ensures |ReschedulingRuns(runs[id := r], p)| + Bit(id in runs && runs[id].payload == p && IsRescheduling(runs[id].stage))
         == |ReschedulingRuns(runs, p)| + Bit(r.payload == p && IsRescheduling(r.stage))
  {
    SameButOne(OpenRuns(runs, p), OpenRuns(runs[id := r], p), id);
    SameButOne(ReschedulingRuns(runs, p), ReschedulingRuns(runs[id := r], p), id);
  }

  lemma PollQueue(s: Store, draw: real, p: Payload)
    ensures var (s', o) := Polled(s, draw);
            Queued(s')[p] + Bit(o == Some(p)) == Queued(s)[p] && s'.delayed == s.delayed
  {
    PollTakesOneHead(s, draw);
    var (s', o) := Polled(s, draw);
    hide Polled;
    if o.Some? {
      var l: Level :| s.At(l) != [] && s.At(l)[0] == o.value && s' == s.Pop(l);
      QueuedAfterPop(s, l, p);
    }
  }

  /** A run of a copy taken from a list has started, and nothing else has changed for the copies. */
  ghost predicate TakesCopy(w: World, w': World, o: Option<Payload>, plan: Plan, p: Payload) {
    && WaitingCopies(w', plan, p) + Bit(o == Some(p)) == WaitingCopies(w, plan, p)
    && |OpenRuns(w'.runs, p)| == |OpenRuns(w.runs, p)| + Bit(o == Some(p))
    && |ReschedulingRuns(w'.runs, p)| == |ReschedulingRuns(w.runs, p)|
  }

  lemma PollTakesCopy(w: World, e: nat, draw: real, id: nat, plan: Plan, p: Payload)
    requires Enabled(w, Poll(e, draw, id))
    ensures TakesCopy(w, PollStep(w, e, draw, id), Polled(w.store, draw).1, plan, p)
  {
    PollShape(w, e, draw, id);
    PollQueue(w.store, draw, p);
    PollReaders(w, e, draw, id, p);
    StartTakesCopy(w, PollStep(w, e, draw, id), e, Polled(w.store, draw).1, id, plan, p);
  }

  lemma StartTakesCopy(w: World, w': World, e: nat, o: Option<Payload>, id: nat, plan: Plan, p: Payload)
    requires id !in w.runs && w'.runs == if o.Some? then w.runs[id := Run(e, o.value, Starting)] else w.runs
    requires Queued(w'.store)[p] + Bit(o == Some(p)) == Queued(w.store)[p] && w'.store.delayed == w.store.delayed
    requires StaleReaders(w', p) == StaleReaders(w, p)
    ensures TakesCopy(w, w', o, plan, p)
  {
    hide Queued;
    hide StaleReaders;
    if o.Some? {
      RunsWithNew(w.runs, id, Run(e, o.value, Starting), p);
    }
    hide OpenRuns;
    hide ReschedulingRuns;
  }

  lemma PollShape(w: World, e: nat, draw: real, id: nat)
    requires Enabled(w, Poll(e, draw, id))
    ensures var w', o := PollStep(w, e, draw, id), Polled(w.store, draw).1;
            id !in w.runs && w'.store == Polled(w.store, draw).0 && w'.runs == if o.Some? then w.runs[id := Run(e, o.value, Starting)] else w.runs
  {
    PollTakesOneHead(w.store, draw);
    hide Polled;
  }

  lemma WaitingIs(w: World, plan: Plan, p: Payload)
    ensures WaitingCopies(w, plan, p) == Queued(w.store)[p] + (if p in w.store.delayed then plan.copies else 0) + (if plan.stale then |StaleReaders(w, p)| else 0)
  {}

  lemma RunsWithNew(runs: map<nat, Run>, id: nat, r: Run, p: Payload)
    requires id !in runs && r.stage == Starting
    ensures |OpenRuns(runs[id := r], p)| == |OpenRuns(runs, p)| + Bit(Some(r.payload) == Some(p))
    ensures |ReschedulingRuns(runs[id := r], p)| == |ReschedulingRuns(runs, p)|
  {
    RunsWith(runs, id, r, p);
    hide OpenRuns;
    hide ReschedulingRuns;
  }

  lemma PollReaders(w: World, e: nat, draw: real, id: nat, p: Payload)
    requires Enabled(w, Poll(e, draw, id))
    ensures StaleReaders(PollStep(w, e, draw, id), p) == StaleReaders(w, p)
  {
    PollTakesOneHead(w.store, draw);
    hide Polled;
  }

  /** A copy that is taken is worth its price and what its execution is worth. */
  lemma PriceIsPaid(worth: real, onward: real, price: real, waiting: nat, open: nat, taken: nat)
    requires worth == price + onward && taken <= 1
    ensures Times(worth, waiting) + Times(onward, open + taken) + (if taken == 1 then price else 0.0)
         == Times(worth, waiting + taken) + Times(onward, open)
  {
    TimesAdds(worth, waiting, taken);
    TimesAdds(onward, open, taken);
    TimesOne(worth);
    TimesOne(onward);
  }

  lemma TakenTerm(w: World, w': World, o: Option<Payload>, plan: Plan, base: Payload, a: nat)
    requires a <= Cap(base.maxRetries) && TakesCopy(w, w', o, plan, CopyAt(base, a))
    ensures Term(w', plan, base, a) + (if o == Some(CopyAt(base, a)) then PollPrice(plan.tariff) else 0.0) == Term(w, plan, base, a)
  {
    var p, cap := CopyAt(base, a), Cap(base.maxRetries);
    var worth, onward := Worth(plan.tariff, plan.copies, cap, a), OnwardWorth(plan.tariff, plan.copies, cap, a);
    assert worth == PollPrice(plan.tariff) + onward;
    hide Worth;
    hide OnwardWorth;
    hide Readmission;
    hide WaitingCopies;
    hide OpenRuns;
    hide ReschedulingRuns;
    PriceIsPaid(worth, onward, PollPrice(plan.tariff), WaitingCopies(w', plan, p), |OpenRuns(w.runs, p)|, Bit(o == Some(p)));
  }

  lemma BitIs(b: bool)
    ensures Bit(b) == if b then 1 else 0
  {}

  lemma TermIs(w: World, plan: Plan, base: Payload, a: nat)
    ensures var cap, p := Cap(base.maxRetries), CopyAt(base, a);
            Term(w, plan, base, a) == Times(Worth(plan.tariff, plan.copies, cap, a), WaitingCopies(w, plan, p))
                                    + Times(OnwardWorth(plan.tariff, plan.copies, cap, a), |OpenRuns(w.runs, p)|)
                                    + Times(Readmission(plan.tariff, plan.copies, cap, a), |ReschedulingRuns(w.runs, p)|)
  {}

  /** A poll that takes a copy costs its price, which the copy was worth. */
  lemma PollBudget(w: World, e: nat, draw: real, id: nat, plan: Plan, base: Payload)
    requires Enabled(w, Poll(e, draw, id)) && SameOrigin(w, base) && AllKnown(w)
    requires base.taskId in w.tasks && w.tasks[base.taskId].maxRetries == base.maxRetries
    ensures Potential(PollStep(w, e, draw, id), plan, base) + Price(plan.tariff, w, Poll(e, draw, id), base.taskId)
         <= Potential(w, plan, base)
  {
    var o, cap, price := Polled(w.store, draw).1, Cap(base.maxRetries), PollPrice(plan.tariff);
    PolledIsKnown(w, draw, base);
    var at := if o.Some? then o.value.attempt else 0;
    var d := Spike(at, if PopsTask(w, Poll(e, draw, id), base.taskId) then -price else 0.0);
    forall a: nat | a <= cap ensures Term(PollStep(w, e, draw, id), plan, base, a) <= Term(w, plan, base, a) + d(a) {
      PollTakesCopy(w, e, draw, id, plan, CopyAt(base, a));
      TakenTerm(w, PollStep(w, e, draw, id), o, plan, base, a);
    }
    PotentialExceeds(w, PollStep(w, e, draw, id), plan, base, d);
    SumOfSpike(at, d(at), cap);
  }

  lemma PolledIsKnown(w: World, draw: real, base: Payload)
    requires SameOrigin(w, base) && AllKnown(w)
    requires base.taskId in w.tasks && w.tasks[base.taskId].maxRetries == base.maxRetries
    ensures var o := Polled(w.store, draw).1;
            o.Some? ==> Known(w.tasks, o.value) && IsAttemptOf(o.value, base)
                        && (o.value.taskId == base.taskId ==> o.value.attempt <= Cap(base.maxRetries))
  {
    PollTakesOneHead(w.store, draw);
    var (s', o) := Polled(w.store, draw);
    if o.Some? {
      var l: Level :| w.store.At(l) != [] && w.store.At(l)[0] == o.value && s' == w.store.Pop(l);
      assert o.value in w.store.At(l);
    }
  }

  // ---------------------------------------------------------------- work

  ghost predicate SameLoops(w: World, w': World) {
    forall e :: (e in w'.workers <==> e in w.workers) && (e in w.workers ==> w'.workers[e].loop == w.workers[e].loop)
  }

  lemma SameReaders(w: World, w': World, p: Payload)
    requires SameLoops(w, w') && (p in w'.store.delayed <==> p in w.store.delayed)
    requires p in w.store.delayed ==> w'.store.delayed[p] == w.store.delayed[p]
    ensures StaleReaders(w', p) == StaleReaders(w, p)
  {}

  /** The failed execution `r` is about to be rescheduled. */
  predicate WillReschedule(r: Run) {
    r.stage.Evaluating? && r.stage.outcome.Failure? && r.payload.attempt < r.payload.maxRetries
  }

  /** A run may end or go on, but it opens nothing. */
  predicate OpensNothing(runs: map<nat, Run>, runs': map<nat, Run>, id: nat) {
    && id in runs
    && (runs' == runs - {id}
        || (&& id in runs' && runs' == runs[id := runs'[id]] && runs'[id].payload == runs[id].payload
            && (IsOpen(runs'[id].stage) ==> IsOpen(runs[id].stage))
            && (IsRescheduling(runs'[id].stage) ==> IsRescheduling(runs[id].stage))))
  }

  lemma PlainWork(w: World, id: nat, ok: bool)
    requires Enabled(w, Work(id, ok)) && w.runs[id].payload.taskId in w.tasks
    requires !w.runs[id].stage.Scheduling? && !WillReschedule(w.runs[id])
    ensures var w' := WorkStep(w, id, ok);
            && SameLoops(w, w') && w'.store == w.store.(dlq := w'.store.dlq) && OpensNothing(w.runs, w'.runs, id)
  {
    PlainWorkOnStore(w, id, ok);
    hide WithStatus, WithResult, Evaluated, DeadLettered, Scheduled, RetryDelay;
  }

  lemma PlainWorkOnStore(w: World, id: nat, ok: bool)
    requires Enabled(w, Work(id, ok)) && w.runs[id].payload.taskId in w.tasks && !w.runs[id].stage.Scheduling?
    ensures WorkStep(w, id, ok).store == w.store.(dlq := WorkStep(w, id, ok).store.dlq)
  {
    hide WithStatus, WithResult, Evaluated, DeadLettered, Scheduled, RetryDelay;
    if w.runs[id].stage.Burying? {
      DeadLettersOnly(w.store, w.runs[id].payload, w.runs[id].stage.reason);
    }
  }

  lemma DeadLettersOnly(s: Store, p: Payload, reason: Reason)
    ensures DeadLettered(s, p, reason) == s.(dlq := DeadLettered(s, p, reason).dlq)
  {}

  lemma PlainNoMore(w: World, w': World, id: nat, plan: Plan, p: Payload)
    requires SameLoops(w, w') && w'.store == w.store.(dlq := w'.store.dlq) && OpensNothing(w.runs, w'.runs, id)
    ensures NoMore(w, w', plan, p)
  {
    assert Queued(w'.store) == Queued(w.store);
    hide Queued;
    SameReaders(w, w', p);
    hide StaleReaders;
    if w'.runs == w.runs - {id} {
      SubsetSize(OpenRuns(w'.runs, p), OpenRuns(w.runs, p));
      SubsetSize(ReschedulingRuns(w'.runs, p), ReschedulingRuns(w.runs, p));
    } else {
      RunsWith(w.runs, id, w'.runs[id], p);
    }
  }

  /** A run of another task does not touch the copies. */
  lemma OtherNoMore(w: World, id: nat, ok: bool, plan: Plan, p: Payload)
    requires Enabled(w, Work(id, ok)) && w.runs[id].payload.taskId in w.tasks && w.runs[id].payload.taskId != p.taskId
    ensures NoMore(w, WorkStep(w, id, ok), plan, p)
  {
    if w.runs[id].stage.Scheduling? {
      ScheduleShape(w, id, ok);
      ForeignNoMore(w, WorkStep(w, id, ok), id, plan, p);
    } else if WillReschedule(w.runs[id]) {
      RescheduleShape(w, id, ok);
      ForeignNoMore(w, WorkStep(w, id, ok), id, plan, p);
    } else {
      PlainWork(w, id, ok);
      PlainNoMore(w, WorkStep(w, id, ok), id, plan, p);
    }
  }

  lemma ForeignNoMore(w: World, w': World, id: nat, plan: Plan, p: Payload)
    requires SameLoops(w, w') && Queued(w'.store) == Queued(w.store)
    requires (p in w'.store.delayed <==> p in w.store.delayed) && (p in w.store.delayed ==> w'.store.delayed[p] == w.store.delayed[p])
    requires id in w.runs && id in w'.runs && w'.runs == w.runs[id := w'.runs[id]]
    requires w.runs[id].payload != p && w'.runs[id].payload != p
    ensures NoMore(w, w', plan, p)
  {
    hide Queued;
    SameReaders(w, w', p);
    RunsWith(w.runs, id, w'.runs[id], p);
  }

  /** What putting a payload into the sorted set changes. */
  lemma ScheduleShape(w: World, id: nat, ok: bool)
    requires Enabled(w, Work(id, ok)) && w.runs[id].stage.Scheduling?
    ensures var w', r := WorkStep(w, id, ok), w.runs[id];
            && SameLoops(w, w') && Queued(w'.store) == Queued(w.store)
            && w'.runs == w.runs[id := r.(stage := Releasing)]
            && r.payload in w'.store.delayed && w'.store.delayed == w.store.delayed[r.payload := w'.store.delayed[r.payload]]
  {
    hide RetryDelay;
  }

  /** What deciding on a retry changes. */
  lemma RescheduleShape(w: World, id: nat, ok: bool)
    requires Enabled(w, Work(id, ok)) && WillReschedule(w.runs[id])
    ensures var w', r := WorkStep(w, id, ok), w.runs[id];
            && SameLoops(w, w') && w'.store == w.store
            && w'.runs == w.runs[id := r.(payload := CopyAt(r.payload, r.payload.attempt + 1), stage := MarkingRetry)]
  {
    hide Evaluated;
  }

  lemma RescheduleTerm(w: World, w': World, id: nat, plan: Plan, base: Payload, a: nat)
    requires id in w.runs && WillReschedule(w.runs[id]) && a <= Cap(base.maxRetries)
    requires SameLoops(w, w') && w'.store == w.store
    requires w.runs[id].payload == CopyAt(base, w.runs[id].payload.attempt)
    requires w'.runs == w.runs[id := w.runs[id].(payload := CopyAt(w.runs[id].payload, w.runs[id].payload.attempt + 1), stage := MarkingRetry)]
    ensures var at, cap := w.runs[id].payload.attempt, Cap(base.maxRetries);
            Term(w', plan, base, a) == Term(w, plan, base, a)
              - (if a == at then OnwardWorth(plan.tariff, plan.copies, cap, a) else 0.0)
              + (if a == at + 1 then Readmission(plan.tariff, plan.copies, cap, a) else 0.0)
  {
    var p, r, cap := CopyAt(base, a), w.runs[id], Cap(base.maxRetries);
    SameReaders(w, w', p);
    RunsWith(w.runs, id, w'.runs[id], p);
    assert r.payload == p <==> a == r.payload.attempt;
    assert w'.runs[id].payload == p <==> a == r.payload.attempt + 1;
    var onward, back := OnwardWorth(plan.tariff, plan.copies, cap, a), Readmission(plan.tariff, plan.copies, cap, a);
    hide Worth;
    hide OnwardWorth;
    hide Readmission;
    hide StaleReaders;
    hide OpenRuns;
    hide ReschedulingRuns;
    hide Queued;
    TimesAdds(onward, |OpenRuns(w'.runs, p)|, Bit(a == r.payload.attempt));
    TimesAdds(back, |ReschedulingRuns(w.runs, p)|, Bit(a == r.payload.attempt + 1));
    TimesOne(onward);
    TimesOne(back);
  }

  /** A failed execution is worth the readmission of the next attempt. */
  lemma RescheduleBudget(w: World, id: nat, ok: bool, plan: Plan, base: Payload)
    requires Enabled(w, Work(id, ok)) && WillReschedule(w.runs[id]) && Known(w.tasks, w.runs[id].payload)
    requires w.runs[id].payload == CopyAt(base, w.runs[id].payload.attempt)
    ensures Potential(WorkStep(w, id, ok), plan, base) <= Potential(w, plan, base)
  {
    RescheduleShape(w, id, ok);
    assert w.runs[id].payload.attempt < Cap(base.maxRetries);
    hide *;
    RescheduledPotential(w, WorkStep(w, id, ok), id, plan, base);
  }

  lemma RescheduledPotential(w: World, w': World, id: nat, plan: Plan, base: Payload)
    requires id in w.runs && WillReschedule(w.runs[id]) && w.runs[id].payload.attempt < Cap(base.maxRetries)
    requires SameLoops(w, w') && w'.store == w.store
    requires w.runs[id].payload == CopyAt(base, w.runs[id].payload.attempt)
    requires w'.runs == w.runs[id := w.runs[id].(payload := CopyAt(w.runs[id].payload, w.runs[id].payload.attempt + 1), stage := MarkingRetry)]
    ensures Potential(w', plan, base) <= Potential(w, plan, base)
  {
    var at, cap := w.runs[id].payload.attempt, Cap(base.maxRetries);
    var back := Readmission(plan.tariff, plan.copies, cap, at + 1);
    assert OnwardWorth(plan.tariff, plan.copies, cap, at) == back;
    hide OnwardWorth;
    hide Readmission;
    hide Term;
    hide SameLoops;
    hide WillReschedule;
    var d := TwoSpikes(at, -back, at + 1, back);
    forall a: nat | a <= cap ensures Term(w', plan, base, a) <= Term(w, plan, base, a) + d(a) {
      RescheduleTerm(w, w', id, plan, base, a);
    }
    PotentialExceeds(w, w', plan, base, d);
    SumOfSpikes(at, -back, at + 1, back, cap);
  }

  /** A payload put into the sorted set again. */
  lemma ScheduledWaiting(w: World, w': World, plan: Plan, p: Payload, q: Payload)
    requires SameLoops(w, w') && Queued(w'.store) == Queued(w.store)
    requires q in w'.store.delayed && w'.store.delayed == w.store.delayed[q := w'.store.delayed[q]]
    requires plan.stale ==> |Readers(w, q)| <= plan.copies
    ensures WaitingCopies(w', plan, p) <= WaitingCopies(w, plan, p) + if p == q then plan.copies else 0
  {
    hide Queued;
    if p == q {
      assert StaleReaders(w', p) <= Readers(w, p);
      SubsetSize(StaleReaders(w', p), Readers(w, p));
      if p !in w.store.delayed {
        assert StaleReaders(w, p) == Readers(w, p);
      }
    } else {
      SameReaders(w, w', p);
    }
  }

  lemma ScheduleTerm(w: World, w': World, id: nat, plan: Plan, base: Payload, a: nat)
    requires IsFair(plan.tariff) && a <= Cap(base.maxRetries) && id in w.runs && w.runs[id].stage.Scheduling?
    requires w.runs[id].payload == CopyAt(base, w.runs[id].payload.attempt)
    requires w'.runs == w.runs[id := w.runs[id].(stage := Releasing)]
    requires WaitingCopies(w', plan, CopyAt(base, a)) <= WaitingCopies(w, plan, CopyAt(base, a)) + if CopyAt(base, a) == w.runs[id].payload then plan.copies else 0
    ensures Term(w', plan, base, a) <= Term(w, plan, base, a) - if a == w.runs[id].payload.attempt then RetryPrice(plan.tariff, a) else 0.0
  {
    var p, r, cap := CopyAt(base, a), w.runs[id], Cap(base.maxRetries);
    RunsWith(w.runs, id, w'.runs[id], p);
    assert r.payload == p <==> a == r.payload.attempt;
    var worth, back := Worth(plan.tariff, plan.copies, cap, a), Readmission(plan.tariff, plan.copies, cap, a);
    assert back == RetryPrice(plan.tariff, a) + Times(worth, plan.copies);
    WorthIsPositive(plan.tariff, plan.copies, cap, a);
    hide Worth;
    hide OnwardWorth;
    hide Readmission;
    hide OpenRuns;
    hide ReschedulingRuns;
    hide WaitingCopies;
    var more := if p == r.payload then plan.copies else 0;
    TimesGrows(worth, WaitingCopies(w', plan, p), WaitingCopies(w, plan, p) + more);
    TimesAdds(worth, WaitingCopies(w, plan, p), more);
    TimesAdds(back, |ReschedulingRuns(w'.runs, p)|, Bit(p == r.payload));
    TimesOne(worth);
    TimesOne(back);
  }

  lemma ScheduleBudget(w: World, id: nat, ok: bool, plan: Plan, base: Payload)
    requires Enabled(w, Work(id, ok)) && w.runs[id].stage.Scheduling? && Known(w.tasks, w.runs[id].payload) && Covers(plan, w, Work(id, ok))
    requires w.runs[id].payload == CopyAt(base, w.runs[id].payload.attempt)
    ensures Potential(WorkStep(w, id, ok), plan, base) + RetryPrice(plan.tariff, w.runs[id].payload.attempt) <= Potential(w, plan, base)
  {
    ScheduleShape(w, id, ok);
    var q := w.runs[id].payload;
    assert q.attempt <= Cap(base.maxRetries) && IsFair(plan.tariff) && (plan.stale ==> |Readers(w, q)| <= plan.copies);
    hide *;
    ScheduledBudget(w, WorkStep(w, id, ok), id, plan, base);
  }

  lemma ScheduledBudget(w: World, w': World, id: nat, plan: Plan, base: Payload)
    requires id in w.runs && w.runs[id].stage.Scheduling? && IsFair(plan.tariff) && w.runs[id].payload.attempt <= Cap(base.maxRetries)
    requires SameLoops(w, w') && Queued(w'.store) == Queued(w.store) && w'.runs == w.runs[id := w.runs[id].(stage := Releasing)]
    requires (var q := w.runs[id].payload; q in w'.store.delayed && w'.store.delayed == w.store.delayed[q := w'.store.delayed[q]])
    requires plan.stale ==> |Readers(w, w.runs[id].payload)| <= plan.copies
    requires w.runs[id].payload == CopyAt(base, w.runs[id].payload.attempt)
    ensures Potential(w', plan, base) + RetryPrice(plan.tariff, w.runs[id].payload.attempt) <= Potential(w, plan, base)
  {
    hide Term, WaitingCopies, Potential, Queued, SameLoops, RetryPrice, CopyAt, IsFair, SumTo;
    var at, cap := w.runs[id].payload.attempt, Cap(base.maxRetries);
    var d := Spike(at, -RetryPrice(plan.tariff, at));
    forall a: nat | a <= cap ensures Term(w', plan, base, a) <= Term(w, plan, base, a) + d(a) {
      ScheduledWaiting(w, w', plan, CopyAt(base, a), w.runs[id].payload);
      ScheduleTerm(w, w', id, plan, base, a);
    }
    PotentialExceeds(w, w', plan, base, d);
    SumOfSpike(at, -RetryPrice(plan.tariff, at), cap);
  }

  lemma WorkBudget(w: World, id: nat, ok: bool, plan: Plan, base: Payload)
    requires Enabled(w, Work(id, ok)) && AllKnown(w) && SameOrigin(w, base) && Covers(plan, w, Work(id, ok))
    ensures Potential(WorkStep(w, id, ok), plan, base) + Price(plan.tariff, w, Work(id, ok), base.taskId) <= Potential(w, plan, base)
  {
    var r := w.runs[id];
    assert Known(w.tasks, r.payload) && IsAttemptOf(r.payload, base);
    hide WorkStep;
    if r.payload.taskId == base.taskId && r.stage.Scheduling? {
      ScheduleBudget(w, id, ok, plan, base);
    } else if r.payload.taskId == base.taskId && WillReschedule(r) {
      RescheduleBudget(w, id, ok, plan, base);
    } else {
      hide NoMore;
      forall a: nat ensures NoMore(w, WorkStep(w, id, ok), plan, CopyAt(base, a)) {
        if r.payload.taskId != base.taskId {
          OtherNoMore(w, id, ok, plan, CopyAt(base, a));
        } else {
          PlainWork(w, id, ok);
          PlainNoMore(w, WorkStep(w, id, ok), id, plan, CopyAt(base, a));
        }
      }
      NoMoreAtAll(w, WorkStep(w, id, ok), plan, base);
    }
  }
}
