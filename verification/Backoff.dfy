/** No retry is early: whatever the interleaving, a payload that is polled again has been scheduled before, and
    its whole delay has passed since. */
module Backoff {
  import opened Wrappers
  import opened Payloads
  import opened TaskQueue
  import opened Engine
  import opened Provenance

  /** Step `m` scheduled payload `p` for time `score`: its delay doubles with every attempt. */
  ghost predicate SchedulesAt(ws: seq<World>, steps: seq<Step>, p: Payload, score: real, m: nat) {
    && m < |steps| && m < |ws| && steps[m].Work? && p.attempt >= 1
    && steps[m].run in ws[m].runs && ws[m].runs[steps[m].run].stage == Scheduling && ws[m].runs[steps[m].run].payload == p
    && score == ws[m].clock + ws[m].cfg.backoff * Pow2(p.attempt - 1) as real
  }

  ghost predicate WasScheduled(ws: seq<World>, steps: seq<Step>, p: Payload, score: real, n: nat) {
    exists m: nat :: m < n && SchedulesAt(ws, steps, p, score, m)
  }

  /** A first attempt, or one whose delay is over. */
  ghost predicate IsRipe(ws: seq<World>, steps: seq<Step>, p: Payload, n: nat)
    requires n < |ws|
  {
    p.attempt == 0 || exists score :: score <= ws[n].clock && WasScheduled(ws, steps, p, score, n)
  }

  /** Scores are times at which a retry was scheduled to come back; lists and reads hold ripe payloads only. */
  ghost predicate InTime(ws: seq<World>, steps: seq<Step>, n: nat)
    requires n < |ws|
  {
    var w := ws[n];
    && (forall p :: p in w.store.delayed ==> WasScheduled(ws, steps, p, w.store.delayed[p], n))
    && (forall l: Level, p :: p in w.store.At(l) ==> IsRipe(ws, steps, p, n))
    && (forall e, p :: e in w.workers && Holds(w.workers[e].loop, p) ==> IsRipe(ws, steps, p, n))
  }

  lemma StaysScheduled(ws: seq<World>, steps: seq<Step>, p: Payload, score: real, n: nat)
    requires WasScheduled(ws, steps, p, score, n)
    ensures WasScheduled(ws, steps, p, score, n + 1)
  {}

  lemma StaysRipe(ws: seq<World>, steps: seq<Step>, p: Payload, n: nat)
    requires n + 1 < |ws| && IsRipe(ws, steps, p, n) && ws[n].clock <= ws[n + 1].clock
    ensures IsRipe(ws, steps, p, n + 1)
  {
    if p.attempt > 0 {
      var score :| score <= ws[n].clock && WasScheduled(ws, steps, p, score, n);
      StaysScheduled(ws, steps, p, score, n);
    }
  }

  lemma ClockMovesOn(w: World, step: Step)
    requires Enabled(w, step)
    ensures w.clock <= Next(w, step).clock
  {}

  /** Whatever waits in a list after a step waited there before, was submitted, or was read as due. */
  lemma ListsGetOnlyRipe(w: World, step: Step, l: Level, p: Payload)
    requires Enabled(w, step) && p in Next(w, step).store.At(l)
    ensures || (exists k: Level :: p in w.store.At(k)) || p.attempt == 0
            || (step.MoveDue? && Holds(w.workers[step.worker].loop, p))
            || (step.PromoteAtOnce? && p in DueSet(w.store.delayed, w.clock))
  {
    hide OfLevel, SubmittedRows, RetryDelay, QueueOf;
    match step
    case Submit(scan, batch) =>
      if p !in w.store.At(l) { OfLevelMember(batch, l, p); }
    case MoveDue(e) =>
      if p !in w.store.At(l) { OfLevelMember(w.workers[e].loop.due, l, p); }
    case PromoteAtOnce(e, due) =>
      if p !in w.store.At(l) { OfLevelMember(due, l, p); }
    case Poll(e, draw, id) =>
      PollTakesOneHead(w.store, draw);
      hide Polled;
    case Work(id, ok) =>
      hide Evaluated, WithStatus, WithResult, AfterSave;
      assert p in w.store.At(l);
    case _ =>
  }

  /** Whatever a worker holds after a step it held before, or has just read as due. */
  lemma ReadsAreDue(w: World, step: Step, e: nat, p: Payload)
    requires Enabled(w, step) && e in Next(w, step).workers && Holds(Next(w, step).workers[e].loop, p)
    ensures (e in w.workers && Holds(w.workers[e].loop, p)) || (step.ReadDue? && p in DueSet(w.store.delayed, w.clock))
  {
    hide Polled, Evaluated, WithStatus, WithResult, AfterSave, SubmittedRows, PublishedBatch;
  }

  /** A score after a step was there before, or is the one at which this step schedules the payload. */
  lemma ScoresAreTimes(w: World, step: Step, p: Payload)
    requires Enabled(w, step) && AllKnown(w) && p in Next(w, step).store.delayed
    ensures || (p in w.store.delayed && Next(w, step).store.delayed[p] == w.store.delayed[p])
            || (step.Work? && w.runs[step.run].stage == Scheduling && w.runs[step.run].payload == p && p.attempt >= 1
                && Next(w, step).store.delayed[p] == w.clock + w.cfg.backoff * Pow2(p.attempt - 1) as real)
  {
    if step.Work? {
      assert FitsStage(w.runs[step.run]);
      if p.attempt >= 1 { RetryDelayIsPower(w.cfg.backoff, p.attempt); }
    } else if step.Poll? {
      PollTakesOneHead(w.store, step.draw);
    }
    hide Polled, Evaluated, WithStatus, WithResult, AfterSave, RetryDelay;
  }

  lemma DueIsRipe(ws: seq<World>, steps: seq<Step>, p: Payload, n: nat)
    requires n < |ws| && InTime(ws, steps, n) && p in DueSet(ws[n].store.delayed, ws[n].clock)
    ensures IsRipe(ws, steps, p, n)
  {}

  lemma ScoresStayTimes(ws: seq<World>, steps: seq<Step>, n: nat, p: Payload)
    requires n < |steps| && n + 1 < |ws| && InTime(ws, steps, n) && AllKnown(ws[n])
    requires Enabled(ws[n], steps[n]) && ws[n + 1] == Next(ws[n], steps[n]) && p in ws[n + 1].store.delayed
    ensures WasScheduled(ws, steps, p, ws[n + 1].store.delayed[p], n + 1)
  {
    var w := ws[n];
    ScoresAreTimes(w, steps[n], p);
    hide AllKnown, Next, Enabled;
    if p in w.store.delayed && ws[n + 1].store.delayed[p] == w.store.delayed[p] {
      StaysScheduled(ws, steps, p, w.store.delayed[p], n);
    } else {
      assert SchedulesAt(ws, steps, p, ws[n + 1].store.delayed[p], n);
    }
  }

  lemma StepKeepsInTime(ws: seq<World>, steps: seq<Step>, n: nat)
    requires IsRun(ws, steps) && n < |steps| && InTime(ws, steps, n) && AllKnown(ws[n])
    ensures InTime(ws, steps, n + 1)
  {
    var w, step, w' := ws[n], steps[n], ws[n + 1];
    assert Enabled(w, step) && w' == Next(w, step);
    hide AllKnown, Next, Enabled, IsRun, WasScheduled, IsRipe;
    ClockMovesOn(w, step);
    forall p | p in w'.store.delayed ensures WasScheduled(ws, steps, p, w'.store.delayed[p], n + 1) {
      ScoresStayTimes(ws, steps, n, p);
    }
    forall l: Level, p | p in w'.store.At(l) ensures IsRipe(ws, steps, p, n + 1) {
      ListsGetOnlyRipe(w, step, l, p);
      if p.attempt == 0 {
        FirstIsRipe(ws, steps, p, n + 1);
      } else {
        if p in DueSet(w.store.delayed, w.clock) { DueIsRipe(ws, steps, p, n); }
        StaysRipe(ws, steps, p, n);
      }
    }
    forall e, p | e in w'.workers && Holds(w'.workers[e].loop, p) ensures IsRipe(ws, steps, p, n + 1) {
      ReadsAreDue(w, step, e, p);
      if p in DueSet(w.store.delayed, w.clock) { DueIsRipe(ws, steps, p, n); }
      StaysRipe(ws, steps, p, n);
    }
  }

  lemma FirstIsRipe(ws: seq<World>, steps: seq<Step>, p: Payload, n: nat)
    requires n < |ws| && p.attempt == 0
    ensures IsRipe(ws, steps, p, n)
  {}

  lemma {:induction false} RunsAreInTime(ws: seq<World>, steps: seq<Step>, n: nat)
    requires IsRun(ws, steps) && n < |ws|
    ensures InTime(ws, steps, n)
  {
    if n == 0 {
      assert forall l: Level :: ws[0].store.At(l) == [];
    } else {
      RunsAreInTime(ws, steps, n - 1);
      AttemptsStayWithinCap(ws, steps, n - 1);
      StepKeepsInTime(ws, steps, n - 1);
    }
  }

  lemma PolledIsListed(s: Store, draw: real, p: Payload)
    requires Polled(s, draw).1 == Some(p)
    ensures exists l: Level :: p in s.At(l)
  {
    PollTakesOneHead(s, draw);
    hide Polled;
    var l: Level :| s.At(l) != [] && s.At(l)[0] == p;
    assert p in s.At(l);
  }

  lemma PolledIsRipe(ws: seq<World>, steps: seq<Step>, n: nat, draw: real, p: Payload)
    requires n < |ws| && InTime(ws, steps, n) && Polled(ws[n].store, draw).1 == Some(p)
    ensures IsRipe(ws, steps, p, n)
  {
    PolledIsListed(ws[n].store, draw, p);
    hide Polled, IsRipe, WasScheduled;
  }

  lemma RipeIsScheduled(ws: seq<World>, steps: seq<Step>, p: Payload, n: nat) returns (m: nat)
    requires n < |ws| && IsRipe(ws, steps, p, n) && p.attempt >= 1
    ensures m < n && m < |steps| && m < |ws| && steps[m].Work? && steps[m].run in ws[m].runs
    ensures ws[m].runs[steps[m].run].stage == Scheduling && ws[m].runs[steps[m].run].payload == p
    ensures ws[n].clock >= ws[m].clock + ws[m].cfg.backoff * Pow2(p.attempt - 1) as real
  {
    var score :| score <= ws[n].clock && WasScheduled(ws, steps, p, score, n);
    m :| m < n && SchedulesAt(ws, steps, p, score, m);
    hide Pow2;
  }

  /** A poll that takes out attempt number `k` of a task, `k` at least one, happens at least backoff times two
      to the power `k - 1` after a step that scheduled this attempt. */
  lemma NoRetryIsEarly(ws: seq<World>, steps: seq<Step>, n: nat, p: Payload) returns (m: nat)
    requires IsRun(ws, steps) && n < |steps| && steps[n].Poll? && Polled(ws[n].store, steps[n].draw).1 == Some(p) && p.attempt >= 1
    ensures m < n && steps[m].Work? && steps[m].run in ws[m].runs
    ensures ws[m].runs[steps[m].run].stage == Scheduling && ws[m].runs[steps[m].run].payload == p
    ensures ws[n].clock >= ws[m].clock + ws[m].cfg.backoff * Pow2(p.attempt - 1) as real
  {
    RunsAreInTime(ws, steps, n);
    PolledIsRipe(ws, steps, n, steps[n].draw, p);
    hide *;
    m := RipeIsScheduled(ws, steps, p, n);
  }
}
