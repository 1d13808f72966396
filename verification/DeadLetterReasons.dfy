/** Why payloads are dead-lettered: over every run of the system a dead letter carries the reason its own run
    met, a refusal by the rate limiter or a failure of the last attempt. */
module DeadLetterReasons {
  import opened Payloads
  import opened TaskQueue
  import opened Engine
  import opened Provenance

  // ---------------------------------------------------------------- the history of one payload run

  /** Identifiers of payload runs may be used again: it is the same run from state `m` to state `n`. */
  ghost predicate LivesOn(ws: seq<World>, id: nat, m: nat, n: nat) {
    forall x :: m <= x <= n < |ws| ==> id in ws[x].runs
  }

  /** Step `m` worked on run `id` in that stage with that payload. */
  predicate WorkedAt(ws: seq<World>, steps: seq<Step>, id: nat, ok: bool, stage: Stage, p: Payload, m: nat) {
    m < |steps| && m < |ws| && steps[m] == Work(id, ok) && id in ws[m].runs && ws[m].runs[id].stage == stage && ws[m].runs[id].payload == p
  }

  /** The limiter has refused the present run `id` for payload `p`. */
  ghost predicate WasRefused(ws: seq<World>, steps: seq<Step>, id: nat, p: Payload, n: nat) {
    exists m: nat :: m < n && WorkedAt(ws, steps, id, false, Limiting, p, m) && LivesOn(ws, id, m, n)
  }

  /** The request of the present run `id` for payload `p` has failed. */
  ghost predicate WasFailed(ws: seq<World>, steps: seq<Step>, id: nat, p: Payload, n: nat) {
    exists m: nat :: m < n && WorkedAt(ws, steps, id, false, Executing, p, m) && LivesOn(ws, id, m, n)
  }

  // ---------------------------------------------------------------- what the stage remembers

  predicate RemembersRefusal(stage: Stage) {
    stage == Saving(TimedOut) || (stage.Evaluating? && stage.outcome == TimedOut) || stage == Burying(RateLimitTimeout)
  }

  predicate RemembersFailure(stage: Stage) {
    stage == Saving(Failure) || (stage.Evaluating? && stage.outcome == Failure) || stage.MarkingFailed? || stage == Burying(RetriesExhausted)
  }

  /** Runs that are about to be retried or have done their part are of no interest. */
  predicate IsBefore(stage: Stage) {
    !stage.MarkingRetry? && !stage.Scheduling? && !stage.Releasing?
  }

  ghost predicate Remembers(ws: seq<World>, steps: seq<Step>, id: nat, n: nat)
    requires n < |ws| && id in ws[n].runs
  {
    var r := ws[n].runs[id];
    IsBefore(r.stage) ==>
      && (WasRefused(ws, steps, id, r.payload, n) <==> RemembersRefusal(r.stage))
      && (WasFailed(ws, steps, id, r.payload, n) <==> RemembersFailure(r.stage))
  }

  /** One more step adds at most itself to the history of a run that lives on. */
  lemma HistoryGrows(ws: seq<World>, steps: seq<Step>, id: nat, p: Payload, n: nat)
    requires |ws| == |steps| + 1 && n < |steps| && id in ws[n].runs && id in ws[n + 1].runs
    ensures WasRefused(ws, steps, id, p, n + 1) <==> WasRefused(ws, steps, id, p, n) || WorkedAt(ws, steps, id, false, Limiting, p, n)
    ensures WasFailed(ws, steps, id, p, n + 1) <==> WasFailed(ws, steps, id, p, n) || WorkedAt(ws, steps, id, false, Executing, p, n)
  {
    forall m: nat | m <= n ensures LivesOn(ws, id, m, n + 1) <==> LivesOn(ws, id, m, n) {
      if LivesOn(ws, id, m, n + 1) {
        forall x | m <= x <= n < |ws| ensures id in ws[x].runs {}
      }
    }
    assert LivesOn(ws, id, n, n);
    hide LivesOn, WorkedAt;
  }

  lemma NewcomerHasNoHistory(ws: seq<World>, steps: seq<Step>, id: nat, p: Payload, n: nat)
    requires n + 1 < |ws| && id !in ws[n].runs
    ensures !WasRefused(ws, steps, id, p, n + 1) && !WasFailed(ws, steps, id, p, n + 1)
  {}

  /** What one step makes of a run that has not been decided on before. */
  ghost predicate StageFollows(r: Run, r': Run, decides: bool) {
    && IsBefore(r.stage) && r'.payload == r.payload
    && (RemembersRefusal(r'.stage) <==> RemembersRefusal(r.stage) || (decides && r.stage == Limiting))
    && (RemembersFailure(r'.stage) <==> RemembersFailure(r.stage) || (decides && r.stage == Executing))
  }

  /** The stages one after the other, as far as they remember. */
  lemma WorkRemembers(w: World, id: nat, ok: bool)
    requires id in w.runs && w.runs[id].engine in w.workers && id in WorkStep(w, id, ok).runs && IsBefore(WorkStep(w, id, ok).runs[id].stage)
    ensures StageFollows(w.runs[id], WorkStep(w, id, ok).runs[id], !ok)
  {
    hide WithStatus, WithResult, Evaluated, Scheduled, DeadLettered, RetryDelay;
  }

  /** Only `Work` on the run itself, or the poll that starts it, touches a run. */
  lemma StepTouches(w: World, step: Step, id: nat)
    requires Enabled(w, step) && id in Next(w, step).runs && !(step.Work? && step.run == id)
    ensures if id in w.runs then Next(w, step).runs[id] == w.runs[id] else Next(w, step).runs[id].stage == Starting
  {
    hide WithStatus, WithResult, Evaluated, Scheduled, DeadLettered, Polled, RetryDelay, SubmittedRows, PublishedBatch, Promoted, IsDueRead, FreshBatch, AfterSave;
  }

  lemma StageRemembers(w: World, step: Step, id: nat)
    requires Enabled(w, step) && id in Next(w, step).runs && IsBefore(Next(w, step).runs[id].stage)
    ensures var r' := Next(w, step).runs[id];
            if id !in w.runs then !RemembersRefusal(r'.stage) && !RemembersFailure(r'.stage)
            else StageFollows(w.runs[id], r', step == Work(id, false))
  {
    if step.Work? && step.run == id {
      WorkRemembers(w, id, step.ok);
      hide WorkStep;
    } else {
      StepTouches(w, step, id);
      hide Next;
    }
  }

  lemma {:induction false} RunsRemember(ws: seq<World>, steps: seq<Step>, id: nat, n: nat)
    requires IsRun(ws, steps) && n < |ws| && id in ws[n].runs
    ensures Remembers(ws, steps, id, n)
  {
    if n > 0 {
      assert Enabled(ws[n - 1], steps[n - 1]) && ws[n] == Next(ws[n - 1], steps[n - 1]);
      var r := ws[n].runs[id];
      if IsBefore(r.stage) {
        StageRemembers(ws[n - 1], steps[n - 1], id);
        if id in ws[n - 1].runs {
          RunsRemember(ws, steps, id, n - 1);
          HistoryGrows(ws, steps, id, r.payload, n - 1);
        } else {
          NewcomerHasNoHistory(ws, steps, id, r.payload, n - 1);
        }
      }
    }
  }

  // ---------------------------------------------------------------- dead letters

  /** Step `m` buried dead letter `d` of the list, for run `id`. */
  ghost predicate BuriedAt(ws: seq<World>, steps: seq<Step>, id: nat, letter: DeadLetter, d: nat, m: nat) {
    && (exists ok :: WorkedAt(ws, steps, id, ok, Burying(letter.reason), letter.payload, m))
    && |ws[m].store.dlq| == d
  }

  lemma DeadLettersGrow(w: World, step: Step)
    requires Enabled(w, step)
    ensures var dlq, dlq' := w.store.dlq, Next(w, step).store.dlq;
            if step.Work? && w.runs[step.run].stage.Burying?
            then dlq' == dlq + [DeadLetter(w.runs[step.run].payload, w.runs[step.run].stage.reason)]
            else dlq' == dlq
  {
    if step.Poll? {
      PollTakesOneHead(w.store, step.draw);
      hide Polled;
    }
    hide WithStatus, WithResult, Evaluated, RetryDelay, SubmittedRows;
  }

  lemma {:induction false} WhoBuried(ws: seq<World>, steps: seq<Step>, d: nat, n: nat) returns (id: nat, m: nat)
    requires IsRun(ws, steps) && n < |ws| && d < |ws[n].store.dlq|
    ensures m < n && BuriedAt(ws, steps, id, ws[n].store.dlq[d], d, m)
  {
    assert n > 0;
    var w, step := ws[n - 1], steps[n - 1];
    assert Enabled(w, step) && ws[n] == Next(w, step);
    DeadLettersGrow(w, step);
    if d < |w.store.dlq| {
      id, m := WhoBuried(ws, steps, d, n - 1);
    } else {
      id, m := step.run, n - 1;
      assert WorkedAt(ws, steps, id, step.ok, Burying(ws[n].store.dlq[d].reason), ws[n].store.dlq[d].payload, m);
    }
  }

  /** Every dead letter was appended by a run that was burying that payload.  It names the rate limit exactly
      when the limiter had refused that run, and exhausted retries exactly when the request of that run had
      failed at an attempt number that allows no other. */
  lemma ReasonsAreTrue(ws: seq<World>, steps: seq<Step>, d: nat, n: nat) returns (id: nat, m: nat)
    requires IsRun(ws, steps) && n < |ws| && d < |ws[n].store.dlq|
    ensures var letter := ws[n].store.dlq[d];
            && m < n && BuriedAt(ws, steps, id, letter, d, m)
            && (letter.reason == RateLimitTimeout <==> WasRefused(ws, steps, id, letter.payload, m))
            && (letter.reason == RetriesExhausted <==> WasFailed(ws, steps, id, letter.payload, m) && letter.payload.attempt >= letter.payload.maxRetries)
  {
    id, m := WhoBuried(ws, steps, d, n);
    RunsRemember(ws, steps, id, m);
    AttemptsStayWithinCap(ws, steps, m);
    assert FitsStage(ws[m].runs[id]);
    hide WasRefused, WasFailed, IsRun, QueueKnown, DeadKnown, ReadsKnown;
  }

  lemma {:induction false} LettersStay(ws: seq<World>, steps: seq<Step>, m: nat, n: nat)
    requires IsRun(ws, steps) && |ws| == |steps| + 1 && m <= n < |ws|
    ensures ws[m].store.dlq <= ws[n].store.dlq
  {
    hide *;
    if m < n {
      LettersStay(ws, steps, m, n - 1);
      ListGrows(ws, steps, n - 1);
    }
  }

  /** Every burial is in the list from then on, at the place it was given. */
  lemma BurialStays(ws: seq<World>, steps: seq<Step>, id: nat, ok: bool, reason: Reason, p: Payload, m: nat, n: nat)
    requires IsRun(ws, steps) && m < n < |ws| && WorkedAt(ws, steps, id, ok, Burying(reason), p, m)
    ensures var d := |ws[m].store.dlq|; d < |ws[n].store.dlq| && ws[n].store.dlq[d] == DeadLetter(p, reason)
  {
    ListGrows(ws, steps, m);
    LettersStay(ws, steps, m + 1, n);
    assert ws[m + 1].store.dlq == ws[m].store.dlq + [DeadLetter(p, reason)];
    hide *;
  }

  lemma ListGrows(ws: seq<World>, steps: seq<Step>, n: nat)
    requires IsRun(ws, steps) && n < |steps|
    ensures var w, dlq, dlq' := ws[n], ws[n].store.dlq, ws[n + 1].store.dlq;
            && (steps[n].Work? ==> steps[n].run in w.runs)
            && if steps[n].Work? && w.runs[steps[n].run].stage.Burying?
               then dlq' == dlq + [DeadLetter(w.runs[steps[n].run].payload, w.runs[steps[n].run].stage.reason)]
               else dlq' == dlq
    ensures ws[n].store.dlq <= ws[n + 1].store.dlq
  {
    assert Enabled(ws[n], steps[n]) && ws[n + 1] == Next(ws[n], steps[n]);
    DeadLettersGrow(ws[n], steps[n]);
    hide Next;
  }
}
