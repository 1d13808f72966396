/** What a pool of at most `k` workers at a time can make a task cost, exactly: the bounds of `RetryBounds` are
    the least ones, so that the limit on retries is kept if and only if there is one worker or nothing to
    duplicate. */
module RetryLimits {
  import opened Engine
  import opened Provenance
  import opened Retries
  import opened Tariffs
  import opened RetryBounds
  import opened PoolSizes
  import opened ReachedBounds
  import DuplicateRuns

  // ---------------------------------------------------------------- the least bounds

  /** A run of such a pool, and a task in it that may be retried `m` times. */
  ghost predicate IsCase(ws: seq<World>, steps: seq<Step>, t: nat, k: nat, m: nat) {
    IsRun(ws, steps) && PoolWithin(ws, |steps|, k) && t in ws[|steps|].tasks && Cap(ws[|steps|].tasks[t].maxRetries) == m
  }

  /** In every run with at most `k` workers at a time, a task that may be retried `m` times is executed at most
      `bound` times ... */
  ghost predicate ExecutesWithin(k: nat, m: nat, bound: nat) {
    forall ws: seq<World>, steps: seq<Step>, t: nat :: IsCase(ws, steps, t, k, m) ==> Executions(ws, steps, t, |steps|) <= bound
  }

  /** ... rescheduled at most that often ... */
  ghost predicate ReschedulesWithin(k: nat, m: nat, bound: nat) {
    forall ws: seq<World>, steps: seq<Step>, t: nat :: IsCase(ws, steps, t, k, m) ==> RetriesScheduled(ws, steps, t, |steps|) <= bound
  }

  /** ... or delayed by at most that many times the backoff. */
  ghost predicate DelaysWithin(k: nat, m: nat, bound: nat) {
    forall ws: seq<World>, steps: seq<Step>, t: nat :: IsCase(ws, steps, t, k, m) ==>
      TotalDelay(ws, steps, t, |steps|) <= Times(ws[0].cfg.backoff, bound)
  }

  /** For each cost a run, never crowded, in which it is as high as it can be. */
  lemma CostsAreReached(tf: Tariff, k: nat, m: nat) returns (ws: seq<World>, steps: seq<Step>)
    requires k >= 1 && (tf.PerDelay? ==> tf.backoff == 1.0)
    ensures IsCase(ws, steps, 0, k, m) && NeverCrowded(ws, steps) && |ws| == |steps| + 1
    ensures match tf
            case PerExecution => Executions(ws, steps, 0, |steps|) == Geometric(k, m + 1)
            case PerRetry => RetriesScheduled(ws, steps, 0, |steps|) == Geometric(k, m)
            case PerDelay(_) => ws[0].cfg.backoff == 1.0 && TotalDelay(ws, steps, 0, |steps|) == Times(1.0, Geometric(2 * k, m))
  {
    ws, steps := WorthIsReached(tf, 1.0, m, k);
    assert IsCase(ws, steps, 0, k, m);
    hide *;
    RunShape(ws, steps);
    FreshWorth(1.0, k, m);
    match tf
    case PerExecution => SpentOnExecutions(ws, steps, 0, |steps|);
    case PerRetry => SpentOnRetries(ws, steps, 0, |steps|);
    case PerDelay(_) => SpentOnDelay(ws, steps, 0, |steps|);
  }

  lemma CaseCosts(ws: seq<World>, steps: seq<Step>, t: nat, k: nat, m: nat)
    requires IsCase(ws, steps, t, k, m) && k >= 1
    ensures |ws| == |steps| + 1
    ensures Executions(ws, steps, t, |steps|) <= Geometric(k, m + 1) && RetriesScheduled(ws, steps, t, |steps|) <= Geometric(k, m)
    ensures TotalDelay(ws, steps, t, |steps|) <= Times(ws[0].cfg.backoff, Geometric(2 * k, m)) && 0.0 <= ws[0].cfg.backoff
  {
    CostsPerWorker(ws, steps, t, |steps|, k);
    RunShape(ws, steps);
  }

  /** The bounds by workers are the least ones. */
  lemma LeastBounds(k: nat, m: nat, bound: nat)
    requires k >= 1
    ensures ExecutesWithin(k, m, bound) <==> Geometric(k, m + 1) <= bound
    ensures ReschedulesWithin(k, m, bound) <==> Geometric(k, m) <= bound
    ensures DelaysWithin(k, m, bound) <==> Geometric(2 * k, m) <= bound
  {
    hide Geometric, IsCase, Executions, RetriesScheduled, TotalDelay;
    var ws1, steps1 := CostsAreReached(PerExecution, k, m);
    var ws2, steps2 := CostsAreReached(PerRetry, k, m);
    var ws3, steps3 := CostsAreReached(PerDelay(1.0), k, m);
    forall ws: seq<World>, steps: seq<Step>, t: nat | IsCase(ws, steps, t, k, m)
      ensures |ws| == |steps| + 1 && Executions(ws, steps, t, |steps|) <= Geometric(k, m + 1) && RetriesScheduled(ws, steps, t, |steps|) <= Geometric(k, m)
      ensures Geometric(2 * k, m) <= bound ==> TotalDelay(ws, steps, t, |steps|) <= Times(ws[0].cfg.backoff, bound)
    {
      CaseCosts(ws, steps, t, k, m);
      if Geometric(2 * k, m) <= bound {
        TimesGrows(ws[0].cfg.backoff, Geometric(2 * k, m), bound);
      }
    }
  }

  // ---------------------------------------------------------------- when the limit on retries is kept

  lemma {:induction false} GeometricGrows(j: nat, k: nat, n: nat)
    requires j <= k
    ensures Geometric(j, n) <= Geometric(k, n)
  {
    if n > 0 {
      GeometricGrows(j, k, n - 1);
      ProductGrows(j, k, Geometric(j, n - 1), Geometric(k, n - 1));
    }
  }

  lemma ProductGrows(a: nat, b: nat, c: nat, d: nat)
    requires a <= b && c <= d
    ensures a * c <= b * d
  {
    assert b * d - a * c == (b - a) * d + a * (d - c);
  }

  /** From the second term on, more than one copy each makes more than one each. */
  lemma {:induction false} GeometricExceeds(k: nat, n: nat)
    requires k >= 2 && n >= 2
    ensures Geometric(k, n) > n
  {
    if n == 2 {
      assert Geometric(k, 1) == 1 + k * Geometric(k, 0) == 1;
    } else {
      GeometricExceeds(k, n - 1);
      ProductGrows(2, k, n, Geometric(k, n - 1));
    }
  }

  lemma {:induction false} DelaysExceed(k: nat, n: nat)
    requires k >= 2 && n >= 2
    ensures Geometric(2 * k, n) > Geometric(2, n)
  {
    GeometricGrows(2, 2 * k, n - 1);
    ProductGrows(4, 2 * k, Geometric(2, n - 1), Geometric(2 * k, n - 1));
  }

  lemma FirstTerms(k: nat)
    ensures Geometric(k, 0) == 0 && Geometric(k, 1) == 1
  {
    assert k * Geometric(k, 0) == 0;
  }

  /** Which of the least bounds are within the limit. */
  lemma WithinLimit(k: nat, m: nat)
    requires k >= 1
    ensures Geometric(k, m + 1) <= m + 1 <==> k == 1 || m == 0
    ensures Geometric(k, m) <= m <==> k == 1 || m <= 1
    ensures Geometric(2 * k, m) <= Geometric(2, m) <==> k == 1 || m <= 1
  {
    hide *;
    FirstTerms(k);
    FirstTerms(2 * k);
    FirstTerms(2);
    if k == 1 {
      GeometricOfOne(m + 1);
      GeometricOfOne(m);
    } else {
      if m >= 1 {
        GeometricExceeds(k, m + 1);
      }
      if m >= 2 {
        GeometricExceeds(k, m);
        DelaysExceed(k, m);
      }
    }
  }

  /** What holds with at most one worker holds with none. */
  lemma NoneIsFewer(m: nat, bound: nat)
    ensures ExecutesWithin(1, m, bound) ==> ExecutesWithin(0, m, bound)
    ensures ReschedulesWithin(1, m, bound) ==> ReschedulesWithin(0, m, bound)
    ensures DelaysWithin(1, m, bound) ==> DelaysWithin(0, m, bound)
  {
    assert forall ws: seq<World>, n: nat :: PoolWithin(ws, n, 0) ==> PoolWithin(ws, n, 1);
    hide PoolWithin;
    assert forall ws: seq<World>, steps: seq<Step>, t: nat :: IsCase(ws, steps, t, 0, m) ==> IsCase(ws, steps, t, 1, m);
    hide IsCase;
  }

  /** A pool of at most `k` workers at a time keeps the limit of `m` retries, in all runs and for all tasks: at
      most m + 1 executions exactly when there is at most one worker or no retry to duplicate, and at most m
      retries, and the delay of m retries, exactly when there is at most one worker or no retry of a retry. */
  lemma RetryLimitIff(k: nat, m: nat)
    ensures ExecutesWithin(k, m, m + 1) <==> k <= 1 || m == 0
    ensures ReschedulesWithin(k, m, m) <==> k <= 1 || m <= 1
    ensures DelaysWithin(k, m, Geometric(2, m)) <==> k <= 1 || m <= 1
  {
    hide *;
    var j := if k == 0 then 1 else k;
    LeastBounds(j, m, m + 1);
    LeastBounds(j, m, m);
    LeastBounds(j, m, Geometric(2, m));
    WithinLimit(j, m);
    NoneIsFewer(m, m + 1);
    NoneIsFewer(m, m);
    NoneIsFewer(m, Geometric(2, m));
  }

  /** The smallest case: two workers execute a task three times that may be retried once. */
  lemma TwoWorkersReachBound() returns (ws: seq<World>, steps: seq<Step>)
    ensures IsRun(ws, steps) && NeverCrowded(ws, steps) && |ws[|steps|].workers| == 2 && 0 in ws[|steps|].tasks
    ensures Cap(ws[|steps|].tasks[0].maxRetries) == 1 && Executions(ws, steps, 0, |steps|) == 3 == Geometric(2, 2)
  {
    ws, steps := DuplicateRuns.CompletedWithFailedTask();
    assert |ws[|steps|].workers| == |ws[|steps|].workers.Keys| == |{0, 1}| == 2;
    ExecutionsAreCounted(ws, steps, 0, |steps|);
    assert UnsavedOf(ws[|steps|].runs, 0) == {};
  }

  // ---------------------------------------------------------------- attempt numbers

  lemma LimitStays(ws: seq<World>, steps: seq<Step>, t: nat, n: nat)
    requires IsRun(ws, steps) && n + 1 < |ws| && t in ws[n].tasks
    ensures t in ws[n + 1].tasks && ws[n + 1].tasks[t].maxRetries == ws[n].tasks[t].maxRetries
  {
    StepEvolvesRows(ws[n], steps[n]);
    hide Enabled, Next;
  }

  lemma {:induction false} LimitIsFixed(ws: seq<World>, steps: seq<Step>, t: nat, i: nat, n: nat)
    requires IsRun(ws, steps) && i <= n < |ws| && t in ws[i].tasks
    ensures t in ws[n].tasks && ws[n].tasks[t].maxRetries == ws[i].tasks[t].maxRetries
    decreases n
  {
    hide *;
    if i < n {
      LimitIsFixed(ws, steps, t, i, n - 1);
      LimitStays(ws, steps, t, n - 1);
    }
  }

  /** A payload that is rescheduled carries an attempt number between one and the limit. */
  lemma NumberIsAllowed(ws: seq<World>, steps: seq<Step>, t: nat, i: nat)
    requires IsRun(ws, steps) && i < |steps| && SchedulesTask(ws[i], steps[i], t)
    ensures t in ws[i].tasks && 1 <= ws[i].runs[steps[i].run].payload.attempt <= Cap(ws[i].tasks[t].maxRetries)
  {
    AttemptsStayWithinCap(ws, steps, i);
    assert Known(ws[i].tasks, ws[i].runs[steps[i].run].payload);
  }

  /** The step at which a number of retries is exceeded. */
  lemma {:induction false} RetryAfter(ws: seq<World>, steps: seq<Step>, t: nat, n: nat, r: nat) returns (i: nat)
    requires |ws| == |steps| + 1 && n <= |steps| && RetriesScheduled(ws, steps, t, n) > r
    ensures i < n && SchedulesTask(ws[i], steps[i], t) && RetriesScheduled(ws, steps, t, i) == r
  {
    if RetriesScheduled(ws, steps, t, n - 1) > r {
      i := RetryAfter(ws, steps, t, n - 1, r);
    } else {
      i := n - 1;
    }
  }

  /** Every retry of the task carries its own number: the first is attempt 1, the second attempt 2, and so on. */
  ghost predicate IsNumbered(ws: seq<World>, steps: seq<Step>, t: nat) {
    |ws| == |steps| + 1 && forall i :: 0 <= i < |steps| && SchedulesTask(ws[i], steps[i], t) ==>
      ws[i].runs[steps[i].run].payload.attempt == RetriesScheduled(ws, steps, t, i) + 1
  }

  ghost predicate NumbersRetries(k: nat, m: nat) {
    forall ws: seq<World>, steps: seq<Step>, t: nat :: IsCase(ws, steps, t, k, m) && NeverCrowded(ws, steps) ==> IsNumbered(ws, steps, t)
  }

  lemma OneWorkerNumbers(ws: seq<World>, steps: seq<Step>, t: nat)
    requires IsRun(ws, steps) && NeverCrowded(ws, steps) && PoolWithin(ws, |steps|, 1)
    ensures IsNumbered(ws, steps, t)
  {
    OneWorkerIsIntact(ws, steps);
    forall i | 0 <= i < |steps| && SchedulesTask(ws[i], steps[i], t)
      ensures ws[i].runs[steps[i].run].payload.attempt == RetriesScheduled(ws, steps, t, i) + 1
    {
      RetryNumberInRun(ws, steps, t, i);
    }
  }

  lemma OneRetryNumbers(ws: seq<World>, steps: seq<Step>, t: nat, k: nat, m: nat)
    requires IsCase(ws, steps, t, k, m) && k >= 1 && m <= 1
    ensures IsNumbered(ws, steps, t)
  {
    FirstTerms(k);
    forall i | 0 <= i < |steps| && SchedulesTask(ws[i], steps[i], t)
      ensures ws[i].runs[steps[i].run].payload.attempt == RetriesScheduled(ws, steps, t, i) + 1
    {
      NumberIsAllowed(ws, steps, t, i);
      LimitIsFixed(ws, steps, t, i, |steps|);
      LimitIsFixed(ws, steps, t, i, i + 1);
      CostsPerWorker(ws, steps, t, i + 1, k);
    }
  }

  /** The third retry of a task that may be retried twice cannot carry its own number. */
  lemma NumbersRunOut(k: nat, m: nat) returns (ws: seq<World>, steps: seq<Step>)
    requires k >= 2 && m >= 2
    ensures IsCase(ws, steps, 0, k, m) && NeverCrowded(ws, steps) && !IsNumbered(ws, steps, 0)
  {
    ws, steps := CostsAreReached(PerRetry, k, m);
    GeometricExceeds(k, m);
    var i := RetryAfter(ws, steps, 0, |steps|, m);
    NumberIsAllowed(ws, steps, 0, i);
    LimitIsFixed(ws, steps, 0, i, |steps|);
  }

  /** In all never crowded runs of a pool every retry carries its own number exactly when there is at most one
      worker at a time, or no retry of a retry. */
  lemma RetryNumberIff(k: nat, m: nat)
    ensures NumbersRetries(k, m) <==> k <= 1 || m <= 1
  {
    if k <= 1 || m <= 1 {
      forall ws: seq<World>, steps: seq<Step>, t: nat | IsCase(ws, steps, t, k, m) && NeverCrowded(ws, steps) ensures IsNumbered(ws, steps, t) {
        if k <= 1 {
          OneWorkerNumbers(ws, steps, t);
        } else {
          OneRetryNumbers(ws, steps, t, k, m);
        }
      }
    } else {
      var ws, steps := NumbersRunOut(k, m);
    }
  }
}
