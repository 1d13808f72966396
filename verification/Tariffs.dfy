/** What a task may still cost: a price for each execution, each retry or each second of delay, and the worth
    of a payload as the most that it and all its later attempts can cost when each rescheduled payload is put
    back into the lists by at most `copies` workers. */
module Tariffs {
  import opened Engine

  datatype Tariff = PerExecution | PerRetry | PerDelay(backoff: real)

  predicate IsFair(tf: Tariff) {
    tf.PerDelay? ==> tf.backoff > 0.0
  }

  function PollPrice(tf: Tariff): real {
    if tf.PerExecution? then 1.0 else 0.0
  }

  /** The price of rescheduling for attempt number `a`. */
  function RetryPrice(tf: Tariff, a: nat): real {
    match tf
    case PerExecution => 0.0
    case PerRetry => 1.0
    case PerDelay(backoff) => RetryDelay(backoff, a)
  }

  function Times(price: real, n: nat): real {
    price * n as real
  }

  /** The worth of a payload in a list, at attempt `a` of at most `cap`. */
  function Worth(tf: Tariff, copies: nat, cap: nat, a: nat): real
    decreases if a <= cap then cap - a else 0, 2
  {
    if a > cap then 0.0 else PollPrice(tf) + OnwardWorth(tf, copies, cap, a)
  }

  /** The worth of an execution whose result is not decided. */
  function OnwardWorth(tf: Tariff, copies: nat, cap: nat, a: nat): real
    decreases if a <= cap then cap - a else 0, 1
  {
    if a < cap then Readmission(tf, copies, cap, a + 1) else 0.0
  }

  /** The worth of a payload about to be rescheduled for attempt `a`. */
  function Readmission(tf: Tariff, copies: nat, cap: nat, a: nat): real
    decreases if a <= cap then cap - a else 0, 3
  {
    RetryPrice(tf, a) + Times(Worth(tf, copies, cap, a), copies)
  }

  lemma TimesAdds(price: real, m: nat, n: nat)
    ensures Times(price, m + n) == Times(price, m) + Times(price, n)
  {
    assert (m + n) as real == m as real + n as real;
  }

  lemma TimesGrows(price: real, m: nat, n: nat)
    requires price >= 0.0 && m <= n
    ensures 0.0 <= Times(price, m) <= Times(price, n)
  {
    assert price * n as real - price * m as real == price * (n - m) as real;
  }

  lemma TimesOne(price: real)
    ensures Times(price, 0) == 0.0 && Times(price, 1) == price
  {}

  /** No payload has a negative worth, and no attempt is worth more than the one before it. */
  lemma {:induction false} WorthFalls(tf: Tariff, copies: nat, cap: nat, a: nat)
    requires IsFair(tf) && copies >= 1
    ensures 0.0 <= Worth(tf, copies, cap, a) <= Worth(tf, copies, cap, 0)
    ensures 0.0 <= OnwardWorth(tf, copies, cap, a) && 0.0 <= Readmission(tf, copies, cap, a)
    decreases if a <= cap then cap - a else 0, 1
  {
    WorthIsPositive(tf, copies, cap, a);
    WorthFallsTo(tf, copies, cap, a);
  }

  lemma {:induction false} WorthIsPositive(tf: Tariff, copies: nat, cap: nat, a: nat)
    requires IsFair(tf)
    ensures 0.0 <= Worth(tf, copies, cap, a) && 0.0 <= OnwardWorth(tf, copies, cap, a) && 0.0 <= Readmission(tf, copies, cap, a)
    decreases if a <= cap then cap - a else 0
  {
    if a < cap {
      WorthIsPositive(tf, copies, cap, a + 1);
    }
    if tf.PerDelay? {
      DelayIsPositive(tf.backoff, a);
    }
    assert OnwardWorth(tf, copies, cap, a) >= 0.0;
    assert Worth(tf, copies, cap, a) >= 0.0;
    TimesGrows(Worth(tf, copies, cap, a), 0, copies);
  }

  lemma {:induction false} WorthFallsTo(tf: Tariff, copies: nat, cap: nat, a: nat)
    requires IsFair(tf) && copies >= 1
    ensures Worth(tf, copies, cap, a) <= Worth(tf, copies, cap, 0)
    decreases a
  {
    WorthIsPositive(tf, copies, cap, 0);
    if 0 < a <= cap {
      WorthFallsTo(tf, copies, cap, a - 1);
      WorthIsPositive(tf, copies, cap, a);
      if tf.PerDelay? {
        DelayIsPositive(tf.backoff, a);
      }
      TimesGrows(Worth(tf, copies, cap, a), 1, copies);
      TimesOne(Worth(tf, copies, cap, a));
    }
  }

  // ---------------------------------------------------------------- closed forms

  /** 1 + k + k^2 + ... with n terms. */
  function Geometric(k: nat, n: nat): nat {
    if n == 0 then 0 else 1 + k * Geometric(k, n - 1)
  }

  lemma {:induction false} GeometricOfOne(n: nat)
    ensures Geometric(1, n) == n
  {
    if n > 0 {
      GeometricOfOne(n - 1);
    }
  }

  lemma {:induction false} ExecutionWorth(copies: nat, cap: nat, a: nat)
    requires a <= cap
    ensures Worth(PerExecution, copies, cap, a) == Geometric(copies, cap - a + 1) as real
    decreases cap - a
  {
    if a < cap {
      ExecutionWorth(copies, cap, a + 1);
      ProductAsReal(copies, Geometric(copies, cap - a));
      Unfolds(PerExecution, copies, cap, a);
    } else {
      assert copies * Geometric(copies, 0) == 0;
    }
  }

  lemma {:induction false} RetryWorth(copies: nat, cap: nat, a: nat)
    requires a <= cap
    ensures Worth(PerRetry, copies, cap, a) == Geometric(copies, cap - a) as real
    decreases cap - a
  {
    if a < cap {
      RetryWorth(copies, cap, a + 1);
      ProductAsReal(copies, Geometric(copies, cap - a - 1));
      Unfolds(PerRetry, copies, cap, a);
    }
  }

  /** Each attempt is rescheduled `copies` times as often as the one before and delayed twice as long. */
  lemma {:induction false} DelayWorth(backoff: real, copies: nat, cap: nat, a: nat)
    requires a <= cap
    ensures Worth(PerDelay(backoff), copies, cap, a) == Times(RetryDelay(backoff, a + 1), Geometric(2 * copies, cap - a))
    decreases cap - a
  {
    if a < cap {
      DelayWorth(backoff, copies, cap, a + 1);
      Unfolds(PerDelay(backoff), copies, cap, a);
      DoubledTerm(RetryDelay(backoff, a + 1), copies, Geometric(2 * copies, cap - a - 1));
    }
  }

  lemma DoubledTerm(delay: real, copies: nat, n: nat)
    ensures Times(delay, 1 + 2 * copies * n) == delay + Times(Times(2.0 * delay, n), copies)
  {
    assert (1 + 2 * copies * n) as real == 1.0 + 2.0 * (n as real * copies as real);
    assert delay * (2.0 * (n as real * copies as real)) == 2.0 * delay * n as real * copies as real;
  }

  lemma Unfolds(tf: Tariff, copies: nat, cap: nat, a: nat)
    requires a < cap
    ensures Worth(tf, copies, cap, a) == PollPrice(tf) + RetryPrice(tf, a + 1) + Times(Worth(tf, copies, cap, a + 1), copies)
  {
    assert OnwardWorth(tf, copies, cap, a) == Readmission(tf, copies, cap, a + 1);
  }

  lemma ProductAsReal(k: nat, n: nat)
    ensures (1 + k * n) as real == 1.0 + Times(n as real, k)
  {
    assert (k * n) as real == k as real * n as real;
  }

  // ---------------------------------------------------------------- sums over attempts

  function SumTo(f: nat -> real, n: nat): real {
    f(n) + if n == 0 then 0.0 else SumTo(f, n - 1)
  }

  /** `f` exceeds `g` by at most `d` everywhere, so in sum. */
  lemma {:induction false} SumExceeds(f: nat -> real, g: nat -> real, d: nat -> real, n: nat)
    requires forall a: nat :: a <= n ==> f(a) <= g(a) + d(a)
    ensures SumTo(f, n) <= SumTo(g, n) + SumTo(d, n)
  {
    if n > 0 {
      SumExceeds(f, g, d, n - 1);
    }
  }

  function Spike(at: nat, x: real): nat -> real {
    (a: nat) => if a == at then x else 0.0
  }

  lemma {:induction false} SumOfSpike(at: nat, x: real, n: nat)
    ensures SumTo(Spike(at, x), n) == if at <= n then x else 0.0
  {
    if n > 0 {
      SumOfSpike(at, x, n - 1);
    }
  }

  function TwoSpikes(at: nat, x: real, also: nat, y: real): nat -> real {
    (a: nat) => (if a == at then x else 0.0) + (if a == also then y else 0.0)
  }

  lemma {:induction false} SumOfSpikes(at: nat, x: real, also: nat, y: real, n: nat)
    ensures SumTo(TwoSpikes(at, x, also, y), n) == (if at <= n then x else 0.0) + (if also <= n then y else 0.0)
  {
    if n > 0 {
      SumOfSpikes(at, x, also, y, n - 1);
    }
  }

  function Nothing(): nat -> real {
    (a: nat) => 0.0
  }

  lemma {:induction false} SumOfNothing(n: nat)
    ensures SumTo(Nothing(), n) == 0.0
  {
    if n > 0 {
      SumOfNothing(n - 1);
    }
  }

  /** A sum with no negative terms is not negative. */
  lemma {:induction false} SumIsPositive(f: nat -> real, n: nat)
    requires forall a: nat :: a <= n ==> f(a) >= 0.0
    ensures SumTo(f, n) >= 0.0
  {
    if n > 0 {
      SumIsPositive(f, n - 1);
    }
  }
}
