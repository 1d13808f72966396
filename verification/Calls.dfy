/** A whole call of the limiter is a run of the shared system: it arrives, charges bucket after bucket while the
    clock moves on, starts over after a denial, and is admitted exactly when it is answered with true. */
module Calls {
  import opened TokenBucket
  import opened SharedBuckets
  import opened Admission
  import opened RateLimiter

  /** The backend holds what the system holds; a hash past its expiry is as good as none. */
  ghost predicate AgreesOn(s: System, b: Backend, name: BucketName) {
    if s.local then KeyOf(s, name).InProcess? && KeyOf(s, name).entry.bucket == Lookup(b.buckets, name)
    else KeyOf(s, name).InRedis? && KeyOf(s, name).key.hash == Unexpired(Lookup(b.hashes, name), s.clock)
  }

  ghost predicate Agrees(s: System, b: Backend) {
    ValidKeys(s) && ValidHashes(b.hashes) && b.scripting == !s.local && forall name :: AgreesOn(s, b, name)
  }

  /** `ss` are the states and `steps` the steps between them; nobody but call `c` moves. */
  ghost predicate IsPartOf(ss: seq<System>, steps: seq<Step>, c: nat) {
    && |ss| == |steps| + 1
    && forall i :: 0 <= i < |steps| ==> IsReady(ss[i], steps[i]) && ss[i + 1] == Next(ss[i], steps[i]) && IsOf(steps[i], c)
  }

  predicate IsOf(step: Step, c: nat) {
    match step
    case Advance(_) => true
    case Arrive(d, _, _) => d == c
    case Charging(d) => d == c
    case GiveUp(d) => d == c
    case _ => false
  }

  lemma Joined(ss: seq<System>, steps: seq<Step>, ts: seq<System>, more: seq<Step>, c: nat)
    requires IsPartOf(ss, steps, c) && IsPartOf(ts, more, c) && ss[|steps|] == ts[0]
    ensures var us := ss + ts[1..];
            |us| == |steps + more| + 1 && IsPartOf(us, steps + more, c) && us[0] == ss[0] && us[|steps + more|] == ts[|more|]
  {
    var us, all := ss + ts[1..], steps + more;
    forall i | 0 <= i < |all| ensures IsReady(us[i], all[i]) && us[i + 1] == Next(us[i], all[i]) && IsOf(all[i], c) {
      if i >= |steps| {
        assert all[i] == more[i - |steps|];
        assert us[i] == ts[i - |steps|];
      }
    }
  }

  /** One step of call `c`. */
  lemma Single(s: System, step: Step, c: nat)
    requires IsReady(s, step) && IsOf(step, c)
    ensures IsPartOf([s, Next(s, step)], [step], c)
  {}

  lemma AdvanceAgrees(s: System, b: Backend, to: real)
    requires Agrees(s, b) && s.clock <= to
    ensures IsReady(s, Advance(to)) && Agrees(Next(s, Advance(to)), b)
  {
    var s' := Next(s, Advance(to));
    KeysStayValid(s, Advance(to));
    forall name ensures AgreesOn(s', b, name) {
      assert AgreesOn(s, b, name);
    }
    hide AgreesOn;
  }

  /** One ask and one charge: the same answer, and what they leave agrees again. */
  lemma ChargeAgrees(s: System, b: Backend, c: nat)
    requires Agrees(s, b) && IsReady(s, Charging(c))
    ensures var name, s' := s.attempts[c].buckets[s.attempts[c].charged], Next(s, Charging(c));
            var (b', granted) := Asked(b, name, RateOf(s.limits, name), 1.0, s.clock);
            && Agrees(s', b')
            && (granted <==> s'.passes == s.passes)
  {
    var name, s' := s.attempts[c].buckets[s.attempts[c].charged], Next(s, Charging(c));
    var rate := RateOf(s.limits, name);
    var (b', granted) := Asked(b, name, rate, 1.0, s.clock);
    KeysStayValid(s, Charging(c));
    KeyIsValid(s, name);
    AskedKeepsValid(b, name, rate, 1.0, s.clock);
    assert AgreesOn(s, b, name);
    assert s'.keys == s.keys[name := Ask(KeyOf(s, name), rate).0] && s'.clock == s.clock && s'.local == s.local;
    assert granted == Ask(KeyOf(s, name), rate).1;
    assert KeyOf(s', name) == Ask(KeyOf(s, name), rate).0 && IsInPlace(s', name);
    forall other ensures AgreesOn(s', b', other) {
      assert AgreesOn(s, b, other);
      if other != name {
        OthersStay(b, name, other, rate, 1.0, s.clock);
        assert KeyOf(s', other) == KeyOf(s, other);
        hide Asked, KeyOf;
      } else {
        hide LuaAcquire, LocalAcquire, KeyOf;
      }
    }
    hide AgreesOn, Asked;
  }

  // ---------------------------------------------------------------- one pass

  /** Call `c` has charged the first `i` of its buckets, in a pass begun after `first` others. */
  predicate IsUnderWay(s: System, c: nat, names: seq<BucketName>, i: nat, first: nat) {
    && c in s.attempts && s.attempts[c].buckets == names && s.attempts[c].charged == i
    && first <= s.attempts[c].pass && first <= s.passes
  }

  /** The call has ended with the admission of `a`, in a pass begun after `first` others. */
  ghost predicate AdmitsAs(s: System, s': System, c: nat, names: seq<BucketName>, first: nat, a: Attempt) {
    a.buckets == names && first <= a.pass && s'.attempts == s.attempts - {c} && s'.admitted == s.admitted + {a}
  }

  ghost predicate IsAdmitted(s: System, s': System, c: nat, names: seq<BucketName>, first: nat) {
    exists a :: AdmitsAs(s, s', c, names, first, a)
  }

  /** The call has charged one bucket and goes on with its pass. */
  ghost predicate GoesOn(s: System, s': System, c: nat, names: seq<BucketName>, i: nat, first: nat) {
    IsUnderWay(s', c, names, i, first) && s'.attempts - {c} == s.attempts - {c} && s'.admitted == s.admitted
  }

  /** The ends of a pass in which `n` buckets have granted. */
  ghost predicate PassEnds(s: System, s': System, c: nat, names: seq<BucketName>, n: nat, first: nat) {
    if n < |names| then GoesOn(s, s', c, names, 0, first) else IsAdmitted(s, s', c, names, first)
  }

  lemma EndsFrom(s: System, t: System, s': System, c: nat, names: seq<BucketName>, n: nat, first: nat)
    requires t.attempts - {c} == s.attempts - {c} && t.admitted == s.admitted && PassEnds(t, s', c, names, n, first)
    ensures PassEnds(s, s', c, names, n, first)
  {
    if n >= |names| {
      var a :| AdmitsAs(t, s', c, names, first, a);
      assert AdmitsAs(s, s', c, names, first, a);
    }
  }

  /** The state in which the next bucket is asked, and the one it leaves. */
  lemma ChargeGoesOn(s: System, c: nat, names: seq<BucketName>, i: nat, first: nat)
    requires IsReady(s, Charging(c)) && IsUnderWay(s, c, names, i, first) && i < |names|
    ensures var s' := Next(s, Charging(c));
            && s'.limits == s.limits && s'.clock == s.clock && s'.local == s.local
            && if s'.passes != s.passes then PassEnds(s, s', c, names, i, first)
               else if i + 1 < |names| then GoesOn(s, s', c, names, i + 1, first)
               else PassEnds(s, s', c, names, |names|, first)
  {
    var s' := Next(s, Charging(c));
    hide Ask, KeyOf;
    if s'.passes == s.passes && i + 1 == |names| {
      assert AdmitsAs(s, s', c, names, first, s.attempts[c]);
    }
  }

  /** Time moves on, and the call asks its next bucket. */
  lemma AskAgrees(s: System, b: Backend, c: nat, names: seq<BucketName>, to: real, i: nat, first: nat) returns (ss: seq<System>, steps: seq<Step>)
    requires Agrees(s, b) && IsUnderWay(s, c, names, i, first) && i < |names| && RateOf(s.limits, names[i]) > 0.0 && s.clock <= to
    ensures |ss| == |steps| + 1 == 3 && steps[1] == Charging(c) && IsPartOf(ss, steps, c) && ss[0] == s
    ensures var (b', granted) := Asked(b, names[i], RateOf(s.limits, names[i]), 1.0, to);
            var s' := ss[2];
            && Agrees(s', b') && s'.limits == s.limits && s'.clock == to
            && if !granted then PassEnds(s, s', c, names, i, first)
               else if i + 1 < |names| then GoesOn(s, s', c, names, i + 1, first)
               else PassEnds(s, s', c, names, |names|, first)
  {
    AdvanceAgrees(s, b, to);
    var t := Next(s, Advance(to));
    assert t.clock == to && t.limits == s.limits && t.attempts == s.attempts && t.admitted == s.admitted && t.passes == s.passes;
    assert IsReady(t, Charging(c)) by { hide KeyOf, AgreesOn; }
    ChargeAgrees(t, b, c);
    ChargeGoesOn(t, c, names, i, first);
    var u := Next(t, Charging(c));
    ss, steps := [s, t, u], [Advance(to), Charging(c)];
    hide Asked, Agrees, IsReady, Next, RateOf;
    if u.passes == t.passes && i + 1 < |names| {
    } else {
      EndsFrom(s, t, u, c, names, if u.passes == t.passes then |names| else i, first);
    }
    hide PassEnds;
  }

  /** The asks happen one after the other, none before the system's clock. */
  ghost predicate InOrder(clock: real, at: nat -> real, i: nat, n: nat) {
    (i < n ==> clock <= at(i)) && forall j: nat :: i <= j && j + 1 < n ==> at(j) <= at(j + 1)
  }

  lemma NextInOrder(clock: real, at: nat -> real, i: nat, n: nat)
    requires InOrder(clock, at, i, n) && i < n
    ensures clock <= at(i) && InOrder(at(i), at, i + 1, n)
  {}

  lemma {:induction false} PassAgrees(s: System, b: Backend, c: nat, names: seq<BucketName>, at: nat -> real, i: nat, first: nat)
      returns (ss: seq<System>, steps: seq<Step>)
    requires Agrees(s, b) && IsUnderWay(s, c, names, i, first) && i < |names| && PositiveRates(s.limits, names) && InOrder(s.clock, at, i, |names|)
    ensures |ss| == |steps| + 1 > 1 && steps[|steps| - 1] == Charging(c) && IsPartOf(ss, steps, c) && ss[0] == s
    ensures var (b', n) := Pass(b, s.limits, names, 1.0, at, i);
            var s' := ss[|steps|];
            && Agrees(s', b') && s'.limits == s.limits && s'.clock == at(if n < |names| then n else |names| - 1)
            && PassEnds(s, s', c, names, n, first)
    decreases |names| - i
  {
    hide *;
    AgreesIsValid(s, b);
    NextInOrder(s.clock, at, i, |names|);
    PassUnfolds(b, s.limits, names, at, i);
    ss, steps := AskAgrees(s, b, c, names, at(i), i, first);
    var (b', granted) := Asked(b, names[i], RateOf(s.limits, names[i]), 1.0, at(i));
    if granted && i + 1 < |names| {
      GoesOnIs(s, ss[2], c, names, i + 1, first);
      var ts, more := PassAgrees(ss[2], b', c, names, at, i + 1, first);
      Joined(ss, steps, ts, more, c);
      EndsFrom(s, ss[2], ts[|more|], c, names, Pass(b, s.limits, names, 1.0, at, i).1, first);
      ss, steps := ss + ts[1..], steps + more;
    }
  }

  lemma AgreesIsValid(s: System, b: Backend)
    requires Agrees(s, b)
    ensures ValidHashes(b.hashes)
  {}

  lemma GoesOnIs(s: System, t: System, c: nat, names: seq<BucketName>, i: nat, first: nat)
    requires GoesOn(s, t, c, names, i, first)
    ensures IsUnderWay(t, c, names, i, first) && t.attempts - {c} == s.attempts - {c} && t.admitted == s.admitted
  {}

  lemma PassUnfolds(b: Backend, l: Limits, names: seq<BucketName>, at: nat -> real, i: nat)
    requires i < |names| && PositiveRates(l, names) && ValidHashes(b.hashes)
    ensures RateOf(l, names[i]) > 0.0
    ensures var (b', granted) := Asked(b, names[i], RateOf(l, names[i]), 1.0, at(i));
            && ValidHashes(b'.hashes)
            && Pass(b, l, names, 1.0, at, i)
               == if !granted then (b', i) else if i + 1 == |names| then (b', i + 1) else Pass(b', l, names, 1.0, at, i + 1)
  {
    AskedKeepsValid(b, names[i], RateOf(l, names[i]), 1.0, at(i));
    hide Asked, RateOf;
  }

  // ---------------------------------------------------------------- a whole call

  /** Before the top of pass `k` the clock of the system has not passed that of the loop. */
  lemma TopsInOrder(clock: (nat, nat) -> real, n: nat, k: nat, now: real)
    requires SleepsBetween(clock, n) && now <= clock(k, 0)
    ensures InOrder(now, AsksOf(clock, k), 0, n)
    ensures forall i: nat :: i < n ==> AsksOf(clock, k)(i) <= clock(k + 1, 0)
  {
    forall i: nat | i < n ensures AsksOf(clock, k)(i) <= clock(k + 1, 0) {
      AskBeforeNext(clock, n, k, i);
    }
  }

  lemma {:induction false} AskBeforeNext(clock: (nat, nat) -> real, n: nat, k: nat, i: nat)
    requires SleepsBetween(clock, n) && i < n
    ensures clock(k, i + 1) <= clock(k + 1, 0)
    decreases n - i
  {
    if i + 1 < n {
      AskBeforeNext(clock, n, k, i + 1);
    }
  }

  /** A call that is under way at the top of pass `k` goes on to its end. */
  lemma {:induction false} PassesAgree(s: System, b: Backend, c: nat, names: seq<BucketName>, clock: (nat, nat) -> real, timeout: real, k: nat, first: nat)
      returns (ss: seq<System>, steps: seq<Step>)
    requires Agrees(s, b) && IsUnderWay(s, c, names, 0, first) && 0 < |names| && PositiveRates(s.limits, names)
    requires SleepsBetween(clock, |names|) && s.clock <= clock(k, 0)
    ensures |ss| == |steps| + 1 > 1 && IsPartOf(ss, steps, c) && ss[0] == s
    ensures var (final, ok) := Passes(b, s.limits, names, 1.0, clock, timeout, k);
            CallEnds(s, ss[|steps|], final, steps[|steps| - 1], c, names, first, ok)
    decreases (timeout - (clock(k, 0) - clock(0, 0))) * 10.0
  {
    assert ValidHashes(b.hashes);
    var (final, ok) := Passes(b, s.limits, names, 1.0, clock, timeout, k);
    hide Agrees, IsPartOf, Pass, IsReady, Next, ValidHashes, RateOf, PassEnds, CallEnds, IsUnderWay;
    if clock(k, 0) - clock(0, 0) >= timeout {
      ss, steps := GivesUp(s, b, c, names, first);
    } else {
      TopsInOrder(clock, |names|, k, s.clock);
      ss, steps := PassAgrees(s, b, c, names, AsksOf(clock, k), 0, first);
      var (b', n) := Pass(b, s.limits, names, 1.0, AsksOf(clock, k), 0);
      var t := ss[|steps|];
      if n < |names| {
        OneMoreTurn(s, t, c, names, n, first);
        PassTakesTime(clock, |names|, k);
        var ts, more := PassesAgree(t, b', c, names, clock, timeout, k + 1, first);
        assert Passes(b', s.limits, names, 1.0, clock, timeout, k + 1) == (final, ok);
        Joined(ss, steps, ts, more, c);
        hide Passes;
        EndsLater(s, t, ts[|more|], final, more[|more| - 1], c, names, first, ok);
        ss, steps := ss + ts[1..], steps + more;
      } else {
        AdmittedEnds(s, t, b', c, names, first);
      }
    }
  }

  /** With true the call has just been admitted; with false it has given up and leaves nothing but charges. */
  ghost predicate CallEnds(s: System, s': System, final: Backend, last: Step, c: nat, names: seq<BucketName>, first: nat, ok: bool) {
    && Agrees(s', final) && s'.limits == s.limits
    && if ok then last == Charging(c) && IsAdmitted(s, s', c, names, first)
       else last == GiveUp(c) && s'.attempts == s.attempts - {c} && s'.admitted == s.admitted
  }

  lemma GivesUp(s: System, b: Backend, c: nat, names: seq<BucketName>, first: nat) returns (ss: seq<System>, steps: seq<Step>)
    requires Agrees(s, b) && IsUnderWay(s, c, names, 0, first)
    ensures steps == [GiveUp(c)] && |ss| == 2 && IsPartOf(ss, steps, c) && ss[0] == s && CallEnds(s, ss[1], b, steps[0], c, names, first, false)
  {
    var s' := Next(s, GiveUp(c));
    KeysStayValid(s, GiveUp(c));
    forall name ensures AgreesOn(s', b, name) {
      assert AgreesOn(s, b, name);
    }
    ss, steps := [s, s'], [GiveUp(c)];
    hide AgreesOn;
  }

  lemma OneMoreTurn(s: System, t: System, c: nat, names: seq<BucketName>, n: nat, first: nat)
    requires PassEnds(s, t, c, names, n, first) && n < |names|
    ensures IsUnderWay(t, c, names, 0, first) && t.attempts - {c} == s.attempts - {c} && t.admitted == s.admitted
  {}

  lemma AdmittedEnds(s: System, t: System, b: Backend, c: nat, names: seq<BucketName>, first: nat)
    requires PassEnds(s, t, c, names, |names|, first) && Agrees(t, b) && t.limits == s.limits
    ensures CallEnds(s, t, b, Charging(c), c, names, first, true)
  {
    hide Agrees;
  }

  lemma EndsLater(s: System, t: System, s': System, final: Backend, last: Step, c: nat, names: seq<BucketName>, first: nat, ok: bool)
    requires t.attempts - {c} == s.attempts - {c} && t.admitted == s.admitted && t.limits == s.limits
    requires CallEnds(t, s', final, last, c, names, first, ok)
    ensures CallEnds(s, s', final, last, c, names, first, ok)
  {
    hide Agrees;
    if ok {
      var a :| AdmitsAs(t, s', c, names, first, a);
      assert AdmitsAs(s, s', c, names, first, a);
    }
  }

  /** A call for one token, made by a caller `c` of the shared system, is a run of steps of that system by `c`
      alone: it arrives, charges its buckets, and ends with a charge that admits it exactly when it is answered
      with true, and with giving up otherwise.  What it leaves in the backend is what the run leaves. */
  lemma CallIsAdmission(s: System, b: Backend, c: nat, domain: string, scan: nat, clock: (nat, nat) -> real, timeout: real)
      returns (ss: seq<System>, steps: seq<Step>)
    requires Agrees(s, b) && c !in s.attempts && s.clock <= clock(0, 0)
    requires PositiveRates(s.limits, BucketsFor(s.limits, domain, scan)) && SleepsBetween(clock, |BucketsFor(s.limits, domain, scan)|)
    ensures |ss| == |steps| + 1 > 2 && steps[0] == Arrive(c, domain, scan) && IsPartOf(ss, steps, c) && ss[0] == s
    ensures var names := BucketsFor(s.limits, domain, scan);
            var (final, ok) := Passes(b, s.limits, names, 1.0, clock, timeout, 0);
            CallEnds(s, ss[|steps|], final, steps[|steps| - 1], c, names, s.passes, ok)
  {
    var names := BucketsFor(s.limits, domain, scan);
    var t := Next(s, Arrive(c, domain, scan));
    BucketsAreValid(s.limits, domain, scan);
    ArriveAgrees(s, b, c, domain, scan);
    hide Agrees, IsPartOf, BucketsFor, Passes, RateOf;
    ss, steps := PassesAgree(t, b, c, names, clock, timeout, 0, s.passes);
    var (final, ok) := Passes(b, s.limits, names, 1.0, clock, timeout, 0);
    Single(s, Arrive(c, domain, scan), c);
    Joined([s, t], [Arrive(c, domain, scan)], ss, steps, c);
    EndsLater(s, t, ss[|steps|], final, steps[|steps| - 1], c, names, s.passes, ok);
    ss, steps := [s, t] + ss[1..], [Arrive(c, domain, scan)] + steps;
  }

  lemma ArriveAgrees(s: System, b: Backend, c: nat, domain: string, scan: nat)
    requires Agrees(s, b) && c !in s.attempts
    ensures IsReady(s, Arrive(c, domain, scan))
    ensures var t := Next(s, Arrive(c, domain, scan));
            && Agrees(t, b) && t.clock == s.clock && t.limits == s.limits && t.admitted == s.admitted && t.attempts - {c} == s.attempts - {c}
            && IsUnderWay(t, c, BucketsFor(s.limits, domain, scan), 0, s.passes)
  {
    var t := Next(s, Arrive(c, domain, scan));
    KeysStayValid(s, Arrive(c, domain, scan));
    forall name ensures AgreesOn(t, b, name) {
      assert AgreesOn(s, b, name);
    }
    hide AgreesOn, BucketsFor;
  }
}
