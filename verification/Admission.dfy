/** Multi-bucket admission: many callers of `RateLimiter.acquire` share the global, domain and scan
    buckets, all in Redis or all in process.  A caller charges its buckets one after the other; a denial
    starts a new pass without refunding what the pass has charged. */
module Admission {
  import opened TokenBucket
  import opened SharedBuckets

  datatype BucketName = Global | Domain(name: string) | Scan(id: nat)

  datatype Limits = Limits(overall: real, domains: map<string, real>)

  const SCAN_RATE := 100.0

  predicate ValidLimits(l: Limits) {
    l.overall > 0.0 && forall d :: d in l.domains ==> l.domains[d] >= 0.0
  }

  /** The rate of a bucket, which is also its capacity: one second of burst. */
  function RateOf(l: Limits, b: BucketName): real {
    match b
    case Global => l.overall
    case Domain(d) => if d in l.domains then l.domains[d] else 0.0
    case Scan(_) => SCAN_RATE
  }

  /** The buckets one call has to charge, in order; a domain counts when it has a rate other than zero. */
  function BucketsFor(l: Limits, domain: string, scan: nat): seq<BucketName> {
    [Global] + (if RateOf(l, Domain(domain)) != 0.0 then [Domain(domain)] else []) + [Scan(scan)]
  }

  /** A call under way: `charged` buckets of its list have granted a token in the present pass. */
  datatype Attempt = Attempt(buckets: seq<BucketName>, pass: nat, charged: nat)

  datatype Charge = Charge(bucket: BucketName, time: real, pass: nat)

  datatype System = System(
    limits: Limits,
    local: bool,
    clock: real,
    keys: map<BucketName, Shared>,
    attempts: map<nat, Attempt>,
    passes: nat,
    log: set<Charge>,
    admitted: set<Attempt>)

  datatype Step =
    | Advance(to: real)
    | Arrive(call: nat, domain: string, scan: nat)
    | Charging(call: nat)
    | GiveUp(call: nat)
    | ReadMultiplier(domain: string, worker: nat)
    | WriteMultiplier(domain: string, worker: nat)

  function KeyOf(s: System, b: BucketName): Shared {
    if b in s.keys then s.keys[b] else Unused(s.local, s.clock)
  }

  ghost predicate IsInPlace(s: System, b: BucketName)
    requires b in s.keys
  {
    && s.keys[b].InProcess? == s.local && ClockOf(s.keys[b]) == s.clock
    && RateOf(s.limits, b) >= 0.0 && ValidShared(s.keys[b], RateOf(s.limits, b))
  }

  ghost predicate ValidKeys(s: System) {
    && ValidLimits(s.limits)
    && forall b :: b in s.keys ==> IsInPlace(s, b)
  }

  ghost predicate Enabled(s: System, step: Step) {
    match step
    case Advance(to) => s.clock <= to
    case Arrive(c, _, _) => c !in s.attempts
    case Charging(c) => c in s.attempts && s.attempts[c].charged < |s.attempts[c].buckets|
    case GiveUp(c) => c in s.attempts && s.attempts[c].charged == 0
    case ReadMultiplier(_, _) => true
    case WriteMultiplier(_, _) => true
  }

  function Advanced(keys: map<BucketName, Shared>, to: real): map<BucketName, Shared> {
    map b | b in keys :: Moved(keys[b], to)
  }

  /** One bucket is asked for one token. */
  function Charged(s: System, c: nat): System
    requires c in s.attempts && s.attempts[c].charged < |s.attempts[c].buckets|
    requires var b := s.attempts[c].buckets[s.attempts[c].charged];
             RateOf(s.limits, b) > 0.0 && CanAsk(KeyOf(s, b))
  {
    var a := s.attempts[c];
    var b := a.buckets[a.charged];
    var (k, granted) := Ask(KeyOf(s, b), RateOf(s.limits, b));
    var keys' := s.keys[b := k];
    if !granted then
      s.(keys := keys', attempts := s.attempts[c := a.(pass := s.passes, charged := 0)], passes := s.passes + 1)
    else if a.charged + 1 == |a.buckets| then
      s.(keys := keys', attempts := s.attempts - {c}, log := s.log + {Charge(b, s.clock, a.pass)}, admitted := s.admitted + {a})
    else
      s.(keys := keys', attempts := s.attempts[c := a.(charged := a.charged + 1)], log := s.log + {Charge(b, s.clock, a.pass)})
  }

  ghost predicate IsReady(s: System, step: Step) {
    && Enabled(s, step)
    && ValidKeys(s)
    && (step.Charging? ==>
          var b := s.attempts[step.call].buckets[s.attempts[step.call].charged];
          RateOf(s.limits, b) > 0.0)
  }

  function Next(s: System, step: Step): System
    requires IsReady(s, step)
  {
    match step
    case Advance(to) => s.(clock := to, keys := Advanced(s.keys, to))
    case Arrive(c, domain, scan) =>
      s.(attempts := s.attempts[c := Attempt(BucketsFor(s.limits, domain, scan), s.passes, 0)], passes := s.passes + 1)
    case Charging(c) => Charged(s, c)
    case GiveUp(c) => s.(attempts := s.attempts - {c})
    case ReadMultiplier(d, w) => s.(keys := s.keys[Domain(d) := ReadBy(KeyOf(s, Domain(d)), w)])
    case WriteMultiplier(d, w) => s.(keys := s.keys[Domain(d) := WrittenBy(KeyOf(s, Domain(d)), w)])
  }

  ghost predicate Initial(s: System) {
    ValidLimits(s.limits) && s.keys == map[] && s.attempts == map[] && s.log == {} && s.admitted == {}
  }

  /** `ss` are the states and `steps` the steps between them. */
  ghost predicate IsRun(ss: seq<System>, steps: seq<Step>) {
    && |ss| == |steps| + 1
    && Initial(ss[0])
    && forall i :: 0 <= i < |steps| ==> IsReady(ss[i], steps[i]) && ss[i + 1] == Next(ss[i], steps[i])
  }

  // ---------------------------------------------------------------- every bucket keeps its own bound

  lemma KeyIsValid(s: System, b: BucketName)
    requires ValidKeys(s)
    ensures var k := KeyOf(s, b);
            && k.InProcess? == s.local && ClockOf(k) == s.clock && ValidShared(k, RateOf(s.limits, b)) && CanAsk(k)
  {}

  lemma KeysStayValid(s: System, step: Step)
    requires IsReady(s, step)
    ensures ValidKeys(Next(s, step))
  {
    var s' := Next(s, step);
    forall b | b in s'.keys
      ensures IsInPlace(s', b)
    {
      KeyIsValid(s, b);
      match step
      case Advance(to) => MovedIsValid(s.keys[b], to, RateOf(s.limits, b));
      case Charging(c) =>
        if b == s.attempts[c].buckets[s.attempts[c].charged] {
          AskedIsValid(KeyOf(s, b), RateOf(s.limits, b));
        }
      case ReadMultiplier(_, w) => ReportIsValid(KeyOf(s, b), w, RateOf(s.limits, b));
      case WriteMultiplier(_, w) => ReportIsValid(KeyOf(s, b), w, RateOf(s.limits, b));
      case _ =>
    }
  }

  /** The charges to one bucket in a window of time. */
  function ChargesTo(log: set<Charge>, b: BucketName, from: real, until: real): set<Charge> {
    set c | c in log && c.bucket == b && from <= c.time <= until
  }

  /** The invariant behind the bound: once the window has opened, the charges so far are paid for. */
  ghost predicate WindowPaid(s: System, b: BucketName, from: real, until: real) {
    var granted := |ChargesTo(s.log, b, from, until)| as real;
    && (forall c :: c in s.log ==> c.time <= s.clock)
    && (s.clock < from ==> ChargesTo(s.log, b, from, until) == {})
    && (from <= s.clock <= until ==> IsPaid(KeyOf(s, b), RateOf(s.limits, b), granted, s.clock - from))
    && granted <= Budget(RateOf(s.limits, b), until - from)
  }

  /** What a bucket of that rate may hand out in a window: one second of burst and the refill. */
  function Budget(rate: real, window: real): real {
    rate * (1.0 + window)
  }

  // ---------------------------------------------------------------- passes

  ghost predicate HasCharge(log: set<Charge>, b: BucketName, pass: nat) {
    exists c :: c in log && c.bucket == b && c.pass == pass
  }

  /** An attempt asks distinct buckets of positive rate, the global one first, and in its present pass
      has charged exactly the first `charged` of them. */
  ghost predicate ValidAttempt(s: System, a: Attempt) {
    && a.pass < s.passes && a.charged < |a.buckets|
    && a.buckets[0] == Global
    && (forall i :: 0 <= i < |a.buckets| ==> RateOf(s.limits, a.buckets[i]) > 0.0)
    && (forall i, j :: 0 <= i < j < |a.buckets| ==> a.buckets[i] != a.buckets[j])
    && (forall i :: 0 <= i < |a.buckets| ==> (HasCharge(s.log, a.buckets[i], a.pass) <==> i < a.charged))
  }

  ghost predicate ValidAdmitted(s: System, a: Attempt) {
    && a.pass < s.passes
    && (forall b :: b in a.buckets ==> HasCharge(s.log, b, a.pass))
  }

  ghost predicate PassesAreFaithful(s: System) {
    && (forall c :: c in s.attempts ==> ValidAttempt(s, s.attempts[c]))
    && (forall c, d :: c in s.attempts && d in s.attempts && s.attempts[c].pass == s.attempts[d].pass ==> c == d)
    && (forall x :: x in s.log ==> x.pass < s.passes && HasCharge(s.log, Global, x.pass))
    && (forall x, y :: x in s.log && y in s.log && x.bucket == y.bucket && x.pass == y.pass ==> x == y)
    && (forall a :: a in s.admitted ==> ValidAdmitted(s, a))
    && (forall a, c :: a in s.admitted && c in s.attempts ==> a.pass != s.attempts[c].pass)
    && (forall a, b :: a in s.admitted && b in s.admitted && a.pass == b.pass ==> a == b)
  }

  lemma BucketsAreValid(l: Limits, domain: string, scan: nat)
    requires ValidLimits(l)
    ensures var bs := BucketsFor(l, domain, scan);
            && 0 < |bs| && bs[0] == Global && bs[|bs| - 1] == Scan(scan)
            && (forall i :: 0 <= i < |bs| ==> RateOf(l, bs[i]) > 0.0)
            && (forall i, j :: 0 <= i < j < |bs| ==> bs[i] != bs[j])
  {}

  /** A call asks the global bucket first, then that of its domain if the domain has a rate other than zero, and
      that of its scan last. */
  lemma BucketsForAre(l: Limits, domain: string, scan: nat)
    ensures var bs := BucketsFor(l, domain, scan);
            && bs[0] == Global && bs[|bs| - 1] == Scan(scan) && |bs| <= 3
            && (forall b :: b in bs <==> b == Global || b == Scan(scan) || (b == Domain(domain) && domain in l.domains && l.domains[domain] != 0.0))
            && (Domain(domain) in bs <==> |bs| == 3)
    ensures RateOf(l, Global) == l.overall && RateOf(l, Scan(scan)) == 100.0
    ensures domain in l.domains ==> RateOf(l, Domain(domain)) == l.domains[domain]
  {}

  lemma ArriveIsFaithful(s: System, c: nat, domain: string, scan: nat)
    requires IsReady(s, Arrive(c, domain, scan)) && PassesAreFaithful(s)
    ensures PassesAreFaithful(Next(s, Arrive(c, domain, scan)))
  {
    BucketsAreValid(s.limits, domain, scan);
    var s' := Next(s, Arrive(c, domain, scan));
    hide BucketsFor, RateOf, PassesAreFaithful;
    NewcomerIsFaithful(s, s', c, BucketsFor(s.limits, domain, scan));
  }

  lemma NewcomerIsFaithful(s: System, s': System, c: nat, bs: seq<BucketName>)
    requires PassesAreFaithful(s) && c !in s.attempts && 0 < |bs| && bs[0] == Global
    requires forall i :: 0 <= i < |bs| ==> RateOf(s.limits, bs[i]) > 0.0
    requires forall i, j :: 0 <= i < j < |bs| ==> bs[i] != bs[j]
    requires s' == s.(attempts := s.attempts[c := Attempt(bs, s.passes, 0)], passes := s.passes + 1)
    ensures PassesAreFaithful(s')
  {
    hide HasCharge;
    hide RateOf;
    forall b ensures !HasCharge(s.log, b, s.passes) {
      NoChargeYet(s, b);
    }
    forall d | d in s'.attempts ensures ValidAttempt(s', s'.attempts[d]) {
      if d != c { StaysValid(s, s', s.attempts[d]); }
    }
    hide ValidAttempt;
    forall a | a in s'.admitted ensures ValidAdmitted(s', a) {
      assert ValidAdmitted(s, a);
    }
  }

  lemma StaysValid(s: System, s': System, a: Attempt)
    requires ValidAttempt(s, a) && s'.log == s.log && s'.limits == s.limits && s.passes <= s'.passes
    ensures ValidAttempt(s', a)
  {}

  lemma NoChargeYet(s: System, b: BucketName)
    requires PassesAreFaithful(s)
    ensures !HasCharge(s.log, b, s.passes)
  {}

  /** The three ways a charge can go, without the keys. */
  lemma ChargedShape(s: System, c: nat)
    requires IsReady(s, Charging(c))
    ensures var s', a := Next(s, Charging(c)), s.attempts[c];
            var b := a.buckets[a.charged];
            && s'.limits == s.limits && s'.clock == s.clock
            && ((s'.log == s.log && s'.admitted == s.admitted && s'.passes == s.passes + 1
                 && s'.attempts == s.attempts[c := a.(pass := s.passes, charged := 0)])
             || (s'.log == s.log + {Charge(b, s.clock, a.pass)} && s'.passes == s.passes
                 && if a.charged + 1 == |a.buckets|
                    then s'.attempts == s.attempts - {c} && s'.admitted == s.admitted + {a}
                    else s'.attempts == s.attempts[c := a.(charged := a.charged + 1)] && s'.admitted == s.admitted))
  {}

  lemma DenialIsFaithful(s: System, s': System, c: nat)
    requires PassesAreFaithful(s) && c in s.attempts
    requires s'.limits == s.limits && s'.log == s.log && s'.admitted == s.admitted && s'.passes == s.passes + 1
    requires s'.attempts == s.attempts[c := s.attempts[c].(pass := s.passes, charged := 0)]
    ensures PassesAreFaithful(s')
  {
    forall d | d in s'.attempts ensures ValidAttempt(s', s'.attempts[d]) {
      assert ValidAttempt(s, s.attempts[d]);
    }
    forall a | a in s'.admitted ensures ValidAdmitted(s', a) {
      assert ValidAdmitted(s, a);
    }
  }

  lemma ChargeAdds(log: set<Charge>, x: Charge, b: BucketName, pass: nat)
    ensures HasCharge(log + {x}, b, pass) <==> HasCharge(log, b, pass) || (x.bucket == b && x.pass == pass)
  {
    if c :| c in log && c.bucket == b && c.pass == pass { assert c in log + {x}; }
    assert x in log + {x};
  }

  lemma GrantIsFaithful(s: System, s': System, c: nat, x: Charge)
    requires PassesAreFaithful(s) && c in s.attempts
    requires var a := s.attempts[c]; a.charged < |a.buckets| && x.bucket == a.buckets[a.charged] && x.pass == a.pass
    requires s'.limits == s.limits && s'.log == s.log + {x} && s'.passes == s.passes
    requires var a := s.attempts[c];
             if a.charged + 1 == |a.buckets|
             then s'.attempts == s.attempts - {c} && s'.admitted == s.admitted + {a}
             else s'.attempts == s.attempts[c := a.(charged := a.charged + 1)] && s'.admitted == s.admitted
    ensures PassesAreFaithful(s') && x !in s.log
  {
    var a := s.attempts[c];
    assert ValidAttempt(s, a);
    assert !HasCharge(s.log, x.bucket, x.pass);
    forall b, pass ensures HasCharge(s'.log, b, pass) <==> HasCharge(s.log, b, pass) || (x.bucket == b && x.pass == pass) {
      ChargeAdds(s.log, x, b, pass);
    }
    GrantIsUnique(s, x, s'.log);
    hide RateOf;
    GrantKeepsAttempts(s, s', c, x);
    GrantKeepsAdmitted(s, s', c, x);
    if a.charged > 0 { assert HasCharge(s.log, a.buckets[0], a.pass); }
    hide ValidAttempt, ValidAdmitted, HasCharge;
    forall y | y in s'.log ensures y.pass < s'.passes && HasCharge(s'.log, Global, y.pass) {
      if y != x { assert HasCharge(s.log, Global, y.pass); }
    }
  }

  lemma GrantKeepsAttempts(s: System, s': System, c: nat, x: Charge)
    requires PassesAreFaithful(s) && c in s.attempts
    requires var a := s.attempts[c]; a.charged < |a.buckets| && x.bucket == a.buckets[a.charged] && x.pass == a.pass
    requires s'.limits == s.limits && s'.passes == s.passes
    requires forall b, pass :: HasCharge(s'.log, b, pass) <==> HasCharge(s.log, b, pass) || (x.bucket == b && x.pass == pass)
    requires var a := s.attempts[c];
             if a.charged + 1 == |a.buckets|
             then s'.attempts == s.attempts - {c} else s'.attempts == s.attempts[c := a.(charged := a.charged + 1)]
    ensures forall d :: d in s'.attempts ==> ValidAttempt(s', s'.attempts[d])
  {
    forall d | d in s'.attempts ensures ValidAttempt(s', s'.attempts[d]) {
      assert ValidAttempt(s, s.attempts[d]);
      if d != c {
        assert s'.attempts[d] == s.attempts[d] && s.attempts[d].pass != x.pass;
        hide PassesAreFaithful;
        OthersCharge(s, s', s.attempts[d], x);
      } else {
        hide PassesAreFaithful;
        OneMoreIsCharged(s, s', s.attempts[c], x);
      }
    }
  }

  lemma OthersCharge(s: System, s': System, a: Attempt, x: Charge)
    requires ValidAttempt(s, a) && a.pass != x.pass && s'.limits == s.limits && s'.passes == s.passes
    requires forall b, pass :: HasCharge(s'.log, b, pass) <==> HasCharge(s.log, b, pass) || (x.bucket == b && x.pass == pass)
    ensures ValidAttempt(s', a)
  {
    hide HasCharge;
    hide RateOf;
  }

  lemma OneMoreIsCharged(s: System, s': System, a: Attempt, x: Charge)
    requires ValidAttempt(s, a) && x.bucket == a.buckets[a.charged] && x.pass == a.pass && a.charged + 1 < |a.buckets|
    requires s'.limits == s.limits && s'.passes == s.passes
    requires forall b, pass :: HasCharge(s'.log, b, pass) <==> HasCharge(s.log, b, pass) || (x.bucket == b && x.pass == pass)
    ensures ValidAttempt(s', a.(charged := a.charged + 1))
  {
    hide HasCharge;
    hide RateOf;
  }

  lemma GrantKeepsAdmitted(s: System, s': System, c: nat, x: Charge)
    requires PassesAreFaithful(s) && c in s.attempts
    requires var a := s.attempts[c]; a.charged < |a.buckets| && x.bucket == a.buckets[a.charged] && x.pass == a.pass
    requires s'.passes == s.passes
    requires forall b, pass :: HasCharge(s'.log, b, pass) <==> HasCharge(s.log, b, pass) || (x.bucket == b && x.pass == pass)
    requires var a := s.attempts[c];
             if a.charged + 1 == |a.buckets| then s'.admitted == s.admitted + {a} else s'.admitted == s.admitted
    ensures forall e :: e in s'.admitted ==> ValidAdmitted(s', e)
  {
    hide HasCharge;
    forall e | e in s'.admitted ensures ValidAdmitted(s', e) {
      if e in s.admitted {
        assert ValidAdmitted(s, e);
      } else {
        assert ValidAttempt(s, e);
      }
    }
  }

  lemma GrantIsUnique(s: System, x: Charge, log': set<Charge>)
    requires log' == s.log + {x} && !HasCharge(s.log, x.bucket, x.pass)
    requires forall y, z :: y in s.log && z in s.log && y.bucket == z.bucket && y.pass == z.pass ==> y == z
    ensures forall y, z :: y in log' && z in log' && y.bucket == z.bucket && y.pass == z.pass ==> y == z
    ensures x !in s.log
  {}

  lemma ChargingIsFaithful(s: System, c: nat)
    requires IsReady(s, Charging(c)) && PassesAreFaithful(s)
    ensures PassesAreFaithful(Next(s, Charging(c)))
    ensures Next(s, Charging(c)).log == s.log
         || exists x :: x !in s.log && Next(s, Charging(c)).log == s.log + {x}
                        && x.bucket == s.attempts[c].buckets[s.attempts[c].charged] && x.time == s.clock
  {
    ChargedShape(s, c);
    hide Next;
    var s', a := Next(s, Charging(c)), s.attempts[c];
    var x := Charge(a.buckets[a.charged], s.clock, a.pass);
    if s'.passes == s.passes + 1 {
      DenialIsFaithful(s, s', c);
    } else {
      GrantIsFaithful(s, s', c, x);
    }
  }

  lemma StepIsFaithful(s: System, step: Step)
    requires IsReady(s, step) && PassesAreFaithful(s)
    ensures PassesAreFaithful(Next(s, step))
  {
    match step
    case Arrive(c, domain, scan) => ArriveIsFaithful(s, c, domain, scan);
    case Charging(c) => ChargingIsFaithful(s, c);
    case _ => OtherStepIsFaithful(s, Next(s, step));
  }

  lemma OtherStepIsFaithful(s: System, s': System)
    requires PassesAreFaithful(s)
    requires s'.limits == s.limits && s'.log == s.log && s'.admitted == s.admitted && s'.passes == s.passes
    requires forall c :: c in s'.attempts ==> c in s.attempts && s'.attempts[c] == s.attempts[c]
    ensures PassesAreFaithful(s')
  {
    forall c | c in s'.attempts ensures ValidAttempt(s', s'.attempts[c]) {
      assert ValidAttempt(s, s.attempts[c]);
    }
    forall a | a in s'.admitted ensures ValidAdmitted(s', a) {
      assert ValidAdmitted(s, a);
    }
  }

  lemma {:induction false} RunsAreFaithful(ss: seq<System>, steps: seq<Step>, i: nat)
    requires IsRun(ss, steps) && i < |ss|
    ensures PassesAreFaithful(ss[i]) && ValidKeys(ss[i])
  {
    if i > 0 {
      RunsAreFaithful(ss, steps, i - 1);
      StepIsFaithful(ss[i - 1], steps[i - 1]);
      KeysStayValid(ss[i - 1], steps[i - 1]);
    }
  }

  /** No step is ever blocked by what the script needs: whatever is enabled in a reachable state is
      ready to happen. */
  lemma EnabledIsReady(ss: seq<System>, steps: seq<Step>, i: nat, step: Step)
    requires IsRun(ss, steps) && i < |ss| && Enabled(ss[i], step)
    ensures IsReady(ss[i], step)
  {
    RunsAreFaithful(ss, steps, i);
    if step.Charging? {
      assert ValidAttempt(ss[i], ss[i].attempts[step.call]);
    }
  }

  // ---------------------------------------------------------------- the rate bound over every window

  /** What is paid for is within the rate. */
  lemma PaidIsWithinBudget(k: Shared, rate: real, granted: real, forward: real, window: real)
    requires rate > 0.0 && ValidShared(k, rate) && IsPaid(k, rate, granted, forward) && forward <= window
    ensures granted <= Budget(rate, window)
  {
    hide IsPaid, ValidShared;
    PaidIsBounded(k, rate, granted, forward);
    TimesMonotone(rate, 1.0 + forward, 1.0 + window);
    assert Budget(rate, window) == rate * (1.0 + window);
  }

  lemma AdvanceKeepsWindow(s: System, to: real, b: BucketName, from: real, until: real)
    requires IsReady(s, Advance(to)) && from <= until && RateOf(s.limits, b) > 0.0 && WindowPaid(s, b, from, until)
    ensures WindowPaid(Next(s, Advance(to)), b, from, until)
  {
    var s', rate, k := Next(s, Advance(to)), RateOf(s.limits, b), KeyOf(s, b);
    var granted := |ChargesTo(s.log, b, from, until)| as real;
    KeyIsValid(s, b);
    MovedIsValid(k, to, rate);
    assert KeyOf(s', b) == Moved(k, to) && s'.log == s.log && s'.clock == to && s'.limits == s.limits;
    hide *;
    if from <= to <= until {
      if s.clock < from {
        NothingIsPaid(Moved(k, to), rate);
        PaidGrows(Moved(k, to), rate, 0.0, 0.0, to - from);
      } else {
        MovedIsPaid(k, to, rate, granted, s.clock - from);
        assert (s.clock - from) + (to - s.clock) == to - from;
      }
    }
  }

  /** What one charge does to the key it asks. */
  lemma ChargingKey(s: System, c: nat)
    requires IsReady(s, Charging(c))
    ensures var s', a := Next(s, Charging(c)), s.attempts[c];
            var b := a.buckets[a.charged];
            && CanAsk(KeyOf(s, b)) && s'.clock == s.clock && s'.limits == s.limits
            && (forall d :: d != b ==> KeyOf(s', d) == KeyOf(s, d))
            && (var (k, granted) := Ask(KeyOf(s, b), RateOf(s.limits, b));
                KeyOf(s', b) == k && s'.log == if granted then s.log + {Charge(b, s.clock, a.pass)} else s.log)
  {
    hide Ask;
  }

  lemma OneMoreCharge(log: set<Charge>, x: Charge, b: BucketName, from: real, until: real)
    requires x !in log
    ensures |ChargesTo(log + {x}, b, from, until)|
         == |ChargesTo(log, b, from, until)| + if x.bucket == b && from <= x.time <= until then 1 else 0
  {
    assert ChargesTo(log + {x}, b, from, until)
        == ChargesTo(log, b, from, until) + if x.bucket == b && from <= x.time <= until then {x} else {};
  }

  lemma ChargingKeepsWindow(s: System, c: nat, b: BucketName, from: real, until: real)
    requires IsReady(s, Charging(c)) && PassesAreFaithful(s) && from <= until && RateOf(s.limits, b) > 0.0
    requires WindowPaid(s, b, from, until)
    ensures WindowPaid(Next(s, Charging(c)), b, from, until)
  {
    KeysStayValid(s, Charging(c));
    ChargingIsFaithful(s, c);
    ChargingKey(s, c);
    var s', a := Next(s, Charging(c)), s.attempts[c];
    ChargedWindow(s, s', a.buckets[a.charged], Charge(a.buckets[a.charged], s.clock, a.pass), b, from, until);
  }

  lemma ChargedWindow(s: System, s': System, asked: BucketName, x: Charge, b: BucketName, from: real, until: real)
    requires from <= until && RateOf(s.limits, b) > 0.0 && RateOf(s.limits, asked) > 0.0 && WindowPaid(s, b, from, until)
    requires ValidKeys(s) && s'.clock == s.clock && s'.limits == s.limits
    requires x.bucket == asked && x.time == s.clock
    requires CanAsk(KeyOf(s, asked))
    requires (var (k, granted) := Ask(KeyOf(s, asked), RateOf(s.limits, asked));
              KeyOf(s', asked) == k && if granted then x !in s.log && s'.log == s.log + {x} else s'.log == s.log)
    requires forall d :: d != asked ==> KeyOf(s', d) == KeyOf(s, d)
    ensures WindowPaid(s', b, from, until)
  {
    var rate, k := RateOf(s.limits, b), KeyOf(s, b);
    if x !in s.log { OneMoreCharge(s.log, x, b, from, until); }
    KeyIsValid(s, b);
    hide ValidShared, IsPaid, RateOf, Ask, KeyOf, Budget, ChargesTo, ValidKeys;
    if b == asked && from <= s.clock <= until {
      var granted, more := |ChargesTo(s.log, b, from, until)| as real, if Ask(k, rate).1 then 1.0 else 0.0;
      AskedIsValid(k, rate);
      AskedIsPaid(k, rate, granted, s.clock - from);
      PaidIsWithinBudget(Ask(k, rate).0, rate, granted + more, s.clock - from, until - from);
    }
  }

  lemma ReportKeepsWindow(s: System, step: Step, b: BucketName, from: real, until: real)
    requires IsReady(s, step) && (step.ReadMultiplier? || step.WriteMultiplier?)
    requires RateOf(s.limits, b) > 0.0 && WindowPaid(s, b, from, until)
    ensures WindowPaid(Next(s, step), b, from, until)
  {
    var s', rate := Next(s, step), RateOf(s.limits, b);
    assert s'.log == s.log && s'.clock == s.clock && s'.limits == s.limits;
    assert b != Domain(step.domain) ==> KeyOf(s', b) == KeyOf(s, b);
    var granted := |ChargesTo(s.log, b, from, until)| as real;
    hide ChargesTo;
    hide RateOf;
    hide Budget;
    hide IsPaid;
    if b == Domain(step.domain) && from <= s.clock <= until {
      ReportIsPaid(KeyOf(s, b), step.worker, rate, granted, s.clock - from);
    }
  }

  lemma StepKeepsWindow(s: System, step: Step, b: BucketName, from: real, until: real)
    requires IsReady(s, step) && PassesAreFaithful(s) && from <= until && RateOf(s.limits, b) > 0.0 && WindowPaid(s, b, from, until)
    ensures WindowPaid(Next(s, step), b, from, until)
  {
    hide IsPaid;
    hide ChargesTo;
    hide RateOf;
    hide Budget;
    match step
    case Advance(to) => AdvanceKeepsWindow(s, to, b, from, until);
    case Charging(c) => ChargingKeepsWindow(s, c, b, from, until);
    case ReadMultiplier(d, w) => ReportKeepsWindow(s, step, b, from, until);
    case WriteMultiplier(d, w) => ReportKeepsWindow(s, step, b, from, until);
    case Arrive(c, d, n) =>
    case GiveUp(c) =>
  }

  lemma StepKeepsLimits(s: System, step: Step)
    requires IsReady(s, step)
    ensures Next(s, step).limits == s.limits
  {}

  lemma BudgetIsPositive(rate: real, window: real)
    requires rate > 0.0 && window >= 0.0
    ensures Budget(rate, window) > 0.0
  {
    TimesPositive(rate, 1.0 + window);
  }

  lemma StartsPaid(s: System, b: BucketName, from: real, until: real)
    requires Initial(s) && from <= until && RateOf(s.limits, b) > 0.0
    ensures WindowPaid(s, b, from, until)
  {
    var rate := RateOf(s.limits, b);
    BudgetIsPositive(rate, until - from);
    assert ChargesTo(s.log, b, from, until) == {};
    hide Budget, IsPaid, RateOf;
    if from <= s.clock <= until {
      KeyIsValid(s, b);
      NothingIsPaid(KeyOf(s, b), rate);
      PaidGrows(KeyOf(s, b), rate, 0.0, 0.0, s.clock - from);
    }
  }

  lemma {:induction false} WindowsArePaid(ss: seq<System>, steps: seq<Step>, i: nat, b: BucketName, from: real, until: real)
    requires IsRun(ss, steps) && i < |ss| && from <= until && RateOf(ss[0].limits, b) > 0.0
    ensures ss[i].limits == ss[0].limits && WindowPaid(ss[i], b, from, until)
  {
    if i == 0 {
      StartsPaid(ss[0], b, from, until);
    } else {
      WindowsArePaid(ss, steps, i - 1, b, from, until);
      RunsAreFaithful(ss, steps, i - 1);
      StepKeepsWindow(ss[i - 1], steps[i - 1], b, from, until);
      StepKeepsLimits(ss[i - 1], steps[i - 1]);
    }
  }

  // ---------------------------------------------------------------- the theorems

  /** The passes that were admitted and whose charge to the bucket falls into the window. */
  function AdmissionsIn(s: System, b: BucketName, from: real, until: real): set<Attempt> {
    set a, c | a in s.admitted && b in a.buckets && c in ChargesTo(s.log, b, from, until) && c.pass == a.pass :: a
  }

  /** Every admission was charged to each of its buckets in one and the same pass, exactly once. */
  lemma AdmissionIsOnePass(ss: seq<System>, steps: seq<Step>, i: nat, a: Attempt, b: BucketName)
    requires IsRun(ss, steps) && i < |ss| && a in ss[i].admitted && b in a.buckets
    ensures exists c :: c in ss[i].log && c.bucket == b && c.pass == a.pass
                        && forall d :: d in ss[i].log && d.bucket == b && d.pass == a.pass ==> d == c
  {
    RunsAreFaithful(ss, steps, i);
    assert ValidAdmitted(ss[i], a);
    var c :| c in ss[i].log && c.bucket == b && c.pass == a.pass;
  }

  /** Admissions inject into charges. */
  lemma {:induction false} NoMoreAdmissionsThanCharges(admissions: set<Attempt>, charges: set<Charge>)
    requires forall a :: a in admissions ==> exists c :: c in charges && c.pass == a.pass
    requires forall a, b :: a in admissions && b in admissions && a.pass == b.pass ==> a == b
    ensures |admissions| <= |charges|
    decreases admissions
  {
    if admissions != {} {
      var a :| a in admissions;
      var c :| c in charges && c.pass == a.pass;
      forall b | b in admissions - {a} ensures exists d :: d in charges - {c} && d.pass == b.pass {
        var d :| d in charges && d.pass == b.pass;
        assert d in charges - {c};
      }
      NoMoreAdmissionsThanCharges(admissions - {a}, charges - {c});
    }
  }

  /** Over every window of length T the admissions charged to a bucket, and all charges to it, stay
      within its rate times 1 + T: `overall * (1 + T)` for the global bucket, the domain's rate times
      1 + T for a domain and 100 * (1 + T) for a scan, although failed passes are not refunded. */
  lemma AdmissionsAreBounded(ss: seq<System>, steps: seq<Step>, i: nat, b: BucketName, from: real, until: real)
    requires IsRun(ss, steps) && i < |ss| && from <= until && RateOf(ss[0].limits, b) > 0.0
    ensures |AdmissionsIn(ss[i], b, from, until)| <= |ChargesTo(ss[i].log, b, from, until)|
    ensures |ChargesTo(ss[i].log, b, from, until)| as real <= RateOf(ss[0].limits, b) * (1.0 + (until - from))
  {
    RunsAreFaithful(ss, steps, i);
    WindowsArePaid(ss, steps, i, b, from, until);
    assert Budget(RateOf(ss[0].limits, b), until - from) == RateOf(ss[0].limits, b) * (1.0 + (until - from));
    hide Budget, IsPaid, RateOf, IsRun;
    NoMoreAdmissionsThanCharges(AdmissionsIn(ss[i], b, from, until), ChargesTo(ss[i].log, b, from, until));
  }

  /** Charges of one bucket inject into charges of the global one. */
  lemma {:induction false} NoMoreChargesThanGlobal(charges: set<Charge>, overall: set<Charge>)
    requires forall c :: c in charges ==> exists d :: d in overall && d.pass == c.pass
    requires forall c, d :: c in charges && d in charges && c.pass == d.pass ==> c == d
    ensures |charges| <= |overall|
    decreases charges
  {
    if charges != {} {
      var c :| c in charges;
      var d :| d in overall && d.pass == c.pass;
      forall e | e in charges - {c} ensures exists f :: f in overall - {d} && f.pass == e.pass {
        var f :| f in overall && f.pass == e.pass;
        assert f in overall - {d};
      }
      NoMoreChargesThanGlobal(charges - {c}, overall - {d});
    }
  }

  function AllChargesTo(log: set<Charge>, b: BucketName): set<Charge> {
    set c | c in log && c.bucket == b
  }

  /** No scan or domain bucket is ever charged more often than the global one. */
  lemma GlobalIsChargedMost(ss: seq<System>, steps: seq<Step>, i: nat, b: BucketName)
    requires IsRun(ss, steps) && i < |ss|
    ensures |AllChargesTo(ss[i].log, b)| <= |AllChargesTo(ss[i].log, Global)|
  {
    RunsAreFaithful(ss, steps, i);
    forall c | c in AllChargesTo(ss[i].log, b) ensures exists d :: d in AllChargesTo(ss[i].log, Global) && d.pass == c.pass {
      assert HasCharge(ss[i].log, Global, c.pass);
      var d :| d in ss[i].log && d.bucket == Global && d.pass == c.pass;
      assert d in AllChargesTo(ss[i].log, Global);
    }
    NoMoreChargesThanGlobal(AllChargesTo(ss[i].log, b), AllChargesTo(ss[i].log, Global));
  }
}
