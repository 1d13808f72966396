/** Runs of the queue: any sequence of publisher and consumer steps, by any number of workers. */
module QueueRuns {
  import opened Wrappers
  import opened Payloads
  import opened TaskQueue

  datatype Op =
    | Publish(p: Payload)
    | PublishBatch(ps: seq<Payload>)
    | Schedule(p: Payload, executeAt: real)
    | Promote(now: real, due: seq<Payload>)   // the move half; `due` may have been read earlier
    | Poll(draw: real)
    | Bury(p: Payload, reason: Reason)

  function Apply(s: Store, op: Op): Store {
    match op
    case Publish(p) => Published(s, p)
    case PublishBatch(ps) => PublishedBatch(s, ps)
    case Schedule(p, at) => Scheduled(s, p, at)
    case Promote(now, due) => Promoted(s, now, due)
    case Poll(draw) => Polled(s, draw).0
    case Bury(p, reason) => DeadLettered(s, p, reason)
  }

  function Run(s: Store, ops: seq<Op>): Store
    decreases |ops|
  {
    if ops == [] then s else Run(Apply(s, ops[0]), ops[1..])
  }

  /** What one step appends to the list of level `l`. */
  function Appended(op: Op, l: Level): seq<Payload> {
    match op
    case Publish(p) => OfLevel([p], l)
    case PublishBatch(ps) => OfLevel(ps, l)
    case Promote(now, due) => OfLevel(due, l)
    case _ => []
  }

  /** What one step takes from the head of the list of level `l`. */
  function Taken(s: Store, op: Op, l: Level): seq<Payload> {
    if op.Poll? && FirstReady(s, PollOrder(op.draw)) == Some(l) && s.At(l) != [] then [s.At(l)[0]] else []
  }

  function AllAppended(ops: seq<Op>, l: Level): seq<Payload> {
    if ops == [] then [] else Appended(ops[0], l) + AllAppended(ops[1..], l)
  }

  function AllTaken(s: Store, ops: seq<Op>, l: Level): seq<Payload>
    decreases |ops|
  {
    if ops == [] then [] else Taken(s, ops[0], l) + AllTaken(Apply(s, ops[0]), ops[1..], l)
  }

  /** The number of polls whose draw puts the list of level `l` first. */
  function FirstPolls(ops: seq<Op>, l: Level): nat {
    if ops == [] then 0
    else (if ops[0].Poll? && PollOrder(ops[0].draw)[0] == l then 1 else 0) + FirstPolls(ops[1..], l)
  }

  lemma StepIsFifo(s: Store, op: Op, l: Level)
    ensures Taken(s, op, l) + Apply(s, op).At(l) == s.At(l) + Appended(op, l)
  {
    match op
    case Publish(p) =>
      assert OfLevel([p], l) == IfOfLevel(p, l) + OfLevel([p][1..], l);
      assert OfLevel([p], l) == IfOfLevel(p, l);
    case Promote(now, due) =>
      if due == [] { assert s.At(l) + OfLevel(due, l) == s.At(l); }
    case Poll(draw) =>
      FirstReadyExact(s, PollOrder(draw));
    case _ =>
  }

  /** Every list is first in, first out over every run: what was taken, followed by what is left, is
      what was there, followed by what was pushed. */
  lemma {:induction false} ListsAreFifo(s: Store, ops: seq<Op>, l: Level)
    ensures AllTaken(s, ops, l) + Run(s, ops).At(l) == s.At(l) + AllAppended(ops, l)
    decreases |ops|
  {
    if ops != [] {
      var s' := Apply(s, ops[0]);
      StepIsFifo(s, ops[0], l);
      ListsAreFifo(s', ops[1..], l);
      ChainFifo(Taken(s, ops[0], l), s.At(l), Appended(ops[0], l), s'.At(l),
                AllTaken(s', ops[1..], l), AllAppended(ops[1..], l), Run(s, ops).At(l));
    }
  }

  lemma ChainFifo<T>(taken: seq<T>, before: seq<T>, added: seq<T>, mid: seq<T>, takenLater: seq<T>, addedLater: seq<T>, after: seq<T>)
    requires taken + mid == before + added
    requires takenLater + after == mid + addedLater
    ensures (taken + takenLater) + after == before + (added + addedLater)
  {
    assert (taken + takenLater) + after == taken + (takenLater + after) == (taken + mid) + addedLater;
    assert (before + added) + addedLater == before + (added + addedLater);
  }

  /** As long as fewer than `|s.At(l)|` payloads have left the list, every poll that puts it first
      takes one. */
  lemma {:induction false} FirstPollsTake(s: Store, ops: seq<Op>, l: Level)
    ensures |AllTaken(s, ops, l)| >= FirstPolls(ops, l) || |AllTaken(s, ops, l)| >= |s.At(l)|
    decreases |ops|
  {
    if ops != [] {
      var s' := Apply(s, ops[0]);
      StepIsFifo(s, ops[0], l);
      FirstPollsTake(s', ops[1..], l);
      assert |s'.At(l)| + |Taken(s, ops[0], l)| >= |s.At(l)|;
    }
  }

  /** Bounded waiting: whatever else is pushed, promoted or polled meanwhile, the payload at index `i`
      of a list has been taken once `i + 1` polls have put that list first, and it is the
      `(i + 1)`-st payload taken from it. */
  lemma BoundedWaiting(s: Store, ops: seq<Op>, l: Level, i: nat)
    requires i < |s.At(l)|
    requires FirstPolls(ops, l) >= i + 1
    ensures i < |AllTaken(s, ops, l)| && AllTaken(s, ops, l)[i] == s.At(l)[i]
  {
    FirstPollsTake(s, ops, l);
    ListsAreFifo(s, ops, l);
    var taken, left := AllTaken(s, ops, l), Run(s, ops).At(l);
    assert taken[i] == (taken + left)[i];
  }

  /** Every payload in a list has the level of that list. */
  ghost predicate Routed(s: Store) {
    forall l: Level, p :: p in s.At(l) ==> QueueOf(p.priority) == l
  }

  lemma StepKeepsRouted(s: Store, op: Op)
    requires Routed(s)
    ensures Routed(Apply(s, op))
  {
    forall l: Level, p | p in Apply(s, op).At(l) ensures QueueOf(p.priority) == l {
      StepIsFifo(s, op, l);
      assert p in Taken(s, op, l) + Apply(s, op).At(l);
      assert p in s.At(l) || p in Appended(op, l);
      match op
      case Publish(q) => OfLevelMember([q], l, p);
      case PublishBatch(ps) => OfLevelMember(ps, l, p);
      case Promote(now, due) => OfLevelMember(due, l, p);
      case _ =>
    }
  }

  /** Publisher and consumer route alike: through every run of publishes, retries, promotions and
      polls a payload only ever sits in the list of its own level. */
  lemma {:induction false} RunsKeepRouted(s: Store, ops: seq<Op>)
    requires Routed(s)
    ensures Routed(Run(s, ops))
    decreases |ops|
  {
    if ops != [] {
      StepKeepsRouted(s, ops[0]);
      RunsKeepRouted(Apply(s, ops[0]), ops[1..]);
    }
  }
}
