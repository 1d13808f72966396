/** Where a task can be, and how each step of the store moves it. */
module Places {
  import opened Wrappers
  import opened Payloads
  import opened TaskQueue
  import opened Engine

  /** How many list slots hold the task. */
  function InLists(s: Store, t: nat): nat {
    Occurrences(s.critical, t) + Occurrences(s.high, t) + Occurrences(s.medium, t) + Occurrences(s.low, t)
  }

  function DelayedOf(s: Store, t: nat): set<Payload> {
    set p | p in s.delayed && p.taskId == t
  }

  function Buried(dlq: seq<DeadLetter>, t: nat): nat {
    if dlq == [] then 0 else (if dlq[0].payload.taskId == t then 1 else 0) + Buried(dlq[1..], t)
  }

  /** The run still has to hand the task on: it has neither saved a success nor put the task anywhere. */
  predicate Carries(stage: Stage) {
    !stage.Releasing? && !(stage.Evaluating? && stage.outcome.Ok?)
  }

  function CarriersOf(runs: map<nat, Run>, t: nat): set<nat> {
    set id | id in runs && runs[id].payload.taskId == t && Carries(runs[id].stage)
  }

  function Finished(tasks: Tasks, t: nat): nat {
    if t in tasks && tasks[t].status == SUCCESS then 1 else 0
  }

  /** The number of places the task is in: list slots, the delayed set, runs, dead letters, and being
      finished with success. */
  function PlacesOf(w: World, t: nat): nat {
    InLists(w.store, t) + |DelayedOf(w.store, t)| + |CarriersOf(w.runs, t)| + Buried(w.store.dlq, t) + Finished(w.tasks, t)
  }

  // ---------------------------------------------------------------- store steps

  lemma BatchPlaces(s: Store, ps: seq<Payload>, t: nat)
    ensures InLists(PublishedBatch(s, ps), t) == InLists(s, t) + Occurrences(ps, t)
  {
    var s' := PublishedBatch(s, ps);
    forall l: Level
      ensures Occurrences(s'.At(l), t) == Occurrences(s.At(l), t) + Occurrences(OfLevel(ps, l), t)
    {
      OccurrencesAppend(s.At(l), OfLevel(ps, l), t);
    }
    AtEach(s, t);
    AtEach(s', t);
    GroupsKeepOccurrences(ps, t);
  }

  lemma AtEach(s: Store, t: nat)
    ensures InLists(s, t) == Occurrences(s.At(Critical), t) + Occurrences(s.At(High), t)
                           + Occurrences(s.At(Medium), t) + Occurrences(s.At(Low), t)
  {}

  lemma PopPlaces(s: Store, draw: real, t: nat)
    ensures match Polled(s, draw)
            case (s', Some(p)) => InLists(s', t) + (if p.taskId == t then 1 else 0) == InLists(s, t)
                                  && s'.delayed == s.delayed && s'.dlq == s.dlq
            case (s', None) => s' == s
  {
    PollTakesOneHead(s, draw);
    var (s', o) := Polled(s, draw);
    if o.Some? {
      var l: Level :| s.At(l) != [] && s.At(l)[0] == o.value && s' == s.Pop(l);
      AtEach(s, t);
      AtEach(s', t);
      assert s.At(l)[1..] == s'.At(l);
    }
  }

  lemma SchedulePlaces(s: Store, p: Payload, at: real, t: nat)
    requires p !in s.delayed
    ensures |DelayedOf(Scheduled(s, p, at), t)| == |DelayedOf(s, t)| + if p.taskId == t then 1 else 0
  {
    assert DelayedOf(Scheduled(s, p, at), t) == DelayedOf(s, t) + if p.taskId == t then {p} else {};
  }

  lemma {:induction false} BuryPlaces(dlq: seq<DeadLetter>, d: DeadLetter, t: nat)
    ensures Buried(dlq + [d], t) == Buried(dlq, t) + if d.payload.taskId == t then 1 else 0
  {
    if dlq == [] {
      assert dlq + [d] == [d];
    } else {
      BuryPlaces(dlq[1..], d, t);
      assert (dlq + [d])[1..] == dlq[1..] + [d];
    }
  }

  lemma {:induction false} BuriedZero(dlq: seq<DeadLetter>, t: nat)
    ensures Buried(dlq, t) == 0 <==> forall i :: 0 <= i < |dlq| ==> dlq[i].payload.taskId != t
  {
    if dlq != [] {
      BuriedZero(dlq[1..], t);
      assert forall i :: 1 <= i < |dlq| ==> dlq[i] == dlq[1..][i - 1];
      assert forall i :: 0 <= i < |dlq[1..]| ==> dlq[1..][i] == dlq[i + 1];
    }
  }

  lemma {:induction false} DistinctOccurrences(ps: seq<Payload>, t: nat)
    requires Distinct(ps)
    ensures Occurrences(ps, t) == |set p | p in ps && p.taskId == t|
  {
    if ps != [] {
      var tail := ps[1..];
      assert forall i :: 0 <= i < |tail| ==> tail[i] == ps[i + 1];
      DistinctOccurrences(tail, t);
      assert (set p | p in ps && p.taskId == t)
          == (set p | p in tail && p.taskId == t) + if ps[0].taskId == t then {ps[0]} else {};
    }
  }

  /** The due payloads of one task. */
  function DueOf(s: Store, now: real, t: nat): set<Payload> {
    set p | p in DueSet(s.delayed, now) && p.taskId == t
  }

  lemma MoveTakesDue(s: Store, now: real, due: seq<Payload>, t: nat)
    requires due != []
    ensures |DelayedOf(Promoted(s, now, due), t)| == |DelayedOf(s, t)| - |DueOf(s, now, t)|
  {
    hide PublishedBatch;
    assert DelayedOf(Promoted(s, now, due), t) == DelayedOf(s, t) - DueOf(s, now, t);
    SetSplit(DelayedOf(s, t), DueOf(s, now, t));
  }

  /** A move pushes each of the payloads it was given. */
  lemma MovePushes(s: Store, now: real, due: seq<Payload>, t: nat)
    requires Distinct(due)
    ensures InLists(Promoted(s, now, due), t) == InLists(s, t) + |set p | p in due && p.taskId == t|
  {
    DistinctOccurrences(due, t);
    if due != [] {
      BatchPlaces(s, due, t);
    }
  }

  /** A move of exactly what is due puts each task from the sorted set into a list. */
  lemma MovePlaces(s: Store, now: real, due: seq<Payload>, t: nat)
    requires Distinct(due) && (set p | p in due) == DueSet(s.delayed, now)
    ensures var s' := Promoted(s, now, due);
            InLists(s', t) + |DelayedOf(s', t)| == InLists(s, t) + |DelayedOf(s, t)| && s'.dlq == s.dlq
  {
    MovePushes(s, now, due, t);
    hide Distinct;
    assert forall p :: p in due <==> p in (set q | q in due);
    assert (set p | p in due && p.taskId == t) == DueOf(s, now, t);
    if due != [] {
      MoveTakesDue(s, now, due, t);
    }
  }

  /** A promotion that read everything that is due does so. */
  lemma PromotionPlaces(s: Store, now: real, due: seq<Payload>, t: nat)
    requires IsDueRead(s.delayed, now, due) && |DueSet(s.delayed, now)| <= READ_LIMIT
    ensures var s' := Promoted(s, now, due);
            InLists(s', t) + |DelayedOf(s', t)| == InLists(s, t) + |DelayedOf(s, t)| && s'.dlq == s.dlq
  {
    DueReadIsComplete(s.delayed, now, due);
    MovePlaces(s, now, due, t);
  }
}
