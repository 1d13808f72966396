/** The publisher and the consumer as objects over one shared Redis, each method proved against the
    step of the queue it performs. */
module RedisQueue {
  import opened Wrappers
  import opened Payloads
  import opened TaskQueue

  /** The head of the list is gone, and nothing else has changed. */
  predicate IsPoppedFrom(s: Store, l: Level, p: Payload, s': Store) {
    && s.At(l) == [p] + s'.At(l) && (forall k: Level :: k != l ==> s'.At(k) == s.At(k))
    && s'.delayed == s.delayed && s'.dlq == s.dlq
  }

  /** The keys of one task queue, updated in place. */
  class Redis {
    var critical: seq<Payload>
    var high: seq<Payload>
    var medium: seq<Payload>
    var low: seq<Payload>
    var delayed: map<Payload, real>
    var dlq: seq<DeadLetter>

    function Contents(): Store
      reads this
    {
      Store(critical, high, medium, low, delayed, dlq)
    }

    constructor ()
      ensures Contents() == EMPTY
    {
      critical, high, medium, low, delayed, dlq := [], [], [], [], map[], [];
    }

    method RPush(l: Level, xs: seq<Payload>)
      modifies this
      ensures Contents() == old(Contents()).Push(l, xs)
    {
      match l
      case Critical => critical := critical + xs;
      case High => high := high + xs;
      case Medium => medium := medium + xs;
      case Low => low := low + xs;
    }

    /** Takes the head of the first list in `order` that is not empty. */
    method BLPop(order: seq<Level>) returns (popped: Option<Payload>)
      modifies this
      ensures popped == None ==> Contents() == old(Contents()) && forall l :: l in order ==> old(Contents()).At(l) == []
      ensures popped.Some? ==>
                exists i: nat :: i < |order| && IsPoppedFrom(old(Contents()), order[i], popped.value, Contents())
                                 && forall j :: 0 <= j < i ==> old(Contents()).At(order[j]) == []
    {
      var i := 0;
      while i < |order|
        invariant i <= |order| && Contents() == old(Contents())
        invariant forall j :: 0 <= j < i ==> Contents().At(order[j]) == []
      {
        var l := order[i];
        if Contents().At(l) != [] {
          popped := Some(Contents().At(l)[0]);
          match l {
            case Critical => critical := critical[1..];
            case High => high := high[1..];
            case Medium => medium := medium[1..];
            case Low => low := low[1..];
          }
          assert IsPoppedFrom(old(Contents()), order[i], popped.value, Contents());
          return;
        }
        i := i + 1;
      }
      popped := None;
    }

    /** The member of `candidates` with the least score. */
    method LeastScore(candidates: set<Payload>) returns (least: Payload)
      requires candidates != {} && forall p :: p in candidates ==> p in delayed
      ensures least in candidates && forall p :: p in candidates ==> delayed[least] <= delayed[p]
    {
      least :| least in candidates;
      var rest := candidates - {least};
      while rest != {}
        invariant rest <= candidates && least in candidates
        invariant forall p :: p in candidates - rest ==> delayed[least] <= delayed[p]
        decreases rest
      {
        var p :| p in rest;
        if delayed[p] < delayed[least] {
          least := p;
        }
        rest := rest - {p};
      }
    }

    /** ZRANGEBYSCORE 0 now LIMIT 0 50: the due members in score order, at most fifty. */
    method DueMembers(now: real) returns (due: seq<Payload>)
      ensures IsDueRead(delayed, now, due)
      ensures forall i :: 0 <= i < |due| ==> due[i] in delayed && 0.0 <= delayed[due[i]] <= now
      ensures forall i, j :: 0 <= i < j < |due| ==> due[i] != due[j] && delayed[due[i]] <= delayed[due[j]]
      ensures |due| <= 50 && forall q :: q in delayed && 0.0 <= delayed[q] <= now && q !in due ==> |due| == 50 && forall p :: p in due ==> delayed[p] <= delayed[q]
    {
      due := [];
      var left := DueSet(delayed, now);
      while left != {} && |due| < READ_LIMIT
        invariant |due| <= READ_LIMIT && |due| + |left| == |DueSet(delayed, now)|
        invariant left <= DueSet(delayed, now)
        invariant Distinct(due) && forall i :: 0 <= i < |due| ==> due[i] in DueSet(delayed, now) && due[i] !in left
        invariant forall q :: q in DueSet(delayed, now) && q !in due ==> q in left
        invariant forall i, j :: 0 <= i < j < |due| ==> delayed[due[i]] <= delayed[due[j]]
        invariant forall i, q :: 0 <= i < |due| && q in left ==> delayed[due[i]] <= delayed[q]
        decreases left
      {
        var p := LeastScore(left);
        due := due + [p];
        left := left - {p};
      }
      UnreadIsLater(delayed, now, due);
    }
  }

  /** What a read leaves out is not due before anything that it answers, and it answers fifty. */
  lemma UnreadIsLater(delayed: map<Payload, real>, now: real, due: seq<Payload>)
    requires IsDueRead(delayed, now, due)
    ensures |due| <= 50
    ensures forall q :: q in delayed && 0.0 <= delayed[q] <= now && q !in due ==> |due| == 50 && forall p :: p in due ==> delayed[p] <= delayed[q]
  {
    DueReadIsComplete(delayed, now, due);
    forall q | q in delayed && 0.0 <= delayed[q] <= now && q !in due
      ensures |due| == 50 && forall p :: p in due ==> delayed[p] <= delayed[q]
    {
      assert q in DueSet(delayed, now) && q !in (set p | p in due);
    }
  }

  // ---------------------------------------------------------------- grouping

  /** The list a grouping holds for a level; a level it does not mention has none. */
  function GroupOf(groups: map<Level, seq<Payload>>, l: Level): seq<Payload> {
    if l in groups then groups[l] else []
  }

  /** The loop with which both sides route a batch. */
  method Group(ps: seq<Payload>) returns (groups: map<Level, seq<Payload>>)
    ensures forall l: Level :: GroupOf(groups, l) == OfLevel(ps, l)
    ensures forall l :: l in groups ==> groups[l] != []
  {
    groups := map[];
    for i := 0 to |ps|
      invariant forall l: Level :: GroupOf(groups, l) == OfLevel(ps[..i], l)
      invariant forall l :: l in groups ==> groups[l] != []
    {
      var target := QueueOf(ps[i].priority);
      forall l: Level {
        OfLevelSnoc(ps, i, l);
      }
      hide OfLevel;
      hide QueueOf;
      groups := groups[target := GroupOf(groups, target) + [ps[i]]];
    }
    assert ps[..|ps|] == ps;
  }

  /** The pipeline: one RPUSH for each group. */
  method PushGroups(redis: Redis, groups: map<Level, seq<Payload>>)
    modifies redis
    ensures forall l: Level :: redis.Contents().At(l) == old(redis.Contents().At(l)) + GroupOf(groups, l)
    ensures redis.delayed == old(redis.delayed) && redis.dlq == old(redis.dlq)
  {
    var rest := groups.Keys;
    while rest != {}
      invariant rest <= groups.Keys
      invariant forall l: Level :: redis.Contents().At(l) == old(redis.Contents().At(l)) + if l in rest then [] else GroupOf(groups, l)
      invariant redis.delayed == old(redis.delayed) && redis.dlq == old(redis.dlq)
      decreases rest
    {
      var l :| l in rest;
      redis.RPush(l, groups[l]);
      rest := rest - {l};
    }
  }

  /** Stores are equal when their lists, their sorted sets and their dead letters are. */
  lemma SameStore(s: Store, t: Store)
    requires (forall l: Level :: s.At(l) == t.At(l)) && s.delayed == t.delayed && s.dlq == t.dlq
    ensures s == t
  {
    assert s.At(Critical) == t.At(Critical) && s.At(High) == t.At(High) && s.At(Medium) == t.At(Medium) && s.At(Low) == t.At(Low);
  }

  lemma PopIsExact(s: Store, l: Level, p: Payload, s': Store)
    requires IsPoppedFrom(s, l, p, s')
    ensures s.At(l) != [] && s.At(l)[0] == p && s' == s.Pop(l)
  {
    assert s'.At(l) == s.At(l)[1..] == s.Pop(l).At(l);
    SameStore(s', s.Pop(l));
  }

  /** What a pop in the order of a draw answers is what a poll answers. */
  lemma PopIsPoll(s: Store, draw: real, popped: Option<Payload>, s': Store)
    requires popped == None ==> s' == s && forall l :: l in PollOrder(draw) ==> s.At(l) == []
    requires popped.Some? ==>
               exists i: nat :: i < |PollOrder(draw)| && IsPoppedFrom(s, PollOrder(draw)[i], popped.value, s')
                                && forall j :: 0 <= j < i ==> s.At(PollOrder(draw)[j]) == []
    ensures (s', popped) == Polled(s, draw)
    ensures popped == None ==> s' == s && forall l: Level :: s.At(l) == []
    ensures popped.Some? ==>
              exists l: Level :: IsPoppedFrom(s, l, popped.value, s')
                                 && (IsChosen(draw, l) || forall k: Level :: IsChosen(draw, k) || IsAbove(k, l) ==> s.At(k) == [])
  {
    var order := PollOrder(draw);
    FirstReadyExact(s, order);
    PollServes(s, draw);
    PollOrderHasAll(draw);
    hide PollOrder, FirstReady;
    if popped.Some? {
      var i: nat :| i < |order| && IsPoppedFrom(s, order[i], popped.value, s') && forall j :: 0 <= j < i ==> s.At(order[j]) == [];
      PopIsExact(s, order[i], popped.value, s');
      assert IsFirstReady(s, order, i);
    }
  }

  class QueuePublisher {
    const redis: Redis

    constructor (redis: Redis)
      ensures this.redis == redis
    {
      this.redis := redis;
    }

    method Publish(p: Payload)
      modifies redis
      ensures redis.Contents() == Published(old(redis.Contents()), p)
      ensures forall l: Level :: redis.Contents().At(l) == old(redis.Contents()).At(l) + if l == QueueOf(p.priority) then [p] else []
      ensures redis.delayed == old(redis.delayed) && redis.dlq == old(redis.dlq)
    {
      redis.RPush(QueueOf(p.priority), [p]);
    }

    method PublishBatch(ps: seq<Payload>) returns (count: nat)
      modifies redis
      ensures redis.Contents() == PublishedBatch(old(redis.Contents()), ps)
      ensures count == |ps|
    {
      if ps == [] {
        count := 0;
      } else {
        var groups := Group(ps);
        PushGroups(redis, groups);
        count := |ps|;
      }
      SameStore(redis.Contents(), PublishedBatch(old(redis.Contents()), ps));
    }

    method ScheduleDelayed(p: Payload, delay: real, now: real)
      modifies redis
      ensures redis.Contents() == Scheduled(old(redis.Contents()), p, now + delay)
      ensures redis.delayed == old(redis.delayed)[p := now + delay] && redis.dlq == old(redis.dlq)
      ensures forall l: Level :: redis.Contents().At(l) == old(redis.Contents()).At(l)
    {
      redis.delayed := redis.delayed[p := now + delay];
    }
  }

  class QueueConsumer {
    const redis: Redis

    constructor (redis: Redis)
      ensures this.redis == redis
    {
      this.redis := redis;
    }

    /** The second half of a promotion, with what an earlier read answered. */
    method MoveDue(now: real, due: seq<Payload>)
      modifies redis
      ensures redis.Contents() == Promoted(old(redis.Contents()), now, due)
    {
      if due != [] {
        var groups := Group(due);
        PushGroups(redis, groups);
        redis.delayed := redis.delayed - DueSet(redis.delayed, now);
        SameStore(redis.Contents(), Promoted(old(redis.Contents()), now, due));
      }
    }

    method ProcessDelayedTasks(now: real) returns (due: seq<Payload>)
      modifies redis
      ensures IsDueRead(old(redis.delayed), now, due)
      ensures redis.Contents() == Promoted(old(redis.Contents()), now, due)
    {
      due := redis.DueMembers(now);
      MoveDue(now, due);
    }

    /** Serves the list that the draw has chosen, or else the one of highest priority, among those that are
        not empty after the promotion. */
    method Consume(now: real, draw: real) returns (payload: Option<Payload>, due: seq<Payload>)
      modifies redis
      ensures IsDueRead(old(redis.delayed), now, due)
      ensures (redis.Contents(), payload) == Polled(Promoted(old(redis.Contents()), now, due), draw)
      ensures var s := Promoted(old(redis.Contents()), now, due);
              && (payload == None ==> redis.Contents() == s && forall l: Level :: s.At(l) == [])
              && (payload.Some? ==>
                    exists l: Level ::
                      && IsPoppedFrom(s, l, payload.value, redis.Contents())
                      && (IsChosen(draw, l) || forall k: Level :: IsChosen(draw, k) || IsAbove(k, l) ==> s.At(k) == []))
    {
      due := ProcessDelayedTasks(now);
      ghost var s := redis.Contents();
      payload := redis.BLPop(PollOrder(draw));
      PopIsPoll(s, draw, payload, redis.Contents());
    }

    method SendToDlq(p: Payload, reason: Reason)
      modifies redis
      ensures redis.Contents() == DeadLettered(old(redis.Contents()), p, reason)
      ensures redis.dlq == old(redis.dlq) + [DeadLetter(p, reason)] && redis.delayed == old(redis.delayed)
      ensures forall l: Level :: redis.Contents().At(l) == old(redis.Contents()).At(l)
    {
      redis.dlq := redis.dlq + [DeadLetter(p, reason)];
    }
  }
}
