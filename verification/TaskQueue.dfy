/** The contents of the Redis keys of one task queue, and what each command of the publisher and the
    consumer does to them.  Each Redis command and each transactional pipeline is one step. */
module TaskQueue {
  import opened Wrappers
  import opened Payloads

  /** Why a payload was dead-lettered. */
  datatype Reason = RateLimitTimeout | RetriesExhausted

  datatype DeadLetter = DeadLetter(payload: Payload, reason: Reason)

  /** Four lists, the sorted set of delayed payloads (member to score) and the dead letter list. */
  datatype Store = Store(
    critical: seq<Payload>,
    high: seq<Payload>,
    medium: seq<Payload>,
    low: seq<Payload>,
    delayed: map<Payload, real>,
    dlq: seq<DeadLetter>)
  {
    function At(l: Level): seq<Payload> {
      match l
      case Critical => critical
      case High => high
      case Medium => medium
      case Low => low
    }

    /** RPUSH of `xs` to the list of level `l`. */
    function Push(l: Level, xs: seq<Payload>): (s: Store)
      ensures s.At(l) == At(l) + xs
      ensures forall k: Level :: k != l ==> s.At(k) == At(k)
      ensures s.delayed == delayed && s.dlq == dlq
    {
      match l
      case Critical => this.(critical := critical + xs)
      case High => this.(high := high + xs)
      case Medium => this.(medium := medium + xs)
      case Low => this.(low := low + xs)
    }

    /** LPOP from the list of level `l`. */
    function Pop(l: Level): (s: Store)
      requires At(l) != []
      ensures At(l) == [At(l)[0]] + s.At(l)
      ensures forall k: Level :: k != l ==> s.At(k) == At(k)
      ensures s.delayed == delayed && s.dlq == dlq
    {
      match l
      case Critical => this.(critical := critical[1..])
      case High => this.(high := high[1..])
      case Medium => this.(medium := medium[1..])
      case Low => this.(low := low[1..])
    }
  }

  const EMPTY := Store([], [], [], [], map[], [])

  const READ_LIMIT := 50

  // ---------------------------------------------------------------- publishing

  function Published(s: Store, p: Payload): Store {
    s.Push(QueueOf(p.priority), [p])
  }

  /** One pipeline that appends each group of the batch to its list. */
  function PublishedBatch(s: Store, ps: seq<Payload>): (r: Store)
    ensures forall l: Level :: r.At(l) == s.At(l) + OfLevel(ps, l)
    ensures r.delayed == s.delayed && r.dlq == s.dlq
  {
    s.Push(Critical, OfLevel(ps, Critical)).Push(High, OfLevel(ps, High))
     .Push(Medium, OfLevel(ps, Medium)).Push(Low, OfLevel(ps, Low))
  }

  lemma MediumIsListed(s: Store, ps: seq<Payload>)
    requires forall p :: p in ps ==> p.priority == ""
    ensures PublishedBatch(s, ps) == s.(medium := s.medium + ps)
  {
    var r := PublishedBatch(s, ps);
    forall l: Level ensures r.At(l) == s.At(l) + if l == Medium then ps else [] {
      AllMedium(ps, l);
    }
    hide PublishedBatch;
    assert r == Store(r.At(Critical), r.At(High), r.At(Medium), r.At(Low), r.delayed, r.dlq);
  }

  /** ZADD: a member already present only gets the new score. */
  function Scheduled(s: Store, p: Payload, executeAt: real): Store {
    s.(delayed := s.delayed[p := executeAt])
  }

  function DeadLettered(s: Store, p: Payload, reason: Reason): Store {
    s.(dlq := s.dlq + [DeadLetter(p, reason)])
  }

  // ---------------------------------------------------------------- promotion of due payloads

  predicate IsDue(score: real, now: real) {
    0.0 <= score <= now
  }

  function DueSet(delayed: map<Payload, real>, now: real): set<Payload> {
    set p | p in delayed && IsDue(delayed[p], now)
  }

  predicate Distinct<T(==)>(xs: seq<T>) {
    forall i, j :: 0 <= i < j < |xs| ==> xs[i] != xs[j]
  }

  /** What ZRANGEBYSCORE 0 now LIMIT 0 50 may answer: the due members of least score, in score order,
      ties in any order. */
  ghost predicate IsDueRead(delayed: map<Payload, real>, now: real, due: seq<Payload>) {
    && Distinct(due)
    && (forall i :: 0 <= i < |due| ==> due[i] in DueSet(delayed, now))
    && |due| == (if |DueSet(delayed, now)| <= READ_LIMIT then |DueSet(delayed, now)| else READ_LIMIT)
    && (forall i, j :: 0 <= i < j < |due| ==> delayed[due[i]] <= delayed[due[j]])
    && (forall i, q :: 0 <= i < |due| && q in DueSet(delayed, now) && q !in due ==> delayed[due[i]] <= delayed[q])
  }

  /** The pipeline that pushes what was read and removes every member with a score up to `now`;
      it is only sent when something was read. */
  function Promoted(s: Store, now: real, due: seq<Payload>): Store {
    if due == [] then s
    else PublishedBatch(s, due).(delayed := s.delayed - DueSet(s.delayed, now))
  }

  // ---------------------------------------------------------------- polling

  /** The order in which one poll offers the lists, given the random draw `r`. */
  function PollOrder(r: real): seq<Level> {
    if r < 0.60 then [Critical, High, Medium, Low]
    else if r < 0.85 then [High, Critical, Medium, Low]
    else if r < 0.95 then [Medium, Critical, High, Low]
    else [Low, Critical, High, Medium]
  }

  /** BLPOP takes the head of the first list in `order` that is not empty. */
  function FirstReady(s: Store, order: seq<Level>): Option<Level> {
    if order == [] then None
    else if s.At(order[0]) != [] then Some(order[0])
    else FirstReady(s, order[1..])
  }

  function Polled(s: Store, r: real): (Store, Option<Payload>) {
    match FirstReady(s, PollOrder(r))
    case Some(l) => if s.At(l) != [] then (s.Pop(l), Some(s.At(l)[0])) else (s, None)
    case None => (s, None)
  }

  lemma PollOrderHasAll(r: real)
    ensures |PollOrder(r)| == 4 && Distinct(PollOrder(r))
    ensures forall l: Level :: l in PollOrder(r)
  {
    var order := PollOrder(r);
    forall l: Level ensures l in order {
      assert l == order[0] || l == order[1] || l == order[2] || l == order[3];
    }
  }

  /** Every draw offers all four lists, each once, so a poll comes back empty only when all are. */
  lemma PollOrderIsFair(s: Store, r: real)
    ensures |PollOrder(r)| == 4 && Distinct(PollOrder(r)) && forall l: Level :: l in PollOrder(r)
    ensures Polled(s, r).1 == None <==> forall l: Level :: s.At(l) == []
    ensures s.At(PollOrder(r)[0]) != [] ==> Polled(s, r) == (s.Pop(PollOrder(r)[0]), Some(s.At(PollOrder(r)[0])[0]))
  {
    PollOrderHasAll(r);
    FirstReadyExact(s, PollOrder(r));
  }

  /** List `i` of the order is the first that is not empty. */
  ghost predicate IsFirstReady(s: Store, order: seq<Level>, i: nat) {
    i < |order| && s.At(order[i]) != [] && forall j :: 0 <= j < i ==> s.At(order[j]) == []
  }

  /** The list served is the first one of the order that is not empty, if there is one. */
  lemma {:induction false} FirstReadyExact(s: Store, order: seq<Level>)
    ensures match FirstReady(s, order)
            case Some(l) => s.At(l) != [] && exists i: nat :: i < |order| && order[i] == l && forall j :: 0 <= j < i ==> s.At(order[j]) == []
            case None => forall l :: l in order ==> s.At(l) == []
    ensures forall i: nat :: IsFirstReady(s, order, i) ==> FirstReady(s, order) == Some(order[i])
  {
    if order != [] {
      var rest := order[1..];
      FirstReadyExact(s, rest);
      if s.At(order[0]) == [] {
        if FirstReady(s, rest).Some? {
          var i: nat :| i < |rest| && rest[i] == FirstReady(s, rest).value && forall j :: 0 <= j < i ==> s.At(rest[j]) == [];
          assert order[i + 1] == rest[i];
        }
        forall i: nat | IsFirstReady(s, order, i) ensures FirstReady(s, order) == Some(order[i]) {
          assert i > 0 && order[i] == rest[i - 1];
          assert forall j :: 0 <= j < i - 1 ==> rest[j] == order[j + 1];
          assert IsFirstReady(s, rest, i - 1);
        }
      }
    }
  }

  /** The list a draw puts first: critical with a share of 60 percent, high with 25, medium with 10 and low
      with 5. */
  predicate IsChosen(r: real, l: Level) {
    match l
    case Critical => r < 0.60
    case High => 0.60 <= r < 0.85
    case Medium => 0.85 <= r < 0.95
    case Low => 0.95 <= r
  }

  /** The level comes before the other one in priority. */
  predicate IsAbove(k: Level, l: Level) {
    match l
    case Critical => false
    case High => k.Critical?
    case Medium => k.Critical? || k.High?
    case Low => !k.Low?
  }

  /** A poll serves the list that the draw has chosen, or else the one of highest priority, among those that
      are not empty; it comes back empty when all are. */
  lemma PollServes(s: Store, r: real)
    ensures match Polled(s, r)
            case (s', None) => s' == s && forall l: Level :: s.At(l) == []
            case (s', Some(p)) =>
              exists l: Level ::
                && s.At(l) != [] && p == s.At(l)[0] && s' == s.Pop(l)
                && (IsChosen(r, l) || forall k: Level :: IsChosen(r, k) || IsAbove(k, l) ==> s.At(k) == [])
  {
    var order := PollOrder(r);
    FirstReadyExact(s, order);
    PollOrderHasAll(r);
    if FirstReady(s, order).Some? {
      var l := FirstReady(s, order).value;
      var i: nat :| i < |order| && order[i] == l && forall j :: 0 <= j < i ==> s.At(order[j]) == [];
      OrderIsByPriority(r);
      if !IsChosen(r, l) {
        forall k: Level | IsChosen(r, k) || IsAbove(k, l) ensures s.At(k) == [] {
          assert k in order;
          var j :| 0 <= j < |order| && order[j] == k;
          assert j < i;
        }
      }
    }
  }

  /** The order of a poll: the chosen list, then the others by priority. */
  lemma OrderIsByPriority(r: real)
    ensures |PollOrder(r)| == 4 && (forall l: Level :: l in PollOrder(r)) && (forall l: Level :: IsChosen(r, l) <==> l == PollOrder(r)[0])
    ensures forall i, j :: 1 <= i < j < 4 ==> IsAbove(PollOrder(r)[i], PollOrder(r)[j])
  {
    PollOrderHasAll(r);
  }

  /** A poll either changes nothing or takes the head of exactly one list. */
  lemma PollTakesOneHead(s: Store, r: real)
    ensures match Polled(s, r)
            case (s', None) => s' == s
            case (s', Some(p)) => exists l: Level :: s.At(l) != [] && s.At(l)[0] == p && s' == s.Pop(l)
  {
    FirstReadyExact(s, PollOrder(r));
  }

  // ---------------------------------------------------------------- sets and sequences

  lemma {:induction false} DistinctCount<T>(xs: seq<T>)
    requires Distinct(xs)
    ensures |set x | x in xs| == |xs|
  {
    if xs != [] {
      var tail := xs[1..];
      assert forall i :: 0 <= i < |tail| ==> tail[i] == xs[i + 1];
      DistinctCount(tail);
      assert (set x | x in xs) == {xs[0]} + (set x | x in tail);
    }
  }

  lemma SubsetOfSameSize<T>(a: set<T>, b: set<T>)
    requires a <= b && |a| == |b|
    ensures a == b
  {
    if exists x :: x in b && x !in a {
      var x :| x in b && x !in a;
      assert a <= b - {x};
      SubsetSize(a, b - {x});
    }
  }

  lemma {:induction false} SubsetSize<T>(a: set<T>, b: set<T>)
    requires a <= b
    ensures |a| <= |b|
    decreases a
  {
    if a != {} {
      var x :| x in a;
      SubsetSize(a - {x}, b - {x});
    }
  }

  /** With at most fifty due members the read sees all of them; otherwise it sees fifty. */
  lemma DueReadIsComplete(delayed: map<Payload, real>, now: real, due: seq<Payload>)
    requires IsDueRead(delayed, now, due)
    ensures |DueSet(delayed, now)| <= 50 <==> (set p | p in due) == DueSet(delayed, now)
    ensures |due| == if |DueSet(delayed, now)| <= 50 then |DueSet(delayed, now)| else 50
  {
    DistinctCount(due);
    if |DueSet(delayed, now)| <= READ_LIMIT {
      SubsetOfSameSize((set p | p in due), DueSet(delayed, now));
    }
  }

  // ---------------------------------------------------------------- promotion, exactly

  ghost function Queued(s: Store): multiset<Payload> {
    multiset(s.critical) + multiset(s.high) + multiset(s.medium) + multiset(s.low)
  }

  /** All payloads waiting in the lists or in the sorted set. */
  ghost function Waiting(s: Store): multiset<Payload> {
    Queued(s) + multiset(s.delayed.Keys)
  }

  function ListTotal(s: Store): nat {
    |s.critical| + |s.high| + |s.medium| + |s.low|
  }

  /** One undisturbed promotion of `d` due payloads appends min(d, 50) of them, each to the list of
      its own level in the order read, and takes all `d` out of the sorted set; what is not yet due
      stays.  So it keeps the waiting payloads if and only if no more than fifty were due. */
  lemma PromotionExact(s: Store, now: real, due: seq<Payload>)
    requires IsDueRead(s.delayed, now, due)
    ensures var s', d := Promoted(s, now, due), |DueSet(s.delayed, now)|;
            && (forall l: Level :: s'.At(l) == s.At(l) + OfLevel(due, l))
            && ListTotal(s') == ListTotal(s) + (if d <= 50 then d else 50)
            && (forall p :: p in s'.delayed <==> p in s.delayed && !(0.0 <= s.delayed[p] <= now))
            && (forall p :: p in s'.delayed ==> s'.delayed[p] == s.delayed[p])
            && |s'.delayed| == |s.delayed| - d
            && s'.dlq == s.dlq
            && (Waiting(s') == Waiting(s) <==> d <= 50)
  {
    DueReadIsComplete(s.delayed, now, due);
    PromotionSizes(s, now, due);
    var s', dues := Promoted(s, now, due), DueSet(s.delayed, now);
    if |dues| <= READ_LIMIT {
      CompletePromotionConserves(s, now, due);
    } else {
      WaitingSize(s);
      WaitingSize(s');
    }
  }

  lemma PromotionSizes(s: Store, now: real, due: seq<Payload>)
    requires IsDueRead(s.delayed, now, due)
    ensures var s', d := Promoted(s, now, due), |DueSet(s.delayed, now)|;
            && s'.delayed == s.delayed - DueSet(s.delayed, now)
            && |s'.delayed| == |s.delayed| - d
            && ListTotal(s') == ListTotal(s) + |due|
            && (forall l: Level :: s'.At(l) == s.At(l) + OfLevel(due, l))
  {
    PromotionDelayed(s, now, due);
    PromotionLists(s, now, due);
    ListSizes(s, Promoted(s, now, due), due);
  }

  lemma PromotionLists(s: Store, now: real, due: seq<Payload>)
    ensures forall l: Level :: Promoted(s, now, due).At(l) == s.At(l) + OfLevel(due, l)
  {
    forall l: Level ensures Promoted(s, now, due).At(l) == s.At(l) + OfLevel(due, l) {
      if due == [] {
        assert s.At(l) + [] == s.At(l);
      }
    }
  }

  lemma ListSizes(s: Store, s': Store, due: seq<Payload>)
    requires forall l: Level :: s'.At(l) == s.At(l) + OfLevel(due, l)
    ensures ListTotal(s') == ListTotal(s) + |due|
  {
    GroupSizes(due);
    assert |s'.At(Critical)| == |s.At(Critical)| + |OfLevel(due, Critical)|;
    assert |s'.At(High)| == |s.At(High)| + |OfLevel(due, High)|;
    assert |s'.At(Medium)| == |s.At(Medium)| + |OfLevel(due, Medium)|;
    assert |s'.At(Low)| == |s.At(Low)| + |OfLevel(due, Low)|;
  }

  lemma PromotionDelayed(s: Store, now: real, due: seq<Payload>)
    requires IsDueRead(s.delayed, now, due)
    ensures var s', dues := Promoted(s, now, due), DueSet(s.delayed, now);
            && s'.delayed == s.delayed - dues
            && |s'.delayed| == |s.delayed| - |dues|
  {
    var s', dues := Promoted(s, now, due), DueSet(s.delayed, now);
    if due == [] {
      assert dues == {};
      assert s.delayed == s.delayed - dues;
    }
    SetSplit(s.delayed.Keys, dues);
    assert s'.delayed.Keys == s.delayed.Keys - dues;
    assert |s'.delayed| == |s'.delayed.Keys| && |s.delayed| == |s.delayed.Keys|;
  }

  lemma CompletePromotionConserves(s: Store, now: real, due: seq<Payload>)
    requires IsDueRead(s.delayed, now, due) && |DueSet(s.delayed, now)| <= READ_LIMIT
    ensures Waiting(Promoted(s, now, due)) == Waiting(s)
  {
    DueReadIsComplete(s.delayed, now, due);
    PromotionDelayed(s, now, due);
    PromotionLists(s, now, due);
    DistinctMultiset(due);
    ListMultisets(s, due, Promoted(s, now, due));
    MovedMultiset(s, Promoted(s, now, due), due, DueSet(s.delayed, now));
  }

  lemma MovedMultiset(s: Store, s': Store, due: seq<Payload>, dues: set<Payload>)
    requires Queued(s') == Queued(s) + multiset(due) && multiset(due) == multiset(dues)
    requires s'.delayed == s.delayed - dues && dues <= s.delayed.Keys
    ensures Waiting(s') == Waiting(s)
  {
    assert s'.delayed.Keys == s.delayed.Keys - dues;
    MultisetSplit(s.delayed.Keys, dues);
  }

  lemma ListMultisets(s: Store, due: seq<Payload>, s': Store)
    requires forall l: Level :: s'.At(l) == s.At(l) + OfLevel(due, l)
    ensures Queued(s') == Queued(s) + multiset(due)
  {
    GroupsPartition(due);
    assert s'.critical == s'.At(Critical) == s.critical + OfLevel(due, Critical);
    assert s'.high == s'.At(High) == s.high + OfLevel(due, High);
    assert s'.medium == s'.At(Medium) == s.medium + OfLevel(due, Medium);
    assert s'.low == s'.At(Low) == s.low + OfLevel(due, Low);
  }

  lemma MultisetSplit<T>(a: set<T>, b: set<T>)
    requires b <= a
    ensures multiset(a) == multiset(b) + multiset(a - b)
  {}

  lemma WaitingSize(s: Store)
    ensures |Waiting(s)| == ListTotal(s) + |s.delayed|
  {
    assert |s.delayed| == |s.delayed.Keys| == |multiset(s.delayed.Keys)|;
  }

  lemma SetSplit<T>(a: set<T>, b: set<T>)
    requires b <= a
    ensures |a - b| == |a| - |b|
  {
    assert a == b + (a - b);
  }

  lemma GroupSizes(ps: seq<Payload>)
    ensures |OfLevel(ps, Critical)| + |OfLevel(ps, High)| + |OfLevel(ps, Medium)| + |OfLevel(ps, Low)| == |ps|
  {
    GroupsPartition(ps);
    assert |multiset(ps)| == |ps|;
    assert |multiset(OfLevel(ps, Critical)) + multiset(OfLevel(ps, High)) + multiset(OfLevel(ps, Medium)) + multiset(OfLevel(ps, Low))|
        == |OfLevel(ps, Critical)| + |OfLevel(ps, High)| + |OfLevel(ps, Medium)| + |OfLevel(ps, Low)|;
  }

  lemma DistinctMultiset<T>(xs: seq<T>)
    requires Distinct(xs)
    ensures multiset(xs) == multiset(set x | x in xs)
  {
    forall x: T ensures multiset(xs)[x] == multiset(set y | y in xs)[x] {
      DistinctOnce(xs, x);
    }
  }

  lemma {:induction false} DistinctOnce<T>(xs: seq<T>, x: T)
    requires Distinct(xs)
    ensures multiset(xs)[x] == if x in xs then 1 else 0
  {
    if xs != [] {
      var tail := xs[1..];
      assert forall i :: 0 <= i < |tail| ==> tail[i] == xs[i + 1];
      DistinctOnce(tail, x);
      assert xs == [xs[0]] + tail;
    }
  }
}
