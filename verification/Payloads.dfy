/** The queue payload and the routing of a priority level to one of the four Redis lists. */
module Payloads {
  import opened Letters

  /** The part of a payload the queue and the engine look at.  `request` stands for the fields
      that are only carried along (method, URL, headers, body, time of enqueueing), so two payloads
      are equal exactly when their serialised forms are. */
  datatype Payload = Payload(
    taskId: nat,
    scanId: nat,
    request: string,
    attempt: nat,
    maxRetries: int,
    priority: string)

  datatype Level = Critical | High | Medium | Low

  /** The priority map shared by publisher and consumer; unknown levels go to the medium list. */
  function QueueOf(priority: string): Level {
    if |priority| != 2 || Upper(priority)[0] != 'P' then Medium
    else match Upper(priority)[1]
      case '1' => Critical
      case '2' => High
      case '4' => Low
      case _ => Medium
  }

  /** The map as the source writes it: up to case P1 is critical, P2 high, P4 low, and P3 and all else medium. */
  lemma QueueOfIsTheMap(priority: string)
    ensures QueueOf(priority) == Critical <==> SameButCase(priority, "P1")
    ensures QueueOf(priority) == High <==> SameButCase(priority, "P2")
    ensures QueueOf(priority) == Low <==> SameButCase(priority, "P4")
  {
    var u := Upper(priority);
    if |priority| == 2 && u[0] == 'P' {
      assert u == [u[0], u[1]];
    }
    UpperIsTheForm(priority, "P1");
    UpperIsTheForm(priority, "P2");
    UpperIsTheForm(priority, "P4");
  }

  function IfOfLevel(p: Payload, l: Level): seq<Payload> {
    if QueueOf(p.priority) == l then [p] else []
  }

  /** The subsequence of `ps` that belongs to the list of level `l`. */
  function OfLevel(ps: seq<Payload>, l: Level): seq<Payload> {
    if ps == [] then []
    else IfOfLevel(ps[0], l) + OfLevel(ps[1..], l)
  }

  lemma Associative<T>(x: seq<T>, y: seq<T>, z: seq<T>)
    ensures x + (y + z) == (x + y) + z
  {}

  lemma {:induction false} OfLevelAppend(a: seq<Payload>, b: seq<Payload>, l: Level)
    ensures OfLevel(a + b, l) == OfLevel(a, l) + OfLevel(b, l)
  {
    if a == [] {
      assert a + b == b;
    } else {
      OfLevelAppend(a[1..], b, l);
      ConsAppend(a[0], a[1..], b, l);
      assert a == [a[0]] + a[1..];
    }
  }

  lemma ConsAppend(p: Payload, a: seq<Payload>, b: seq<Payload>, l: Level)
    requires OfLevel(a + b, l) == OfLevel(a, l) + OfLevel(b, l)
    ensures OfLevel([p] + a + b, l) == OfLevel([p] + a, l) + OfLevel(b, l)
  {
    hide *;
    OfLevelCons(p, a + b, l);
    OfLevelCons(p, a, l);
    Associative(IfOfLevel(p, l), OfLevel(a, l), OfLevel(b, l));
    assert [p] + a + b == [p] + (a + b);
  }

  lemma OfLevelCons(p: Payload, ps: seq<Payload>, l: Level)
    ensures OfLevel([p] + ps, l) == IfOfLevel(p, l) + OfLevel(ps, l)
  {
    assert ([p] + ps)[0] == p && ([p] + ps)[1..] == ps;
  }

  /** Payloads without a named priority all go to the medium list. */
  lemma {:induction false} AllMedium(ps: seq<Payload>, l: Level)
    requires forall p :: p in ps ==> p.priority == ""
    ensures OfLevel(ps, l) == if l == Medium then ps else []
  {
    if ps != [] {
      AllMedium(ps[1..], l);
      OfLevelCons(ps[0], ps[1..], l);
      assert [ps[0]] + ps[1..] == ps;
    }
  }

  /** One more payload joins the group of its own level only. */
  lemma OfLevelSnoc(ps: seq<Payload>, i: nat, l: Level)
    requires i < |ps|
    ensures OfLevel(ps[..i + 1], l) == if QueueOf(ps[i].priority) == l then OfLevel(ps[..i], l) + [ps[i]] else OfLevel(ps[..i], l)
  {
    assert ps[..i + 1] == ps[..i] + [ps[i]];
    OfLevelAppend(ps[..i], [ps[i]], l);
    OfLevelCons(ps[i], [], l);
    assert [ps[i]] + [] == [ps[i]];
  }

  lemma {:induction false} OfLevelMember(ps: seq<Payload>, l: Level, p: Payload)
    ensures p in OfLevel(ps, l) <==> p in ps && QueueOf(p.priority) == l
  {
    if ps != [] {
      OfLevelMember(ps[1..], l, p);
      assert p in ps <==> p == ps[0] || p in ps[1..];
    }
  }

  /** The positions from `from` on that hold payloads of level `l`, in increasing order. */
  ghost function Positions(ps: seq<Payload>, l: Level, from: nat): seq<nat>
    requires from <= |ps|
    decreases |ps| - from
  {
    if from == |ps| then []
    else (if QueueOf(ps[from].priority) == l then [from] else []) + Positions(ps, l, from + 1)
  }

  /** The payloads of `ps` at the given positions. */
  ghost function ReadAt(ps: seq<Payload>, at: seq<nat>): seq<Payload>
    requires forall k :: 0 <= k < |at| ==> at[k] < |ps|
  {
    if at == [] then [] else [ps[at[0]]] + ReadAt(ps, at[1..])
  }

  lemma {:induction false} PositionsAreExact(ps: seq<Payload>, l: Level, from: nat)
    requires from <= |ps|
    ensures var at := Positions(ps, l, from);
            && (forall i :: i in at <==> from <= i < |ps| && QueueOf(ps[i].priority) == l)
            && (forall k :: 0 <= k < |at| ==> from <= at[k] < |ps|)
            && (forall j, k :: 0 <= j < k < |at| ==> at[j] < at[k])
    decreases |ps| - from
  {
    if from < |ps| {
      PositionsAreExact(ps, l, from + 1);
      var tail := Positions(ps, l, from + 1);
      assert forall k :: 0 <= k < |tail| ==> tail[k] in tail;
    }
  }

  lemma {:induction false} GroupReadsPositions(ps: seq<Payload>, l: Level, from: nat)
    requires from <= |ps|
    ensures forall k :: 0 <= k < |Positions(ps, l, from)| ==> Positions(ps, l, from)[k] < |ps|
    ensures OfLevel(ps[from..], l) == ReadAt(ps, Positions(ps, l, from))
    decreases |ps| - from
  {
    PositionsAreExact(ps, l, from);
    if from < |ps| {
      var tail := Positions(ps, l, from + 1);
      PositionsAreExact(ps, l, from + 1);
      GroupReadsPositions(ps, l, from + 1);
      OfLevelCons(ps[from], ps[from + 1..], l);
      assert ps[from..] == [ps[from]] + ps[from + 1..];
      if QueueOf(ps[from].priority) == l {
        assert Positions(ps, l, from) == [from] + tail;
        assert ([from] + tail)[1..] == tail;
      } else {
        assert Positions(ps, l, from) == tail;
      }
    }
  }

  /** Grouping is stable: the group of level `l` reads exactly the positions that hold that level, in
      increasing order. */
  lemma GroupingIsStable(ps: seq<Payload>, l: Level)
    ensures exists at: seq<nat> ::
              && (forall i :: i in at <==> 0 <= i < |ps| && QueueOf(ps[i].priority) == l)
              && (forall k :: 0 <= k < |at| ==> at[k] < |ps|)
              && (forall j, k :: 0 <= j < k < |at| ==> at[j] < at[k])
              && OfLevel(ps, l) == ReadAt(ps, at)
  {
    PositionsAreExact(ps, l, 0);
    GroupReadsPositions(ps, l, 0);
    assert ps[0..] == ps;
  }

  /** How often task `t` occurs in `ps`. */
  function Occurrences(ps: seq<Payload>, t: nat): nat {
    if ps == [] then 0
    else (if ps[0].taskId == t then 1 else 0) + Occurrences(ps[1..], t)
  }

  lemma {:induction false} OccurrencesAppend(a: seq<Payload>, b: seq<Payload>, t: nat)
    ensures Occurrences(a + b, t) == Occurrences(a, t) + Occurrences(b, t)
  {
    if a == [] {
      assert a + b == b;
    } else {
      OccurrencesAppend(a[1..], b, t);
      assert (a + b)[1..] == a[1..] + b;
    }
  }

  lemma {:induction false} OccurrencesZero(ps: seq<Payload>, t: nat)
    ensures Occurrences(ps, t) == 0 <==> forall i :: 0 <= i < |ps| ==> ps[i].taskId != t
  {
    if ps != [] {
      OccurrencesZero(ps[1..], t);
      assert forall i :: 1 <= i < |ps| ==> ps[i] == ps[1..][i - 1];
      assert forall i :: 0 <= i < |ps[1..]| ==> ps[1..][i] == ps[i + 1];
    }
  }

  /** The four groups of a batch together hold each task as often as the batch does. */
  lemma {:induction false} GroupsKeepOccurrences(ps: seq<Payload>, t: nat)
    ensures Occurrences(OfLevel(ps, Critical), t) + Occurrences(OfLevel(ps, High), t)
          + Occurrences(OfLevel(ps, Medium), t) + Occurrences(OfLevel(ps, Low), t)
         == Occurrences(ps, t)
  {
    if ps != [] {
      GroupsKeepOccurrences(ps[1..], t);
      forall l: Level
        ensures Occurrences(OfLevel(ps, l), t)
             == (if QueueOf(ps[0].priority) == l && ps[0].taskId == t then 1 else 0) + Occurrences(OfLevel(ps[1..], l), t)
      {
        OccurrencesAppend(IfOfLevel(ps[0], l), OfLevel(ps[1..], l), t);
      }
    }
  }

  /** The four groups of a batch are a partition of it: nothing is lost, invented or repeated. */
  lemma GroupsPartition(ps: seq<Payload>)
    ensures multiset(OfLevel(ps, Critical)) + multiset(OfLevel(ps, High))
          + multiset(OfLevel(ps, Medium)) + multiset(OfLevel(ps, Low))
         == multiset(ps)
  {
    forall p: Payload
      ensures multiset(OfLevel(ps, Critical))[p] + multiset(OfLevel(ps, High))[p]
            + multiset(OfLevel(ps, Medium))[p] + multiset(OfLevel(ps, Low))[p]
           == multiset(ps)[p]
    {
      GroupCount(ps, Critical, p);
      GroupCount(ps, High, p);
      GroupCount(ps, Medium, p);
      GroupCount(ps, Low, p);
    }
  }

  lemma {:induction false} GroupCount(ps: seq<Payload>, l: Level, p: Payload)
    ensures multiset(OfLevel(ps, l))[p] == if QueueOf(p.priority) == l then multiset(ps)[p] else 0
  {
    if ps != [] {
      GroupCount(ps[1..], l, p);
      assert OfLevel(ps, l) == IfOfLevel(ps[0], l) + OfLevel(ps[1..], l);
      assert ps == [ps[0]] + ps[1..];
    }
  }
}
