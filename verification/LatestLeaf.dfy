/** Which leaf a flat entry shows when several print alike: the latest one of the body. */
module LatestLeaf {
  import opened DiffEngine
  import opened FlatEntries

  /** A place in a body: which child to take, level by level. */
  type Place = seq<nat>

  /** The place is that of the scalar `v`. */
  predicate Holds(j: Json, place: Place, v: Json)
    decreases |place|
  {
    if place == [] then !IsContainer(j) && v == j
    else place[0] < Size(j) && Holds(Child(j, place[0]), place[1..], v)
  }

  function PathOf(j: Json, place: Place): Path
    decreases |place|
  {
    if place == [] || place[0] >= Size(j) then [] else [StepTo(j, place[0])] + PathOf(Child(j, place[0]), place[1..])
  }

  /** Reading the body from front to back, `p` comes before `q`. */
  predicate IsBefore(p: Place, q: Place)
    decreases |p|
  {
    p != [] && q != [] && (p[0] < q[0] || (p[0] == q[0] && IsBefore(p[1..], q[1..])))
  }

  /** The leaf at `place` prints to `key` below `at`. */
  predicate PrintsTo(j: Json, at: Path, place: Place, v: Json, key: string) {
    Holds(j, place, v) && Printed(at + PathOf(j, place)) == key
  }

  /** Of the leaves that print to `key`, among the first `n` children, the one at `place` is the latest. */
  ghost predicate IsLatest(j: Json, at: Path, place: Place, v: Json, key: string, n: nat) {
    && PrintsTo(j, at, place, v, key) && IsWithin(place, n)
    && forall other, u :: PrintsTo(j, at, other, u, key) && IsWithin(other, n) ==> other == place || IsBefore(other, place)
  }

  predicate IsWithin(place: Place, n: nat) {
    place != [] ==> place[0] < n
  }

  lemma Below(j: Json, i: nat, at: Path, place: Place, v: Json, key: string)
    requires i < Size(j)
    ensures PrintsTo(j, at, [i] + place, v, key) <==> PrintsTo(Child(j, i), at + [StepTo(j, i)], place, v, key)
  {
    assert ([i] + place)[1..] == place;
    assert at + ([StepTo(j, i)] + PathOf(Child(j, i), place)) == at + [StepTo(j, i)] + PathOf(Child(j, i), place);
    hide Printed, IsContainer;
  }

  /** A place below child `i`, seen from there. */
  lemma FromChild(j: Json, at: Path, place: Place, v: Json, key: string)
    requires PrintsTo(j, at, place, v, key) && IsContainer(j)
    ensures place != [] && place[0] < Size(j) && PrintsTo(Child(j, place[0]), at + [StepTo(j, place[0])], place[1..], v, key)
  {
    assert place == [place[0]] + place[1..];
    Below(j, place[0], at, place[1..], v, key);
    hide Printed;
  }

  /** Every leaf has an entry under its key. */
  lemma {:induction false} LeafHasKey(j: Json, at: Path, place: Place, v: Json, key: string)
    requires PrintsTo(j, at, place, v, key)
    ensures key in Flatten(j, Printed(at))
    decreases j
  {
    if IsContainer(j) {
      FromChild(j, at, place, v, key);
      var i := place[0];
      LeafHasKey(Child(j, i), at + [StepTo(j, i)], place[1..], v, key);
      PrintedSnoc(at, StepTo(j, i));
      KeyOfChild(j, i, Size(j), Printed(at), key);
    } else {
      assert at + PathOf(j, place) == at;
    }
  }

  lemma {:induction false} KeyOfChild(j: Json, i: nat, n: nat, prefix: string, key: string)
    requires i < n <= Size(j) && key in Flatten(Child(j, i), Join(prefix, StepTo(j, i)))
    ensures key in FlattenUpTo(j, n, prefix)
    decreases n
  {
    if i + 1 < n {
      KeyOfChild(j, i, n - 1, prefix, key);
    }
    hide Flatten, Join;
  }

  lemma {:induction false} LatestOf(j: Json, at: Path, key: string) returns (place: Place)
    requires key in Flatten(j, Printed(at))
    ensures IsLatest(j, at, place, Flatten(j, Printed(at))[key], key, Size(j))
    decreases j, Size(j) + 1
  {
    if IsContainer(j) {
      place := LatestUpTo(j, Size(j), at, key);
    } else {
      place := [];
      assert at + PathOf(j, place) == at;
      assert Size(j) == 0;
    }
  }

  lemma {:induction false} LatestUpTo(j: Json, n: nat, at: Path, key: string) returns (place: Place)
    requires IsContainer(j) && n <= Size(j) && key in FlattenUpTo(j, n, Printed(at))
    ensures IsLatest(j, at, place, FlattenUpTo(j, n, Printed(at))[key], key, n)
    decreases j, n
  {
    var s := StepTo(j, n - 1);
    PrintedSnoc(at, s);
    if key in Flatten(Child(j, n - 1), Join(Printed(at), s)) {
      var rest := LatestOf(Child(j, n - 1), at + [s], key);
      place := [n - 1] + rest;
      hide Printed, Flatten, Join, IsContainer;
      LatestInLast(j, n, at, rest, FlattenUpTo(j, n, Printed(at))[key], key);
    } else {
      place := LatestUpTo(j, n - 1, at, key);
      hide Printed, Flatten, Join;
      LatestStays(j, n, at, place, FlattenUpTo(j, n, Printed(at))[key], key);
    }
  }

  lemma LatestInLast(j: Json, n: nat, at: Path, rest: Place, v: Json, key: string)
    requires IsContainer(j) && 0 < n <= Size(j)
    requires IsLatest(Child(j, n - 1), at + [StepTo(j, n - 1)], rest, v, key, Size(Child(j, n - 1)))
    ensures IsLatest(j, at, [n - 1] + rest, v, key, n)
  {
    var place := [n - 1] + rest;
    Below(j, n - 1, at, rest, v, key);
    forall other, u | PrintsTo(j, at, other, u, key) && IsWithin(other, n) ensures other == place || IsBefore(other, place) {
      FromChild(j, at, other, u, key);
      if other[0] == n - 1 {
        assert other == [n - 1] + other[1..] && place[1..] == rest;
        WithinSize(Child(j, n - 1), at + [StepTo(j, n - 1)], other[1..], u, key);
        hide PrintsTo;
      }
    }
  }

  lemma WithinSize(j: Json, at: Path, place: Place, v: Json, key: string)
    requires PrintsTo(j, at, place, v, key)
    ensures IsWithin(place, Size(j))
  {
    hide Printed;
  }

  lemma LatestStays(j: Json, n: nat, at: Path, place: Place, v: Json, key: string)
    requires IsContainer(j) && 0 < n <= Size(j) && IsLatest(j, at, place, v, key, n - 1)
    requires key !in Flatten(Child(j, n - 1), Printed(at + [StepTo(j, n - 1)]))
    ensures IsLatest(j, at, place, v, key, n)
  {
    FromChild(j, at, place, v, key);
    forall other, u | PrintsTo(j, at, other, u, key) && IsWithin(other, n) ensures other == place || IsBefore(other, place) {
      FromChild(j, at, other, u, key);
      if other[0] == n - 1 {
        LeafHasKey(Child(j, n - 1), at + [StepTo(j, n - 1)], other[1..], u, key);
      }
      hide PrintsTo, Flatten, Printed;
    }
  }

  /** Every leaf of a body has an entry under its printed path, whatever the keys are. */
  lemma EveryLeafHasKey(j: Json, place: Place, v: Json)
    requires Holds(j, place, v)
    ensures Printed(PathOf(j, place)) in Flatten(j, "")
  {
    assert [] + PathOf(j, place) == PathOf(j, place);
    LeafHasKey(j, [], place, v, Printed(PathOf(j, place)));
  }

  /** An entry shows the value of the latest of the leaves that print to its key. */
  lemma LatestLeafStays(j: Json, key: string) returns (place: Place)
    requires key in Flatten(j, "")
    ensures Holds(j, place, Flatten(j, "")[key]) && Printed(PathOf(j, place)) == key
    ensures forall other, u :: Holds(j, other, u) && Printed(PathOf(j, other)) == key ==> other == place || IsBefore(other, place)
  {
    place := LatestOf(j, [], key);
    assert [] + PathOf(j, place) == PathOf(j, place);
    forall other, u | Holds(j, other, u) && Printed(PathOf(j, other)) == key ensures other == place || IsBefore(other, place) {
      assert [] + PathOf(j, other) == PathOf(j, other);
      assert PrintsTo(j, [], other, u, key);
      WithinSize(j, [], other, u, key);
    }
  }
}
