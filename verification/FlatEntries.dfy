/** What flattening and the field diff say about a body: one entry per leaf, and a diff by path. */
module FlatEntries {
  import opened DiffEngine

  /** The flat entries and the leaves of `j` are in one-to-one correspondence, with the same values. */
  ghost predicate OneEntryPerLeaf(j: Json) {
    && (forall p, v :: IsLeaf(j, p, v) ==> Printed(p) in Flatten(j, "") && Flatten(j, "")[Printed(p)] == v)
    && (forall key :: key in Flatten(j, "") ==> exists p :: HasLeaf(j, p) && Printed(p) == key)
    && (forall p, q :: HasLeaf(j, p) && HasLeaf(j, q) && Printed(p) == Printed(q) ==> p == q)
  }

  lemma PrintedSnoc(p: Path, s: Step)
    ensures Printed(p + [s]) == Join(Printed(p), s)
  {
    assert (p + [s])[..|p|] == p;
  }

  // ---------------------------------------------------------------- every entry is a leaf

  /** Every entry is that of a leaf, whatever the keys are. */
  lemma {:induction false} EntryHasLeaf(j: Json, at: Path, key: string) returns (p: Path)
    requires key in Flatten(j, Printed(at))
    ensures IsLeaf(j, p, Flatten(j, Printed(at))[key]) && Printed(at + p) == key
    decreases j, Size(j) + 1
  {
    if IsContainer(j) {
      p := EntryUpToHasLeaf(j, Size(j), at, key);
    } else {
      p := [];
      assert at + p == at;
    }
  }

  lemma {:induction false} EntryUpToHasLeaf(j: Json, n: nat, at: Path, key: string) returns (p: Path)
    requires IsContainer(j) && n <= Size(j) && key in FlattenUpTo(j, n, Printed(at))
    ensures IsLeaf(j, p, FlattenUpTo(j, n, Printed(at))[key]) && Printed(at + p) == key
    decreases j, n
  {
    hide Join;
    hide Printed;
    hide Flatten;
    var s := StepTo(j, n - 1);
    PrintedSnoc(at, s);
    if key in Flatten(Child(j, n - 1), Join(Printed(at), s)) {
      var rest := EntryHasLeaf(Child(j, n - 1), at + [s], key);
      p := [s] + rest;
      assert at + p == at + [s] + rest;
      assert p[1..] == rest;
    } else {
      p := EntryUpToHasLeaf(j, n - 1, at, key);
    }
  }

  // ---------------------------------------------------------------- every leaf keeps its entry

  lemma {:induction false} LeafPathIsValid(j: Json, p: Path, v: Json, alphabet: set<char>, empties: bool)
    requires IsTree(j, alphabet, empties) && IsLeaf(j, p, v)
    ensures ValidPath(p, alphabet, empties)
    decreases |p|
  {
    if p != [] {
      var i: nat :| i < Size(j) && StepTo(j, i) == p[0] && IsLeaf(Child(j, i), p[1..], v);
      LeafPathIsValid(Child(j, i), p[1..], v, alphabet, empties);
      assert forall s :: s in p ==> s == p[0] || s in p[1..];
    }
  }

  lemma {:induction false} LeafHasEntry(j: Json, at: Path, p: Path, v: Json, alphabet: set<char>)
    requires IsUnambiguous(alphabet) && IsTree(j, alphabet, false) && ValidPath(at, alphabet, false) && IsLeaf(j, p, v)
    ensures Printed(at + p) in Flatten(j, Printed(at)) && Flatten(j, Printed(at))[Printed(at + p)] == v
    decreases j, Size(j) + 1
  {
    if p == [] {
      assert at + p == at;
    } else {
      var i: nat :| i < Size(j) && StepTo(j, i) == p[0] && IsLeaf(Child(j, i), p[1..], v);
      LeafHasEntryUpTo(j, Size(j), i, at, p, v, alphabet);
    }
  }

  lemma DownIsValid(j: Json, i: nat, at: Path, alphabet: set<char>)
    requires IsTree(j, alphabet, false) && ValidPath(at, alphabet, false) && i < Size(j)
    ensures IsTree(Child(j, i), alphabet, false) && ValidPath(at + [StepTo(j, i)], alphabet, false)
  {
    assert forall s :: s in at + [StepTo(j, i)] ==> s in at || s == StepTo(j, i);
  }

  /** The entry of a leaf below child `i` survives all later children. */
  lemma {:induction false} LeafHasEntryUpTo(j: Json, n: nat, i: nat, at: Path, p: Path, v: Json, alphabet: set<char>)
    requires IsUnambiguous(alphabet) && IsTree(j, alphabet, false) && ValidPath(at, alphabet, false)
    requires i < n <= Size(j) && p != [] && StepTo(j, i) == p[0] && IsLeaf(Child(j, i), p[1..], v)
    ensures Printed(at + p) in FlattenUpTo(j, n, Printed(at)) && FlattenUpTo(j, n, Printed(at))[Printed(at + p)] == v
    decreases j, n
  {
    hide Join;
    hide Printed;
    hide Flatten;
    hide IsUnambiguous;
    DownIsValid(j, i, at, alphabet);
    hide IsTree;
    hide ValidPath;
    hide IsLeaf;
    var s := StepTo(j, n - 1);
    PrintedSnoc(at, s);
    if i == n - 1 {
      LeafHasEntry(Child(j, i), at + [s], p[1..], v, alphabet);
      assert at + [s] + p[1..] == at + p;
    } else {
      LeafHasEntryUpTo(j, n - 1, i, at, p, v, alphabet);
      OtherChildHasOtherKeys(j, n - 1, i, at, p, v, alphabet);
    }
  }

  lemma PathsPart(at: Path, p: Path, q: Path)
    requires p != [] && q != [] && p[0] != q[0]
    ensures at + p != at + q
  {
    assert (at + p)[|at|] != (at + q)[|at|];
  }

  lemma LeafBelow(j: Json, k: nat, rest: Path, v: Json)
    requires k < Size(j) && IsLeaf(Child(j, k), rest, v)
    ensures IsLeaf(j, [StepTo(j, k)] + rest, v)
  {
    assert ([StepTo(j, k)] + rest)[1..] == rest;
  }

  lemma OtherPathOtherKey(j: Json, at: Path, p: Path, v: Json, q: Path, u: Json, alphabet: set<char>)
    requires IsUnambiguous(alphabet) && IsTree(j, alphabet, false) && ValidPath(at, alphabet, false)
    requires IsLeaf(j, p, v) && IsLeaf(j, q, u) && p != [] && q != [] && p[0] != q[0]
    ensures Printed(at + p) != Printed(at + q)
  {
    hide *;
    LeafPathIsValid(j, p, v, alphabet, false);
    LeafPathIsValid(j, q, u, alphabet, false);
    JoinedIsValid(at, p, alphabet);
    JoinedIsValid(at, q, alphabet);
    PathsPart(at, p, q);
    if Printed(at + p) == Printed(at + q) {
      PrintingIsInjective(at + p, at + q, alphabet);
    }
  }

  lemma JoinedIsValid(at: Path, p: Path, alphabet: set<char>)
    requires ValidPath(at, alphabet, false) && ValidPath(p, alphabet, false)
    ensures ValidPath(at + p, alphabet, false)
  {
    hide ValidStep;
  }

  lemma LeafThrough(j: Json, i: nat, k: nat, p: Path, v: Json, alphabet: set<char>)
    requires IsTree(j, alphabet, false) && i < k < Size(j) && p != [] && StepTo(j, i) == p[0] && IsLeaf(Child(j, i), p[1..], v)
    ensures IsLeaf(j, p, v) && StepTo(j, k) != p[0]
  {}

  lemma OtherChildHasOtherKeys(j: Json, k: nat, i: nat, at: Path, p: Path, v: Json, alphabet: set<char>)
    requires IsUnambiguous(alphabet) && IsTree(j, alphabet, false) && ValidPath(at, alphabet, false)
    requires i < k < Size(j) && p != [] && StepTo(j, i) == p[0] && IsLeaf(Child(j, i), p[1..], v)
    ensures Printed(at + p) !in Flatten(Child(j, k), Printed(at + [StepTo(j, k)]))
  {
    hide *;
    LeafThrough(j, i, k, p, v, alphabet);
    var s := StepTo(j, k);
    var flat := Flatten(Child(j, k), Printed(at + [s]));
    if Printed(at + p) in flat {
      var rest := EntryHasLeaf(Child(j, k), at + [s], Printed(at + p));
      LeafBelow(j, k, rest, flat[Printed(at + p)]);
      assert at + [s] + rest == at + ([s] + rest);
      OtherPathOtherKey(j, at, p, v, [s] + rest, flat[Printed(at + p)], alphabet);
    }
  }

  /** A body whose keys are not empty and cannot be mistaken for a path has one entry per leaf. */
  lemma FlatteningIsExact(j: Json, alphabet: set<char>)
    requires IsUnambiguous(alphabet) && IsTree(j, alphabet, false)
    ensures OneEntryPerLeaf(j)
  {
    assert Printed([]) == "";
    forall p, v | IsLeaf(j, p, v)
      ensures Printed(p) in Flatten(j, "") && Flatten(j, "")[Printed(p)] == v
    {
      LeafHasEntry(j, [], p, v, alphabet);
      assert [] + p == p;
    }
    forall key | key in Flatten(j, "") ensures exists p :: HasLeaf(j, p) && Printed(p) == key {
      var p := EntryHasLeaf(j, [], key);
      assert [] + p == p && HasLeaf(j, p);
    }
    forall p, q | HasLeaf(j, p) && HasLeaf(j, q) && Printed(p) == Printed(q) ensures p == q {
      var u :| IsLeaf(j, p, u);
      var v :| IsLeaf(j, q, v);
      LeafPathIsValid(j, p, u, alphabet, false);
      LeafPathIsValid(j, q, v, alphabet, false);
      PrintingIsInjective(p, q, alphabet);
    }
  }

  // ---------------------------------------------------------------- bodies that lose a leaf

  lemma LeafOfChild(j: Json, i: nat, p: Path, v: Json)
    requires i < Size(j) && IsLeaf(Child(j, i), p, v)
    ensures IsLeaf(j, [StepTo(j, i)] + p, v)
  {
    assert ([StepTo(j, i)] + p)[1..] == p;
  }

  lemma PrintedTwo(s: Step, t: Step)
    ensures Printed([s]) == Join("", s) && Printed([s, t]) == Join(Join("", s), t)
  {
    assert [s][..0] == [];
    assert [s, t][..1] == [s];
  }

  /** The body that has a nested leaf at `s`, `t` and another leaf at the key that prints like it. */
  function Colliding(s: string, inner: Json, like: string): Json {
    Object([(s, inner), (like, Text(""))])
  }

  lemma CollidingLosesALeaf(s: string, inner: Json, i: nat, like: string)
    requires i < Size(inner) && Child(inner, i) == Null && s != like
    requires Join(Join("", Key(s)), StepTo(inner, i)) == like
    ensures !OneEntryPerLeaf(Colliding(s, inner, like))
  {
    var j := Colliding(s, inner, like);
    LeafOfChild(inner, i, [], Null);
    LeafOfChild(j, 0, [StepTo(inner, i)], Null);
    LeafOfChild(j, 1, [], Text(""));
    var p, q := [Key(s), StepTo(inner, i)], [Key(like)];
    assert [StepTo(j, 0)] + [StepTo(inner, i)] == p && [StepTo(inner, i)] + [] == [StepTo(inner, i)];
    assert [StepTo(j, 1)] + [] == q;
    assert HasLeaf(j, p) && HasLeaf(j, q);
    PrintedTwo(Key(s), StepTo(inner, i));
    PrintedTwo(Key(like), Key(""));
    assert |p| != |q|;
  }

  lemma CollidingIsTree(s: string, inner: Json, like: string, alphabet: set<char>, empties: bool)
    requires s != like && ValidKey(s, alphabet, empties) && ValidKey(like, alphabet, empties) && IsTree(inner, alphabet, empties)
    ensures IsTree(Colliding(s, inner, like), alphabet, empties)
  {
    hide ValidKey;
    assert IsTree(Text(""), alphabet, empties);
  }

  /** With a dot in a key: `{".": {".": null}, "...": ""}`. */
  lemma DotLosesALeaf(alphabet: set<char>, empties: bool)
    requires '.' in alphabet
    ensures exists j :: IsTree(j, alphabet, empties) && !OneEntryPerLeaf(j)
  {
    var inner := Object([(".", Null)]);
    CollidingLosesALeaf(".", inner, 0, "...");
    assert IsTree(Null, alphabet, empties) && IsTree(Text(""), alphabet, empties);
    assert IsTree(inner, alphabet, empties);
    CollidingIsTree(".", inner, "...", alphabet, empties);
    hide OneEntryPerLeaf, Join, IsTree;
  }

  /** With all that an index is written with, for the digit 0: `{"[": [null], "[[0]": ""}`. */
  lemma IndexLosesALeaf(alphabet: set<char>, empties: bool, d: char)
    requires '[' in alphabet && ']' in alphabet && d in alphabet && IsDigit(d)
    ensures exists j :: IsTree(j, alphabet, empties) && !OneEntryPerLeaf(j)
  {
    var i := (d - '0') as nat;
    var inner := Array(seq(i + 1, _ => Null));
    assert Decimal(i) == [d];
    var like := "[" + "[" + [d] + "]";
    CollidingLosesALeaf("[", inner, i, like);
    assert IsTree(Null, alphabet, empties) && IsTree(Text(""), alphabet, empties);
    assert IsTree(inner, alphabet, empties) by {
      assert forall x :: 0 <= x < Size(inner) ==> Child(inner, x) == Null;
    }
    assert IsTree(Colliding("[", inner, like), alphabet, empties);
  }

  /** With an empty key: `{"": {"c": null}, "c": ""}`. */
  lemma EmptyKeyLosesALeaf(alphabet: set<char>, c: char)
    requires c in alphabet
    ensures exists j :: IsTree(j, alphabet, true) && !OneEntryPerLeaf(j)
  {
    var inner := Object([([c], Null)]);
    CollidingLosesALeaf("", inner, 0, [c]);
    assert IsTree(Null, alphabet, true) && IsTree(Text(""), alphabet, true);
    assert IsTree(inner, alphabet, true);
    assert IsTree(Colliding("", inner, [c]), alphabet, true);
  }

  /** Flattening gives one entry per leaf for all bodies whose keys are written in an alphabet exactly
      when no key is empty and the alphabet has no dot and not all that an index is written with. */
  lemma FlatteningIsExactIff(alphabet: set<char>, empties: bool)
    requires alphabet != {}
    ensures (forall j :: IsTree(j, alphabet, empties) ==> OneEntryPerLeaf(j)) <==> IsUnambiguous(alphabet) && !empties
  {
    if IsUnambiguous(alphabet) && !empties {
      forall j | IsTree(j, alphabet, empties) ensures OneEntryPerLeaf(j) {
        FlatteningIsExact(j, alphabet);
      }
    } else if empties {
      var c :| c in alphabet;
      EmptyKeyLosesALeaf(alphabet, c);
    } else if '.' in alphabet {
      DotLosesALeaf(alphabet, empties);
    } else {
      var d :| d in alphabet && IsDigit(d);
      IndexLosesALeaf(alphabet, empties, d);
    }
  }

  // ---------------------------------------------------------------- the field diff

  /** What the engine reports about two bodies: the common keys, those only in the second, those only in
      the first, and the common keys with different values. */
  datatype Diff = Diff(leaked: set<string>, added: set<string>, removed: set<string>, changes: map<string, (Json, Json)>)

  /** Bodies that count as absent: null, false, zero, and everything empty. */
  predicate IsTruthy(j: Json) {
    match j
    case Null => false
    case Bool(b) => b
    case Number(x) => x != 0.0
    case Text(s) => s != ""
    case Array(items) => items != []
    case Object(fields) => fields != []
  }

  /** Equality of scalars, where a truth value is equal to the number 1 or 0. */
  predicate IsSame(u: Json, v: Json) {
    match (u, v)
    case (Bool(b), Number(x)) => x == if b then 1.0 else 0.0
    case (Number(x), Bool(b)) => x == if b then 1.0 else 0.0
    case _ => u == v
  }

  /** Absent are null, false, zero and the empty text, list and object. */
  lemma FalsyAre(j: Json)
    ensures !IsTruthy(j) <==> j in {Null, Bool(false), Number(0.0), Text(""), Array([]), Object([])}
  {}

  /** Which scalars differ: numbers by value, a truth value counting as 1 or 0; texts by content; and null, text
      and number from each other. */
  predicate Differ(u: Json, v: Json) {
    || u.Null? != v.Null? || u.Text? != v.Text?
    || (u.Text? && v.Text? && u.text != v.text)
    || (IsNumeric(u) && IsNumeric(v) && Amount(u) != Amount(v))
  }

  predicate IsNumeric(j: Json) {
    j.Bool? || j.Number?
  }

  function Amount(j: Json): real
    requires IsNumeric(j)
  {
    if j.Number? then j.value else if j.truth then 1.0 else 0.0
  }

  /** The comparison of two scalars, kind by kind. */
  lemma SameByKind(u: Json, v: Json)
    requires !IsContainer(u) && !IsContainer(v)
    ensures match (u, v)
            case (Null, _) => IsSame(u, v) <==> v == Null
            case (_, Null) => IsSame(u, v) <==> u == Null
            case (Text(s), Text(t)) => IsSame(u, v) <==> s == t
            case (Text(_), _) => !IsSame(u, v)
            case (_, Text(_)) => !IsSame(u, v)
            case (Number(x), Number(y)) => IsSame(u, v) <==> x == y
            case (Bool(b), Bool(c)) => IsSame(u, v) <==> b == c
            case (Bool(b), Number(x)) => IsSame(u, v) <==> (b && x == 1.0) || (!b && x == 0.0)
            case (Number(x), Bool(b)) => IsSame(u, v) <==> (b && x == 1.0) || (!b && x == 0.0)
            case _ => true
    ensures IsSame(u, v) <==> !Differ(u, v)
  {}

  function FlatBody(j: Json): map<string, Json> {
    if IsTruthy(j) then Flatten(j, "") else map[]
  }

  /** The same keys, with the same values. */
  predicate AreAlike(fa: map<string, Json>, fb: map<string, Json>) {
    fa.Keys == fb.Keys && forall k :: k in fa ==> IsSame(fa[k], fb[k])
  }

  ghost predicate IsDiffOf(d: Diff, fa: map<string, Json>, fb: map<string, Json>) {
    && d.leaked == fa.Keys * fb.Keys && d.added == fb.Keys - fa.Keys && d.removed == fa.Keys - fb.Keys
    && AreChanges(d.changes, fa, fb, fa.Keys * fb.Keys)
  }

  /** The entries under the keys `among` whose values differ, with both values. */
  ghost predicate AreChanges(changes: map<string, (Json, Json)>, fa: map<string, Json>, fb: map<string, Json>, among: set<string>)
    requires among <= fa.Keys * fb.Keys
  {
    && (forall k :: k in changes <==> k in among && !IsSame(fa[k], fb[k]))
    && (forall k :: k in changes ==> changes[k] == (fa[k], fb[k]))
  }

  lemma EmptyDiffIffAlike(d: Diff, fa: map<string, Json>, fb: map<string, Json>)
    requires IsDiffOf(d, fa, fb)
    ensures (d.added == {} && d.removed == {} && d.changes == map[]) <==> AreAlike(fa, fb)
  {
    if d.added == {} && d.removed == {} {
      assert forall k :: k in fa <==> k in fb;
      if AreAlike(fa, fb) {
        assert d.changes.Keys == {};
      }
    }
  }

  method CollectChanges(flatA: map<string, Json>, flatB: map<string, Json>, common: set<string>)
      returns (changes: map<string, (Json, Json)>)
    requires common == flatA.Keys * flatB.Keys
    ensures AreChanges(changes, flatA, flatB, common)
  {
    changes := map[];
    var rest := common;
    while rest != {}
      invariant rest <= common && AreChanges(changes, flatA, flatB, common - rest)
      decreases rest
    {
      var k :| k in rest;
      if !IsSame(flatA[k], flatB[k]) {
        changes := changes[k := (flatA[k], flatB[k])];
      }
      rest := rest - {k};
    }
    assert common - rest == common;
  }

  /** Flat values are scalars. */
  lemma FlatIsScalar(j: Json, key: string)
    requires key in FlatBody(j)
    ensures !IsContainer(FlatBody(j)[key])
  {
    var p := EntryHasLeaf(j, [], key);
    LeafIsScalar(j, p, FlatBody(j)[key]);
  }

  lemma {:induction false} LeafIsScalar(j: Json, p: Path, v: Json)
    requires IsLeaf(j, p, v)
    ensures !IsContainer(v)
    decreases |p|
  {
    if p != [] {
      var i: nat :| i < Size(j) && StepTo(j, i) == p[0] && IsLeaf(Child(j, i), p[1..], v);
      LeafIsScalar(Child(j, i), p[1..], v);
    }
  }

  /** A common field has changed exactly when its two values differ, and then both are given. */
  lemma ChangedIffDiffer(a: Json, b: Json, d: Diff, key: string)
    requires IsDiffOf(d, FlatBody(a), FlatBody(b))
    ensures key in d.changes <==> key in FlatBody(a) && key in FlatBody(b) && Differ(FlatBody(a)[key], FlatBody(b)[key])
    ensures key in d.changes ==> d.changes[key] == (FlatBody(a)[key], FlatBody(b)[key])
  {
    if key in FlatBody(a) && key in FlatBody(b) {
      FlatIsScalar(a, key);
      FlatIsScalar(b, key);
      SameByKind(FlatBody(a)[key], FlatBody(b)[key]);
      hide IsSame, Differ, FlatBody;
      assert key in FlatBody(a).Keys * FlatBody(b).Keys;
    }
  }

  method FieldDiff(a: Json, b: Json) returns (d: Diff)
    ensures IsDiffOf(d, FlatBody(a), FlatBody(b))
    ensures forall k :: k in d.changes <==> k in FlatBody(a) && k in FlatBody(b) && Differ(FlatBody(a)[k], FlatBody(b)[k])
    ensures forall k :: k in d.added <==> k in FlatBody(b) && k !in FlatBody(a)
    ensures forall k :: k in d.removed <==> k in FlatBody(a) && k !in FlatBody(b)
  {
    if a.Null? && b.Null? {
      return Diff({}, {}, {}, map[]);
    }
    var flatA, flatB := map[], map[];
    if IsTruthy(a) {
      flatA := FlattenJson(a, "");
    }
    if IsTruthy(b) {
      flatB := FlattenJson(b, "");
    }
    var changes := CollectChanges(flatA, flatB, flatA.Keys * flatB.Keys);
    d := Diff(flatA.Keys * flatB.Keys, flatB.Keys - flatA.Keys, flatA.Keys - flatB.Keys, changes);
    assert IsDiffOf(d, FlatBody(a), FlatBody(b));
    assert d.added == FlatBody(b).Keys - FlatBody(a).Keys && d.removed == FlatBody(a).Keys - FlatBody(b).Keys;
    hide *;
    forall k ensures k in d.changes <==> k in FlatBody(a) && k in FlatBody(b) && Differ(FlatBody(a)[k], FlatBody(b)[k]) {
      ChangedIffDiffer(a, b, d, k);
    }
  }

  /** The leaf `v` at `p` takes part in the diff. */
  ghost predicate Shows(j: Json, p: Path, v: Json) {
    IsTruthy(j) && IsLeaf(j, p, v)
  }

  ghost predicate ShowsAt(j: Json, p: Path) {
    exists v :: Shows(j, p, v)
  }

  /** The two bodies have leaves at the same paths, with the same values. */
  ghost predicate SameLeaves(a: Json, b: Json) {
    forall p :: ShowsAt(a, p) || ShowsAt(b, p) ==>
      exists u, v :: Shows(a, p, u) && Shows(b, p, v) && !Differ(u, v)
  }

  /** A body is in the diff at exactly the printed paths of its leaves, with their values. */
  lemma ShownIsInDiff(j: Json, p: Path, alphabet: set<char>)
    requires IsUnambiguous(alphabet) && IsTree(j, alphabet, false) && ValidPath(p, alphabet, false)
    ensures Printed(p) in FlatBody(j) <==> ShowsAt(j, p)
    ensures forall v :: Shows(j, p, v) ==> FlatBody(j)[Printed(p)] == v
  {
    FlatteningIsExact(j, alphabet);
    if Printed(p) in FlatBody(j) {
      var q := EntryHasLeaf(j, [], Printed(p));
      assert [] + q == q;
      LeafPathIsValid(j, q, FlatBody(j)[Printed(p)], alphabet, false);
      PrintingIsInjective(p, q, alphabet);
      assert Shows(j, p, FlatBody(j)[Printed(p)]);
    }
  }

  lemma EntryIsShown(j: Json, key: string, alphabet: set<char>) returns (p: Path)
    requires IsUnambiguous(alphabet) && IsTree(j, alphabet, false) && key in FlatBody(j)
    ensures ValidPath(p, alphabet, false) && Printed(p) == key && Shows(j, p, FlatBody(j)[key])
  {
    p := EntryHasLeaf(j, [], key);
    assert [] + p == p;
    LeafPathIsValid(j, p, FlatBody(j)[key], alphabet, false);
  }

  lemma SameLeavesAreAlike(a: Json, b: Json, alphabet: set<char>)
    requires IsUnambiguous(alphabet) && IsTree(a, alphabet, false) && IsTree(b, alphabet, false) && SameLeaves(a, b)
    ensures AreAlike(FlatBody(a), FlatBody(b))
  {
    forall key | key in FlatBody(a) || key in FlatBody(b)
      ensures key in FlatBody(a) && key in FlatBody(b) && IsSame(FlatBody(a)[key], FlatBody(b)[key])
    {
      var p := EntryIsShown(if key in FlatBody(a) then a else b, key, alphabet);
      ShownIsInDiff(a, p, alphabet);
      ShownIsInDiff(b, p, alphabet);
      var u, v :| Shows(a, p, u) && Shows(b, p, v) && !Differ(u, v);
      LeafIsScalar(a, p, u);
      LeafIsScalar(b, p, v);
      SameByKind(u, v);
    }
  }

  /** Where the leaves of two bodies are reported: a path only in the second is added, one only in the first
      removed, one in both leaked, and changed when its values differ, with the value of the first body first. */
  lemma ReportedWhere(a: Json, b: Json, d: Diff, p: Path, alphabet: set<char>)
    requires IsUnambiguous(alphabet) && IsTree(a, alphabet, false) && IsTree(b, alphabet, false) && ValidPath(p, alphabet, false)
    requires IsDiffOf(d, FlatBody(a), FlatBody(b))
    ensures Printed(p) in d.added <==> ShowsAt(b, p) && !ShowsAt(a, p)
    ensures Printed(p) in d.removed <==> ShowsAt(a, p) && !ShowsAt(b, p)
    ensures Printed(p) in d.leaked <==> ShowsAt(a, p) && ShowsAt(b, p)
    ensures forall u, v :: Shows(a, p, u) && Shows(b, p, v) ==> (Printed(p) in d.changes <==> Differ(u, v))
    ensures forall u, v :: Shows(a, p, u) && Shows(b, p, v) && Differ(u, v) ==> Printed(p) in d.changes && d.changes[Printed(p)] == (u, v)
  {
    ShownIsInDiff(a, p, alphabet);
    ShownIsInDiff(b, p, alphabet);
    ChangedIffDiffer(a, b, d, Printed(p));
    assert forall u :: Shows(a, p, u) ==> ShowsAt(a, p);
    assert forall v :: Shows(b, p, v) ==> ShowsAt(b, p);
    hide Shows, ShowsAt, FlatBody, Printed, Differ, AreChanges;
  }

  /** The diff reports no added, removed or changed field exactly when both bodies show the same leaves
      at the same paths. */
  lemma NothingReportedIff(a: Json, b: Json, d: Diff, alphabet: set<char>)
    requires IsUnambiguous(alphabet) && IsTree(a, alphabet, false) && IsTree(b, alphabet, false)
    requires IsDiffOf(d, FlatBody(a), FlatBody(b))
    ensures (d.added == {} && d.removed == {} && d.changes == map[]) <==> SameLeaves(a, b)
  {
    EmptyDiffIffAlike(d, FlatBody(a), FlatBody(b));
    if SameLeaves(a, b) {
      SameLeavesAreAlike(a, b, alphabet);
    }
    if AreAlike(FlatBody(a), FlatBody(b)) {
      forall p | ShowsAt(a, p) || ShowsAt(b, p)
        ensures exists u, v :: Shows(a, p, u) && Shows(b, p, v) && !Differ(u, v)
      {
        if ShowsAt(a, p) {
          var u :| Shows(a, p, u);
          LeafPathIsValid(a, p, u, alphabet, false);
        } else {
          var v :| Shows(b, p, v);
          LeafPathIsValid(b, p, v, alphabet, false);
        }
        ShownIsInDiff(a, p, alphabet);
        ShownIsInDiff(b, p, alphabet);
        var u :| Shows(a, p, u);
        var v :| Shows(b, p, v);
        assert IsSame(FlatBody(a)[Printed(p)], FlatBody(b)[Printed(p)]);
        LeafIsScalar(a, p, u);
        LeafIsScalar(b, p, v);
        SameByKind(u, v);
      }
    }
  }

  /** All the leaves of a body take part in the diff exactly when the body is not a falsy scalar. */
  lemma AllLeavesShowIff(j: Json)
    ensures (forall p, v :: IsLeaf(j, p, v) ==> Shows(j, p, v)) <==> j !in {Null, Bool(false), Number(0.0), Text("")}
  {
    FalsyAre(j);
    if !IsTruthy(j) && !IsContainer(j) {
      assert IsLeaf(j, [], j);
    }
  }
}
