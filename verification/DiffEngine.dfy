/** The diff engine's flattening of JSON bodies into printed paths, and the field diff built on it. */
module DiffEngine {
  /** A parsed JSON body.  Numbers are compared by value; a body that is missing is `Null`. */
  datatype Json =
    | Null
    | Bool(truth: bool)
    | Number(value: real)
    | Text(text: string)
    | Array(items: seq<Json>)
    | Object(fields: seq<(string, Json)>)

  datatype Step = Key(key: string) | Index(index: nat)

  type Path = seq<Step>

  predicate IsContainer(j: Json) {
    j.Array? || j.Object?
  }

  function Size(j: Json): nat {
    match j
    case Array(items) => |items|
    case Object(fields) => |fields|
    case _ => 0
  }

  function StepTo(j: Json, i: nat): Step
    requires i < Size(j)
  {
    if j.Array? then Index(i) else Key(j.fields[i].0)
  }

  function Child(j: Json, i: nat): (c: Json)
    requires i < Size(j)
    ensures c < j
  {
    if j.Array? then j.items[i] else j.fields[i].1
  }

  // ---------------------------------------------------------------- what a body means

  /** Following `path` from `j` ends at the scalar `v`. */
  ghost predicate IsLeaf(j: Json, path: Path, v: Json)
    decreases |path|
  {
    if path == [] then !IsContainer(j) && v == j
    else exists i: nat :: i < Size(j) && StepTo(j, i) == path[0] && IsLeaf(Child(j, i), path[1..], v)
  }

  ghost predicate HasLeaf(j: Json, path: Path) {
    exists v :: IsLeaf(j, path, v)
  }

  predicate ValidKey(k: string, alphabet: set<char>, empties: bool) {
    (k == "" ==> empties) && forall c :: c in k ==> c in alphabet
  }

  predicate ValidStep(s: Step, alphabet: set<char>, empties: bool) {
    s.Key? ==> ValidKey(s.key, alphabet, empties)
  }

  predicate ValidPath(path: Path, alphabet: set<char>, empties: bool) {
    forall s :: s in path ==> ValidStep(s, alphabet, empties)
  }

  /** The keys of every object are different from each other, and written in `alphabet`. */
  predicate IsTree(j: Json, alphabet: set<char>, empties: bool) {
    && (forall i, k :: 0 <= i < k < Size(j) ==> StepTo(j, i) != StepTo(j, k))
    && (forall i :: 0 <= i < Size(j) ==> ValidStep(StepTo(j, i), alphabet, empties) && IsTree(Child(j, i), alphabet, empties))
  }

  // ---------------------------------------------------------------- printing paths

  function Digit(d: nat): (c: char)
    requires d < 10
    ensures IsDigit(c)
  {
    '0' + d as char
  }

  predicate IsDigit(c: char) {
    '0' <= c <= '9'
  }

  function Decimal(n: nat): (s: string)
    ensures s != "" && forall x :: 0 <= x < |s| ==> IsDigit(s[x])
  {
    if n < 10 then [Digit(n)] else Decimal(n / 10) + [Digit(n % 10)]
  }

  /** The number that digits are read as. */
  function ReadDigits(s: string): nat
    requires forall x :: 0 <= x < |s| ==> IsDigit(s[x])
  {
    if s == "" then 0
    else
      assert IsDigit(s[|s| - 1]);
      10 * ReadDigits(s[..|s| - 1]) + (s[|s| - 1] as int - '0' as int)
  }

  /** An index is written in decimal digits, without leading zeros. */
  lemma {:induction false} DecimalReadsBack(n: nat)
    ensures ReadDigits(Decimal(n)) == n && (|Decimal(n)| > 1 ==> Decimal(n)[0] != '0')
  {
    var s := Decimal(n);
    if n >= 10 {
      DecimalReadsBack(n / 10);
      assert s[..|s| - 1] == Decimal(n / 10) && s[|s| - 1] == Digit(n % 10);
    } else {
      assert s[..0] == "" && s[0] == Digit(n);
    }
  }

  /** The flat key of a child of the value with flat key `prefix`. */
  function Join(prefix: string, s: Step): string {
    match s
    case Key(k) => if prefix != "" then prefix + "." + k else k
    case Index(i) => prefix + "[" + Decimal(i) + "]"
  }

  function Printed(path: Path): string {
    if path == [] then "" else Join(Printed(path[..|path| - 1]), path[|path| - 1])
  }

  // ---------------------------------------------------------------- flattening

  /** The flat entries of `j`; of two entries with one key the later stays. */
  function Flatten(j: Json, prefix: string): map<string, Json>
    decreases j, Size(j) + 1
  {
    if IsContainer(j) then FlattenUpTo(j, Size(j), prefix) else map[prefix := j]
  }

  /** The flat entries of the first `n` children. */
  function FlattenUpTo(j: Json, n: nat, prefix: string): map<string, Json>
    requires n <= Size(j)
    decreases j, n
  {
    if n == 0 then map[]
    else FlattenUpTo(j, n - 1, prefix) + Flatten(Child(j, n - 1), Join(prefix, StepTo(j, n - 1)))
  }

  method FlattenJson(obj: Json, prefix: string) returns (result: map<string, Json>)
    ensures result == Flatten(obj, prefix)
    decreases obj
  {
    result := map[];
    match obj
    case Object(fields) =>
      for i := 0 to |fields|
        invariant result == FlattenUpTo(obj, i, prefix)
      {
        var (k, v) := fields[i];
        assert v == Child(obj, i);
        var fullKey := if prefix != "" then prefix + "." + k else k;
        var flat := FlattenJson(v, fullKey);
        result := result + flat;
      }
    case Array(items) =>
      for i := 0 to |items|
        invariant result == FlattenUpTo(obj, i, prefix)
      {
        assert items[i] == Child(obj, i);
        var flat := FlattenJson(items[i], prefix + "[" + Decimal(i) + "]");
        result := result + flat;
      }
    case _ => result := result[prefix := obj];
  }

  // ---------------------------------------------------------------- printing is unambiguous

  /** A key may not hold a dot, nor everything that an index is written with. */
  predicate IsUnambiguous(alphabet: set<char>) {
    '.' !in alphabet && !('[' in alphabet && ']' in alphabet && exists c :: c in alphabet && IsDigit(c))
  }

  /** Two strings cut at the last `c` are cut alike. */
  lemma LastCut(u: string, v: string, u': string, v': string, c: char)
    requires u + [c] + v == u' + [c] + v' && c !in v && c !in v'
    ensures u == u' && v == v'
  {
    var s := u + [c] + v;
    assert s[|u|] == c && s[|u'|] == c;
    assert forall i :: |u| < i < |s| ==> s[i] == v[i - |u| - 1] && s[i] != c;
    assert forall i :: |u'| < i < |s| ==> s[i] == v'[i - |u'| - 1] && s[i] != c;
    assert u == s[..|u|] && u' == s[..|u'|];
    assert v == s[|u| + 1..] && v' == s[|u'| + 1..];
  }

  lemma {:induction false} DecimalIsInjective(m: nat, n: nat)
    requires Decimal(m) == Decimal(n)
    ensures m == n
  {
    var s := Decimal(m);
    assert m >= 10 ==> s[..|s| - 1] == Decimal(m / 10) && s[|s| - 1] == Digit(m % 10);
    assert n >= 10 ==> s[..|s| - 1] == Decimal(n / 10) && s[|s| - 1] == Digit(n % 10);
    if m >= 10 && n >= 10 {
      DecimalIsInjective(m / 10, n / 10);
    }
  }

  lemma PrintedIsEmpty(p: Path, alphabet: set<char>)
    requires ValidPath(p, alphabet, false)
    ensures Printed(p) == "" <==> p == []
  {
    if p != [] {
      assert p[|p| - 1] in p;
    }
  }

  /** A key that ends a string like a printed index holds all that an index is written with. */
  lemma KeyLikeIndex(s: string, k: string, start: nat, prefix: string, i: nat)
    requires s == prefix + "[" + Decimal(i) + "]"
    requires start <= |s| && s[start..] == k && k != "" && (start > 0 ==> s[start - 1] == '.')
    ensures '[' in k && ']' in k && Decimal(i)[0] in k
  {
    var d := Decimal(i);
    var n := |prefix|;
    assert s[n] == '[' && s[n + 1] == d[0] && s[|s| - 1] == ']';
    assert forall x :: n < x < |s| - 1 ==> s[x] == d[x - n - 1];
    assert forall x :: n <= x < |s| ==> s[x] == '[' || s[x] == ']' || IsDigit(s[x]);
    assert start <= n;
    assert k[n - start] == s[n] && k[n + 1 - start] == s[n + 1] && k[|k| - 1] == s[|s| - 1];
  }

  lemma KeyIsNotIndex(prefix: string, k: string, prefix': string, i: nat, alphabet: set<char>)
    requires IsUnambiguous(alphabet) && ValidKey(k, alphabet, false)
    ensures Join(prefix, Key(k)) != Join(prefix', Index(i))
  {
    var s := Join(prefix, Key(k));
    assert s[|s| - |k|..] == k;
    if s == Join(prefix', Index(i)) {
      KeyLikeIndex(s, k, |s| - |k|, prefix', i);
      assert false;
    }
  }

  /** Different paths print differently. */
  lemma {:induction false} PrintingIsInjective(p: Path, q: Path, alphabet: set<char>)
    requires IsUnambiguous(alphabet) && ValidPath(p, alphabet, false) && ValidPath(q, alphabet, false)
    requires Printed(p) == Printed(q)
    ensures p == q
    decreases |p|
  {
    PrintedIsEmpty(p, alphabet);
    PrintedIsEmpty(q, alphabet);
    if p != [] {
      var p', s := p[..|p| - 1], p[|p| - 1];
      var q', t := q[..|q| - 1], q[|q| - 1];
      assert p == p' + [s] && q == q' + [t];
      assert s in p && t in q;
      if s.Key? && t.Index? {
        KeyIsNotIndex(Printed(p'), s.key, Printed(q'), t.index, alphabet);
      } else if s.Index? && t.Key? {
        KeyIsNotIndex(Printed(q'), t.key, Printed(p'), s.index, alphabet);
      } else {
        LastStepIsRead(p', s, q', t, alphabet);
        PrintingIsInjective(p', q', alphabet);
      }
    }
  }

  lemma LastStepIsRead(p: Path, s: Step, q: Path, t: Step, alphabet: set<char>)
    requires IsUnambiguous(alphabet) && ValidPath(p, alphabet, false) && ValidPath(q, alphabet, false)
    requires ValidStep(s, alphabet, false) && ValidStep(t, alphabet, false) && s.Key? == t.Key?
    requires Join(Printed(p), s) == Join(Printed(q), t)
    ensures Printed(p) == Printed(q) && s == t
  {
    var u, v := Printed(p), Printed(q);
    if s.Index? {
      var d, e := Decimal(s.index), Decimal(t.index);
      assert u + ['['] + (d + "]") == Join(u, s) && v + ['['] + (e + "]") == Join(v, t);
      assert '[' !in d && '[' !in e;
      LastCut(u, d + "]", v, e + "]", '[');
      assert d == (d + "]")[..|d|] && e == (e + "]")[..|e|];
      DecimalIsInjective(s.index, t.index);
    } else {
      assert u != "" ==> Join(u, s)[|u|] == '.' && Join(u, s) == u + ['.'] + s.key;
      assert v != "" ==> Join(v, t)[|v|] == '.' && Join(v, t) == v + ['.'] + t.key;
      assert '.' !in s.key && '.' !in t.key;
      if u != "" && v != "" {
        LastCut(u, s.key, v, t.key, '.');
      }
    }
  }
}
