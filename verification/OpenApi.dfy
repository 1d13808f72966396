/** The endpoint discovery of the OpenAPI parser: which entries of a specification end in the list, and
    what is reported about the others. */
module OpenApi {
  import opened Wrappers
  import opened CanonicalPaths
  import opened Letters

  // ---------------------------------------------------------------- specifications

  /** The value of a `security` field. */
  datatype Security = Absent | NotAList | Requirements(count: nat)

  /** One operation.  `unresolved` are the references that cannot be followed while its body and
      parameters are read, `raises` tells whether reading them raises, and `shape` stands for what is
      read. */
  datatype Details =
    | NotDetails
    | Details(security: Security, hasResponses: bool, unresolved: seq<string>, raises: bool, shape: nat)

  datatype Methods = NotMethods | Methods(operations: seq<(string, Details)>)

  datatype Spec =
    | EmptySpec
    | WithoutPaths
    | BadPaths
    | WithPaths(security: Security, paths: seq<(string, Methods)>)

  datatype Endpoint = Endpoint(verb: string, path: string, hasAuth: bool, shape: nat)

  datatype Problem =
    | MissingPaths
    | PathsNotAnObject
    | MethodsNotAnObject(path: string)
    | InvalidMethod(name: string, path: string)
    | InvalidDetails(verb: string, path: string)
    | Duplicate(verb: string, path: string)
    | MissingResponses(verb: string, path: string)
    | Unresolved(reference: string)

  const VALID_METHODS := {"GET", "POST", "PUT", "DELETE", "PATCH", "OPTIONS", "HEAD", "TRACE"}

  /** An operation's own security, even an empty one, hides the global one. */
  function HasAuth(own: Security, global: Security): bool {
    match own
    case Absent => global.Requirements? && global.count > 0
    case NotAList => false
    case Requirements(n) => n > 0
  }

  type EndpointKey = (string, string)

  function KeyOf(e: Endpoint): EndpointKey {
    (e.verb, e.path)
  }

  function KeysOf(es: seq<Endpoint>): set<EndpointKey> {
    set e | e in es :: KeyOf(e)
  }

  // ---------------------------------------------------------------- entries in spec order

  /** One path or operation of a specification: malformed, with its report, or well-formed. */
  datatype Entry =
    | Bad(problem: Problem)
    | Good(endpoint: Endpoint, remarks: seq<Problem>, raises: bool)

  function EntryFor(path: string, name: string, details: Details, global: Security): Entry {
    var verb := Upper(name);
    if verb !in VALID_METHODS then Bad(InvalidMethod(name, path))
    else if details.NotDetails? then Bad(InvalidDetails(verb, path))
    else Good(Endpoint(verb, NormalizePath(path), HasAuth(details.security, global), details.shape),
              (if details.hasResponses then [] else [MissingResponses(verb, path)]) + Remarks(details.unresolved),
              details.raises)
  }

  function Remarks(references: seq<string>): seq<Problem> {
    seq(|references|, i requires 0 <= i < |references| => Unresolved(references[i]))
  }

  /** The entries of the first `n` operations of one path. */
  function OperationEntries(path: string, operations: seq<(string, Details)>, n: nat, global: Security): seq<Entry>
    requires n <= |operations|
  {
    if n == 0 then []
    else OperationEntries(path, operations, n - 1, global) + [EntryFor(path, operations[n - 1].0, operations[n - 1].1, global)]
  }

  function PathEntries(path: string, methods: Methods, global: Security): seq<Entry> {
    match methods
    case NotMethods => [Bad(MethodsNotAnObject(path))]
    case Methods(operations) => OperationEntries(path, operations, |operations|, global)
  }

  /** The entries of the first `n` paths. */
  function Entries(paths: seq<(string, Methods)>, n: nat, global: Security): seq<Entry>
    requires n <= |paths|
  {
    if n == 0 then [] else Entries(paths, n - 1, global) + PathEntries(paths[n - 1].0, paths[n - 1].1, global)
  }

  // ---------------------------------------------------------------- what an entry is

  /** One of the eight methods, in any case. */
  predicate IsHttpMethod(name: string) {
    || SameButCase(name, "GET") || SameButCase(name, "POST") || SameButCase(name, "PUT") || SameButCase(name, "DELETE")
    || SameButCase(name, "PATCH") || SameButCase(name, "OPTIONS") || SameButCase(name, "HEAD") || SameButCase(name, "TRACE")
  }

  lemma HttpMethodIff(name: string)
    ensures Upper(name) in VALID_METHODS <==> IsHttpMethod(name)
  {
    UpperIsTheForm(name, "GET");
    UpperIsTheForm(name, "POST");
    UpperIsTheForm(name, "PUT");
    UpperIsTheForm(name, "DELETE");
    UpperIsTheForm(name, "PATCH");
    UpperIsTheForm(name, "OPTIONS");
    UpperIsTheForm(name, "HEAD");
    UpperIsTheForm(name, "TRACE");
    hide Upper, SameButCase;
  }

  /** An operation needs authentication exactly when its own list of requirements is not empty, or it has no
      `security` field and the global list is not empty. */
  predicate NeedsAuth(own: Security, global: Security) {
    (own.Requirements? && own.count != 0) || (own == Absent && global.Requirements? && global.count != 0)
  }

  /** What an operation is reported as or listed as. */
  lemma EntryIs(path: string, name: string, details: Details, global: Security)
    ensures var e := EntryFor(path, name, details, global);
            && (!IsHttpMethod(name) <==> e == Bad(InvalidMethod(name, path)))
            && (IsHttpMethod(name) && details.NotDetails? <==> e == Bad(InvalidDetails(Upper(name), path)))
            && (IsHttpMethod(name) && details.Details? <==> e.Good?)
            && (e.Good? ==>
                  && SameButCase(name, e.endpoint.verb) && (forall i :: 0 <= i < |e.endpoint.verb| ==> !IsLower(e.endpoint.verb[i]))
                  && e.endpoint.path == Rendered(Segments(path)) && e.endpoint.shape == details.shape && e.raises == details.raises
                  && (e.endpoint.hasAuth <==> NeedsAuth(details.security, global)))
  {
    HttpMethodIff(name);
    UpperIsTheForm(name, Upper(name));
    NormalizeRendersSegments(path);
    hide IsHttpMethod, Upper, NormalizePath, Rendered, Segments;
  }

  /** Its remarks: the missing responses first, then every reference that cannot be followed, in order. */
  lemma RemarksAre(path: string, name: string, details: Details, global: Security)
    requires EntryFor(path, name, details, global).Good?
    ensures var remarks := EntryFor(path, name, details, global).remarks;
            var first := if details.hasResponses then 0 else 1;
            && |remarks| == first + |details.unresolved|
            && (!details.hasResponses ==> remarks[0] == MissingResponses(Upper(name), path))
            && forall i :: 0 <= i < |details.unresolved| ==> remarks[first + i] == Unresolved(details.unresolved[i])
  {}

  lemma {:induction false} OperationEntriesAre(path: string, operations: seq<(string, Details)>, n: nat, global: Security)
    requires n <= |operations|
    ensures |OperationEntries(path, operations, n, global)| == n
    ensures forall i :: 0 <= i < n ==> OperationEntries(path, operations, n, global)[i] == EntryFor(path, operations[i].0, operations[i].1, global)
  {
    hide EntryFor;
    if n > 0 {
      OperationEntriesAre(path, operations, n - 1, global);
    }
  }

  /** How many entries a path has: one for each operation, or one for the path itself. */
  function EntryCount(methods: Methods): nat {
    if methods.NotMethods? then 1 else |methods.operations|
  }

  function EntriesBefore(paths: seq<(string, Methods)>, i: nat): nat
    requires i <= |paths|
  {
    if i == 0 then 0 else EntriesBefore(paths, i - 1) + EntryCount(paths[i - 1].1)
  }

  /** Entry `k` of one path. */
  function EntryOf(path: string, methods: Methods, k: nat, global: Security): Entry
    requires k < EntryCount(methods)
  {
    match methods
    case NotMethods => Bad(MethodsNotAnObject(path))
    case Methods(operations) => EntryFor(path, operations[k].0, operations[k].1, global)
  }

  lemma PathEntriesAre(path: string, methods: Methods, global: Security)
    ensures |PathEntries(path, methods, global)| == EntryCount(methods)
    ensures forall k :: 0 <= k < EntryCount(methods) ==> PathEntries(path, methods, global)[k] == EntryOf(path, methods, k, global)
  {
    if methods.Methods? {
      OperationEntriesAre(path, methods.operations, |methods.operations|, global);
    }
    hide EntryFor, OperationEntries;
  }

  lemma {:induction false} EntriesCounted(paths: seq<(string, Methods)>, n: nat, global: Security)
    requires n <= |paths|
    ensures |Entries(paths, n, global)| == EntriesBefore(paths, n)
  {
    if n > 0 {
      EntriesCounted(paths, n - 1, global);
      PathEntriesAre(paths[n - 1].0, paths[n - 1].1, global);
      hide PathEntries, EntryCount, EntryOf;
    }
  }

  /** The entries of a specification come path by path, and those of a path operation by operation. */
  lemma {:induction false} EntryIsAt(paths: seq<(string, Methods)>, n: nat, i: nat, k: nat, global: Security)
    requires i < n <= |paths| && k < EntryCount(paths[i].1)
    ensures |Entries(paths, n, global)| == EntriesBefore(paths, n) && EntriesBefore(paths, i) + k < |Entries(paths, n, global)|
    ensures Entries(paths, n, global)[EntriesBefore(paths, i) + k] == EntryOf(paths[i].0, paths[i].1, k, global)
  {
    hide PathEntries, EntryCount, EntryOf;
    EntriesCounted(paths, n - 1, global);
    EntriesCounted(paths, n, global);
    PathEntriesAre(paths[n - 1].0, paths[n - 1].1, global);
    if i < n - 1 {
      EntryIsAt(paths, n - 1, i, k, global);
    }
  }

  // ---------------------------------------------------------------- what becomes of them

  predicate HasKey(e: Entry, key: EndpointKey) {
    e.Good? && KeyOf(e.endpoint) == key
  }

  /** Entry `i` is the first of its method and canonical path. */
  predicate IsFirst(es: seq<Entry>, seen: set<EndpointKey>, i: nat)
    requires i < |es|
  {
    es[i].Good? && KeyOf(es[i].endpoint) !in seen && forall j :: 0 <= j < i ==> !HasKey(es[j], KeyOf(es[i].endpoint))
  }

  /** The endpoints of the first occurrences, in order. */
  function Listed(es: seq<Entry>, seen: set<EndpointKey>): seq<Endpoint> {
    if es == [] then []
    else
      var last := |es| - 1;
      Listed(es[..last], seen) + if IsFirst(es, seen, last) then [es[last].endpoint] else []
  }

  /** What is reported, in order. */
  function Reported(es: seq<Entry>, seen: set<EndpointKey>): seq<Problem> {
    if es == [] then []
    else
      var last := |es| - 1;
      Reported(es[..last], seen) +
      match es[last]
      case Bad(problem) => [problem]
      case Good(endpoint, remarks, _) =>
        if IsFirst(es, seen, last) then remarks else [Duplicate(endpoint.verb, endpoint.path)]
  }

  /** What entry `i` is reported with: its fault, or that it is a duplicate, or its remarks. */
  function ReportOf(es: seq<Entry>, seen: set<EndpointKey>, i: nat): seq<Problem>
    requires i < |es|
  {
    if es[i].Bad? then [es[i].problem]
    else if KeyOf(es[i].endpoint) in seen || exists j :: 0 <= j < i && HasKey(es[j], KeyOf(es[i].endpoint))
    then [Duplicate(es[i].endpoint.verb, es[i].endpoint.path)]
    else es[i].remarks
  }

  function ReportsBefore(es: seq<Entry>, seen: set<EndpointKey>, i: nat): nat
    requires i <= |es|
  {
    if i == 0 then 0 else ReportsBefore(es, seen, i - 1) + |ReportOf(es, seen, i - 1)|
  }

  lemma {:induction false} ReportsCounted(es: seq<Entry>, seen: set<EndpointKey>, n: nat)
    requires n <= |es|
    ensures |Reported(es[..n], seen)| == ReportsBefore(es, seen, n)
  {
    if n > 0 {
      ReportsCounted(es, seen, n - 1);
      LastReport(es, seen, n);
      hide Reported, ReportOf;
    }
  }

  /** The reports come entry by entry. */
  lemma {:induction false} ReportIsAt(es: seq<Entry>, seen: set<EndpointKey>, n: nat, i: nat, k: nat)
    requires i < n <= |es| && k < |ReportOf(es, seen, i)|
    ensures |Reported(es[..n], seen)| == ReportsBefore(es, seen, n) && ReportsBefore(es, seen, i) + k < |Reported(es[..n], seen)|
    ensures Reported(es[..n], seen)[ReportsBefore(es, seen, i) + k] == ReportOf(es, seen, i)[k]
  {
    hide *;
    ReportsCounted(es, seen, n - 1);
    ReportsCounted(es, seen, n);
    LastReport(es, seen, n);
    if i < n - 1 {
      ReportIsAt(es, seen, n - 1, i, k);
      assert Reported(es[..n - 1], seen) <= Reported(es[..n], seen);
    } else {
      AtConcat(Reported(es[..i], seen), ReportOf(es, seen, i), k);
    }
  }

  lemma AtConcat(xs: seq<Problem>, ys: seq<Problem>, k: nat)
    requires k < |ys|
    ensures (xs + ys)[|xs| + k] == ys[k]
  {}

  lemma LastReport(es: seq<Entry>, seen: set<EndpointKey>, n: nat)
    requires 0 < n <= |es|
    ensures Reported(es[..n], seen) == Reported(es[..n - 1], seen) + ReportOf(es, seen, n - 1)
  {
    var prefix := es[..n];
    assert prefix[..n - 1] == es[..n - 1] && forall j :: 0 <= j < n ==> prefix[j] == es[j];
  }

  /** The fields of a parser. */
  datatype Progress = Progress(endpoints: seq<Endpoint>, errors: seq<Problem>, seen: set<EndpointKey>)

  /** The keys that have been seen are those of the list, and no key is listed twice. */
  predicate IsConsistent(p: Progress) {
    p.seen == KeysOf(p.endpoints) && |p.seen| == |p.endpoints|
  }

  lemma ErrorsKeepConsistent(p: Progress, errors: seq<Problem>)
    requires IsConsistent(p)
    ensures IsConsistent(p.(errors := errors))
  {}

  /** The fields after one more entry that does not raise. */
  function Taken(p: Progress, e: Entry): Progress {
    match e
    case Bad(problem) => p.(errors := p.errors + [problem])
    case Good(endpoint, remarks, _) =>
      if KeyOf(endpoint) in p.seen then p.(errors := p.errors + [Duplicate(endpoint.verb, endpoint.path)])
      else Progress(p.endpoints + [endpoint], p.errors + remarks, p.seen + {KeyOf(endpoint)})
  }

  /** From `start` the entries `es` have led to `now`. */
  predicate IsOutcome(es: seq<Entry>, start: Progress, now: Progress) {
    && now.endpoints == start.endpoints + Listed(es, start.seen)
    && now.errors == start.errors + Reported(es, start.seen)
    && now.seen == start.seen + KeysOf(Listed(es, start.seen))
  }

  lemma TakenIsOutcome(es: seq<Entry>, e: Entry, start: Progress, now: Progress)
    requires IsOutcome(es, start, now)
    ensures IsOutcome(es + [e], start, Taken(now, e))
    ensures IsConsistent(now) ==> IsConsistent(Taken(now, e))
  {
    var more := es + [e];
    assert more[..|es|] == es;
    if e.Good? {
      ListedKeys(es, start.seen, KeyOf(e.endpoint));
      assert IsFirst(more, start.seen, |es|) <==> KeyOf(e.endpoint) !in now.seen;
      KeysOfMore(Listed(es, start.seen), e);
      KeysOfMore(now.endpoints, e);
    }
  }

  /** The keys that have been seen are those of the list and of before. */
  lemma {:induction false} ListedKeys(es: seq<Entry>, seen: set<EndpointKey>, key: EndpointKey)
    ensures key in seen + KeysOf(Listed(es, seen)) <==> key in seen || exists j :: 0 <= j < |es| && HasKey(es[j], key)
  {
    if es != [] {
      var last := |es| - 1;
      var before := es[..last];
      ListedKeys(before, seen, key);
      KeysOfMore(Listed(before, seen), es[last]);
      assert forall j :: 0 <= j < last ==> before[j] == es[j];
      if IsFirst(es, seen, last) {
        assert Listed(es, seen) == Listed(before, seen) + [es[last].endpoint];
      } else {
        assert Listed(es, seen) == Listed(before, seen);
      }
    }
  }

  lemma KeysOfMore(list: seq<Endpoint>, e: Entry)
    ensures e.Good? ==> KeysOf(list + [e.endpoint]) == KeysOf(list) + {KeyOf(e.endpoint)}
  {
    if e.Good? {
      assert forall x :: x in list + [e.endpoint] <==> x in list || x == e.endpoint;
    }
  }

  // ---------------------------------------------------------------- theorems

  /** Every listed endpoint is the first well-formed entry of its method and canonical path, and was not
      seen before. */
  lemma {:induction false} ListedIsFirst(es: seq<Entry>, seen: set<EndpointKey>, k: nat) returns (i: nat)
    requires k < |Listed(es, seen)|
    ensures i < |es| && IsFirst(es, seen, i) && Listed(es, seen)[k] == es[i].endpoint && |Listed(es[..i], seen)| == k
  {
    var last := |es| - 1;
    if k < |Listed(es[..last], seen)| {
      i := ListedIsFirst(es[..last], seen, k);
      assert es[..last][..i] == es[..i];
    } else {
      i := last;
    }
  }

  /** Every first occurrence is listed, at the place that the first occurrences before it leave. */
  lemma {:induction false} FirstIsListed(es: seq<Entry>, seen: set<EndpointKey>, i: nat)
    requires i < |es| && IsFirst(es, seen, i)
    ensures var k := |Listed(es[..i], seen)|; k < |Listed(es, seen)| && Listed(es, seen)[k] == es[i].endpoint
  {
    var last := |es| - 1;
    if i < last {
      assert es[..last][..i] == es[..i];
      FirstIsListed(es[..last], seen, i);
    }
  }

  /** No two listed endpoints have the same method and the same canonical path. */
  lemma ListedOnce(es: seq<Entry>, seen: set<EndpointKey>, a: nat, b: nat)
    requires a < b < |Listed(es, seen)|
    ensures KeyOf(Listed(es, seen)[a]) != KeyOf(Listed(es, seen)[b])
  {
    var i := ListedIsFirst(es, seen, a);
    var j := ListedIsFirst(es, seen, b);
    if i < j {
      assert !HasKey(es[i], KeyOf(es[j].endpoint));
    } else {
      assert i != j;
      assert !HasKey(es[j], KeyOf(es[i].endpoint));
    }
  }

  predicate Rejects(p: Problem) {
    p.MethodsNotAnObject? || p.InvalidMethod? || p.InvalidDetails? || p.Duplicate?
  }

  function Rejections(ps: seq<Problem>): nat {
    if ps == [] then 0 else Rejections(ps[..|ps| - 1]) + if Rejects(ps[|ps| - 1]) then 1 else 0
  }

  lemma {:induction false} RejectionsAppend(ps: seq<Problem>, qs: seq<Problem>)
    ensures Rejections(ps + qs) == Rejections(ps) + Rejections(qs)
  {
    if qs == [] {
      assert ps + qs == ps;
    } else {
      RejectionsAppend(ps, qs[..|qs| - 1]);
      assert (ps + qs)[..|ps + qs| - 1] == ps + qs[..|qs| - 1];
    }
  }

  /** The entries of a specification: a malformed one is reported as a rejection, the remarks on a
      well-formed one never are. */
  predicate IsEntry(e: Entry) {
    match e
    case Bad(problem) => Rejects(problem)
    case Good(_, remarks, _) => forall p :: p in remarks ==> !Rejects(p)
  }

  lemma {:induction false} NoRejections(ps: seq<Problem>)
    requires forall p :: p in ps ==> !Rejects(p)
    ensures Rejections(ps) == 0
  {
    if ps != [] {
      NoRejections(ps[..|ps| - 1]);
    }
  }

  /** Every entry is either listed or reported once as rejected. */
  lemma {:induction false} EveryEntryIsAccountedFor(es: seq<Entry>, seen: set<EndpointKey>)
    requires forall e :: e in es ==> IsEntry(e)
    ensures |Listed(es, seen)| + Rejections(Reported(es, seen)) == |es|
  {
    if es != [] {
      var last := |es| - 1;
      var before, e := es[..last], es[last];
      EveryEntryIsAccountedFor(before, seen);
      assert e in es;
      if IsFirst(es, seen, last) {
        RejectionsAppend(Reported(before, seen), e.remarks);
        NoRejections(e.remarks);
      } else {
        var p := if e.Bad? then e.problem else Duplicate(e.endpoint.verb, e.endpoint.path);
        RejectionsAppend(Reported(before, seen), [p]);
        assert [p][..0] == [];
        assert Rejections([p]) == Rejections([]) + 1;
      }
    }
  }

  lemma {:induction false} OperationEntriesAreEntries(path: string, operations: seq<(string, Details)>, n: nat, global: Security)
    requires n <= |operations|
    ensures forall e :: e in OperationEntries(path, operations, n, global) ==> IsEntry(e)
  {
    if n > 0 {
      OperationEntriesAreEntries(path, operations, n - 1, global);
      assert IsEntry(EntryFor(path, operations[n - 1].0, operations[n - 1].1, global));
    }
  }

  lemma {:induction false} SpecEntriesAreEntries(paths: seq<(string, Methods)>, n: nat, global: Security)
    requires n <= |paths|
    ensures forall e :: e in Entries(paths, n, global) ==> IsEntry(e)
  {
    if n > 0 {
      SpecEntriesAreEntries(paths, n - 1, global);
      if paths[n - 1].1.Methods? {
        OperationEntriesAreEntries(paths[n - 1].0, paths[n - 1].1.operations, |paths[n - 1].1.operations|, global);
      }
    }
  }

  /** A second pass over the same entries lists nothing. */
  lemma {:induction false} SecondPassListsNothing(es: seq<Entry>, seen: set<EndpointKey>, n: nat)
    requires n <= |es|
    ensures Listed(es[..n], seen + KeysOf(Listed(es, seen))) == []
  {
    if n > 0 {
      SecondPassListsNothing(es, seen, n - 1);
      assert es[..n][..n - 1] == es[..n - 1];
      if es[n - 1].Good? {
        ListedKeys(es, seen, KeyOf(es[n - 1].endpoint));
        assert HasKey(es[n - 1], KeyOf(es[n - 1].endpoint));
      }
    }
  }

  /** Two operations are one endpoint exactly when their methods agree up to case and their paths have the
      same segments. */
  lemma SameEndpointIff(p: string, name: string, d: Details, q: string, name': string, d': Details, global: Security)
    requires EntryFor(p, name, d, global).Good? && EntryFor(q, name', d', global).Good?
    ensures KeyOf(EntryFor(p, name, d, global).endpoint) == KeyOf(EntryFor(q, name', d', global).endpoint)
       <==> SameButCase(name, name') && Segments(p) == Segments(q)
  {
    SameUpperIff(name, name');
    SameFormIffSameSegments(p, q);
    hide Upper, SameButCase, Segments, NormalizePath;
  }

  // ---------------------------------------------------------------- the parser

  datatype DiscoveryResult = DiscoveryResult(endpoints: seq<Endpoint>, errors: seq<Problem>, total: nat)

  class OpenAPIParser {
    const spec: Spec

    var endpoints: seq<Endpoint>
    var errors: seq<Problem>
    var seen: set<EndpointKey>

    ghost predicate Valid()
      reads this
    {
      IsConsistent(View())
    }

    constructor (spec: Spec)
      ensures Valid() && this.spec == spec && endpoints == [] && errors == [] && seen == {}
    {
      this.spec, endpoints, errors, seen := spec, [], [], {};
    }

    /** The total counts different endpoints. */
    method BuildResult() returns (r: DiscoveryResult)
      requires Valid()
      ensures r.endpoints == endpoints && r.errors == errors
      ensures r.total == |KeysOf(r.endpoints)|
    {
      r := DiscoveryResult(endpoints, errors, |endpoints|);
    }

    function View(): Progress
      reads this
    {
      Progress(endpoints, errors, seen)
    }

    /** Takes one operation.  When reading its details raises, only its remarks stay. */
    method AddOperation(path: string, name: string, details: Details, global: Security) returns (raised: bool)
      modifies this
      ensures var e := EntryFor(path, name, details, global);
              && raised == (e.Good? && e.raises && KeyOf(e.endpoint) !in old(seen))
              && (!raised ==> View() == Taken(old(View()), e))
              && (raised ==> View() == old(View()).(errors := old(errors) + e.remarks))
    {
      hide NormalizePath;
      hide Upper;
      hide HasAuth;
      hide Remarks;
      var verb := Upper(name);
      raised := false;
      if verb !in VALID_METHODS {
        errors := errors + [InvalidMethod(name, path)];
        return;
      }
      if details.NotDetails? {
        errors := errors + [InvalidDetails(verb, path)];
        return;
      }
      var key := (verb, NormalizePath(path));
      if key in seen {
        errors := errors + [Duplicate(verb, NormalizePath(path))];
        return;
      }
      ghost var before := errors;
      if !details.hasResponses {
        errors := errors + [MissingResponses(verb, path)];
      }
      errors := errors + Remarks(details.unresolved);
      assert errors == before + EntryFor(path, name, details, global).remarks;
      if details.raises {
        return true;
      }
      endpoints := endpoints + [Endpoint(verb, NormalizePath(path), HasAuth(details.security, global), details.shape)];
      seen := seen + {key};
    }

    /** One path, with the inner loop over its operations.  When reading one raises, `taken` are the
        entries taken, the last `part` of them from this path, in the state `now`. */
    method ParsePath(path: string, methods: Methods, global: Security, ghost es: seq<Entry>, ghost start: Progress)
        returns (raised: bool, ghost part: nat, ghost now: Progress)
      requires Valid() && IsOutcome(es, start, View())
      modifies this
      ensures Valid()
      ensures !raised ==> IsOutcome(es + PathEntries(path, methods, global), start, View())
      ensures raised ==>
                && methods.Methods? && part < |methods.operations|
                && IsOutcome(es + OperationEntries(path, methods.operations, part, global), start, now)
                && var e := EntryFor(path, methods.operations[part].0, methods.operations[part].1, global);
                   e.Good? && e.raises && KeyOf(e.endpoint) !in now.seen && View() == now.(errors := now.errors + e.remarks)
    {
      hide IsOutcome;
      hide EntryFor;
      hide IsConsistent;
      if methods.NotMethods? {
        TakenIsOutcome(es, Bad(MethodsNotAnObject(path)), start, View());
        errors := errors + [MethodsNotAnObject(path)];
        return false, 0, View();
      }
      var operations := methods.operations;
      assert es + OperationEntries(path, operations, 0, global) == es;
      assert PathEntries(path, methods, global) == OperationEntries(path, operations, |operations|, global);
      hide OperationEntries;
      hide PathEntries;
      hide Taken;
      part, now := 0, View();
      for k := 0 to |operations|
        invariant Valid() && now == View()
        invariant IsOutcome(es + OperationEntries(path, operations, k, global), start, View())
      {
        var (name, details) := operations[k];
        ghost var before, e := OperationEntries(path, operations, k, global), EntryFor(path, name, details, global);
        NextOperation(path, operations, k, global);
        assert es + before + [e] == es + (before + [e]);
        TakenIsOutcome(es + before, e, start, View());
        raised := AddOperation(path, name, details, global);
        if raised {
          ErrorsKeepConsistent(now, errors);
          return true, k, now;
        }
        now := View();
      }
      raised := false;
    }

    /** Goes through the whole specification; `es` are the entries taken.  When reading one raises, the
        call has no result. */
    method Parse() returns (r: Option<DiscoveryResult>, ghost es: seq<Entry>)
      requires Valid()
      modifies this
      ensures Valid()
      ensures !spec.WithPaths? ==> es == [] && endpoints == old(endpoints) && seen == old(seen)
      ensures !spec.WithPaths? ==> errors == old(errors) + match spec
                                   case EmptySpec => []
                                   case WithoutPaths => [MissingPaths]
                                   case BadPaths => [PathsNotAnObject]
                                   case WithPaths(_, _) => []
      ensures spec.WithPaths? && r.Some? ==>
                es == Entries(spec.paths, |spec.paths|, spec.security) && IsOutcome(es, old(View()), View())
      ensures r.None? ==> spec.WithPaths? && StoppedAt(Entries(spec.paths, |spec.paths|, spec.security), es, old(View()), View())
      ensures r.Some? ==> r.value.endpoints == endpoints && r.value.errors == errors && r.value.total == |KeysOf(endpoints)|
    {
      es := [];
      match spec
      case EmptySpec =>
        var result := BuildResult();
        r := Some(result);
      case WithoutPaths =>
        errors := errors + [MissingPaths];
        var result := BuildResult();
        r := Some(result);
      case BadPaths =>
        errors := errors + [PathsNotAnObject];
        var result := BuildResult();
        r := Some(result);
      case WithPaths(security, paths) =>
        var raised;
        raised, es := ParsePaths(paths, security);
        if raised {
          return None, es;
        }
        var result := BuildResult();
        r := Some(result);
    }

    /** The outer loop, over the paths. */
    method ParsePaths(paths: seq<(string, Methods)>, global: Security) returns (raised: bool, ghost es: seq<Entry>)
      requires Valid()
      modifies this
      ensures Valid()
      ensures !raised ==> es == Entries(paths, |paths|, global) && IsOutcome(es, old(View()), View())
      ensures raised ==> StoppedAt(Entries(paths, |paths|, global), es, old(View()), View())
    {
      es, raised := [], false;
      NothingTaken(View());
      assert Entries(paths, 0, global) == [];
      hide Entries;
      hide PathEntries;
      hide OperationEntries;
      hide StoppedAt;
      hide IsOutcome;
      hide EntryFor;
      hide IsConsistent;
      for i := 0 to |paths|
        invariant Valid() && es == Entries(paths, i, global) && IsOutcome(es, old(View()), View())
      {
        var (path, methods) := paths[i];
        NextPath(paths, i, global);
        ghost var part, now;
        raised, part, now := ParsePath(path, methods, global, es, old(View()));
        if raised {
          ghost var stopped := es + OperationEntries(path, methods.operations, part, global);
          StopsHere(paths, i, part, global, stopped, EntryFor(path, methods.operations[part].0, methods.operations[part].1, global), old(View()), now);
          return true, stopped;
        }
        es := es + PathEntries(path, methods, global);
      }
    }
  }

  /** Of the entries `all` only `es` have been taken, because reading the next one raised. */
  predicate StoppedAt(all: seq<Entry>, es: seq<Entry>, start: Progress, now: Progress) {
    && |es| < |all| && es == all[..|es|]
    && var e := all[|es|];
       && e.Good? && e.raises && IsFirst(all, start.seen, |es|)
       && now.endpoints == start.endpoints + Listed(es, start.seen)
       && now.errors == start.errors + Reported(es, start.seen) + e.remarks
       && now.seen == start.seen + KeysOf(Listed(es, start.seen))
  }

  lemma NothingTaken(p: Progress)
    ensures IsOutcome([], p, p)
  {
    assert KeysOf([]) == {};
  }

  lemma StopsHere(paths: seq<(string, Methods)>, i: nat, k: nat, global: Security, es: seq<Entry>, e: Entry, start: Progress, now: Progress)
    requires i < |paths| && paths[i].1.Methods? && k < |paths[i].1.operations|
    requires es == Entries(paths, i, global) + OperationEntries(paths[i].0, paths[i].1.operations, k, global)
    requires e == EntryFor(paths[i].0, paths[i].1.operations[k].0, paths[i].1.operations[k].1, global)
    requires IsOutcome(es, start, now) && e.Good? && e.raises && KeyOf(e.endpoint) !in now.seen
    ensures StoppedAt(Entries(paths, |paths|, global), es, start, now.(errors := now.errors + e.remarks))
  {
    hide *;
    NextPath(paths, i, global);
    EntriesArePrefix(paths, i + 1, global);
    OperationsArePrefix(paths[i].0, paths[i].1.operations, k, global);
    PrefixThrough(Entries(paths, i, global), OperationEntries(paths[i].0, paths[i].1.operations, k, global), e,
                  PathEntries(paths[i].0, paths[i].1, global), Entries(paths, |paths|, global));
    StopsBefore(Entries(paths, |paths|, global), es, e, start, now);
  }

  lemma NextPath(paths: seq<(string, Methods)>, i: nat, global: Security)
    requires i < |paths|
    ensures Entries(paths, i + 1, global) == Entries(paths, i, global) + PathEntries(paths[i].0, paths[i].1, global)
    ensures match paths[i].1
            case NotMethods => PathEntries(paths[i].0, paths[i].1, global) == [Bad(MethodsNotAnObject(paths[i].0))]
            case Methods(operations) =>
              && PathEntries(paths[i].0, paths[i].1, global) == OperationEntries(paths[i].0, operations, |operations|, global)
              && OperationEntries(paths[i].0, operations, 0, global) == []
  {}

  lemma NextOperation(path: string, operations: seq<(string, Details)>, k: nat, global: Security)
    requires k < |operations|
    ensures OperationEntries(path, operations, k + 1, global)
         == OperationEntries(path, operations, k, global) + [EntryFor(path, operations[k].0, operations[k].1, global)]
  {}

  lemma PrefixThrough<T>(before: seq<T>, taken: seq<T>, e: T, part: seq<T>, all: seq<T>)
    requires taken + [e] <= part && before + part <= all
    ensures before + taken + [e] <= all
  {
    assert before + taken + [e] == before + (taken + [e]);
  }

  lemma StopsBefore(all: seq<Entry>, es: seq<Entry>, e: Entry, start: Progress, now: Progress)
    requires es + [e] <= all && IsOutcome(es, start, now) && e.Good? && e.raises && KeyOf(e.endpoint) !in now.seen
    ensures StoppedAt(all, es, start, now.(errors := now.errors + e.remarks))
  {
    ListedKeys(es, start.seen, KeyOf(e.endpoint));
    assert all[|es|] == (es + [e])[|es|] && all[..|es|] == (es + [e])[..|es|];
    assert forall j :: 0 <= j < |es| ==> all[j] == es[j];
  }

  lemma {:induction false} EntriesArePrefix(paths: seq<(string, Methods)>, n: nat, global: Security)
    requires n <= |paths|
    ensures Entries(paths, n, global) <= Entries(paths, |paths|, global)
    decreases |paths| - n
  {
    if n < |paths| {
      EntriesArePrefix(paths, n + 1, global);
    }
  }

  lemma {:induction false} OperationsArePrefix(path: string, operations: seq<(string, Details)>, k: nat, global: Security)
    requires k < |operations|
    ensures var all := OperationEntries(path, operations, |operations|, global);
            OperationEntries(path, operations, k, global) + [EntryFor(path, operations[k].0, operations[k].1, global)] <= all
    decreases |operations| - k
  {
    if k + 1 < |operations| {
      OperationsArePrefix(path, operations, k + 1, global);
    }
  }
}
