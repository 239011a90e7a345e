/** The request expectation of the `internal/model` generation
    (`internal/model/expectation.go`): its canonical form and its hash.
    A Go slice is an array the struct points at, so a copy of the struct
    shares the caller's storage: `canonical` sorts and upper-cases the
    caller's arrays in place. A nil slice is `None`. */
module ModelExpectation {
  import opened Base
  import opened Order
  import opened Paths
  import opened Hashing

  /** `HTTPExpectation`. */
  datatype HTTPExpectation = HTTPExpectation(
    methods: Option<array<string>>,
    path: string,
    queries: Option<array<Pair>>,
    headers: Option<array<Pair>>)

  /** What an expectation holds at one moment, nil slices read as empty. */
  datatype Contents = Contents(methods: seq<string>, path: string, queries: seq<Pair>, headers: seq<Pair>)

  /** The arrays `e`'s slices point into. */
  function Storage(e: HTTPExpectation): set<object> {
    var m: set<object> := if e.methods.Some? then {e.methods.value} else {};
    var q: set<object> := if e.queries.Some? then {e.queries.value} else {};
    var h: set<object> := if e.headers.Some? then {e.headers.value} else {};
    m + q + h
  }

  function Elems<T>(a: Option<array<T>>): seq<T>
    reads if a.Some? then {a.value} else {}
  {
    if a.Some? then a.value[..] else []
  }

  function View(e: HTTPExpectation): Contents
    reads Storage(e)
  {
    Contents(Elems(e.methods), e.path, Elems(e.queries), Elems(e.headers))
  }

  /** Every method upper-cased, position by position. */
  function UpperAll(ms: seq<string>): (r: seq<string>)
    ensures |r| == |ms| && forall i :: 0 <= i < |ms| ==> r[i] == ToUpper(ms[i])
  {
    seq(|ms|, i requires 0 <= i < |ms| => ToUpper(ms[i]))
  }

  /** The methods sorted first and upper-cased afterwards. */
  function CanonicalMethods(ms: seq<string>): seq<string> {
    UpperAll(SortStrings(ms))
  }

  /** `c` is one of the canonical forms of `o`: `sort.Slice` is unstable, so
      pairs with equal names may come out in any order. */
  predicate IsCanonicalOf(c: Contents, o: Contents) {
    && c.methods == CanonicalMethods(o.methods)
    && c.path == Clean("/" + o.path)
    && SortedByName(c.queries) && multiset(c.queries) == multiset(o.queries)
    && SortedByName(c.headers) && multiset(c.headers) == multiset(o.headers)
  }

  /** The canonical form picked by a stable sort. */
  function CanonicalForm(o: Contents): Contents {
    Contents(CanonicalMethods(o.methods), Clean("/" + o.path), SortByName(o.queries), SortByName(o.headers))
  }

  /** What `canonical` leaves in the caller's arrays. */
  predicate SortedInPlace(e: HTTPExpectation, o: Contents)
    reads Storage(e)
  {
    && (e.methods.Some? ==> e.methods.value[..] == CanonicalMethods(o.methods))
    && (e.queries.Some? ==> SortedByName(e.queries.value[..]) && multiset(e.queries.value[..]) == multiset(o.queries))
    && (e.headers.Some? ==> SortedByName(e.headers.value[..]) && multiset(e.headers.value[..]) == multiset(o.headers))
  }

  /** The bytes `GetHash` writes for canonical contents: every method, the
      path, then name and value of every query and of every header. */
  function HashBytes(c: Contents): string {
    Concat(c.methods) + c.path + PairsBytes(c.queries) + PairsBytes(c.headers)
  }

  /** The slice itself, or a fresh empty one in place of nil. */
  method OrEmpty<T(0)>(a: Option<array<T>>) returns (r: array<T>)
    ensures a.Some? ==> r == a.value
    ensures a.None? ==> fresh(r) && r.Length == 0
    ensures r[..] == Elems(a)
  {
    if a.Some? {
      r := a.value;
    } else {
      r := new T[0];
    }
  }

  /** The methods part of `canonical`: `sort.Strings`, then every element
      upper-cased in place. */
  method CanonicaliseMethods(ms: array<string>)
    modifies ms
    ensures ms[..] == CanonicalMethods(old(ms[..]))
  {
    SortStringsInPlace(ms);
    ghost var sorted := ms[..];
    for i := 0 to ms.Length
      invariant forall j :: 0 <= j < i ==> ms[j] == ToUpper(sorted[j])
      invariant forall j :: i <= j < ms.Length ==> ms[j] == sorted[j]
    {
      ms[i] := ToUpper(ms[i]);
    }
    assert ms[..] == UpperAll(sorted);
  }

  /** The two `sort.Slice` calls of `canonical`. Queries and headers may be
      one array; each ends up a sorted permutation of what it held. */
  method SortQueriesAndHeaders(qs: array<Pair>, hs: array<Pair>)
    modifies qs, hs
    ensures SortedByName(qs[..]) && multiset(qs[..]) == multiset(old(qs[..]))
    ensures SortedByName(hs[..]) && multiset(hs[..]) == multiset(old(hs[..]))
  {
    SortPairsInPlace(qs);
    ghost var sortedQueries := qs[..];
    SortPairsInPlace(hs);
    if qs != hs {
      assert qs[..] == sortedQueries;
    }
  }

  /** `e.canonical()`: nil slices become fresh empty ones; the methods are
      sorted and then upper-cased, and the queries and headers sorted by
      name, all in the arrays `e` points at; the path is rooted and cleaned. */
  method Canonical(e: HTTPExpectation) returns (c: HTTPExpectation)
    modifies Storage(e)
    ensures c.methods.Some? && c.queries.Some? && c.headers.Some?
    ensures e.methods.Some? ==> c.methods == e.methods
    ensures e.queries.Some? ==> c.queries == e.queries
    ensures e.headers.Some? ==> c.headers == e.headers
    ensures e.methods.None? ==> fresh(c.methods.value)
    ensures e.queries.None? ==> fresh(c.queries.value)
    ensures e.headers.None? ==> fresh(c.headers.value)
    ensures IsCanonicalOf(View(c), old(View(e)))
  {
    ghost var o := View(e);
    var ms := OrEmpty(e.methods);
    var qs := OrEmpty(e.queries);
    var hs := OrEmpty(e.headers);
    CanonicaliseArrays(ms, qs, hs, o);
    c := HTTPExpectation(Some(ms), Clean("/" + e.path), Some(qs), Some(hs));
    assert View(c) == Contents(ms[..], c.path, qs[..], hs[..]);
  }

  /** The in-place steps of `canonical` on the three arrays. */
  method CanonicaliseArrays(ms: array<string>, qs: array<Pair>, hs: array<Pair>, ghost o: Contents)
    requires ms[..] == o.methods && qs[..] == o.queries && hs[..] == o.headers
    modifies ms, qs, hs
    ensures IsCanonicalOf(Contents(ms[..], Clean("/" + o.path), qs[..], hs[..]), o)
  {
    CanonicaliseMethods(ms);
    ghost var methods := ms[..];
    SortQueriesAndHeaders(qs, hs);
    assert ms[..] == methods;
  }

  /** The writes of `GetHash` once the expectation is canonical. */
  method WriteCanonical(c: HTTPExpectation) returns (sum: bv64)
    requires c.methods.Some? && c.queries.Some? && c.headers.Some?
    ensures sum == Fnv1a(HashBytes(View(c)))
  {
    ghost var v := View(c);
    var h := new Hasher();
    HashString(h, c.methods.value[..]);
    assert h.written == Concat(v.methods);
    h.Write(c.path);
    WritePairs(h, c.queries.value[..]);
    WritePairs(h, c.headers.value[..]);
    assert h.written == HashBytes(v);
    sum := h.Sum64();
  }

  /** `e.GetHash()`: the FNV-1a sum of the canonical form's bytes; the
      caller's arrays are left in canonical order. */
  method GetHash(e: HTTPExpectation) returns (sum: bv64)
    modifies Storage(e)
    ensures SortedInPlace(e, old(View(e)))
    ensures exists c :: IsCanonicalOf(c, old(View(e))) && sum == Fnv1a(HashBytes(c))
    ensures DistinctNames(old(View(e)).queries) && DistinctNames(old(View(e)).headers) ==>
      sum == Fnv1a(HashBytes(CanonicalForm(old(View(e)))))
  {
    ghost var o := View(e);
    var c := Canonical(e);
    sum := WriteCanonical(c);
    ghost var v := View(c);
    assert IsCanonicalOf(v, o);
    if DistinctNames(o.queries) && DistinctNames(o.headers) {
      CanonicalUnique(v, o);
    }
  }

  /** With distinct query and header names the canonical form is unique. */
  lemma CanonicalUnique(c: Contents, o: Contents)
    requires IsCanonicalOf(c, o)
    requires DistinctNames(o.queries) && DistinctNames(o.headers)
    ensures c == CanonicalForm(o)
  {
    DistinctNamesPermutation(o.queries, c.queries);
    DistinctNamesPermutation(o.headers, c.headers);
    SortedByNameUnique(c.queries, SortByName(o.queries));
    SortedByNameUnique(c.headers, SortByName(o.headers));
  }

  /** The hash input forgets the order of the methods, and of the queries
      and headers when their names are distinct. */
  lemma GetHashPermutation(a: Contents, b: Contents)
    requires a.path == b.path
    requires multiset(a.methods) == multiset(b.methods)
    requires multiset(a.queries) == multiset(b.queries) && DistinctNames(a.queries)
    requires multiset(a.headers) == multiset(b.headers) && DistinctNames(a.headers)
    ensures CanonicalForm(a) == CanonicalForm(b)
    ensures HashBytes(CanonicalForm(a)) == HashBytes(CanonicalForm(b))
  {
    SortStringsPermutation(a.methods, b.methods);
    SortByNamePermutation(a.queries, b.queries);
    SortByNamePermutation(a.headers, b.headers);
  }

  lemma SortByNamePermutation(a: seq<Pair>, b: seq<Pair>)
    requires multiset(a) == multiset(b) && DistinctNames(a)
    ensures SortByName(a) == SortByName(b)
  {
    DistinctNamesPermutation(a, SortByName(a));
    SortedByNameUnique(SortByName(a), SortByName(b));
  }

  /** The empty expectation canonicalises to no methods, "/", no queries and
      no headers. */
  lemma CanonicalEmpty()
    ensures CanonicalForm(Contents([], "", [], [])) == Contents([], "/", [], [])
    ensures forall c :: IsCanonicalOf(c, Contents([], "", [], [])) ==> c == Contents([], "/", [], [])
  {
    CleanRoot();
    assert "/" + "" == "/";
  }

  /** Sorting happens before upper-casing: "B" sorts before "a". */
  lemma MixedCaseMethods()
    ensures CanonicalMethods(["a", "B"]) == ["B", "A"]
  {
    assert Le("B", "a");
    assert Sorted(["B", "a"]);
    SortedUnique(SortStrings(["a", "B"]), ["B", "a"]);
    assert ToUpper("a") == "A";
    assert ToUpper("B") == "B";
  }

  /** Upper-case methods simply come out sorted. */
  lemma UpperCaseMethods(ms: seq<string>)
    requires forall i :: 0 <= i < |ms| ==> ToUpper(ms[i]) == ms[i]
    ensures CanonicalMethods(ms) == SortStrings(ms)
  {
    var s := SortStrings(ms);
    forall i | 0 <= i < |s| ensures ToUpper(s[i]) == s[i] {
      assert s[i] in multiset(ms);
    }
  }

  /** A relative single-segment path is rooted: "teams" becomes "/teams". */
  lemma TeamsPath()
    ensures Clean("/" + "teams") == "/teams"
  {
    CleanName("teams");
  }
}
