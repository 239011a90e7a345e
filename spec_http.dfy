/** HTTP mocks of the `internal/spec` generation (`internal/spec/http.go`):
    an expectation, an optional canned response and an optional forward. */
module SpecHttp {
  import opened Base
  import opened Order
  import opened Paths
  import opened Hashing

  datatype HTTPExpect = HTTPExpect(methods: seq<string>, path: string, prefix: bool,
                                   queries: Option<StrMap>, headers: Option<StrMap>)
  datatype HTTPResponse = HTTPResponse(delay: string, status: int, headers: Option<StrMap>, body: Json)
  datatype HTTPForward = HTTPForward(delay: string, to: string, headers: Option<StrMap>)

  /** `*HTTPResponse` and `*HTTPForward` are nil pointers or values. */
  datatype HTTPMock = HTTPMock(expectation: HTTPExpect, response: Option<HTTPResponse>, forward: Option<HTTPForward>)

  /** `m.SetDefaults()`: a missing method list becomes GET, the path is
      rooted and cleaned, a mock with no action gets an empty response, and a
      zero response status becomes 200. */
  function SetDefaults(m: HTTPMock): (r: HTTPMock)
    ensures |m.expectation.methods| == 0 ==> r.expectation.methods == ["GET"]
    ensures |m.expectation.methods| > 0 ==> r.expectation.methods == m.expectation.methods
    ensures r.expectation.path == Clean("/" + m.expectation.path)
    ensures r.expectation.prefix == m.expectation.prefix && r.expectation.queries == m.expectation.queries
    ensures r.expectation.headers == m.expectation.headers
    ensures r.forward == m.forward
    ensures r.response.Some? <==> m.response.Some? || m.forward.None?
    ensures m.response.None? && m.forward.None? ==> r.response == Some(HTTPResponse("", 200, None, JNull))
    ensures m.response.Some? ==> r.response == Some(m.response.value.(status :=
      if m.response.value.status == 0 then 200 else m.response.value.status))
  {
    var methods := if |m.expectation.methods| == 0 then ["GET"] else m.expectation.methods;
    var path := Clean("/" + m.expectation.path);
    var response :=
      if m.response.None? && m.forward.None? then Some(HTTPResponse("", 0, None, JNull))
      else m.response;
    var response :=
      if response.Some? && response.value.status == 0 then Some(response.value.(status := 200))
      else response;
    HTTPMock(m.expectation.(methods := methods, path := path), response, m.forward)
  }

  /** Applying the defaults twice is the same as applying them once. */
  lemma SetDefaultsIdempotent(m: HTTPMock)
    ensures SetDefaults(SetDefaults(m)) == SetDefaults(m)
  {
    CleanRootedIdempotent(m.expectation.path);
  }

  /** An empty path becomes the root, a plain name gets a leading slash. */
  lemma SetDefaultsPath(m: HTTPMock)
    ensures m.expectation.path == "" ==> SetDefaults(m).expectation.path == "/"
    ensures Ordinary(m.expectation.path) ==> SetDefaults(m).expectation.path == "/" + m.expectation.path
  {
    if m.expectation.path == "" {
      assert "/" + m.expectation.path == "/";
      CleanRoot();
    }
    if Ordinary(m.expectation.path) {
      CleanName(m.expectation.path);
    }
  }

  /** A status outside [100, 599] other than 0 is kept. */
  lemma SetDefaultsKeepsOddStatus()
    ensures SetDefaults(HTTPMock(HTTPExpect(["GET"], "/", false, None, None),
      Some(HTTPResponse("", 700, None, JNull)), None)).response.value.status == 700
  {
  }

  /** `m.String()`: the methods joined by "|", a space, the path. */
  function String(m: HTTPMock): (r: string)
    ensures |r| == |JoinWith(m.expectation.methods, "|")| + 1 + |m.expectation.path|
    ensures r[|JoinWith(m.expectation.methods, "|")|] == ' '
  {
    JoinWith(m.expectation.methods, "|") + " " + m.expectation.path
  }

  lemma StringExample()
    ensures String(HTTPMock(HTTPExpect(["GET", "POST"], "/api", false, None, None), None, None)) == "GET|POST /api"
  {
    assert ["GET", "POST"][1..] == ["POST"];
  }

  /** The text the mock can be told apart by: methods, then the path after
      the last space. */
  lemma StringSplitsAtLastSpace(m: HTTPMock)
    requires ' ' !in m.expectation.path
    ensures var s := String(m); var n := |JoinWith(m.expectation.methods, "|")|;
      s[..n] == JoinWith(m.expectation.methods, "|") && s[n] == ' ' && s[n + 1..] == m.expectation.path &&
      forall j :: n < j < |s| ==> s[j] != ' '
  {
    var s := String(m);
    var n := |JoinWith(m.expectation.methods, "|")|;
    forall j | n < j < |s| ensures s[j] != ' ' {
      assert s[j] == m.expectation.path[j - n - 1];
    }
  }

  /** The bytes `m.Hash()` feeds FNV-1a: sorted methods, path, prefix flag,
      queries and headers in key order. */
  ghost function ExpectBytes(e: HTTPExpect): string {
    SliceBytes(true, e.methods) + e.path + BoolText(e.prefix)
      + MapBytes(e.queries.GetOr(map[])) + MapBytes(e.headers.GetOr(map[]))
  }

  /** The writes of `m.Hash()` into its hasher. */
  method WriteExpect(h: Hasher, e: HTTPExpect)
    modifies h
    ensures h.written == old(h.written) + ExpectBytes(e)
  {
    ghost var w := h.written;
    SingleArgument(e.path, e.prefix);
    HashStringSlice(h, true, e.methods);
    ghost var w1 := h.written;
    HashString(h, [e.path]);
    assert h.written == w1 + e.path;
    ghost var w2 := h.written;
    HashBool(h, [e.prefix]);
    assert h.written == w2 + BoolText(e.prefix);
    HashStringMap(h, true, e.queries.GetOr(map[]));
    HashStringMap(h, true, e.headers.GetOr(map[]));
    Append5(w, SliceBytes(true, e.methods), e.path, BoolText(e.prefix),
      MapBytes(e.queries.GetOr(map[])), MapBytes(e.headers.GetOr(map[])));
  }

  /** `m.Hash()`: the FNV-1a digest of the expectation alone. */
  method Hash(m: HTTPMock) returns (r: bv64)
    ensures r == Fnv1a(ExpectBytes(m.expectation))
  {
    var h := new Hasher();
    WriteExpect(h, m.expectation);
    assert h.written == ExpectBytes(m.expectation);
    r := h.Sum64();
  }

  /** Reordering the methods does not change what is hashed. */
  lemma HashMethodOrder(e: HTTPExpect, methods: seq<string>)
    requires multiset(methods) == multiset(e.methods)
    ensures ExpectBytes(e.(methods := methods)) == ExpectBytes(e)
  {
    SliceBytesPermutation(methods, e.methods);
  }

  /** Adding a method (POST to POST, PUT) changes what is hashed. */
  lemma HashAddedMethod(e: HTTPExpect, x: string)
    requires x != ""
    ensures ExpectBytes(e.(methods := e.methods + [x])) != ExpectBytes(e)
  {
    SliceBytesGrow(e.methods, x);
    var e2 := e.(methods := e.methods + [x]);
    assert |ExpectBytes(e2)| > |ExpectBytes(e)|;
  }

  /** Only the expectation is hashed: two mocks with the same expectation and
      different actions have the same digest input. */
  lemma HashIgnoresActions(m1: HTTPMock, m2: HTTPMock)
    requires m1.expectation == m2.expectation
    ensures ExpectBytes(m1.expectation) == ExpectBytes(m2.expectation)
  {
  }

  /** The mock used when no spec file exists: GET "/" answering 200. The
      definition of `DefaultHTTPMock` in `internal/spec` is not part of this
      model; this is the value internal/spec/http_test.go:859-873 expects,
      which is also the one internal/v1/http.go:159-169 builds. */
  function DefaultHTTPMock(): (r: HTTPMock)
    ensures r.expectation.methods == ["GET"] && r.expectation.path == "/" && !r.expectation.prefix
    ensures r.response == Some(HTTPResponse("", 200, None, JNull)) && r.forward.None?
  {
    HTTPMock(HTTPExpect(["GET"], "/", false, None, None), Some(HTTPResponse("", 200, None, JNull)), None)
  }

  /** The default mock is already defaulted. */
  lemma DefaultHTTPMockIsDefaulted()
    ensures SetDefaults(DefaultHTTPMock()) == DefaultHTTPMock()
  {
    assert "/" + "/" == "//";
    CleanRootedIdempotent("");
    CleanRoot();
    assert "/" + "" == "/";
  }
}
