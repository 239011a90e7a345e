/** HTTP mocks of the `internal/model` generation (`internal/model/http.go`).
    `HTTPExpect`, `HTTPResponse` and `HTTPForward` carry the same fields as in
    `internal/spec`; the mock embeds all three by value, so it always has a
    response and a forward. Defaults are pure copies here. */
module ModelHttp {
  import opened Base
  import opened Paths
  import opened Hashing
  import SpecHttp

  type HTTPExpect = SpecHttp.HTTPExpect
  type HTTPResponse = SpecHttp.HTTPResponse
  type HTTPForward = SpecHttp.HTTPForward

  datatype HTTPMock = HTTPMock(expectation: HTTPExpect, response: HTTPResponse, forward: HTTPForward)

  /** `e.WithDefaults()`: empty methods become GET, the path is rooted and
      cleaned, nil maps become empty ones; the prefix flag is kept. */
  function ExpectWithDefaults(e: HTTPExpect): (r: HTTPExpect)
    ensures |e.methods| == 0 ==> r.methods == ["GET"]
    ensures |e.methods| > 0 ==> r.methods == e.methods
    ensures r.path == Clean("/" + e.path) && r.prefix == e.prefix
    ensures r.queries == Some(e.queries.GetOr(map[])) && r.headers == Some(e.headers.GetOr(map[]))
  {
    SpecHttp.HTTPExpect(
      if |e.methods| == 0 then ["GET"] else e.methods,
      Clean("/" + e.path),
      e.prefix,
      if e.queries.None? then Some(map[]) else e.queries,
      if e.headers.None? then Some(map[]) else e.headers)
  }

  /** `r.WithDefaults()`: delay "" becomes "0", a status outside [100, 599]
      becomes 200, nil headers become empty; the body is kept. */
  function ResponseWithDefaults(r: HTTPResponse): (d: HTTPResponse)
    ensures d.delay == (if r.delay == "" then "0" else r.delay)
    ensures ValidStatus(d.status) && (ValidStatus(r.status) ==> d.status == r.status)
    ensures !ValidStatus(r.status) ==> d.status == 200
    ensures d.headers == Some(r.headers.GetOr(map[])) && d.body == r.body
  {
    SpecHttp.HTTPResponse(
      if r.delay == "" then "0" else r.delay,
      if r.status < 100 || r.status > 599 then 200 else r.status,
      if r.headers.None? then Some(map[]) else r.headers,
      r.body)
  }

  /** `f.WithDefaults()`: delay "" becomes "0" and nil headers empty; the
      target is kept. */
  function ForwardWithDefaults(f: HTTPForward): (d: HTTPForward)
    ensures d.delay == (if f.delay == "" then "0" else f.delay)
    ensures d.to == f.to && d.headers == Some(f.headers.GetOr(map[]))
  {
    SpecHttp.HTTPForward(
      if f.delay == "" then "0" else f.delay,
      f.to,
      if f.headers.None? then Some(map[]) else f.headers)
  }

  /** `m.WithDefaults()`: each part defaulted on its own. */
  function WithDefaults(m: HTTPMock): (r: HTTPMock)
    ensures r.expectation == ExpectWithDefaults(m.expectation)
    ensures r.response == ResponseWithDefaults(m.response)
    ensures r.forward == ForwardWithDefaults(m.forward)
  {
    HTTPMock(ExpectWithDefaults(m.expectation), ResponseWithDefaults(m.response), ForwardWithDefaults(m.forward))
  }

  /** `e.Hash()`: the sorted methods, the path, "true" or "false" for the
      prefix flag, then the queries and the headers collected from their maps
      and sorted by name. The bytes coincide with those of `internal/spec`. */
  method ExpectHash(e: HTTPExpect) returns (sum: bv64)
    ensures sum == Fnv1a(SpecHttp.ExpectBytes(e))
  {
    var h := new Hasher();
    var methods := new string[|e.methods|](i requires 0 <= i < |e.methods| => e.methods[i]);
    assert methods[..] == e.methods;
    SortStringsInPlace(methods);
    HashString(h, methods[..]);
    assert h.written == SliceBytes(true, e.methods);
    h.Write(e.path);
    h.Write(BoolText(e.prefix));
    ghost var w := h.written;
    HashStringMap(h, true, e.queries.GetOr(map[]));
    HashStringMap(h, true, e.headers.GetOr(map[]));
    assert h.written == w + MapBytes(e.queries.GetOr(map[])) + MapBytes(e.headers.GetOr(map[]));
    sum := h.Sum64();
  }

  /** `m.Hash()`: the expectation's hash; response and forward play no part. */
  method Hash(m: HTTPMock) returns (sum: bv64)
    ensures sum == Fnv1a(SpecHttp.ExpectBytes(m.expectation))
  {
    sum := ExpectHash(m.expectation);
  }

  /** The empty expectation is GET on "/" with empty maps; a fully
      specified one is returned unchanged. */
  lemma ExpectDefaultsExamples(e: HTTPExpect)
    ensures ExpectWithDefaults(SpecHttp.HTTPExpect([], "", false, None, None)) ==
      SpecHttp.HTTPExpect(["GET"], "/", false, Some(map[]), Some(map[]))
    ensures |e.methods| > 0 && e.path == Clean("/" + e.path) && e.queries.Some? && e.headers.Some? ==>
      ExpectWithDefaults(e) == e
  {
    assert "/" + "" == "/";
    CleanRoot();
  }

  /** Every default is a fixed point: applying it twice is applying it once. */
  lemma WithDefaultsIdempotent(m: HTTPMock)
    ensures ExpectWithDefaults(ExpectWithDefaults(m.expectation)) == ExpectWithDefaults(m.expectation)
    ensures ResponseWithDefaults(ResponseWithDefaults(m.response)) == ResponseWithDefaults(m.response)
    ensures ForwardWithDefaults(ForwardWithDefaults(m.forward)) == ForwardWithDefaults(m.forward)
    ensures WithDefaults(WithDefaults(m)) == WithDefaults(m)
  {
    CleanRootedIdempotent(m.expectation.path);
  }

  /** Even the zero mock carries a defaulted response and forward. */
  lemma EmptyMockDefaults()
    ensures WithDefaults(HTTPMock(SpecHttp.HTTPExpect([], "", false, None, None),
                                  SpecHttp.HTTPResponse("", 0, None, JNull),
                                  SpecHttp.HTTPForward("", "", None))) ==
      HTTPMock(SpecHttp.HTTPExpect(["GET"], "/", false, Some(map[]), Some(map[])),
               SpecHttp.HTTPResponse("0", 200, Some(map[]), JNull),
               SpecHttp.HTTPForward("0", "", Some(map[])))
  {
    ExpectDefaultsExamples(SpecHttp.HTTPExpect([], "", false, None, None));
  }

  /** Flipping only the prefix flag changes the hashed bytes ("true" is one
      byte shorter than "false"). */
  lemma PrefixChangesBytes(e: HTTPExpect)
    ensures SpecHttp.ExpectBytes(e.(prefix := true)) != SpecHttp.ExpectBytes(e.(prefix := false))
  {
    var t := SpecHttp.ExpectBytes(e.(prefix := true));
    var f := SpecHttp.ExpectBytes(e.(prefix := false));
    assert |t| + 1 == |f|;
  }
}
