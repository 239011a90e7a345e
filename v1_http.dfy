/** HTTP mocks of the `internal/v1` generation (`internal/v1/http.go`). Its
    `HTTPExpect`, `HTTPResponse`, `HTTPForward` and `HTTPMock` have the same
    fields as those of `internal/spec`, and `HTTPExpect.Hash` writes the same
    bytes with the same helpers, so the types and the hash are shared; the
    defaults differ and are modelled here. */
module V1Http {
  import opened Base
  import opened Paths
  import SpecHttp

  type HTTPExpect = SpecHttp.HTTPExpect
  type HTTPResponse = SpecHttp.HTTPResponse
  type HTTPForward = SpecHttp.HTTPForward
  type HTTPMock = SpecHttp.HTTPMock

  /** `e.SetDefaults()`: empty methods become GET and the path is rooted and
      cleaned; prefix, queries and headers are kept. */
  function ExpectSetDefaults(e: HTTPExpect): (r: HTTPExpect)
    ensures |e.methods| == 0 ==> r.methods == ["GET"]
    ensures |e.methods| > 0 ==> r.methods == e.methods
    ensures r.path == Clean("/" + e.path)
    ensures r.prefix == e.prefix && r.queries == e.queries && r.headers == e.headers
  {
    e.(methods := if |e.methods| == 0 then ["GET"] else e.methods, path := Clean("/" + e.path))
  }

  /** `r.SetDefaults()`: a status outside [100, 599] becomes 200. */
  function ResponseSetDefaults(r: HTTPResponse): (d: HTTPResponse)
    ensures ValidStatus(r.status) ==> d == r
    ensures !ValidStatus(r.status) ==> d == r.(status := 200)
  {
    if r.status < 100 || r.status > 599 then r.(status := 200) else r
  }

  /** `f.SetDefaults()` has nothing to set. */
  function ForwardSetDefaults(f: HTTPForward): (d: HTTPForward)
    ensures d == f
  {
    f
  }

  /** `m.SetDefaults()`: defaults the expectation, creates an empty response
      when the mock has neither action, then defaults each action present. */
  function SetDefaults(m: HTTPMock): (r: HTTPMock)
    ensures r.expectation == ExpectSetDefaults(m.expectation)
    ensures r.forward == m.forward
    ensures r.response.Some? <==> m.response.Some? || m.forward.None?
    ensures m.response.None? && m.forward.None? ==> r.response == Some(SpecHttp.HTTPResponse("", 200, None, JNull))
    ensures m.response.Some? ==> r.response == Some(ResponseSetDefaults(m.response.value))
    ensures r.response.Some? ==> ValidStatus(r.response.value.status)
  {
    var response :=
      if m.response.None? && m.forward.None? then Some(SpecHttp.HTTPResponse("", 0, None, JNull))
      else m.response;
    SpecHttp.HTTPMock(
      ExpectSetDefaults(m.expectation),
      if response.Some? then Some(ResponseSetDefaults(response.value)) else None,
      if m.forward.Some? then Some(ForwardSetDefaults(m.forward.value)) else None)
  }

  lemma SetDefaultsIdempotent(m: HTTPMock)
    ensures SetDefaults(SetDefaults(m)) == SetDefaults(m)
  {
    CleanRootedIdempotent(m.expectation.path);
  }

  /** Unlike `internal/spec`, an out-of-range status such as 700 or 0 is
      replaced, and an in-range one is kept. */
  lemma ResponseStatusRange(r: HTTPResponse)
    ensures ResponseSetDefaults(r.(status := 700)).status == 200
    ensures ResponseSetDefaults(r.(status := 0)).status == 200
    ensures ResponseSetDefaults(r.(status := 404)).status == 404
  {
  }

  const NotImplementedMessage := "this functionality is not yet available!"

  /** What the response handler answers: its status, headers and body. */
  function ResponseHandler(r: HTTPResponse): (out: Response)
    ensures out.status == r.status && out.headers == r.headers.GetOr(map[]) && out.body == r.body
  {
    Response(r.status, r.headers.GetOr(map[]), r.body)
  }

  /** What the forward handler answers: always 501 Not Implemented with the
      forward's headers and a fixed message. */
  function ForwardHandler(f: HTTPForward): (out: Response)
    ensures out.status == 501 && out.headers == f.headers.GetOr(map[])
    ensures out.body == JObj(map["message" := JStr(NotImplementedMessage)])
  {
    Response(501, f.headers.GetOr(map[]), JObj(map["message" := JStr(NotImplementedMessage)]))
  }

  /** The handler a route gets: the response's when there is one, else the
      forward's, else none. */
  function RouteHandler(m: HTTPMock): (out: Option<Response>)
    ensures m.response.Some? ==> out == Some(ResponseHandler(m.response.value))
    ensures m.response.None? && m.forward.Some? ==> out == Some(ForwardHandler(m.forward.value))
    ensures m.response.None? && m.forward.None? ==> out.None?
  {
    if m.response.Some? then Some(ResponseHandler(m.response.value))
    else if m.forward.Some? then Some(ForwardHandler(m.forward.value))
    else None
  }

  /** After `SetDefaults` every mock has a handler, and a forward-only mock
      answers 501 whatever its forward says. */
  lemma DefaultedMockHasHandler(m: HTTPMock)
    ensures RouteHandler(SetDefaults(m)).Some?
    ensures m.response.None? && m.forward.Some? ==> RouteHandler(SetDefaults(m)).value.status == 501
    ensures m.response.Some? ==> ValidStatus(RouteHandler(SetDefaults(m)).value.status)
  {
  }

  /** `DefaultHTTPMock()`: GET "/" answering 200 with no headers and no body. */
  function DefaultHTTPMock(): (r: HTTPMock)
    ensures r.expectation == SpecHttp.HTTPExpect(["GET"], "/", false, None, None)
    ensures r.response == Some(SpecHttp.HTTPResponse("", 200, None, JNull)) && r.forward.None?
  {
    SpecHttp.HTTPMock(SpecHttp.HTTPExpect(["GET"], "/", false, None, None),
                      Some(SpecHttp.HTTPResponse("", 200, None, JNull)), None)
  }

  /** The default mock answers 200 with an empty header set. */
  lemma DefaultHTTPMockAnswers()
    ensures RouteHandler(DefaultHTTPMock()) == Some(Response(200, map[], JNull))
    ensures SetDefaults(DefaultHTTPMock()) == DefaultHTTPMock()
  {
    CleanRoot();
    assert "/" + "/" == "//";
    CleanRootedIdempotent("");
    assert "/" + "" == "/";
  }
}
