/** REST mocks of the `internal/spec` generation (`internal/spec/rest.go`):
    a base path with header patterns, per-method status codes, and a store
    of JSON objects. */
module SpecRest {
  import opened Base
  import opened Paths
  import opened Hashing
  import opened RestStore

  datatype RESTExpect = RESTExpect(basePath: string, headers: Option<StrMap>)
  datatype RESTResponse = RESTResponse(delay: string, getStatus: int, postStatus: int, putStatus: int,
                                       patchStatus: int, deleteStatus: int, headers: Option<StrMap>, listKey: string)
  datatype RESTMock = RESTMock(expectation: RESTExpect, response: RESTResponse, store: RESTStore)

  const JsonHeaders: StrMap := map["Content-Type" := "application/json"]

  /** A zero status code becomes the method's default. */
  function OrDefault(code: int, default: int): (r: int)
    ensures code == 0 ==> r == default
    ensures code != 0 ==> r == code
  {
    if code == 0 then default else code
  }

  /** `m.SetDefaults()`: roots and cleans the base path, fills zero status
      codes (GET 200, POST 201, PUT 200, PATCH 200, DELETE 204), gives nil
      headers the JSON content type and nil objects an empty list. The
      directory is left to `Index`. */
  function SetDefaults(m: RESTMock): (r: RESTMock)
    ensures r.expectation == m.expectation.(basePath := Clean("/" + m.expectation.basePath))
    ensures r.response.getStatus == OrDefault(m.response.getStatus, 200)
    ensures r.response.postStatus == OrDefault(m.response.postStatus, 201)
    ensures r.response.putStatus == OrDefault(m.response.putStatus, 200)
    ensures r.response.patchStatus == OrDefault(m.response.patchStatus, 200)
    ensures r.response.deleteStatus == OrDefault(m.response.deleteStatus, 204)
    ensures r.response.headers == Some(m.response.headers.GetOr(JsonHeaders))
    ensures r.response.delay == m.response.delay && r.response.listKey == m.response.listKey
    ensures r.store == m.store.(objects := Some(m.store.objects.GetOr([])))
  {
    var resp := m.response;
    RESTMock(
      m.expectation.(basePath := Clean("/" + m.expectation.basePath)),
      resp.(getStatus := OrDefault(resp.getStatus, 200),
            postStatus := OrDefault(resp.postStatus, 201),
            putStatus := OrDefault(resp.putStatus, 200),
            patchStatus := OrDefault(resp.patchStatus, 200),
            deleteStatus := OrDefault(resp.deleteStatus, 204),
            headers := if resp.headers.None? then Some(JsonHeaders) else resp.headers),
      m.store.(objects := if m.store.objects.None? then Some([]) else m.store.objects))
  }

  /** Applying the defaults twice is the same as applying them once. */
  lemma SetDefaultsIdempotent(m: RESTMock)
    ensures SetDefaults(SetDefaults(m)) == SetDefaults(m)
  {
    CleanRootedIdempotent(m.expectation.basePath);
  }

  /** The empty mock: base path "/", the default codes, JSON headers, no
      objects, and still no directory. */
  lemma SetDefaultsOfEmpty()
    ensures var r := SetDefaults(RESTMock(RESTExpect("", None), RESTResponse("", 0, 0, 0, 0, 0, None, ""),
                                          RESTStore("", None, None)));
      r == RESTMock(RESTExpect("/", None), RESTResponse("", 200, 201, 200, 200, 204, Some(JsonHeaders), ""),
                    RESTStore("", Some([]), None))
  {
    assert "/" + "" == "/";
    CleanRoot();
  }

  /** `m.String()`: the base path as it is. */
  function String(m: RESTMock): (r: string)
    ensures r == m.expectation.basePath
  {
    m.expectation.basePath
  }

  /** The bytes `m.Hash()` feeds FNV-1a: the base path, then the expectation's
      headers in key order. */
  ghost function ExpectBytes(e: RESTExpect): string {
    e.basePath + MapBytes(e.headers.GetOr(map[]))
  }

  /** `m.Hash()`: the digest of the expectation alone. */
  method Hash(m: RESTMock) returns (r: bv64)
    ensures r == Fnv1a(ExpectBytes(m.expectation))
  {
    var h := new Hasher();
    SingleArgument(m.expectation.basePath, false);
    HashString(h, [m.expectation.basePath]);
    HashStringMap(h, true, m.expectation.headers.GetOr(map[]));
    r := h.Sum64();
  }

  /** Response and store never enter the hash. */
  lemma HashIgnoresResponseAndStore(m1: RESTMock, m2: RESTMock)
    requires m1.expectation == m2.expectation
    ensures ExpectBytes(m1.expectation) == ExpectBytes(m2.expectation)
  {
  }

  /** Different base paths (/api/v1 and /api/v2) give different hash input
      under the same headers. */
  lemma HashBasePathMatters(e1: RESTExpect, e2: RESTExpect)
    requires e1.basePath != e2.basePath
    requires e1.headers == e2.headers
    ensures ExpectBytes(e1) != ExpectBytes(e2)
  {
    if |e1.basePath| == |e2.basePath| {
      var i :| 0 <= i < |e1.basePath| && e1.basePath[i] != e2.basePath[i];
      assert ExpectBytes(e1)[i] == e1.basePath[i];
      assert ExpectBytes(e2)[i] == e2.basePath[i];
    } else {
      assert |ExpectBytes(e1)| != |ExpectBytes(e2)|;
    }
  }

  /** Giving headers (one with a non-empty name) to an expectation without
      any changes the hash input. */
  lemma HashHeadersMatter(e: RESTExpect, hs: StrMap, k: string)
    requires e.headers.None? && k in hs && k != ""
    ensures ExpectBytes(e.(headers := Some(hs))) != ExpectBytes(e)
  {
    MapBytesNonEmpty(hs, k);
    MapBytesEmpty();
  }

  /** What the list handler (GET on the base path) answers: the GET status,
      the response headers, and the list body. */
  function ListResponse(m: RESTMock): (r: Response)
    ensures r.status == m.response.getStatus && r.headers == m.response.headers.GetOr(map[])
    ensures r.body == ListBody(m.response.listKey, m.store.objects)
  {
    Response(m.response.getStatus, m.response.headers.GetOr(map[]), ListBody(m.response.listKey, m.store.objects))
  }
}
