/** REST mocks of the `internal/model` generation (`internal/model/rest.go`):
    an expectation, a response and a store embedded by value, their defaults,
    and a hash over the base path alone. */
module ModelRest {
  import opened Base
  import opened Paths
  import opened Hashing

  datatype RESTExpect = RESTExpect(basePath: string, headers: Option<StrMap>)

  datatype RESTResponse = RESTResponse(
    delay: string,
    postStatus: int,
    putStatus: int,
    patchStatus: int,
    deleteStatus: int,
    listProperty: string,
    headers: Option<StrMap>)

  datatype RESTStore = RESTStore(identifier: string, objects: Option<seq<Obj>>)

  datatype RESTMock = RESTMock(expectation: RESTExpect, response: RESTResponse, store: RESTStore)

  /** `e.WithDefaults()`: the base path is rooted and cleaned, nil headers
      become empty. */
  function ExpectWithDefaults(e: RESTExpect): (r: RESTExpect)
    ensures r.basePath == Clean("/" + e.basePath)
    ensures r.headers == Some(e.headers.GetOr(map[]))
  {
    RESTExpect(Clean("/" + e.basePath), if e.headers.None? then Some(map[]) else e.headers)
  }

  /** A status code kept when it is in [100, 599], `default` otherwise. */
  function StatusOr(code: int, default: int): (r: int)
    ensures ValidStatus(code) ==> r == code
    ensures !ValidStatus(code) ==> r == default
  {
    if code < 100 || code > 599 then default else code
  }

  /** `r.WithDefaults()`: delay "" becomes "0"; POST, PUT, PATCH and DELETE
      codes outside [100, 599] become 201, 200, 200 and 204; nil headers
      become empty; the list property is kept. */
  function ResponseWithDefaults(r: RESTResponse): (d: RESTResponse)
    ensures d.delay == (if r.delay == "" then "0" else r.delay)
    ensures d.postStatus == StatusOr(r.postStatus, 201) && d.putStatus == StatusOr(r.putStatus, 200)
    ensures d.patchStatus == StatusOr(r.patchStatus, 200) && d.deleteStatus == StatusOr(r.deleteStatus, 204)
    ensures d.listProperty == r.listProperty
    ensures d.headers == Some(r.headers.GetOr(map[]))
  {
    RESTResponse(
      if r.delay == "" then "0" else r.delay,
      StatusOr(r.postStatus, 201),
      StatusOr(r.putStatus, 200),
      StatusOr(r.patchStatus, 200),
      StatusOr(r.deleteStatus, 204),
      r.listProperty,
      if r.headers.None? then Some(map[]) else r.headers)
  }

  /** `s.WithDefaults()`: nil objects become an empty list; the identifier
      is kept ("" means the standard candidates). */
  function StoreWithDefaults(s: RESTStore): (r: RESTStore)
    ensures r.identifier == s.identifier
    ensures r.objects == Some(s.objects.GetOr([]))
  {
    RESTStore(s.identifier, if s.objects.None? then Some([]) else s.objects)
  }

  /** `m.WithDefaults()`: each part defaulted on its own. */
  function WithDefaults(m: RESTMock): (r: RESTMock)
    ensures r.expectation == ExpectWithDefaults(m.expectation)
    ensures r.response == ResponseWithDefaults(m.response)
    ensures r.store == StoreWithDefaults(m.store)
  {
    RESTMock(ExpectWithDefaults(m.expectation), ResponseWithDefaults(m.response), StoreWithDefaults(m.store))
  }

  /** `e.Hash()`: one write, the base path. */
  function ExpectHash(e: RESTExpect): (r: bv64)
    ensures r == Fnv1a(e.basePath)
  {
    Fnv1a(e.basePath)
  }

  /** `m.Hash()`: the expectation's hash. */
  function Hash(m: RESTMock): (r: bv64)
    ensures r == Fnv1a(m.expectation.basePath)
  {
    ExpectHash(m.expectation)
  }

  /** Only the base path is hashed: headers, response and store may differ
      freely. */
  lemma HashOnlyBasePath(a: RESTMock, b: RESTMock)
    requires a.expectation.basePath == b.expectation.basePath
    ensures Hash(a) == Hash(b)
    ensures ExpectHash(a.expectation) == ExpectHash(b.expectation)
  {
  }

  /** After the defaults every status code is in range. */
  lemma DefaultedStatusesValid(m: RESTMock)
    ensures var r := WithDefaults(m).response;
      ValidStatus(r.postStatus) && ValidStatus(r.putStatus) && ValidStatus(r.patchStatus) && ValidStatus(r.deleteStatus)
  {
  }

  /** Every default is a fixed point. */
  lemma WithDefaultsIdempotent(m: RESTMock)
    ensures ExpectWithDefaults(ExpectWithDefaults(m.expectation)) == ExpectWithDefaults(m.expectation)
    ensures ResponseWithDefaults(ResponseWithDefaults(m.response)) == ResponseWithDefaults(m.response)
    ensures StoreWithDefaults(StoreWithDefaults(m.store)) == StoreWithDefaults(m.store)
    ensures WithDefaults(WithDefaults(m)) == WithDefaults(m)
  {
    CleanRootedIdempotent(m.expectation.basePath);
  }

  /** The empty expectation gets the root; a rooted single-segment base path
      such as "/cars" is kept. */
  lemma ExpectDefaultsExamples(x: string)
    requires Ordinary(x)
    ensures ExpectWithDefaults(RESTExpect("", None)) == RESTExpect("/", Some(map[]))
    ensures ExpectWithDefaults(RESTExpect("/" + x, None)).basePath == "/" + x
  {
    assert "/" + "" == "/";
    CleanRoot();
    CleanName(x);
    CleanRootedIdempotent(x);
  }

  /** The zero response gets the standard codes. */
  lemma ResponseDefaultsExample()
    ensures ResponseWithDefaults(RESTResponse("", 0, 0, 0, 0, "", None)) ==
      RESTResponse("0", 201, 200, 200, 204, "", Some(map[]))
  {
  }
}
