/** REST mocks of the `internal/v1` generation (`internal/v1/rest.go`). The
    structs have the same fields as in `internal/spec` and the expectation
    hash writes the same bytes, so the types are shared; the store, its
    index and the list body are those of `RestStore`. */
module V1Rest {
  import opened Base
  import opened Hashing
  import opened RestStore
  import SpecRest

  type RESTExpect = SpecRest.RESTExpect
  type RESTResponse = SpecRest.RESTResponse
  type RESTMock = SpecRest.RESTMock

  /** `e.Hash()`: the base path, then the headers in key order. */
  method ExpectHash(e: RESTExpect) returns (r: bv64)
    ensures r == Fnv1a(SpecRest.ExpectBytes(e))
  {
    var h := new Hasher();
    SingleArgument(e.basePath, false);
    HashString(h, [e.basePath]);
    HashStringMap(h, true, e.headers.GetOr(map[]));
    r := h.Sum64();
  }

  /** `m.Hash()`: the hash of the expectation; response and store are not
      consulted. */
  method Hash(m: RESTMock) returns (r: bv64)
    ensures r == Fnv1a(SpecRest.ExpectBytes(m.expectation))
  {
    r := ExpectHash(m.expectation);
  }

  /** `DefaultRESTMock()`: base path "/", codes 200/201/200/200/204, a JSON
      content type, list key "data", and an empty store indexed into an
      empty directory. */
  method DefaultRESTMock() returns (m: RESTMock)
    ensures m.expectation == SpecRest.RESTExpect("/", None)
    ensures m.response == SpecRest.RESTResponse("", 200, 201, 200, 200, 204, Some(SpecRest.JsonHeaders), "data")
    ensures m.store == RESTStore("", Some([]), Some(map[]))
  {
    var store := RESTStore("", Some([]), None);
    store := Index(store);
    m := SpecRest.RESTMock(
      SpecRest.RESTExpect("/", None),
      SpecRest.RESTResponse("", 200, 201, 200, 200, 204, Some(SpecRest.JsonHeaders), "data"),
      store);
  }

  /** The default mock lists its (no) objects under "data". */
  lemma DefaultListBody()
    ensures ListBody("data", Some([])) == JObj(map["data" := JArr([])])
  {
  }
}
