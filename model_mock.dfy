/** The mocks of `internal/model/mock.go` and their expansion into request
    expectations: an HTTP mock gives one expectation, a REST mock six (list
    and create on the base path; read, replace, update and delete on the
    item path), all with pagination and property queries. */
module ModelMock {
  import opened Base
  import opened Order
  import opened Paths
  import opened Hashing
  import opened ModelExpectation

  /** The property names that identify a stored object. */
  const Identifiers: seq<string> := ["id", "_id", "Id", "ID"]

  const PageNoQuery: Pair := Pair("pageNo", "{pageNo:[0-9]+}")
  const PageSizeQuery: Pair := Pair("pageSize", "{pageSize:[0-9]+}")

  /** The item path segment; `idPath` is "/" followed by it. */
  const IdSegment: string := "{id:[-0-9A-Za-z]+}"
  const IdPath: string := "/" + IdSegment

  /** The methods of the six REST expectations, in order. */
  const RestMethods: seq<string> := ["GET", "POST", "GET", "PUT", "PATCH", "DELETE"]

  datatype HTTPMock = HTTPMock(
    methods: seq<string>,
    path: string,
    queries: Option<StrMap>,
    reqHeaders: Option<StrMap>,
    delay: string,
    statusCode: int,
    resHeaders: Option<StrMap>,
    body: Json)

  datatype RESTMock = RESTMock(
    basePath: string,
    reqHeaders: Option<StrMap>,
    delay: string,
    resHeaders: Option<StrMap>,
    identifier: string,
    listHandle: string,
    store: Option<seq<Obj>>)

  // ------------------------------------------------------------- identifiers

  /** The loop of `isID`: is `prop` one of `ids`? */
  function Contains(ids: seq<string>, prop: string): (r: bool)
    ensures r <==> prop in ids
    decreases |ids|
  {
    |ids| > 0 && (ids[0] == prop || Contains(ids[1..], prop))
  }

  /** `isID(prop)`. */
  function IsID(prop: string): (r: bool)
    ensures r <==> prop in Identifiers
  {
    Contains(Identifiers, prop)
  }

  /** Exactly the four identifier spellings are identifiers. */
  lemma IsIDExactly(prop: string)
    ensures IsID(prop) <==> prop == "id" || prop == "_id" || prop == "Id" || prop == "ID"
  {
  }

  // ----------------------------------------------------------------- defaults

  /** `m.withDefaults()` of an HTTP mock: empty methods become all five
      verbs, an empty path the root (not cleaned), nil maps empty ones, delay
      "" becomes "0" and a status outside [100, 599] becomes 200. */
  function HTTPWithDefaults(m: HTTPMock): (r: HTTPMock)
    ensures r.methods == (if |m.methods| == 0 then ["GET", "POST", "PUT", "PATCH", "DELETE"] else m.methods)
    ensures r.path == (if m.path == "" then "/" else m.path)
    ensures r.queries == Some(m.queries.GetOr(map[])) && r.reqHeaders == Some(m.reqHeaders.GetOr(map[]))
    ensures r.resHeaders == Some(m.resHeaders.GetOr(map[]))
    ensures r.delay == (if m.delay == "" then "0" else m.delay)
    ensures ValidStatus(r.statusCode) && (ValidStatus(m.statusCode) ==> r.statusCode == m.statusCode)
    ensures !ValidStatus(m.statusCode) ==> r.statusCode == 200
    ensures r.body == m.body
  {
    HTTPMock(
      if |m.methods| == 0 then ["GET", "POST", "PUT", "PATCH", "DELETE"] else m.methods,
      if m.path == "" then "/" else m.path,
      if m.queries.None? then Some(map[]) else m.queries,
      if m.reqHeaders.None? then Some(map[]) else m.reqHeaders,
      if m.delay == "" then "0" else m.delay,
      if m.statusCode < 100 || m.statusCode > 599 then 200 else m.statusCode,
      if m.resHeaders.None? then Some(map[]) else m.resHeaders,
      m.body)
  }

  /** `m.withDefaults()` of a REST mock: an empty base path becomes the root
      (not cleaned), nil maps and a nil store empty ones, delay "" becomes
      "0"; identifier and list handle are kept. */
  function RESTWithDefaults(m: RESTMock): (r: RESTMock)
    ensures r.basePath == (if m.basePath == "" then "/" else m.basePath)
    ensures r.reqHeaders == Some(m.reqHeaders.GetOr(map[])) && r.resHeaders == Some(m.resHeaders.GetOr(map[]))
    ensures r.delay == (if m.delay == "" then "0" else m.delay)
    ensures r.identifier == m.identifier && r.listHandle == m.listHandle
    ensures r.store == Some(m.store.GetOr([]))
  {
    RESTMock(
      if m.basePath == "" then "/" else m.basePath,
      if m.reqHeaders.None? then Some(map[]) else m.reqHeaders,
      if m.delay == "" then "0" else m.delay,
      if m.resHeaders.None? then Some(map[]) else m.resHeaders,
      m.identifier,
      m.listHandle,
      if m.store.None? then Some([]) else m.store)
  }

  /** Both defaults are fixed points, and a mock with every field set is
      returned unchanged. */
  lemma WithDefaultsIdempotent(h: HTTPMock, r: RESTMock)
    ensures HTTPWithDefaults(HTTPWithDefaults(h)) == HTTPWithDefaults(h)
    ensures RESTWithDefaults(RESTWithDefaults(r)) == RESTWithDefaults(r)
    ensures (|h.methods| > 0 && h.path != "" && h.queries.Some? && h.reqHeaders.Some? && h.delay != "" &&
             ValidStatus(h.statusCode) && h.resHeaders.Some?) ==> HTTPWithDefaults(h) == h
    ensures (r.basePath != "" && r.reqHeaders.Some? && r.delay != "" && r.resHeaders.Some? && r.store.Some?) ==>
      RESTWithDefaults(r) == r
  {
  }

  // ------------------------------------------------------------ query lists

  /** The query pattern of an HTTP mock's query: "{name:regex}". */
  function QueryPatterns(q: StrMap): StrMap {
    map name | name in q :: "{" + name + ":" + q[name] + "}"
  }

  /** The queries loop of an HTTP mock's `HTTPExpectations`: one pair per
      query, in map iteration order (left open by `:|`). */
  method CollectQueryPatterns(q: StrMap) returns (buff: seq<Pair>)
    ensures Listing(buff, QueryPatterns(q))
  {
    buff := [];
    var rest := q;
    while rest != map[]
      invariant rest.Keys <= q.Keys
      invariant forall k :: k in rest ==> rest[k] == q[k]
      invariant DistinctNames(buff)
      invariant forall p :: p in buff <==> p.name in q && p.name !in rest && p.value == "{" + p.name + ":" + q[p.name] + "}"
      decreases |rest|
    {
      var name :| name in rest;
      forall j | 0 <= j < |buff| ensures buff[j].name != name {
        assert buff[j] in buff;
      }
      buff := buff + [Pair(name, "{" + name + ":" + rest[name] + "}")];
      rest := rest - {name};
    }
  }

  /** The property queries of one stored object: "{prop}" for each property
      that is not an identifier. */
  function ObjectPatterns(obj: Obj): StrMap {
    map prop | prop in obj && !IsID(prop) :: "{" + prop + "}"
  }

  /** The map `qm` after visiting every object of the store. */
  function PropertyQueries(store: seq<Obj>): StrMap
    decreases |store|
  {
    if |store| == 0 then map[]
    else PropertyQueries(store[..|store| - 1]) + ObjectPatterns(store[|store| - 1])
  }

  /** `qm` holds one "{prop}" pattern for each non-identifier property found
      in any stored object, and nothing else. */
  lemma {:induction false} PropertyQueriesSpec(store: seq<Obj>, prop: string)
    ensures prop in PropertyQueries(store) <==> !IsID(prop) && exists i :: 0 <= i < |store| && prop in store[i]
    ensures prop in PropertyQueries(store) ==> PropertyQueries(store)[prop] == "{" + prop + "}"
    decreases |store|
  {
    if |store| > 0 {
      var n := |store| - 1;
      PropertyQueriesSpec(store[..n], prop);
      assert forall i :: 0 <= i < n ==> store[..n][i] == store[i];
    }
  }

  /** The inner loop that fills `qm`: one object's properties in map
      iteration order. */
  method AddObjectProperties(qm: StrMap, obj: Obj) returns (r: StrMap)
    ensures r == qm + ObjectPatterns(obj)
  {
    r := qm;
    var rest := obj.Keys;
    ObjectPatternsEnds(obj);
    while rest != {}
      invariant rest <= obj.Keys
      invariant r == qm + ObjectPatterns(obj - rest)
      decreases |rest|
    {
      var prop :| prop in rest;
      ObjectPatternsStep(obj, rest, prop);
      if !IsID(prop) {
        UnionUpdate(qm, ObjectPatterns(obj - rest), prop, "{" + prop + "}");
        r := r[prop := "{" + prop + "}"];
      }
      rest := rest - {prop};
    }
  }

  lemma ObjectPatternsEnds(obj: Obj)
    ensures ObjectPatterns(obj - obj.Keys) == map[]
    ensures obj - {} == obj
  {
    assert obj - obj.Keys == map[];
  }

  lemma UnionUpdate(a: StrMap, b: StrMap, k: string, v: string)
    ensures (a + b)[k := v] == a + b[k := v]
  {
  }

  /** Visiting one more property adds its pattern, if it has one. */
  lemma ObjectPatternsStep(obj: Obj, rest: set<string>, prop: string)
    requires prop in rest && rest <= obj.Keys
    ensures ObjectPatterns(obj - (rest - {prop})) ==
      if IsID(prop) then ObjectPatterns(obj - rest) else ObjectPatterns(obj - rest)[prop := "{" + prop + "}"]
  {
    var a := obj - (rest - {prop});
    var b := obj - rest;
    assert a.Keys == b.Keys + {prop};
  }

  /** The nested loop that fills `qm`: over the objects in order. */
  method CollectProperties(store: seq<Obj>) returns (qm: StrMap)
    ensures qm == PropertyQueries(store)
  {
    qm := map[];
    for i := 0 to |store|
      invariant qm == PropertyQueries(store[..i])
    {
      qm := AddObjectProperties(qm, store[i]);
      assert store[..i + 1][..i] == store[..i];
    }
    assert store[..|store|] == store;
  }

  /** A REST query list: pagination first, then the property queries in
      some order. */
  ghost predicate RestQueries(qs: seq<Pair>, store: seq<Obj>) {
    |qs| >= 2 && qs[0] == PageNoQuery && qs[1] == PageSizeQuery && Listing(qs[2..], PropertyQueries(store))
  }

  // ----------------------------------------------------------- expectations

  /** A copy of `s` in a new array. */
  method ToArray<T>(s: seq<T>) returns (a: array<T>)
    ensures a[..] == s
  {
    a := new T[|s|](i requires 0 <= i < |s| => s[i]);
  }

  /** `m.HTTPExpectations()` of an HTTP mock: after the defaults, exactly one
      expectation with the mock's methods and path, one "{name:regex}" query
      per query and the request headers as they are. */
  method HTTPExpectations(m: HTTPMock) returns (r: seq<HTTPExpectation>)
    ensures |r| == 1
    ensures r[0].methods.Some? && r[0].methods.value[..] == HTTPWithDefaults(m).methods
    ensures r[0].path == HTTPWithDefaults(m).path
    ensures r[0].queries.Some? && Listing(r[0].queries.value[..], QueryPatterns(m.queries.GetOr(map[])))
    ensures r[0].headers.Some? && Listing(r[0].headers.value[..], m.reqHeaders.GetOr(map[]))
  {
    var d := HTTPWithDefaults(m);
    var queries := CollectQueryPatterns(d.queries.value);
    var headers := CollectEntries(d.reqHeaders.value);
    var ms := ToArray(d.methods);
    var qs := ToArray(queries);
    var hs := ToArray(headers);
    r := [HTTPExpectation(Some(ms), d.path, Some(qs), Some(hs))];
  }

  /** One REST expectation: a single method on `path`, with the shared query
      and header arrays. */
  method RestExpectation(method_: string, path: string, qs: array<Pair>, hs: array<Pair>) returns (e: HTTPExpectation)
    ensures e.methods.Some? && e.methods.value[..] == [method_]
    ensures e.path == path && e.queries == Some(qs) && e.headers == Some(hs)
  {
    var ms := ToArray([method_]);
    e := HTTPExpectation(Some(ms), path, Some(qs), Some(hs));
  }

  /** `m.HTTPExpectations()` of a REST mock: after the defaults, six
      expectations in the order of `RestMethods`, the first two on the base
      path and the other four on the item path, all pointing at the same
      query and header arrays. */
  method RESTExpectations(m: RESTMock) returns (r: seq<HTTPExpectation>)
    ensures |r| == 6
    ensures forall i :: 0 <= i < 6 ==> r[i].methods.Some? && r[i].methods.value[..] == [RestMethods[i]]
    ensures forall i :: 0 <= i < 6 ==> r[i].queries == r[0].queries && r[i].headers == r[0].headers
    ensures r[0].queries.Some? && RestQueries(r[0].queries.value[..], m.store.GetOr([]))
    ensures r[0].headers.Some? && Listing(r[0].headers.value[..], m.reqHeaders.GetOr(map[]))
    ensures r[0].path == r[1].path == JoinPath([RESTWithDefaults(m).basePath])
    ensures forall i :: 2 <= i < 6 ==> r[i].path == JoinPath([RESTWithDefaults(m).basePath, IdPath])
  {
    var d := RESTWithDefaults(m);
    var qm := CollectProperties(d.store.value);
    var extra := CollectEntries(qm);
    var queries := [PageNoQuery, PageSizeQuery] + extra;
    assert queries[2..] == extra;
    var headers := CollectEntries(d.reqHeaders.value);
    var qs := ToArray(queries);
    var hs := ToArray(headers);
    r := RestRoutes(JoinPath([d.basePath]), JoinPath([d.basePath, IdPath]), qs, hs);
  }

  /** The six expectations of a REST mock, in the order of `RestMethods`. */
  method RestRoutes(listPath: string, itemPath: string, qs: array<Pair>, hs: array<Pair>) returns (r: seq<HTTPExpectation>)
    ensures |r| == 6
    ensures forall i :: 0 <= i < 6 ==> r[i].methods.Some? && r[i].methods.value[..] == [RestMethods[i]]
    ensures forall i :: 0 <= i < 6 ==> r[i].queries == Some(qs) && r[i].headers == Some(hs)
    ensures r[0].path == r[1].path == listPath
    ensures forall i :: 2 <= i < 6 ==> r[i].path == itemPath
  {
    var list := RestExpectation("GET", listPath, qs, hs);
    var create := RestExpectation("POST", listPath, qs, hs);
    var read := RestExpectation("GET", itemPath, qs, hs);
    var replace := RestExpectation("PUT", itemPath, qs, hs);
    var update := RestExpectation("PATCH", itemPath, qs, hs);
    var delete := RestExpectation("DELETE", itemPath, qs, hs);
    r := [list, create, read, replace, update, delete];
  }

  /** With a base path that is already rooted and clean, the list path is the
      base path and the item path appends the id segment (the root gives the
      id segment alone); the default base path gives "/" and "/{id:...}". */
  lemma RestPaths(p: string)
    ensures JoinPath([Clean("/" + p)]) == Clean("/" + p)
    ensures JoinPath([Clean("/" + p), IdPath]) ==
      (if Clean("/" + p) == "/" then IdPath else Clean("/" + p) + IdPath)
  {
    assert Ordinary(IdSegment);
    CleanRootedIdempotent(p);
    JoinItemPath(p, IdSegment);
    assert JoinPath([Clean("/" + p)]) == Clean(Clean("/" + p));
  }

  /** The default base path "/" gives "/" and "/{id:...}". */
  lemma DefaultRestPaths()
    ensures JoinPath(["/"]) == "/" && JoinPath(["/", IdPath]) == IdPath
  {
    RestPaths("");
    assert "/" + "" == "/";
    CleanRoot();
  }
}
