/** Loading a spec file in the `internal/spec` generation
    (`internal/spec/spec.go`): server ports, the default spec, and the
    normalisation `ReadSpec` applies to every decoded mock. */
module SpecLoader {
  import opened Base
  import opened RestStore
  import SpecHttp
  import SpecRest

  newtype uint16 = x: int | 0 <= x < 0x1_0000

  datatype Config = Config(httpPort: uint16, httpsPort: uint16)

  /** `c.SetDefaults()`: zero ports become 8080 (HTTP) and 8443 (HTTPS). */
  function ConfigSetDefaults(c: Config): (r: Config)
    ensures c.httpPort == 0 ==> r.httpPort == 8080
    ensures c.httpPort != 0 ==> r.httpPort == c.httpPort
    ensures c.httpsPort == 0 ==> r.httpsPort == 8443
    ensures c.httpsPort != 0 ==> r.httpsPort == c.httpsPort
  {
    Config(if c.httpPort == 0 then 8080 else c.httpPort,
           if c.httpsPort == 0 then 8443 else c.httpsPort)
  }

  lemma ConfigSetDefaultsIdempotent(c: Config)
    ensures ConfigSetDefaults(ConfigSetDefaults(c)) == ConfigSetDefaults(c)
    ensures ConfigSetDefaults(c).httpPort != 0 && ConfigSetDefaults(c).httpsPort != 0
  {
  }

  /** A decoded spec, before normalisation. */
  datatype SpecData = SpecData(config: Config, http: seq<SpecHttp.HTTPMock>, rest: seq<SpecRest.RESTMock>)

  /** `*Spec`: the mock slices are normalised in place by `ReadSpec`. */
  class Spec {
    var config: Config
    var httpMocks: array<SpecHttp.HTTPMock>
    var restMocks: array<SpecRest.RESTMock>

    constructor (data: SpecData)
      ensures config == data.config && httpMocks[..] == data.http && restMocks[..] == data.rest
      ensures fresh(httpMocks) && fresh(restMocks)
    {
      config := data.config;
      httpMocks := new SpecHttp.HTTPMock[|data.http|](i requires 0 <= i < |data.http| => data.http[i]);
      restMocks := new SpecRest.RESTMock[|data.rest|](i requires 0 <= i < |data.rest| => data.rest[i]);
      new;
      assert httpMocks[..] == data.http;
      assert restMocks[..] == data.rest;
    }
  }

  /** What opening and decoding the file gave: the file is missing, cannot be
      opened, or was opened and the JSON and YAML decoders each produced a
      spec or an error. */
  datatype SpecFile =
    | NotExist
    | OpenFailed(message: string)
    | Opened(json: Result<SpecData, string>, yaml: Result<SpecData, string>)

  /** The spec a file decodes to: JSON first, YAML as the fallback. */
  function Decoded(f: SpecFile): (r: Option<SpecData>)
    ensures f.Opened? && f.json.Ok? ==> r == Some(f.json.value)
    ensures f.Opened? && f.json.Err? ==> r == (if f.yaml.Ok? then Some(f.yaml.value) else None)
    ensures !f.Opened? ==> r.None?
  {
    if !f.Opened? then None
    else if f.json.Ok? then Some(f.json.value)
    else if f.yaml.Ok? then Some(f.yaml.value)
    else None
  }

  /** Every REST store of a decoded spec can be indexed without a panic. */
  predicate Indexable(data: SpecData) {
    forall i :: 0 <= i < |data.rest| ==> StoreIndexable(data.rest[i])
  }

  predicate StoreIndexable(m: SpecRest.RESTMock) {
    IdsHashable(m.store.identifier, m.store.objects.GetOr([]))
  }

  /** A REST mock after `SetDefaults` and `Index`. */
  function NormalRest(m: SpecRest.RESTMock): (r: SpecRest.RESTMock)
    ensures r.expectation == SpecRest.SetDefaults(m).expectation && r.response == SpecRest.SetDefaults(m).response
    ensures r.store == Indexed(SpecRest.SetDefaults(m).store)
  {
    var d := SpecRest.SetDefaults(m);
    d.(store := Indexed(d.store))
  }

  /** `DefaultSpec()`: ports 8080/8443, the default HTTP mock, no REST mocks. */
  method DefaultSpec() returns (s: Spec)
    ensures fresh(s) && fresh(s.httpMocks) && fresh(s.restMocks)
    ensures s.config == Config(8080, 8443)
    ensures s.httpMocks[..] == [SpecHttp.DefaultHTTPMock()] && s.restMocks[..] == []
  {
    var config := ConfigSetDefaults(Config(0, 0));
    s := new Spec(SpecData(config, [SpecHttp.DefaultHTTPMock()], []));
  }

  /** Every HTTP mock after `SetDefaults`. */
  function DefaultedHttp(ms: seq<SpecHttp.HTTPMock>): (r: seq<SpecHttp.HTTPMock>)
    ensures |r| == |ms| && forall i :: 0 <= i < |ms| ==> r[i] == SpecHttp.SetDefaults(ms[i])
  {
    seq(|ms|, i requires 0 <= i < |ms| => SpecHttp.SetDefaults(ms[i]))
  }

  /** Every REST mock after `SetDefaults` and `Index`. */
  function NormalRests(ms: seq<SpecRest.RESTMock>): (r: seq<SpecRest.RESTMock>)
    ensures |r| == |ms| && forall i :: 0 <= i < |ms| ==> r[i] == NormalRest(ms[i])
  {
    seq(|ms|, i requires 0 <= i < |ms| => NormalRest(ms[i]))
  }

  /** `for i := range spec.HTTPMocks { spec.HTTPMocks[i].SetDefaults() }`. */
  method DefaultHttpMocks(a: array<SpecHttp.HTTPMock>)
    modifies a
    ensures a[..] == DefaultedHttp(old(a[..]))
  {
    ghost var target := DefaultedHttp(a[..]);
    for i := 0 to a.Length
      invariant a[..i] == target[..i]
      invariant a[i..] == old(a[i..])
    {
      a[i] := SpecHttp.SetDefaults(a[i]);
      assert a[..i + 1] == a[..i] + [a[i]];
    }
    assert a[..] == a[..a.Length];
  }

  /** `SetDefaults()` then `RESTStore.Index()` on one REST mock. */
  method NormaliseRestMock(m: SpecRest.RESTMock) returns (r: SpecRest.RESTMock)
    requires StoreIndexable(m)
    ensures r == NormalRest(m)
  {
    var d := SpecRest.SetDefaults(m);
    assert d.store.identifier == m.store.identifier;
    assert d.store.objects.GetOr([]) == m.store.objects.GetOr([]);
    var store := Index(d.store);
    r := d.(store := store);
  }

  /** `for i := range spec.RESTMocks { SetDefaults(); RESTStore.Index() }`. */
  method NormaliseRestMocks(a: array<SpecRest.RESTMock>)
    modifies a
    requires forall j :: 0 <= j < a.Length ==> StoreIndexable(a[j])
    ensures a[..] == NormalRests(old(a[..]))
  {
    ghost var target := NormalRests(a[..]);
    for i := 0 to a.Length
      invariant a[..i] == target[..i]
      invariant a[i..] == old(a[i..])
    {
      var m := NormaliseRestMock(a[i]);
      a[i] := m;
      assert a[..i + 1] == a[..i] + [a[i]];
    }
    assert a[..] == a[..a.Length];
  }

  /** `ReadSpec(path)`: a missing file gives the default spec; a file that
      cannot be opened gives the open error; a file neither decoder accepts
      gives "unknown spec file: ..." with the YAML error. Otherwise ports are
      defaulted and every HTTP mock is defaulted, and every REST mock
      defaulted then indexed, in place, keeping count and order. */
  method ReadSpec(f: SpecFile) returns (s: Spec?, err: Option<string>)
    requires Decoded(f).Some? ==> Indexable(Decoded(f).value)
    ensures f.NotExist? ==>
      (err.None? && s != null && s.config == Config(8080, 8443) &&
       s.httpMocks[..] == [SpecHttp.DefaultHTTPMock()] && s.restMocks[..] == [])
    ensures f.OpenFailed? ==> s == null && err == Some(f.message)
    ensures f.Opened? && Decoded(f).None? ==> s == null && err == Some("unknown spec file: " + f.yaml.error)
    ensures Decoded(f).Some? ==>
      (err.None? && s != null && fresh(s) &&
       s.config == ConfigSetDefaults(Decoded(f).value.config) &&
       s.httpMocks[..] == DefaultedHttp(Decoded(f).value.http) &&
       s.restMocks[..] == NormalRests(Decoded(f).value.rest))
  {
    match f
    case NotExist =>
      s := DefaultSpec();
      err := None;
    case OpenFailed(message) =>
      s := null;
      err := Some(message);
    case Opened(json, yaml) =>
      var data: SpecData;
      if json.Ok? {
        data := json.value;
      } else if yaml.Ok? {
        data := yaml.value;
      } else {
        return null, Some("unknown spec file: " + yaml.error);
      }
      var spec := new Spec(data);
      spec.config := ConfigSetDefaults(spec.config);
      DefaultHttpMocks(spec.httpMocks);
      assert forall j :: 0 <= j < spec.restMocks.Length ==> spec.restMocks[j] == data.rest[j];
      NormaliseRestMocks(spec.restMocks);
      s := spec;
      err := None;
  }
}
