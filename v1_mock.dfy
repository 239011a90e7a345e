/** The mock registry of `internal/v1/mock.go`: mocks stored under their
    hash, so that adding a mock with a known expectation replaces the old
    one. */
module V1Mock {
  import opened Hashing
  import SpecHttp
  import SpecRest
  import V1Http
  import V1Rest

  /** The `Mock` interface has two implementations. */
  datatype Mock = HttpMock(http: V1Http.HTTPMock) | RestMock(rest: V1Rest.RESTMock)

  /** The registry's key, a 64-bit hash sum. */
  datatype HashKey = HashKey(sum: bv64)

  /** The bytes the mock's hash is computed over: those of its expectation. */
  ghost function Bytes(m: Mock): string {
    match m
    case HttpMock(h) => SpecHttp.ExpectBytes(h.expectation)
    case RestMock(r) => SpecRest.ExpectBytes(r.expectation)
  }

  /** `m.Hash()` as a value. */
  ghost function Key(m: Mock): HashKey {
    HashKey(Fnv1a(Bytes(m)))
  }

  /** `m.Hash()`: dispatches to the mock's own hash. */
  method Hash(m: Mock) returns (r: HashKey)
    ensures r == Key(m)
  {
    var sum: bv64;
    if m.HttpMock? {
      sum := SpecHttp.Hash(m.http);
    } else {
      sum := V1Rest.Hash(m.rest);
    }
    r := HashKey(sum);
  }

  /** The hashes of `ms`, in order. */
  ghost function Keys(ms: seq<Mock>): (r: seq<HashKey>)
    ensures |r| == |ms| && forall i :: 0 <= i < |ms| ==> r[i] == Key(ms[i])
  {
    seq(|ms|, i requires 0 <= i < |ms| => Key(ms[i]))
  }

  /** The registry after storing each of `ms` under the hash at the same
      position of `keys`, in order. */
  ghost function Upserted(reg: map<HashKey, Mock>, keys: seq<HashKey>, ms: seq<Mock>): map<HashKey, Mock>
    requires |keys| == |ms|
    decreases |ms|
  {
    if |ms| == 0 then reg
    else Upserted(reg, keys[..|ms| - 1], ms[..|ms| - 1])[keys[|ms| - 1] := ms[|ms| - 1]]
  }

  /** The registry after deleting each of `keys` in order. */
  ghost function Removed(reg: map<HashKey, Mock>, keys: seq<HashKey>): map<HashKey, Mock>
    decreases |keys|
  {
    if |keys| == 0 then reg
    else Removed(reg, keys[..|keys| - 1]) - {keys[|keys| - 1]}
  }

  lemma UpsertedStep(reg: map<HashKey, Mock>, keys: seq<HashKey>, ms: seq<Mock>, i: int)
    requires |keys| == |ms| && 0 <= i < |ms|
    ensures Upserted(reg, keys[..i + 1], ms[..i + 1]) == Upserted(reg, keys[..i], ms[..i])[keys[i] := ms[i]]
  {
    assert keys[..i + 1][..i] == keys[..i];
    assert ms[..i + 1][..i] == ms[..i];
  }

  lemma RemovedStep(reg: map<HashKey, Mock>, keys: seq<HashKey>, i: int)
    requires 0 <= i < |keys|
    ensures Removed(reg, keys[..i + 1]) == Removed(reg, keys[..i]) - {keys[i]}
  {
    assert keys[..i + 1][..i] == keys[..i];
  }

  /** `MockService`: the registered mocks by hash. */
  class MockService {
    var mocks: map<HashKey, Mock>

    /** `NewMockService()`: an empty registry. */
    constructor ()
      ensures mocks == map[]
    {
      mocks := map[];
    }

    /** `s.Add(mocks...)`: stores each mock under its hash, replacing what
        was there. */
    method Add(ms: seq<Mock>)
      modifies this
      ensures mocks == Upserted(old(mocks), Keys(ms), ms)
    {
      var i := 0;
      ghost var keys := Keys(ms);
      while i < |ms|
        invariant 0 <= i <= |ms|
        invariant mocks == Upserted(old(mocks), keys[..i], ms[..i])
      {
        var key := Hash(ms[i]);
        UpsertedStep(old(mocks), keys, ms, i);
        mocks := mocks[key := ms[i]];
        i := i + 1;
      }
      assert ms[..i] == ms && keys[..i] == keys;
    }

    /** `s.Delete(mocks...)`: removes whatever is stored under each mock's
        hash; an absent hash is ignored. */
    method Delete(ms: seq<Mock>)
      modifies this
      ensures mocks == Removed(old(mocks), Keys(ms))
    {
      var i := 0;
      ghost var keys := Keys(ms);
      while i < |ms|
        invariant 0 <= i <= |ms|
        invariant mocks == Removed(old(mocks), keys[..i])
      {
        var key := Hash(ms[i]);
        RemovedStep(old(mocks), keys, i);
        mocks := mocks - {key};
        i := i + 1;
      }
      assert keys[..i] == keys;
    }
  }

  /** After adding a mock, its hash maps to it; the entry count grows only
      when the hash was new. */
  lemma AddOne(reg: map<HashKey, Mock>, k: HashKey, m: Mock)
    ensures Upserted(reg, [k], [m]) == reg[k := m]
    ensures Upserted(reg, [k], [m])[k] == m
    ensures |Upserted(reg, [k], [m])| == if k in reg then |reg| else |reg| + 1
  {
    assert [m][..0] == [] && [k][..0] == [];
    assert Upserted(reg, [], []) == reg;
  }

  /** Within one `Add`, the later of two mocks with the same hash wins. */
  lemma AddLaterWins(reg: map<HashKey, Mock>, k: HashKey, a: Mock, b: Mock)
    ensures Upserted(reg, [k, k], [a, b]) == reg[k := b]
  {
    assert [a, b][..1] == [a] && [k, k][..1] == [k];
    assert [a][..0] == [] && [k][..0] == [];
    assert Upserted(reg, [k], [a]) == reg[k := a];
    assert Upserted(reg, [k, k], [a, b]) == reg[k := a][k := b];
  }

  /** `Add` and `Delete` leave every other hash alone. */
  lemma {:induction false} OthersUntouched(reg: map<HashKey, Mock>, keys: seq<HashKey>, ms: seq<Mock>, k: HashKey)
    requires |keys| == |ms| && forall i :: 0 <= i < |keys| ==> keys[i] != k
    ensures k in Upserted(reg, keys, ms) <==> k in reg
    ensures k in reg ==> Upserted(reg, keys, ms)[k] == reg[k]
    ensures k in Removed(reg, keys) <==> k in reg
    ensures k in reg ==> Removed(reg, keys)[k] == reg[k]
    decreases |ms|
  {
    if |ms| > 0 {
      var n := |ms| - 1;
      OthersUntouched(reg, keys[..n], ms[..n], k);
      assert keys[n] != k;
      assert Upserted(reg, keys, ms) == Upserted(reg, keys[..n], ms[..n])[keys[n] := ms[n]];
      assert Removed(reg, keys) == Removed(reg, keys[..n]) - {keys[n]};
    }
  }

  /** Deleting removes the hash; deleting an absent hash changes nothing. */
  lemma DeleteOne(reg: map<HashKey, Mock>, k: HashKey)
    ensures k !in Removed(reg, [k])
    ensures k !in reg ==> Removed(reg, [k]) == reg
  {
    assert [k][..0] == [];
  }

  /** Only the expectation decides the hash, so a different mock value with
      the same expectation (other response, forward or store) deletes the
      stored one. */
  lemma DeleteBySameExpectation(reg: map<HashKey, Mock>, a: Mock, b: Mock)
    requires a.HttpMock? == b.HttpMock?
    requires a.HttpMock? ==> a.http.expectation == b.http.expectation
    requires a.RestMock? ==> a.rest.expectation == b.rest.expectation
    ensures Key(a) !in Removed(Upserted(reg, Keys([a]), [a]), Keys([b]))
  {
    assert Keys([b]) == [Key(a)];
    DeleteOne(Upserted(reg, Keys([a]), [a]), Key(a));
  }
}
