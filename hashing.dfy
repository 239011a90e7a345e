/** The hashing helpers shared by `internal/spec/helper.go` and
    `internal/v1/helper.go` (`hashBool`, `hashString`, `hashStringSlice` /
    `hashArray`, `hashStringMap` / `hashMap`), and the 64-bit FNV-1a hasher
    they write into. A Go string is modelled as its UTF-8 bytes, one `char`
    per byte (`[]byte(s)`), so every `char` of such a string is below 256 and
    the `% 256` in `FnvStep` drops nothing. */
module Hashing {
  import opened Base
  import opened Order

  const FnvOffset: bv64 := 0xcbf2_9ce4_8422_2325
  const FnvPrime: bv64 := 0x0000_0100_0000_01b3

  /** One FNV-1a round: xor in the byte, multiply by the prime (mod 2^64). */
  function FnvStep(h: bv64, c: char): bv64 {
    (h ^ ((c as int % 256) as bv64)) * FnvPrime
  }

  /** The FNV-1a digest of a byte stream. */
  function Fnv1a(bytes: string): bv64
    decreases |bytes|
  {
    if |bytes| == 0 then FnvOffset
    else FnvStep(Fnv1a(bytes[..|bytes| - 1]), bytes[|bytes| - 1])
  }

  /** A `hash.Hash64` from `fnv.New64a()`, by its contract: the digest is the
      FNV-1a sum of every byte written so far. */
  class Hasher {
    var written: string

    constructor ()
      ensures written == ""
    {
      written := "";
    }

    /** `h.Write(data)`. */
    method Write(data: string)
      modifies this
      ensures written == old(written) + data
    {
      written := written + data;
    }

    /** `h.Sum64()`. */
    function Sum64(): (r: bv64)
      reads this
      ensures r == Fnv1a(written)
    {
      Fnv1a(written)
    }
  }

  // ------------------------------------------------------- the bytes written

  /** The strings written one after another, with no separator. */
  function Concat(xs: seq<string>): string
    decreases |xs|
  {
    if |xs| == 0 then "" else Concat(xs[..|xs| - 1]) + xs[|xs| - 1]
  }

  /** `strconv.FormatBool`. */
  function BoolText(b: bool): (r: string)
    ensures r == "true" || r == "false"
    ensures b <==> r == "true"
  {
    if b then "true" else "false"
  }

  function BoolBytes(bs: seq<bool>): string
    decreases |bs|
  {
    if |bs| == 0 then "" else BoolBytes(bs[..|bs| - 1]) + BoolText(bs[|bs| - 1])
  }

  /** Each pair as its name followed by its value. */
  function PairsBytes(ps: seq<Pair>): string
    decreases |ps|
  {
    if |ps| == 0 then "" else PairsBytes(ps[..|ps| - 1]) + ps[|ps| - 1].name + ps[|ps| - 1].value
  }

  /** What `hashStringSlice(h, canonical, s)` writes. */
  function SliceBytes(canonical: bool, s: seq<string>): string {
    Concat(if canonical then SortStrings(s) else s)
  }

  /** What `hashStringMap(h, true, m)` writes: the entries in key order. */
  ghost function MapBytes(m: StrMap): string {
    PairsBytes(MapPairs(m))
  }

  function SumLengths(xs: seq<string>): nat
    decreases |xs|
  {
    if |xs| == 0 then 0 else |xs[0]| + SumLengths(xs[1..])
  }

  // ------------------------------------------------------------ the helpers

  /** `hashBool(h, args...)`. */
  method HashBool(h: Hasher, args: seq<bool>)
    modifies h
    ensures h.written == old(h.written) + BoolBytes(args)
  {
    var i := 0;
    while i < |args|
      invariant 0 <= i <= |args|
      invariant h.written == old(h.written) + BoolBytes(args[..i])
    {
      h.Write(BoolText(args[i]));
      assert args[..i + 1][..i] == args[..i];
      i := i + 1;
    }
    assert args[..i] == args;
  }

  /** `hashString(h, args...)`. */
  method HashString(h: Hasher, args: seq<string>)
    modifies h
    ensures h.written == old(h.written) + Concat(args)
  {
    var i := 0;
    while i < |args|
      invariant 0 <= i <= |args|
      invariant h.written == old(h.written) + Concat(args[..i])
    {
      h.Write(args[i]);
      i := i + 1;
      assert args[..i][..i - 1] == args[..i - 1];
    }
    assert args[..i] == args;
  }

  /** `sort.Strings(a)`: the array ends up holding its sorted permutation. The
      library's sorting algorithm is not modelled, only its outcome. */
  method SortStringsInPlace(a: array<string>)
    modifies a
    ensures a[..] == SortStrings(old(a[..]))
  {
    var sorted := SortStrings(a[..]);
    assert |sorted| == |multiset(sorted)| == |multiset(a[..])| == a.Length;
    forall i | 0 <= i < a.Length {
      a[i] := sorted[i];
    }
    assert a[..] == sorted;
  }

  /** `sort.Slice(a, by name)`: sorted by name and a permutation; the order of
      equal names is left open, as `sort.Slice` is not stable. */
  method SortPairsInPlace(a: array<Pair>)
    modifies a
    ensures SortedByName(a[..]) && multiset(a[..]) == multiset(old(a[..]))
  {
    var sorted := SortByName(a[..]);
    assert |sorted| == |multiset(sorted)| == |multiset(a[..])| == a.Length;
    forall i | 0 <= i < a.Length {
      a[i] := sorted[i];
    }
    assert a[..] == sorted;
  }

  /** `hashStringSlice(h, canonical, s)` / `hashArray`: copies `s` into a
      buffer, sorts the buffer when `canonical`, writes its strings. */
  method HashStringSlice(h: Hasher, canonical: bool, s: seq<string>)
    modifies h
    ensures h.written == old(h.written) + SliceBytes(canonical, s)
  {
    var buff := new string[|s|];
    var i := 0;
    while i < |s|
      modifies buff
      invariant 0 <= i <= |s|
      invariant buff[..i] == s[..i]
    {
      buff[i] := s[i];
      i := i + 1;
    }
    assert buff[..] == s;
    if canonical {
      SortStringsInPlace(buff);
    }
    HashString(h, buff[..]);
  }

  /** `for key, value := range m { buff = append(buff, Pair{key, value}) }`:
      every entry once, in an order the model leaves open (`:|`). */
  method CollectEntries(m: StrMap) returns (buff: seq<Pair>)
    ensures Listing(buff, m)
  {
    buff := [];
    var rest := m;
    while rest != map[]
      invariant rest.Keys <= m.Keys
      invariant forall k :: k in rest ==> rest[k] == m[k]
      invariant DistinctNames(buff)
      invariant forall p :: p in buff <==> p.name in m && p.name !in rest && m[p.name] == p.value
      decreases |rest|
    {
      var k :| k in rest;
      forall j | 0 <= j < |buff| ensures buff[j].name != k {
        assert buff[j] in buff;
      }
      buff := buff + [Pair(k, rest[k])];
      rest := rest - {k};
    }
  }

  /** Sorting a listing of a map by key gives the map's canonical listing. */
  method SortEntries(buff: seq<Pair>, ghost m: StrMap) returns (sorted: seq<Pair>)
    requires Listing(buff, m)
    ensures sorted == MapPairs(m)
  {
    var arr := new Pair[|buff|](i requires 0 <= i < |buff| => buff[i]);
    assert arr[..] == buff;
    SortPairsInPlace(arr);
    sorted := arr[..];
    DistinctNamesPermutation(buff, sorted);
    forall q ensures q in sorted <==> q in buff {
      assert q in sorted <==> q in multiset(sorted);
      assert q in buff <==> q in multiset(buff);
    }
    MapPairsUnique(sorted, m);
  }

  /** `for _, p := range buff { h.Write(p.Name); h.Write(p.Value) }`. */
  method WritePairs(h: Hasher, buff: seq<Pair>)
    modifies h
    ensures h.written == old(h.written) + PairsBytes(buff)
  {
    var i := 0;
    while i < |buff|
      invariant 0 <= i <= |buff|
      invariant h.written == old(h.written) + PairsBytes(buff[..i])
    {
      h.Write(buff[i].name);
      h.Write(buff[i].value);
      i := i + 1;
      assert buff[..i][..i - 1] == buff[..i - 1];
    }
    assert buff[..i] == buff;
  }

  /** `hashStringMap(h, canonical, m)` / `hashMap`: collects the entries in
      map iteration order, sorts them by key when `canonical`, and writes each
      key and value. */
  method HashStringMap(h: Hasher, canonical: bool, m: StrMap)
    modifies h
    ensures canonical ==> h.written == old(h.written) + MapBytes(m)
    ensures !canonical ==> exists ps :: Listing(ps, m) && h.written == old(h.written) + PairsBytes(ps)
  {
    var buff := CollectEntries(m);
    ghost var listed := buff;
    if canonical {
      buff := SortEntries(buff, m);
    }
    WritePairs(h, buff);
    if !canonical {
      assert Listing(listed, m) && h.written == old(h.written) + PairsBytes(listed);
    }
  }

  // -------------------------------------------------------------- properties

  /** A single argument is written as it is. */
  lemma SingleArgument(s: string, b: bool)
    ensures Concat([s]) == s && BoolBytes([b]) == BoolText(b)
  {
    assert [s][..0] == [] && [b][..0] == [];
    assert "" + s == s && "" + BoolText(b) == BoolText(b);
  }

  /** Writing five pieces one after another appends their concatenation. */
  lemma Append5(w: string, a: string, b: string, c: string, d: string, e: string)
    ensures w + a + b + c + d + e == w + (a + b + c + d + e)
  {
  }

  /** The stream has no separators: ("ab", "c") and ("a", "bc") write the
      same bytes. */
  lemma NoSeparator()
    ensures Concat(["ab", "c"]) == Concat(["a", "bc"]) == "abc"
  {
    assert ["ab", "c"][..1] == ["ab"];
    assert ["a", "bc"][..1] == ["a"];
  }

  /** The order of the arguments matters. */
  lemma BoolOrderMatters()
    ensures BoolBytes([false, true]) != BoolBytes([true, false])
  {
    assert [false, true][..1] == [false];
    assert [true, false][..1] == [true];
    SingleArgument("", false);
    SingleArgument("", true);
    assert BoolBytes([false, true])[0] == 'f';
    assert BoolBytes([true, false])[0] == 't';
  }

  lemma StringOrderMatters()
    ensures Concat(["alice", "bob"]) != Concat(["bob", "alice"])
  {
    assert ["alice", "bob"][..1] == ["alice"];
    assert ["bob", "alice"][..1] == ["bob"];
    SingleArgument("alice", false);
    SingleArgument("bob", false);
    assert Concat(["alice", "bob"])[0] == 'a';
    assert Concat(["bob", "alice"])[0] == 'b';
  }

  /** With `canonical` set, every permutation of a slice writes the same bytes. */
  lemma SliceBytesPermutation(a: seq<string>, b: seq<string>)
    requires multiset(a) == multiset(b)
    ensures SliceBytes(true, a) == SliceBytes(true, b)
  {
    SortStringsPermutation(a, b);
  }

  /** A sorted slice is written as it is. */
  lemma SliceBytesOfSorted(s: seq<string>)
    requires Sorted(s)
    ensures SliceBytes(true, s) == Concat(s)
  {
    SortStringsOfSorted(s);
  }

  lemma {:induction false} ConcatLength(xs: seq<string>)
    ensures |Concat(xs)| == SumLengths(xs)
    decreases |xs|
  {
    if |xs| > 0 {
      ConcatLength(xs[..|xs| - 1]);
      SumLengthsSnoc(xs[..|xs| - 1], xs[|xs| - 1]);
      assert xs[..|xs| - 1] + [xs[|xs| - 1]] == xs;
    }
  }

  lemma {:induction false} SumLengthsSnoc(xs: seq<string>, x: string)
    ensures SumLengths(xs + [x]) == SumLengths(xs) + |x|
    decreases |xs|
  {
    if |xs| > 0 {
      assert (xs + [x])[1..] == xs[1..] + [x];
      SumLengthsSnoc(xs[1..], x);
    }
  }

  lemma {:induction false} SumLengthsInsert(x: string, s: seq<string>)
    requires Sorted(s)
    ensures SumLengths(Insert(x, s)) == |x| + SumLengths(s)
    decreases |s|
  {
    if s != [] && !Le(x, s[0]) {
      SumLengthsInsert(x, s[1..]);
      assert Insert(x, s)[1..] == Insert(x, s[1..]);
    }
  }

  lemma {:induction false} SumLengthsSort(s: seq<string>)
    ensures SumLengths(SortStrings(s)) == SumLengths(s)
    decreases |s|
  {
    if s != [] {
      SumLengthsSort(s[1..]);
      SumLengthsInsert(s[0], SortStrings(s[1..]));
    }
  }

  /** The stream is as long as all the strings together, so adding a
      non-empty element (PATCH to GET, POST, PUT) changes what is written. */
  lemma SliceBytesGrow(s: seq<string>, x: string)
    ensures |SliceBytes(true, s + [x])| == |SliceBytes(true, s)| + |x|
    ensures x != "" ==> SliceBytes(true, s + [x]) != SliceBytes(true, s)
  {
    ConcatLength(SortStrings(s + [x]));
    ConcatLength(SortStrings(s));
    SumLengthsSort(s + [x]);
    SumLengthsSort(s);
    SumLengthsSnoc(s, x);
  }

  lemma {:induction false} PairsBytesNonEmpty(ps: seq<Pair>, i: int)
    requires 0 <= i < |ps| && ps[i].name != ""
    ensures PairsBytes(ps) != ""
    decreases |ps|
  {
    var n := |ps| - 1;
    if i < n {
      assert ps[..n][i] == ps[i];
      PairsBytesNonEmpty(ps[..n], i);
    }
  }

  /** An empty (or nil) map writes nothing. */
  lemma MapBytesEmpty()
    ensures MapBytes(map[]) == ""
  {
  }

  /** A map with an entry whose key is not empty writes something. */
  lemma MapBytesNonEmpty(m: StrMap, k: string)
    requires k in m && k != ""
    ensures MapBytes(m) != ""
  {
    var ps := MapPairs(m);
    assert Pair(k, m[k]) in ps;
    var i :| 0 <= i < |ps| && ps[i] == Pair(k, m[k]);
    PairsBytesNonEmpty(ps, i);
  }

  /** The canonical stream of a map lists its entries in ascending key order:
      `{"b": "2", "a": "1"}` is written "a1b2" whatever order `range` takes. */
  lemma ExampleListing()
    ensures SortedByName([Pair("a", "1"), Pair("b", "2")])
    ensures Listing([Pair("a", "1"), Pair("b", "2")], map["b" := "2", "a" := "1"])
  {
    var m := map["b" := "2", "a" := "1"];
    var ps := [Pair("a", "1"), Pair("b", "2")];
    assert Le("a", "b");
    forall p ensures p in ps <==> p.name in m && m[p.name] == p.value {
      if p.name in m && m[p.name] == p.value {
        assert p.name == "a" || p.name == "b";
      }
    }
  }

  lemma MapBytesExample()
    ensures MapBytes(map["b" := "2", "a" := "1"]) == "a1b2"
  {
    var m := map["b" := "2", "a" := "1"];
    var ps := [Pair("a", "1"), Pair("b", "2")];
    ExampleListing();
    MapPairsUnique(ps, m);
    assert ps[..1] == [Pair("a", "1")];
    assert ps[..1][..0] == [];
    assert PairsBytes(ps[..1]) == "a1";
  }
}
