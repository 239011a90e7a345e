/** Go's string order (`a < b` compares bytes lexicographically), `sort.Strings`,
    `sort.Slice` by name, and the canonical listing of a map in key order. */
module Order {
  import opened Base

  /** `a <= b` in Go's lexicographic string order. */
  predicate Le(a: string, b: string)
    decreases |a|
  {
    |a| == 0 || (|b| > 0 && (a[0] < b[0] || (a[0] == b[0] && Le(a[1..], b[1..]))))
  }

  lemma {:induction false} LeTotal(a: string, b: string)
    ensures Le(a, b) || Le(b, a)
    decreases |a|
  {
    if |a| > 0 && |b| > 0 && a[0] == b[0] {
      LeTotal(a[1..], b[1..]);
    }
  }

  lemma {:induction false} LeAntisymmetric(a: string, b: string)
    requires Le(a, b) && Le(b, a)
    ensures a == b
    decreases |a|
  {
    if |a| > 0 {
      LeAntisymmetric(a[1..], b[1..]);
      assert a == [a[0]] + a[1..] && b == [b[0]] + b[1..];
    }
  }

  lemma {:induction false} LeTransitive(a: string, b: string, c: string)
    requires Le(a, b) && Le(b, c)
    ensures Le(a, c)
    decreases |a|
  {
    if |a| > 0 && a[0] == b[0] && b[0] == c[0] {
      LeTransitive(a[1..], b[1..], c[1..]);
    }
  }

  lemma LeReflexive(a: string)
    ensures Le(a, a)
  {
  }

  // ---------------------------------------------------------------- strings

  predicate Sorted(s: seq<string>) {
    forall i, j :: 0 <= i < j < |s| ==> Le(s[i], s[j])
  }

  function Insert(x: string, s: seq<string>): (r: seq<string>)
    requires Sorted(s)
    ensures Sorted(r) && multiset(r) == multiset(s) + multiset{x}
  {
    if s == [] then [x]
    else if Le(x, s[0]) then
      forall j | 0 < j < |s| ensures Le(x, s[j]) { LeTransitive(x, s[0], s[j]); }
      [x] + s
    else
      LeTotal(x, s[0]);
      var t := Insert(x, s[1..]);
      assert s == [s[0]] + s[1..];
      forall j | 0 <= j < |t| ensures Le(s[0], t[j]) {
        assert t[j] in multiset(t);
        if t[j] != x {
          assert t[j] in multiset(s[1..]);
          var k :| 0 <= k < |s[1..]| && s[1..][k] == t[j];
          assert s[k + 1] == t[j];
        }
      }
      [s[0]] + t
  }

  /** `sort.Strings`: the sorted permutation of `s`. */
  function SortStrings(s: seq<string>): (r: seq<string>)
    ensures Sorted(r) && multiset(r) == multiset(s)
  {
    if s == [] then []
    else
      assert s == [s[0]] + s[1..];
      Insert(s[0], SortStrings(s[1..]))
  }

  /** A sorted permutation is unique: sorting forgets the input order. */
  lemma {:induction false} SortedUnique(a: seq<string>, b: seq<string>)
    requires Sorted(a) && Sorted(b) && multiset(a) == multiset(b)
    ensures a == b
    decreases |a|
  {
    assert |a| == |multiset(a)| == |multiset(b)| == |b|;
    if a != [] {
      assert a[0] in multiset(b) && b[0] in multiset(a);
      var k :| 0 <= k < |b| && b[k] == a[0];
      var j :| 0 <= j < |a| && a[j] == b[0];
      if k > 0 { assert Le(b[0], b[k]); } else { LeReflexive(b[0]); }
      if j > 0 { assert Le(a[0], a[j]); } else { LeReflexive(a[0]); }
      LeAntisymmetric(a[0], b[0]);
      TailMultiset(a, b);
      SortedUnique(a[1..], b[1..]);
    }
  }

  /** Equal multisets with equal heads have equal tails. */
  lemma TailMultiset<T>(a: seq<T>, b: seq<T>)
    requires a != [] && b != [] && a[0] == b[0] && multiset(a) == multiset(b)
    ensures multiset(a[1..]) == multiset(b[1..])
  {
    assert a == [a[0]] + a[1..] && b == [b[0]] + b[1..];
    assert multiset(a) == multiset{a[0]} + multiset(a[1..]);
    assert multiset(b) == multiset{b[0]} + multiset(b[1..]);
    assert multiset(a[1..]) == multiset(a) - multiset{a[0]};
    assert multiset(b[1..]) == multiset(b) - multiset{b[0]};
  }

  lemma SortStringsOfSorted(s: seq<string>)
    requires Sorted(s)
    ensures SortStrings(s) == s
  {
    SortedUnique(SortStrings(s), s);
  }

  /** Sorting depends only on the multiset of its input. */
  lemma SortStringsPermutation(a: seq<string>, b: seq<string>)
    requires multiset(a) == multiset(b)
    ensures SortStrings(a) == SortStrings(b)
  {
    SortedUnique(SortStrings(a), SortStrings(b));
  }

  // ------------------------------------------------------------------ pairs

  predicate SortedByName(s: seq<Pair>) {
    forall i, j :: 0 <= i < j < |s| ==> Le(s[i].name, s[j].name)
  }

  predicate DistinctNames(s: seq<Pair>) {
    forall i, j :: 0 <= i < j < |s| ==> s[i].name != s[j].name
  }

  function InsertByName(x: Pair, s: seq<Pair>): (r: seq<Pair>)
    requires SortedByName(s)
    ensures SortedByName(r) && multiset(r) == multiset(s) + multiset{x}
  {
    if s == [] then [x]
    else if Le(x.name, s[0].name) then
      forall j | 0 < j < |s| ensures Le(x.name, s[j].name) { LeTransitive(x.name, s[0].name, s[j].name); }
      [x] + s
    else
      LeTotal(x.name, s[0].name);
      var t := InsertByName(x, s[1..]);
      assert s == [s[0]] + s[1..];
      forall j | 0 <= j < |t| ensures Le(s[0].name, t[j].name) {
        assert t[j] in multiset(t);
        if t[j] != x {
          assert t[j] in multiset(s[1..]);
          var k :| 0 <= k < |s[1..]| && s[1..][k] == t[j];
          assert s[k + 1] == t[j];
        }
      }
      [s[0]] + t
  }

  /** A stable sort by name: one of the results `sort.Slice` by name may give. */
  function SortByName(s: seq<Pair>): (r: seq<Pair>)
    ensures SortedByName(r) && multiset(r) == multiset(s)
  {
    if s == [] then []
    else
      assert s == [s[0]] + s[1..];
      InsertByName(s[0], SortByName(s[1..]))
  }

  /** Two occurrences of one element make its multiplicity at least two. */
  lemma TwiceInMultiset<T>(s: seq<T>, i: int, j: int)
    requires 0 <= i < j < |s| && s[i] == s[j]
    ensures multiset(s)[s[i]] >= 2
  {
    assert s == s[..j] + s[j..];
    assert s[i] in s[..j] && s[j] in s[j..];
  }

  lemma {:induction false} TwiceInSeq<T>(s: seq<T>, x: T)
    requires multiset(s)[x] >= 2
    ensures exists i, j :: 0 <= i < j < |s| && s[i] == x && s[j] == x
    decreases |s|
  {
    assert s == [s[0]] + s[1..];
    if s[0] == x {
      assert x in multiset(s[1..]);
      var k :| 0 <= k < |s[1..]| && s[1..][k] == x;
      assert s[0] == x && s[k + 1] == x;
    } else {
      TwiceInSeq(s[1..], x);
      var i, j :| 0 <= i < j < |s[1..]| && s[1..][i] == x && s[1..][j] == x;
      assert s[i + 1] == x && s[j + 1] == x;
    }
  }

  /** Distinct names survive any permutation. */
  lemma DistinctNamesPermutation(a: seq<Pair>, b: seq<Pair>)
    requires DistinctNames(a) && multiset(a) == multiset(b)
    ensures DistinctNames(b)
  {
    forall i, j | 0 <= i < j < |b| ensures b[i].name != b[j].name {
      if b[i].name == b[j].name {
        assert b[i] in multiset(a) && b[j] in multiset(a);
        var p :| 0 <= p < |a| && a[p] == b[i];
        var q :| 0 <= q < |a| && a[q] == b[j];
        assert p == q;
        TwiceInMultiset(b, i, j);
        TwiceInSeq(a, b[i]);
        assert false;
      }
    }
  }

  /** Sorting by name has one outcome when names are distinct, so the
      instability of `sort.Slice` is invisible then. */
  lemma {:induction false} SortedByNameUnique(a: seq<Pair>, b: seq<Pair>)
    requires SortedByName(a) && SortedByName(b) && multiset(a) == multiset(b)
    requires DistinctNames(a)
    ensures a == b
    decreases |a|
  {
    assert |a| == |multiset(a)| == |multiset(b)| == |b|;
    if a != [] {
      assert a[0] in multiset(b) && b[0] in multiset(a);
      var k :| 0 <= k < |b| && b[k] == a[0];
      var j :| 0 <= j < |a| && a[j] == b[0];
      if k > 0 { assert Le(b[0].name, b[k].name); } else { LeReflexive(b[0].name); }
      if j > 0 { assert Le(a[0].name, a[j].name); } else { LeReflexive(a[0].name); }
      LeAntisymmetric(a[0].name, b[0].name);
      assert j == 0;
      TailMultiset(a, b);
      assert DistinctNames(a[1..]) by {
        forall p, q | 0 <= p < q < |a[1..]| ensures a[1..][p].name != a[1..][q].name {
          assert a[1..][p] == a[p + 1] && a[1..][q] == a[q + 1];
        }
      }
      SortedByNameUnique(a[1..], b[1..]);
    }
  }

  // ------------------------------------------------------------------- maps

  lemma {:induction false} MinExists(s: set<string>)
    requires s != {}
    ensures exists k :: k in s && forall x :: x in s ==> Le(k, x)
    decreases |s|
  {
    var y :| y in s;
    if s == {y} {
      LeReflexive(y);
      assert forall x :: x in s ==> x == y;
    } else {
      MinExists(s - {y});
      var k :| k in s - {y} && forall x :: x in s - {y} ==> Le(k, x);
      LeTotal(k, y);
      if Le(k, y) {
        assert forall x :: x in s ==> Le(k, x);
      } else {
        forall x | x in s ensures Le(y, x) {
          if x != y { LeTransitive(y, k, x); } else { LeReflexive(y); }
        }
      }
    }
  }

  ghost function MinKey(s: set<string>): (k: string)
    requires s != {}
    ensures k in s && forall x :: x in s ==> Le(k, x)
  {
    MinExists(s);
    var k :| k in s && forall x :: x in s ==> Le(k, x);
    k
  }

  /** `ps` lists the entries of `m`, each once, in some order: what a
      `for k, v := range m` loop appends. */
  ghost predicate Listing(ps: seq<Pair>, m: StrMap) {
    DistinctNames(ps) && forall p :: p in ps <==> p.name in m && m[p.name] == p.value
  }

  /** The entries of `m` in ascending key order: what `hashStringMap` and
      `hashMap` feed the hash when `canonical` is set. */
  ghost function MapPairs(m: StrMap): (r: seq<Pair>)
    ensures SortedByName(r) && DistinctNames(r) && |r| == |m|
    ensures forall p :: p in r <==> p.name in m && m[p.name] == p.value
    decreases |m|
  {
    if m == map[] then []
    else
      var k := MinKey(m.Keys);
      var rest := m - {k};
      assert |rest| == |m| - 1;
      var t := MapPairs(rest);
      ConsListing(m, k, t);
      [Pair(k, m[k])] + t
  }

  /** The least key's entry followed by a sorted listing of the others is a
      sorted listing of the whole map. */
  lemma ConsListing(m: StrMap, k: string, t: seq<Pair>)
    requires k in m && forall x :: x in m ==> Le(k, x)
    requires SortedByName(t) && DistinctNames(t)
    requires forall p :: p in t <==> p.name in m - {k} && (m - {k})[p.name] == p.value
    ensures SortedByName([Pair(k, m[k])] + t) && DistinctNames([Pair(k, m[k])] + t)
    ensures forall p :: p in [Pair(k, m[k])] + t <==> p.name in m && m[p.name] == p.value
  {
    var r := [Pair(k, m[k])] + t;
    forall i, j | 0 <= i < j < |r| ensures Le(r[i].name, r[j].name) && r[i].name != r[j].name {
      assert r[j] == t[j - 1] && t[j - 1] in t;
      if i > 0 {
        assert r[i] == t[i - 1];
      }
    }
    forall p ensures p in r <==> p.name in m && m[p.name] == p.value {
      assert p in r <==> p == r[0] || p in t;
    }
  }

  /** Any sorted listing of a map's entries without repeated names is the
      canonical one: the order in which `range` visited the map is forgotten. */
  lemma MapPairsUnique(ps: seq<Pair>, m: StrMap)
    requires SortedByName(ps) && Listing(ps, m)
    ensures ps == MapPairs(m)
  {
    SameElementsUnique(ps, MapPairs(m));
  }

  lemma TailOfDistinct(a: seq<Pair>)
    requires a != [] && DistinctNames(a)
    ensures DistinctNames(a[1..])
    ensures forall p :: p in a[1..] ==> p.name != a[0].name
  {
    forall p | p in a[1..] ensures p.name != a[0].name {
      var i :| 0 <= i < |a[1..]| && a[1..][i] == p;
      assert a[i + 1] == p;
    }
  }

  /** Two sorted listings without repeated names that hold the same elements
      are equal. */
  lemma {:induction false} SameElementsUnique(a: seq<Pair>, b: seq<Pair>)
    requires SortedByName(a) && DistinctNames(a)
    requires SortedByName(b) && DistinctNames(b)
    requires forall p :: p in a <==> p in b
    ensures a == b
    decreases |a|
  {
    assert a != [] ==> a[0] in b;
    assert b != [] ==> b[0] in a;
    if a == [] || b == [] {
    } else {
      assert a[0] in b && b[0] in a;
      var k :| 0 <= k < |b| && b[k] == a[0];
      var j :| 0 <= j < |a| && a[j] == b[0];
      if k > 0 { assert Le(b[0].name, b[k].name); } else { LeReflexive(b[0].name); }
      if j > 0 { assert Le(a[0].name, a[j].name); } else { LeReflexive(a[0].name); }
      LeAntisymmetric(a[0].name, b[0].name);
      assert j == 0;
      TailOfDistinct(a);
      TailOfDistinct(b);
      assert a == [a[0]] + a[1..] && b == [b[0]] + b[1..];
      forall p ensures p in a[1..] <==> p in b[1..] {
        if p in a[1..] { assert p in b && p != b[0]; }
        if p in b[1..] { assert p in a && p != a[0]; }
      }
      SameElementsUnique(a[1..], b[1..]);
    }
  }

  // -------------------------------------------------------------- upper case

  /** `unicode.ToUpper` restricted to ASCII letters. */
  function UpperChar(c: char): (r: char)
    ensures 'a' <= c <= 'z' ==> r as int == c as int - 32
    ensures !('a' <= c <= 'z') ==> r == c
  {
    if 'a' <= c <= 'z' then (c as int - 32) as char else c
  }

  /** `strings.ToUpper`, letter by letter. */
  function ToUpper(s: string): (r: string)
    ensures |r| == |s|
    ensures forall i :: 0 <= i < |s| ==> r[i] == UpperChar(s[i])
  {
    seq(|s|, i requires 0 <= i < |s| => UpperChar(s[i]))
  }
}
