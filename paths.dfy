/** URL paths: Go's `path.Clean` (shortest equivalent path by purely lexical
    processing) and `filepath.Join` on a slash-separated system, which every
    generation uses to normalise the path of a mock. */
module Paths {

  /** The position of the first "/" in `s`, or `|s|` when there is none. */
  function SlashIndex(s: string): (i: nat)
    ensures i <= |s|
    decreases |s|
  {
    if |s| == 0 || s[0] == '/' then 0 else 1 + SlashIndex(s[1..])
  }

  /** `SlashIndex` finds the first slash: none before it, one at it. */
  lemma {:induction false} SlashIndexFirst(s: string)
    ensures forall j :: 0 <= j < SlashIndex(s) ==> s[j] != '/'
    ensures SlashIndex(s) < |s| ==> s[SlashIndex(s)] == '/'
    decreases |s|
  {
    if |s| > 0 && s[0] != '/' {
      SlashIndexFirst(s[1..]);
      assert forall j :: 1 <= j < |s| ==> s[j] == s[1..][j - 1];
    }
  }

  /** A position with no slash before it and a slash (or the end) at it is
      `SlashIndex`. */
  lemma {:induction false} SlashIndexAt(s: string, k: nat)
    requires k <= |s| && (k < |s| ==> s[k] == '/')
    requires forall j :: 0 <= j < k ==> s[j] != '/'
    ensures SlashIndex(s) == k
    decreases |s|
  {
    if k > 0 {
      assert forall j :: 0 <= j < k - 1 ==> s[1..][j] == s[j + 1];
      SlashIndexAt(s[1..], k - 1);
    }
  }

  /** The pieces of `s` between slashes; there is always at least one. */
  function Split(s: string): (r: seq<string>)
    ensures |r| >= 1
    decreases |s|
  {
    var i := SlashIndex(s);
    if i == |s| then [s] else [s[..i]] + Split(s[i + 1..])
  }

  /** `strings.Join(xs, sep)`. */
  function JoinWith(xs: seq<string>, sep: string): string
  {
    if |xs| == 0 then ""
    else if |xs| == 1 then xs[0]
    else xs[0] + sep + JoinWith(xs[1..], sep)
  }

  /** A path element that survives cleaning unchanged. */
  predicate Ordinary(x: string) {
    x != "" && x != "." && x != ".." && '/' !in x
  }

  predicate AllOrdinary(xs: seq<string>) {
    forall i :: 0 <= i < |xs| ==> Ordinary(xs[i])
  }

  /** One element of the lexical walk: empty and "." elements vanish, ".."
      removes the previous element (above the root there is nothing to remove;
      a relative path keeps leading ".." elements). */
  function Step(out: seq<string>, x: string, rooted: bool): seq<string>
  {
    if x == "" || x == "." then out
    else if x == ".." then
      if |out| > 0 && out[|out| - 1] != ".." then out[..|out| - 1]
      else if rooted then out
      else out + [".."]
    else out + [x]
  }

  /** The walk over all elements, left to right. */
  function Resolve(out: seq<string>, xs: seq<string>, rooted: bool): seq<string>
    decreases |xs|
  {
    if |xs| == 0 then out else Resolve(Step(out, xs[0], rooted), xs[1..], rooted)
  }

  /** `path.Clean(p)`. */
  function Clean(p: string): (r: string)
    ensures |p| > 0 && p[0] == '/' ==> |r| > 0 && r[0] == '/'
    ensures r != ""
  {
    if p == "" then "."
    else
      var rooted := p[0] == '/';
      var out := Resolve([], Split(p), rooted);
      ResolveNonEmptyParts([], Split(p), rooted);
      if rooted then "/" + JoinWith(out, "/")
      else if out == [] then "."
      else JoinWith(out, "/")
  }

  /** `filepath.Join(elems...)`: the elements from the first non-empty one on,
      joined by "/" and cleaned; "" when every element is empty. */
  function JoinPath(elems: seq<string>): (r: string)
    ensures (forall i :: 0 <= i < |elems| ==> elems[i] == "") <==> r == ""
    decreases |elems|
  {
    if |elems| == 0 then ""
    else if elems[0] == "" then JoinPath(elems[1..])
    else Clean(JoinWith(elems, "/"))
  }

  // ---------------------------------------------------------------- Split facts

  lemma SplitSlash(t: string)
    ensures Split("/" + t) == [""] + Split(t)
  {
    assert ("/" + t)[..0] == "" && ("/" + t)[1..] == t;
  }

  lemma {:induction false} SplitPartsNoSlash(s: string)
    ensures forall k :: 0 <= k < |Split(s)| ==> '/' !in Split(s)[k]
    decreases |s|
  {
    var i := SlashIndex(s);
    SlashIndexFirst(s);
    if i < |s| {
      SplitPartsNoSlash(s[i + 1..]);
      assert forall c :: c in s[..i] ==> c != '/';
    } else {
      assert forall c :: c in s ==> c != '/';
    }
  }

  lemma SplitNoSlash(x: string)
    requires '/' !in x
    ensures Split(x) == [x]
  {
    assert forall j :: 0 <= j < |x| ==> x[j] in x;
    SlashIndexAt(x, |x|);
  }

  /** A slash-free first element is split off at the slash that follows it. */
  lemma SplitPrefix(x: string, t: string)
    requires '/' !in x
    ensures Split(x + "/" + t) == [x] + Split(t)
  {
    var w := x + "/" + t;
    assert forall j :: 0 <= j < |x| ==> w[j] == x[j] && x[j] in x;
    assert w[|x|] == '/';
    SlashIndexAt(w, |x|);
    assert w[..|x|] == x && w[|x| + 1..] == t;
  }

  lemma Assoc<T>(a: seq<T>, b: seq<T>, c: seq<T>)
    ensures a + (b + c) == (a + b) + c
  {
  }

  /** Joining the pieces with "/" gives the path back. */
  lemma {:induction false} JoinSplit(s: string)
    ensures JoinWith(Split(s), "/") == s
    decreases |s|
  {
    var i := SlashIndex(s);
    if i < |s| {
      var t := s[i + 1..];
      JoinSplit(t);
      SlashIndexFirst(s);
      var r := Split(s);
      assert r == [s[..i]] + Split(t) && r[1..] == Split(t);
      assert s == s[..i] + "/" + t;
    }
  }

  /** Splitting a joined list of slash-free elements gives the list back. */
  lemma {:induction false} SplitJoin(xs: seq<string>)
    requires |xs| >= 1
    requires forall i :: 0 <= i < |xs| ==> '/' !in xs[i]
    ensures Split(JoinWith(xs, "/")) == xs
    decreases |xs|
  {
    if |xs| == 1 {
      SplitNoSlash(xs[0]);
    } else {
      SplitJoin(xs[1..]);
      SplitPrefix(xs[0], JoinWith(xs[1..], "/"));
    }
  }

  // -------------------------------------------------------------- Resolve facts

  lemma {:induction false} ResolveOrdinary(out: seq<string>, xs: seq<string>, rooted: bool)
    requires AllOrdinary(xs)
    ensures Resolve(out, xs, rooted) == out + xs
    decreases |xs|
  {
    if |xs| > 0 {
      ResolveOrdinary(out + [xs[0]], xs[1..], rooted);
      assert out + [xs[0]] + xs[1..] == out + xs;
    }
  }

  lemma {:induction false} ResolveNonEmptyParts(out: seq<string>, xs: seq<string>, rooted: bool)
    requires forall i :: 0 <= i < |out| ==> out[i] != ""
    ensures forall i :: 0 <= i < |Resolve(out, xs, rooted)| ==> Resolve(out, xs, rooted)[i] != ""
    ensures |Resolve(out, xs, rooted)| > 0 ==> JoinWith(Resolve(out, xs, rooted), "/") != ""
    decreases |xs|
  {
    if |xs| > 0 {
      ResolveNonEmptyParts(Step(out, xs[0], rooted), xs[1..], rooted);
    } else if |out| > 0 {
      JoinStartsWithFirst(out);
    }
  }

  lemma {:induction false} JoinStartsWithFirst(xs: seq<string>)
    requires |xs| > 0
    ensures |JoinWith(xs, "/")| >= |xs[0]|
    ensures JoinWith(xs, "/")[..|xs[0]|] == xs[0]
  {
    if |xs| > 1 {
      assert JoinWith(xs, "/") == xs[0] + ("/" + JoinWith(xs[1..], "/"));
    }
  }

  lemma {:induction false} ResolveRootedOrdinary(out: seq<string>, xs: seq<string>)
    requires AllOrdinary(out)
    requires forall i :: 0 <= i < |xs| ==> '/' !in xs[i]
    ensures AllOrdinary(Resolve(out, xs, true))
    decreases |xs|
  {
    if |xs| > 0 {
      ResolveRootedOrdinary(Step(out, xs[0], true), xs[1..]);
    }
  }

  lemma ResolveCons(out: seq<string>, x: string, xs: seq<string>, rooted: bool)
    ensures Resolve(out, [x] + xs, rooted) == Resolve(Step(out, x, rooted), xs, rooted)
  {
    assert ([x] + xs)[1..] == xs;
  }

  lemma {:induction false} ResolveAppend(out: seq<string>, xs: seq<string>, ys: seq<string>, rooted: bool)
    ensures Resolve(out, xs + ys, rooted) == Resolve(Resolve(out, xs, rooted), ys, rooted)
    decreases |xs|
  {
    if |xs| > 0 {
      assert (xs + ys)[1..] == xs[1..] + ys;
      ResolveAppend(Step(out, xs[0], rooted), xs[1..], ys, rooted);
    } else {
      assert xs + ys == ys;
    }
  }

  lemma {:induction false} JoinAppend(xs: seq<string>, y: string)
    requires |xs| >= 1
    ensures JoinWith(xs + [y], "/") == JoinWith(xs, "/") + "/" + y
    decreases |xs|
  {
    if |xs| == 1 {
      assert (xs + [y])[1..] == [y];
    } else {
      assert (xs + [y])[1..] == xs[1..] + [y];
      JoinAppend(xs[1..], y);
    }
  }

  // ---------------------------------------------------------------- Clean facts

  /** The elements a rooted clean path is made of. */
  ghost function RootedParts(p: string): (out: seq<string>)
    ensures AllOrdinary(out)
  {
    SplitPartsNoSlash("/" + p);
    ResolveRootedOrdinary([], Split("/" + p));
    Resolve([], Split("/" + p), true)
  }

  lemma CleanRootedShape(p: string)
    ensures Clean("/" + p) == "/" + JoinWith(RootedParts(p), "/")
  {
  }

  /** The elements of "/" + (a clean rooted path) are the path's own elements. */
  lemma {:induction false} RootedPartsOfClean(out: seq<string>)
    requires AllOrdinary(out)
    ensures Resolve([], Split("//" + JoinWith(out, "/")), true) == out
  {
    var j := JoinWith(out, "/");
    assert Split("//" + j) == ["", ""] + Split(j) by {
      assert "//" + j == "/" + ("/" + j);
      SplitSlash("/" + j);
      SplitSlash(j);
    }
    if out == [] {
      assert Split(j) == [""];
      assert ["", ""] + Split(j) == ["", "", ""];
      assert Resolve([], ["", "", ""], true) == [];
    } else {
      SplitJoin(out);
      ResolveAppend([], ["", ""], out, true);
      ResolveOrdinary([], out, true);
    }
  }

  /** Cleaning "/" + p is idempotent, also after prefixing another "/": the
      default rule `Path = Clean("/" + Path)` applied to its own result
      changes nothing. */
  lemma {:induction false} CleanRootedIdempotent(p: string)
    ensures Clean("/" + Clean("/" + p)) == Clean("/" + p)
    ensures Clean(Clean("/" + p)) == Clean("/" + p)
  {
    var out := RootedParts(p);
    var c := Clean("/" + p);
    CleanRootedShape(p);
    RootedPartsOfClean(out);
    assert "/" + c == "//" + JoinWith(out, "/");
    assert c == "/" + JoinWith(out, "/");
    if out == [] {
      assert c == "/";
      assert Split(c) == ["", ""] by { assert c[1..] == ""; }
    } else {
      SplitJoin(out);
      assert Split(c) == [""] + out by { assert c[1..] == JoinWith(out, "/"); }
      ResolveAppend([], [""], out, true);
      ResolveOrdinary([], out, true);
    }
  }

  /** A clean rooted path has no empty, "." or ".." element; cleaning the path
      of a single plain name adds only the leading slash. */
  lemma {:induction false} CleanName(x: string)
    requires Ordinary(x)
    ensures Clean("/" + x) == "/" + x
  {
    SplitSlash(x);
    SplitNoSlash(x);
    assert Split("/" + x) == ["", x];
    ResolveCons([], "", [x], true);
    ResolveOrdinary([], [x], true);
    assert Resolve([], ["", x], true) == [x];
  }

  lemma CleanRoot()
    ensures Clean("/") == "/"
    ensures Clean("") == "."
  {
    assert Split("/") == ["", ""] by { assert "/"[1..] == ""; }
  }

  /** The item path of a REST resource: joining a clean rooted base path with
      "/{id}"-style element appends that element (the root gives the element
      alone). */
  lemma {:induction false} JoinItemPath(p: string, seg: string)
    requires Ordinary(seg)
    ensures JoinPath([Clean("/" + p), "/" + seg]) ==
      (if Clean("/" + p) == "/" then "/" + seg else Clean("/" + p) + "/" + seg)
  {
    var out := RootedParts(p);
    var c := Clean("/" + p);
    CleanRootedShape(p);
    assert JoinWith([c, "/" + seg], "/") == c + "/" + ("/" + seg) by {
      assert [c, "/" + seg][1..] == ["/" + seg];
    }
    assert JoinPath([c, "/" + seg]) == Clean(c + "/" + ("/" + seg));
    if out == [] {
      ItemPathAtRoot(seg);
    } else {
      ItemPathBelow(out, seg);
      JoinAppend(out, seg);
    }
  }

  lemma ItemPathAtRoot(seg: string)
    requires Ordinary(seg)
    ensures Clean("/" + "/" + ("/" + seg)) == "/" + seg
  {
    SplitRootItem(seg);
    ResolveRootItem(seg);
  }

  lemma SplitRootItem(seg: string)
    requires Ordinary(seg)
    ensures Split("/" + "/" + ("/" + seg)) == ["", "", "", seg]
  {
    var t1 := "/" + seg;
    var t2 := "/" + t1;
    assert "/" + "/" + ("/" + seg) == "/" + t2;
    SplitSlash(t2);
    SplitSlash(t1);
    SplitSlash(seg);
    SplitNoSlash(seg);
  }

  lemma ResolveRootItem(seg: string)
    requires Ordinary(seg)
    ensures Resolve([], ["", "", "", seg], true) == [seg]
  {
    ResolveCons([], "", ["", "", seg], true);
    ResolveCons([], "", ["", seg], true);
    ResolveCons([], "", [seg], true);
    ResolveOrdinary([], [seg], true);
  }

  lemma ItemPathBelow(out: seq<string>, seg: string)
    requires out != [] && AllOrdinary(out) && Ordinary(seg)
    ensures Clean("/" + JoinWith(out, "/") + "/" + ("/" + seg)) == "/" + JoinWith(out + [seg], "/")
  {
    var s := "/" + JoinWith(out, "/") + "/" + ("/" + seg);
    SplitItemPath(out, seg);
    ResolveItemPath(out, seg);
    assert Resolve([], Split(s), true) == out + [seg];
  }

  lemma SplitItemPath(out: seq<string>, seg: string)
    requires out != [] && AllOrdinary(out) && Ordinary(seg)
    ensures Split("/" + JoinWith(out, "/") + "/" + ("/" + seg)) == [""] + out + ["", seg]
  {
    var j := JoinWith(out, "/");
    assert "/" + j + "/" + ("/" + seg) == "/" + (j + "/" + ("/" + seg));
    SplitSlash(j + "/" + ("/" + seg));
    SplitJoinSlash(out, "/" + seg);
    SplitSlash(seg);
    SplitNoSlash(seg);
  }

  lemma ResolveItemPath(out: seq<string>, seg: string)
    requires AllOrdinary(out) && Ordinary(seg)
    ensures Resolve([], [""] + out + ["", seg], true) == out + [seg]
  {
    ResolveAppend([], [""] + out, ["", seg], true);
    ResolveCons([], "", out, true);
    assert Step([], "", true) == [];
    ResolveOrdinary([], out, true);
    assert Resolve([], [""] + out, true) == out;
    ResolveCons(out, "", [seg], true);
    ResolveOrdinary(out, [seg], true);
  }

  /** Splitting joined slash-free elements followed by "/" and more text. */
  lemma {:induction false} SplitJoinSlash(xs: seq<string>, u: string)
    requires |xs| >= 1
    requires forall i :: 0 <= i < |xs| ==> '/' !in xs[i]
    ensures Split(JoinWith(xs, "/") + "/" + u) == xs + Split(u)
    decreases |xs|
  {
    if |xs| == 1 {
      SplitPrefix(xs[0], u);
    } else {
      var rest := JoinWith(xs[1..], "/") + "/" + u;
      assert forall i :: 0 <= i < |xs[1..]| ==> xs[1..][i] == xs[i + 1];
      SplitJoinSlash(xs[1..], u);
      JoinSlashCons(xs, u);
      SplitPrefix(xs[0], rest);
      Assoc([xs[0]], xs[1..], Split(u));
      assert [xs[0]] + xs[1..] == xs;
    }
  }

  lemma JoinSlashCons(xs: seq<string>, u: string)
    requires |xs| >= 2
    ensures JoinWith(xs, "/") + "/" + u == xs[0] + "/" + (JoinWith(xs[1..], "/") + "/" + u)
  {
    var j := JoinWith(xs[1..], "/");
    assert JoinWith(xs, "/") == xs[0] + "/" + j;
    assert xs[0] + "/" + j + "/" + u == xs[0] + "/" + (j + "/" + u);
  }
}
