/** The REST store shared by `internal/spec/rest.go` and `internal/v1/rest.go`:
    identifier lookup (`findID` in both `helper.go` files), the
    identifier-to-object directory rebuilt by `RESTStore.Index`, and the body
    of the list (GET base path) handler. */
module RestStore {
  import opened Base

  /** The keys tried, in order, when no identifier is configured. */
  const DefaultIdentifiers: seq<string> := ["id", "Id", "ID", "_id"]

  /** Why `findID` failed. */
  datatype IdError = Missing(key: string) | NoIdentifier

  // ----------------------------------------------------------------- quoting

  /** A lower-case hexadecimal digit. */
  function HexDigit(d: int): (c: char)
    requires 0 <= d < 16
    ensures ('0' <= c <= '9' || 'a' <= c <= 'f')
  {
    if d < 10 then ('0' as int + d) as char else ('a' as int + d - 10) as char
  }

  /** What `strconv.Quote` writes for one byte: a backslash before `"` and
      `\`, the short escapes for the seven named control characters, `\x`
      and two hex digits for the other control characters and DEL, and the
      byte itself otherwise. */
  function QuoteChar(c: char): (r: string)
    ensures (c == '"' || c == '\\') ==> r == ['\\', c]
    ensures ' ' <= c <= '~' && c != '"' && c != '\\' ==> r == [c]
    ensures (c < ' ' || c == 127 as char) ==> |r| >= 2 && r[0] == '\\'
  {
    var n := c as int;
    if c == '"' || c == '\\' then ['\\', c]
    else if n == 7 then "\\a"
    else if n == 8 then "\\b"
    else if n == 12 then "\\f"
    else if n == 10 then "\\n"
    else if n == 13 then "\\r"
    else if n == 9 then "\\t"
    else if n == 11 then "\\v"
    else if n < 32 || n == 127 then ['\\', 'x', HexDigit(n / 16), HexDigit(n % 16)]
    else [c]
  }

  /** The escaped bytes between the quotes. */
  function QuoteBody(s: string): (r: string)
    ensures |r| >= |s|
    decreases |s|
  {
    if |s| == 0 then "" else QuoteChar(s[0]) + QuoteBody(s[1..])
  }

  /** `%q` of a string: `strconv.Quote`. */
  function Quote(s: string): (r: string)
    ensures |r| >= |s| + 2 && r[0] == '"' && r[|r| - 1] == '"'
  {
    "\"" + QuoteBody(s) + "\""
  }

  /** Printable ASCII without `"` and `\` is quoted as it is. */
  lemma {:induction false} QuotePlain(s: string)
    requires forall i :: 0 <= i < |s| ==> ' ' <= s[i] <= '~' && s[i] != '"' && s[i] != '\\'
    ensures Quote(s) == "\"" + s + "\""
    ensures QuoteBody(s) == s
    decreases |s|
  {
    if |s| > 0 {
      QuotePlain(s[1..]);
      assert [s[0]] + s[1..] == s;
    }
  }

  // The decoder the quoted text is written for: escapes are read back, and a
  // bare `"` or an unknown escape is an error.

  function HexValue(c: char): (r: Option<int>)
    ensures r.Some? ==> 0 <= r.value < 16
  {
    if '0' <= c <= '9' then Some(c as int - '0' as int)
    else if 'a' <= c <= 'f' then Some(c as int - 'a' as int + 10)
    else if 'A' <= c <= 'F' then Some(c as int - 'A' as int + 10)
    else None
  }

  function EscapedChar(e: char): Option<char> {
    if e == 'a' then Some(7 as char)
    else if e == 'b' then Some(8 as char)
    else if e == 'f' then Some(12 as char)
    else if e == 'n' then Some(10 as char)
    else if e == 'r' then Some(13 as char)
    else if e == 't' then Some(9 as char)
    else if e == 'v' then Some(11 as char)
    else if e == '"' || e == '\\' then Some(e)
    else None
  }

  function Prepend(c: char, rest: Option<string>): Option<string> {
    if rest.Some? then Some([c] + rest.value) else None
  }

  function Unquote(r: string): Option<string>
    decreases |r|
  {
    if |r| == 0 then Some("")
    else if r[0] == '"' then None
    else if r[0] != '\\' then Prepend(r[0], Unquote(r[1..]))
    else if |r| >= 4 && r[1] == 'x' && HexValue(r[2]).Some? && HexValue(r[3]).Some? then
      Prepend((HexValue(r[2]).value * 16 + HexValue(r[3]).value) as char, Unquote(r[4..]))
    else if |r| >= 2 && EscapedChar(r[1]).Some? then Prepend(EscapedChar(r[1]).value, Unquote(r[2..]))
    else None
  }

  lemma QuoteCharUnquote(c: char, t: string)
    ensures Unquote(QuoteChar(c) + t) == Prepend(c, Unquote(t))
  {
    var q := QuoteChar(c);
    var w := q + t;
    var n := c as int;
    assert w[|q|..] == t;
    if n < 32 || n == 127 {
      if n != 7 && n != 8 && n != 9 && n != 10 && n != 11 && n != 12 && n != 13 {
        assert HexValue(HexDigit(n / 16)) == Some(n / 16);
        assert HexValue(HexDigit(n % 16)) == Some(n % 16);
        assert w[0] == '\\' && w[1] == 'x' && w[2] == HexDigit(n / 16) && w[3] == HexDigit(n % 16);
      }
    }
  }

  /** Reading the quoted bytes back gives the key: no two keys are quoted alike. */
  lemma {:induction false} QuoteRoundTrip(s: string)
    ensures Unquote(QuoteBody(s)) == Some(s)
    decreases |s|
  {
    if |s| > 0 {
      QuoteRoundTrip(s[1..]);
      QuoteCharUnquote(s[0], QuoteBody(s[1..]));
      assert [s[0]] + s[1..] == s;
    }
  }

  // ---------------------------------------------------------------- errors

  /** The error text: `internal/spec` quotes the key with `%q`, `internal/v1`
      writes it as it is (`%s`). */
  function ErrorText(e: IdError, quoted: bool): (r: string)
    ensures e.NoIdentifier? ==> r == "cannot find an identifier"
    ensures e.Missing? && quoted ==> r == "identifier " + Quote(e.key) + " does not exist"
    ensures e.Missing? && !quoted ==> r == "identifier " + e.key + " does not exist"
  {
    match e
    case NoIdentifier => "cannot find an identifier"
    case Missing(k) => if quoted then "identifier " + Quote(k) + " does not exist" else "identifier " + k + " does not exist"
  }

  /** A quote in the key is escaped: for `a"b` the message holds `"a\"b"`. */
  lemma QuoteEscapes()
    ensures Quote("a\"b") == "\"a\\\"b\""
  {
    var k := "a\"b";
    assert QuoteBody(k) == "a\\\"b" by {
      QuotePlain("b");
      assert k[1..] == "\"b" && k[1..][1..] == "b";
      assert QuoteBody("\"b") == QuoteChar('"') + "b";
    }
  }

  /** The value of the first of `keys` present in `obj`. */
  function FirstPresent(keys: seq<string>, obj: Obj): (r: Option<Json>)
    ensures r.None? <==> forall i :: 0 <= i < |keys| ==> keys[i] !in obj
    ensures r.Some? ==>
      exists i :: 0 <= i < |keys| && keys[i] in obj && r.value == obj[keys[i]] && forall j :: 0 <= j < i ==> keys[j] !in obj
    decreases |keys|
  {
    if |keys| == 0 then None
    else if keys[0] in obj then Some(obj[keys[0]])
    else
      var r := FirstPresent(keys[1..], obj);
      if r.Some? then
        var i :| 0 <= i < |keys[1..]| && keys[1..][i] in obj && r.value == obj[keys[1..][i]] &&
          forall j :: 0 <= j < i ==> keys[1..][j] !in obj;
        assert keys[i + 1] in obj && forall j :: 0 <= j < i + 1 ==> keys[j] !in obj;
        r
      else r
  }

  /** `findID(key, obj)`: an explicit key is looked up alone; an empty key
      tries the default identifiers in order. */
  function FindID(key: string, obj: Obj): (r: Result<Json, IdError>)
    ensures key != "" && key in obj ==> r == Ok(obj[key])
    ensures key != "" && key !in obj ==> r == Err(Missing(key))
    ensures key == "" ==> (r.Ok? <==> exists i :: 0 <= i < |DefaultIdentifiers| && DefaultIdentifiers[i] in obj)
    ensures key == "" && r.Err? ==> r.error == NoIdentifier
  {
    if key != "" then
      if key in obj then Ok(obj[key]) else Err(Missing(key))
    else
      match FirstPresent(DefaultIdentifiers, obj)
      case Some(v) => Ok(v)
      case None => Err(NoIdentifier)
  }

  /** With an empty key the order of the defaults decides: "id" wins over
      "_id", and "_id" is used when it is the only candidate present. */
  lemma FindIDDefaults(obj: Obj)
    ensures "id" in obj ==> FindID("", obj) == Ok(obj["id"])
    ensures "id" !in obj && "Id" in obj ==> FindID("", obj) == Ok(obj["Id"])
    ensures "id" !in obj && "Id" !in obj && "ID" in obj ==> FindID("", obj) == Ok(obj["ID"])
    ensures "id" !in obj && "Id" !in obj && "ID" !in obj && "_id" in obj ==> FindID("", obj) == Ok(obj["_id"])
    ensures "id" !in obj && "Id" !in obj && "ID" !in obj && "_id" !in obj ==> FindID("", obj) == Err(NoIdentifier)
  {
    assert DefaultIdentifiers[1..] == ["Id", "ID", "_id"];
    assert DefaultIdentifiers[1..][1..] == ["ID", "_id"];
    assert DefaultIdentifiers[1..][1..][1..] == ["_id"];
  }

  /** A store of REST objects: `Identifier`, `Objects` (nil or a slice) and
      `Directory` (nil until indexed). */
  datatype RESTStore = RESTStore(identifier: string, objects: Option<seq<Obj>>, directory: Option<map<Json, Obj>>)

  /** Go can use only comparable values as map keys: an identifier holding a
      JSON array or object makes `Directory[val] = obj` panic. */
  predicate Hashable(v: Json) {
    !v.JArr? && !v.JObj?
  }

  predicate IdsHashable(id: string, objs: seq<Obj>) {
    forall i :: 0 <= i < |objs| && FindID(id, objs[i]).Ok? ==> Hashable(FindID(id, objs[i]).value)
  }

  /** The directory after visiting `objs` in order: each object whose
      identifier resolves is stored under it, a later object replacing an
      earlier one with the same identifier value. */
  function DirectoryOf(id: string, objs: seq<Obj>): (r: map<Json, Obj>)
    ensures forall v :: v in r ==> FindID(id, r[v]) == Ok(v) && r[v] in objs
    decreases |objs|
  {
    if |objs| == 0 then map[]
    else
      var d := DirectoryOf(id, objs[..|objs| - 1]);
      var o := objs[|objs| - 1];
      match FindID(id, o)
      case Ok(v) => d[v := o]
      case Err(_) => d
  }

  /** The directory's keys are exactly the identifiers that resolve. */
  lemma {:induction false} DirectoryKeys(id: string, objs: seq<Obj>, v: Json)
    ensures v in DirectoryOf(id, objs) <==> exists i :: 0 <= i < |objs| && FindID(id, objs[i]) == Ok(v)
    decreases |objs|
  {
    if |objs| > 0 {
      var n := |objs| - 1;
      DirectoryKeys(id, objs[..n], v);
      assert forall i :: 0 <= i < n ==> objs[..n][i] == objs[i];
    }
  }

  /** The object stored under a key is the last object carrying that
      identifier value. */
  lemma {:induction false} DirectoryLastWins(id: string, objs: seq<Obj>, i: int)
    requires 0 <= i < |objs| && FindID(id, objs[i]).Ok?
    requires forall j :: i < j < |objs| ==> FindID(id, objs[j]) != FindID(id, objs[i])
    ensures FindID(id, objs[i]).value in DirectoryOf(id, objs)
    ensures DirectoryOf(id, objs)[FindID(id, objs[i]).value] == objs[i]
    decreases |objs|
  {
    var n := |objs| - 1;
    var v := FindID(id, objs[i]).value;
    var d := DirectoryOf(id, objs[..n]);
    if i < n {
      forall j | i < j < n ensures FindID(id, objs[..n][j]) != FindID(id, objs[..n][i]) {
        assert objs[..n][j] == objs[j];
      }
      assert objs[..n][i] == objs[i];
      DirectoryLastWins(id, objs[..n], i);
      assert v in d && d[v] == objs[i];
      assert FindID(id, objs[n]) != Ok(v);
    }
  }

  /** The store once indexed: only the directory changes. */
  function Indexed(s: RESTStore): (r: RESTStore)
    ensures r.identifier == s.identifier && r.objects == s.objects && r.directory.Some?
  {
    s.(directory := Some(DirectoryOf(s.identifier, s.objects.GetOr([]))))
  }

  /** `s.Index()`: starts from an empty directory and stores every object
      whose identifier resolves; identifier and objects stay as they were. */
  method Index(s: RESTStore) returns (t: RESTStore)
    requires IdsHashable(s.identifier, s.objects.GetOr([]))
    ensures t.identifier == s.identifier && t.objects == s.objects
    ensures t.directory == Some(DirectoryOf(s.identifier, s.objects.GetOr([])))
    ensures t == Indexed(s)
  {
    var objs := s.objects.GetOr([]);
    var directory: map<Json, Obj> := map[];
    var i := 0;
    while i < |objs|
      invariant 0 <= i <= |objs|
      invariant directory == DirectoryOf(s.identifier, objs[..i])
    {
      var obj := objs[i];
      var val := FindID(s.identifier, obj);
      if val.Ok? {
        directory := directory[val.value := obj];
      }
      i := i + 1;
      assert objs[..i][..i - 1] == objs[..i - 1];
    }
    assert objs[..i] == objs;
    t := s.(directory := Some(directory));
  }

  /** Indexing a store without objects gives an empty directory, not a nil one. */
  lemma IndexEmpty(id: string, objects: Option<seq<Obj>>)
    requires objects.None? || objects == Some([])
    ensures DirectoryOf(id, objects.GetOr([])) == map[]
  {
  }

  /** Every stored object is one of the objects, filed under its own
      identifier value. */
  lemma {:induction false} DirectoryValues(id: string, objs: seq<Obj>, v: Json)
    requires v in DirectoryOf(id, objs)
    ensures exists i :: 0 <= i < |objs| && DirectoryOf(id, objs)[v] == objs[i] && FindID(id, objs[i]) == Ok(v)
    decreases |objs|
  {
    var n := |objs| - 1;
    if FindID(id, objs[n]) != Ok(v) {
      DirectoryValues(id, objs[..n], v);
      var i :| 0 <= i < n && DirectoryOf(id, objs[..n])[v] == objs[..n][i] && FindID(id, objs[..n][i]) == Ok(v);
      assert objs[i] == objs[..n][i];
    }
  }

  /** The body of the list handler: the objects themselves, or the one-key
      object `{listKey: objects}`. */
  function ListBody(listKey: string, objects: Option<seq<Obj>>): (r: Json)
    ensures listKey == "" ==> r == ObjectsJson(objects)
    ensures listKey != "" ==> r.JObj? && r.fields.Keys == {listKey} && r.fields[listKey] == ObjectsJson(objects)
  {
    if listKey == "" then ObjectsJson(objects)
    else JObj(map[listKey := ObjectsJson(objects)])
  }
}
