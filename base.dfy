/** Shared vocabulary of the mock server: optional values (Go's nil), results
    (Go's (value, error) returns), JSON documents and the response records that
    the route handlers produce. */
module Base {

  /** A Go value that may be nil: a nil map, a nil slice, a nil pointer. */
  datatype Option<+T> = None | Some(value: T) {
    function GetOr(default: T): T {
      match this
      case Some(v) => v
      case None => default
    }
  }

  /** A Go `(value, error)` pair in which exactly one side is set. */
  datatype Result<+T, +E> = Ok(value: T) | Err(error: E)

  /** A decoded JSON value (`interface{}` after encoding/json or yaml). */
  datatype Json =
    | JNull
    | JBool(b: bool)
    | JNum(n: int)
    | JStr(s: string)
    | JArr(items: seq<Json>)
    | JObj(fields: map<string, Json>)

  /** A JSON object (`map[string]interface{}`), the unit stored by REST mocks. */
  type Obj = map<string, Json>

  /** A `map[string]string`, used for query and header patterns and response headers. */
  type StrMap = map<string, string>

  /** A name/value pair (the `Pair` struct of every generation). */
  datatype Pair = Pair(name: string, value: string)

  /** A status code the `v1` and `model` generations accept: [100, 599]. */
  predicate ValidStatus(code: int) {
    100 <= code <= 599
  }

  /** What a route handler writes: a status line, headers and a JSON body. */
  datatype Response = Response(status: int, headers: StrMap, body: Json)

  /** Converts objects to the JSON value `json.Encode` writes for a `[]JSON`
      slice: a nil slice is `null`, any other slice an array of objects. */
  function ObjectsJson(objects: Option<seq<Obj>>): (r: Json)
    ensures objects.None? <==> r == JNull
    ensures objects.Some? ==> r.JArr? && |r.items| == |objects.value|
    ensures objects.Some? ==> forall i :: 0 <= i < |objects.value| ==> r.items[i] == JObj(objects.value[i])
  {
    match objects
    case None => JNull
    case Some(s) => JArr(seq(|s|, i requires 0 <= i < |s| => JObj(s[i])))
  }
}
