/** The status-recording response writer and the HTTP error text of
    `pkg/http/http.go`. The wrapped `http.ResponseWriter` is represented by
    the list of status codes passed on to it. */
module PkgHttp {

  // ------------------------------------------------------ decimal formatting

  function Digit(d: int): (c: char)
    requires 0 <= d < 10
    ensures '0' <= c <= '9' && c as int - '0' as int == d
  {
    ('0' as int + d) as char
  }

  /** The decimal text of a natural number, as `%d` writes it. */
  function NatText(n: nat): (s: string)
    ensures |s| > 0
    ensures forall i :: 0 <= i < |s| ==> '0' <= s[i] <= '9'
    decreases n
  {
    if n < 10 then [Digit(n)] else NatText(n / 10) + [Digit(n % 10)]
  }

  /** The value of a string of decimal digits. */
  function DigitsValue(s: string): nat
    requires forall i :: 0 <= i < |s| ==> '0' <= s[i] <= '9'
    decreases |s|
  {
    if |s| == 0 then 0 else DigitsValue(s[..|s| - 1]) * 10 + (s[|s| - 1] as int - '0' as int)
  }

  /** Reading the digits back gives the number: the text is exact. */
  lemma {:induction false} NatTextRoundTrip(n: nat)
    ensures DigitsValue(NatText(n)) == n
    decreases n
  {
    if n >= 10 {
      NatTextRoundTrip(n / 10);
      var s := NatText(n);
      assert s[..|s| - 1] == NatText(n / 10);
    }
  }

  /** `%d` of any integer: a minus sign before a negative number. */
  function IntText(n: int): string {
    if n < 0 then "-" + NatText(-n) else NatText(n)
  }

  /** Go's integer division, which truncates toward zero. */
  function GoDiv(a: int, b: int): int
    requires b > 0
  {
    if a >= 0 then a / b else -((-a) / b)
  }

  /** Truncation differs from Dafny's Euclidean division on negatives. */
  lemma GoDivTruncates()
    ensures GoDiv(-150, 100) == -1 && -150 / 100 == -2
    ensures GoDiv(404, 100) == 4
  {
  }

  /** `fmt.Sprintf("%dxx", statusCode/100)`. */
  function ClassText(code: int): (r: string)
    ensures |r| >= 3 && r[|r| - 2..] == "xx"
    ensures -100 < code < 100 ==> r == "0xx"
    ensures code <= -100 ==> r[0] == '-'
    ensures code >= 0 ==> forall i :: 0 <= i < |r| - 2 ==> '0' <= r[i] <= '9'
  {
    IntText(GoDiv(code, 100)) + "xx"
  }

  /** The digits before "xx" read back as the hundreds of the code. */
  lemma ClassTextRoundTrip(code: int)
    requires code >= 0
    ensures var r := ClassText(code); DigitsValue(r[..|r| - 2]) == code / 100
  {
    var r := ClassText(code);
    assert r[..|r| - 2] == NatText(code / 100);
    NatTextRoundTrip(code / 100);
  }

  /** Every valid status has a one-digit class: its hundreds digit and "xx". */
  lemma ClassOfValidStatus(code: int)
    requires 100 <= code <= 599
    ensures ClassText(code) == [Digit(code / 100)] + "xx"
    ensures ClassText(404) == "4xx" && ClassText(200) == "2xx"
  {
  }

  // --------------------------------------------------------- response writer

  /** What the writer has recorded. */
  datatype Recorded = Recorded(code: int, statusClass: string)

  /** The state after the given `WriteHeader` calls from a fresh writer:
      the first non-zero code and its class; while only zeros have been
      written the code stays 0 (and the class of 0 is recorded). */
  function Record(calls: seq<int>): (r: Recorded)
    ensures r.code == 0 <==> forall i :: 0 <= i < |calls| ==> calls[i] == 0
    decreases |calls|
  {
    if |calls| == 0 then Recorded(0, "")
    else if calls[0] != 0 then Recorded(calls[0], ClassText(calls[0]))
    else if |calls| == 1 then Recorded(0, ClassText(0))
    else
      var r := Record(calls[1..]);
      assert forall i :: 1 <= i < |calls| ==> calls[i] == calls[1..][i - 1];
      r
  }

  /** One more call records its code and class exactly when nothing non-zero
      has been recorded yet. */
  lemma {:induction false} RecordSnoc(calls: seq<int>, code: int)
    ensures Record(calls + [code]) ==
      if Record(calls).code == 0 then Recorded(code, ClassText(code)) else Record(calls)
    decreases |calls|
  {
    var s := calls + [code];
    if |calls| == 0 {
      assert s == [code];
    } else if calls[0] != 0 {
      assert s[0] == calls[0];
    } else if |calls| == 1 {
      assert s[1..] == [code];
    } else {
      assert s[1..] == calls[1..] + [code];
      RecordSnoc(calls[1..], code);
    }
  }

  /** First write wins: 404 then 500 records 404 and "4xx". */
  lemma FirstWriteWins()
    ensures Record([404, 500]) == Recorded(404, "4xx")
    ensures Record([0, 404]) == Recorded(404, "4xx")
  {
    assert [404, 500][0] == 404;
    assert [0, 404][1..] == [404];
  }

  /** `responseWriter`: the codes passed to the wrapped writer, and the
      recorded code and class. */
  class ResponseWriter {
    var sent: seq<int>
    var statusCode: int
    var statusClass: string

    /** The recorded fields are those of the calls passed on so far. */
    ghost predicate Valid()
      reads this
    {
      Recorded(statusCode, statusClass) == Record(sent)
    }

    /** `NewResponseWriter(rw)`: nothing recorded. */
    constructor ()
      ensures Valid() && sent == [] && statusCode == 0 && statusClass == ""
    {
      sent := [];
      statusCode := 0;
      statusClass := "";
    }

    /** `rw.WriteHeader(code)`: always passed on; recorded only while the
        recorded code is 0. */
    method WriteHeader(code: int)
      requires Valid()
      modifies this
      ensures Valid()
      ensures sent == old(sent) + [code]
      ensures old(statusCode) == 0 ==> statusCode == code && statusClass == ClassText(code)
      ensures old(statusCode) != 0 ==> statusCode == old(statusCode) && statusClass == old(statusClass)
    {
      RecordSnoc(sent, code);
      sent := sent + [code];
      if statusCode == 0 {
        statusCode := code;
        statusClass := ClassText(code);
      }
    }

    /** `rw.StatusCode()`. */
    function StatusCode(): (r: int)
      reads this
      requires Valid()
      ensures r == Record(sent).code
    {
      statusCode
    }

    /** `rw.StatusClass()`. */
    function StatusClass(): (r: string)
      reads this
      requires Valid()
      ensures r == Record(sent).statusClass
    {
      statusClass
    }
  }

  // ---------------------------------------------------------------- errors

  /** `HTTPError`: the request's method and URL path, the status and body. */
  datatype HTTPError = HTTPError(method_: string, path: string, statusCode: int, body: string)

  /** `e.Error()`: "method path status: body". */
  function ErrorText(e: HTTPError): (s: string)
    ensures |s| >= |e.method_| + |e.path| + |e.body| + 5
    ensures s[..|e.method_|] == e.method_ && s[|e.method_|] == ' '
    ensures s[|e.method_| + 1..|e.method_| + 1 + |e.path|] == e.path && s[|e.method_| + 1 + |e.path|] == ' '
    ensures s[|s| - |e.body| - 2..] == ": " + e.body
  {
    e.method_ + " " + e.path + " " + IntText(e.statusCode) + ": " + e.body
  }

  /** A three-digit status sits just before ": " and the body, and reads
      back as the status. */
  lemma ErrorTextStatus(e: HTTPError)
    requires 100 <= e.statusCode <= 999
    ensures var s := ErrorText(e); var k := |s| - |e.body| - 2;
      k >= 3 && s[k - 3..k] == NatText(e.statusCode) && DigitsValue(s[k - 3..k]) == e.statusCode
  {
    var n := e.statusCode;
    assert |NatText(n / 100)| == 1;
    assert |NatText(n / 10)| == 2;
    assert |NatText(n)| == 3;
    var s := ErrorText(e);
    var k := |s| - |e.body| - 2;
    assert s == (e.method_ + " " + e.path + " ") + NatText(n) + (": " + e.body);
    assert s[k - 3..k] == NatText(n);
    NatTextRoundTrip(n);
  }

  lemma ErrorTextExample()
    ensures ErrorText(HTTPError("GET", "/", 404, "gone")) == "GET / 404: gone"
  {
    assert IntText(404) == "404";
  }
}
