/**
 * GenieSpaceError, the one error type the manager raises for a failed
 * request, and the text it carries as a Python exception.
 */
module GenieErrors {
  import opened Wrappers
  import opened JsonValues
  import opened Decimal

  /**
   * A failed request: the HTTP status (0 when the transport gave none), a
   * human-readable message and an optional raw payload. Never updated after
   * construction.
   */
  datatype GenieSpaceError = GenieSpaceError(statusCode: int, message: string, response: Option<JsonObject>)

  const ErrorTextPrefix: string := "Genie Space Error ("
  const ErrorTextInfix: string := "): "

  /** The exception's string form, `Genie Space Error (<status>): <message>`. */
  function ErrorText(e: GenieSpaceError): (t: string)
    ensures |t| > |ErrorTextPrefix| && t[..|ErrorTextPrefix|] == ErrorTextPrefix
    ensures exists k :: |ErrorTextPrefix| <= k <= |t| && t[k..] == ErrorTextInfix + e.message
  {
    var digits := IntToDecimal(e.statusCode);
    var t := ErrorTextPrefix + digits + ErrorTextInfix + e.message;
    assert t[|ErrorTextPrefix| + |digits|..] == ErrorTextInfix + e.message;
    t
  }

  /** Position of the first `c` in `s`, or `|s|` when there is none. */
  function FirstIndexOf(s: string, c: char): (k: nat)
    ensures k <= |s|
    ensures forall i :: 0 <= i < k ==> s[i] != c
    ensures k < |s| ==> s[k] == c
    decreases |s|
  {
    if s == [] then 0 else if s[0] == c then 0 else 1 + FirstIndexOf(s[1..], c)
  }

  /**
   * Reads an exception text back into its status and message: the status is
   * what stands between the prefix and the first `)`.
   */
  function ParseErrorText(t: string): Option<(int, string)>
  {
    if |t| < |ErrorTextPrefix| || t[..|ErrorTextPrefix|] != ErrorTextPrefix then None
    else
      var rest := t[|ErrorTextPrefix|..];
      var k := FirstIndexOf(rest, ')');
      if !(ErrorTextInfix <= rest[k..]) then None
      else match ParseInt(rest[..k])
        case None => None
        case Some(status) => Some((status, rest[k + |ErrorTextInfix|..]))
  }

  lemma {:induction false} FirstIndexAfter(a: string, b: string, c: char)
    requires forall i :: 0 <= i < |a| ==> a[i] != c
    ensures FirstIndexOf(a + b, c) == |a| + FirstIndexOf(b, c)
    decreases |a|
  {
    if a != [] {
      assert (a + b)[0] == a[0] != c;
      assert (a + b)[1..] == a[1..] + b;
      FirstIndexAfter(a[1..], b, c);
    } else {
      assert a + b == b;
    }
  }

  /**
   * The exception text determines the error's status and message: reading it
   * back yields exactly the two values it was built from, whatever the message.
   */
  lemma ErrorTextRoundTrip(e: GenieSpaceError)
    ensures ParseErrorText(ErrorText(e)) == Some((e.statusCode, e.message))
  {
    var digits := IntToDecimal(e.statusCode);
    var t := ErrorText(e);
    var rest := t[|ErrorTextPrefix|..];
    assert t[..|ErrorTextPrefix|] == ErrorTextPrefix;
    assert rest == digits + (ErrorTextInfix + e.message);
    FirstIndexAfter(digits, ErrorTextInfix + e.message, ')');
    var k := FirstIndexOf(rest, ')');
    assert k == |digits|;
    assert rest[..k] == digits;
    assert rest[k..] == ErrorTextInfix + e.message;
    assert rest[k + |ErrorTextInfix|..] == e.message;
    IntDecimalRoundTrip(e.statusCode);
  }

  /** The status appears in decimal right after the prefix, e.g. "404" for a 404. */
  lemma ErrorTextShowsStatus(message: string, response: Option<JsonObject>)
    ensures ErrorText(GenieSpaceError(404, message, response))[|ErrorTextPrefix|..|ErrorTextPrefix| + 3] == "404"
  {
  }

  /** A failure with no status reads exactly `Genie Space Error (0): <message>`. */
  lemma ErrorTextWithoutStatus(message: string, response: Option<JsonObject>)
    ensures ErrorText(GenieSpaceError(0, message, response)) == "Genie Space Error (0): " + message
  {
  }
}
