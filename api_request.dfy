/**
 * The manager's one internal request routine: it turns a method, an endpoint
 * and optional query and body maps into a call on the workspace's API client,
 * then normalises what that call returns or translates what it raises.
 *
 * The API client's `do` (network, authentication, retries) is not modelled:
 * its result enters as an `Outcome` value.
 */
module ApiRequest {
  import opened Wrappers
  import opened JsonValues
  import opened GenieErrors

  datatype Method = GET | POST | PATCH | DELETE

  /** The request an operation assembles before the path is built. */
  datatype RequestSpec = RequestSpec(verb: Method, endpoint: string, params: Option<JsonObject>, data: Option<JsonObject>)

  /** The arguments handed to the API client's `do`. */
  datatype ApiCall = ApiCall(verb: Method, path: string, query: Option<JsonObject>, body: Option<JsonObject>, headers: map<string, string>)

  /**
   * What the API client's `do` did: it returned a decoded body (possibly none),
   * or it raised an exception, which may or may not carry an integer
   * `status_code`, and whose `str()` is `text`.
   */
  datatype Outcome = Returned(response: Option<JsonObject>) | Raised(statusCode: Option<int>, text: string)

  const ApiPrefix: string := "/api/2.0/genie/"

  /** Every request declares a JSON body. */
  const JsonHeaders: map<string, string> := map["Content-Type" := "application/json"]

  /** The fixed message that replaces the exception's text for status 501. */
  const NotSupportedMessage: string :=
    "This API is not yet supported." + " Your workspace may not be enabled for the Genie API private preview."

  /** `k` slashes. */
  function Slashes(k: nat): string
  {
    if k == 0 then [] else "/" + Slashes(k - 1)
  }

  /**
   * Python's `endpoint.lstrip('/')`: what is left of `s` once every leading
   * slash is dropped.
   */
  function StripLeadingSlashes(s: string): (r: string)
    ensures |r| <= |s| && s == Slashes(|s| - |r|) + r
    ensures r == [] || r[0] != '/'
    decreases |s|
  {
    if s != [] && s[0] == '/' then StripLeadingSlashes(s[1..]) else s
  }

  /** The request path: the API prefix, then the endpoint without its leading slashes. */
  function ApiPath(endpoint: string): string
  {
    ApiPrefix + StripLeadingSlashes(endpoint)
  }

  /**
   * An endpoint made of any run of slashes followed by `t` (which does not
   * itself begin with a slash) is sent to the prefix followed by exactly `t`.
   */
  lemma {:induction false} ApiPathDropsLeadingSlashes(k: nat, t: string)
    requires t == [] || t[0] != '/'
    ensures ApiPath(Slashes(k) + t) == ApiPrefix + t
  {
    StripSlashesOf(k, t);
  }

  lemma {:induction false} StripSlashesOf(k: nat, t: string)
    requires t == [] || t[0] != '/'
    ensures StripLeadingSlashes(Slashes(k) + t) == t
    decreases k
  {
    if k == 0 {
      assert Slashes(k) + t == t;
    } else {
      var s := Slashes(k) + t;
      assert s[0] == '/' && s[1..] == Slashes(k - 1) + t;
      StripSlashesOf(k - 1, t);
    }
  }

  /** The call `_make_request` hands to the API client. */
  function ToApiCall(spec: RequestSpec): (call: ApiCall)
    ensures call.verb == spec.verb && call.query == spec.params && call.body == spec.data
    ensures call.headers == JsonHeaders
    ensures |ApiPrefix| <= |call.path| <= |ApiPrefix| + |spec.endpoint|
    ensures call.path[..|ApiPrefix|] == ApiPrefix
    ensures spec.endpoint == Slashes(|spec.endpoint| - (|call.path| - |ApiPrefix|)) + call.path[|ApiPrefix|..]
    ensures |call.path| > |ApiPrefix| ==> call.path[|ApiPrefix|] != '/'
  {
    var path := ApiPath(spec.endpoint);
    assert path[|ApiPrefix|..] == StripLeadingSlashes(spec.endpoint);
    ApiCall(spec.verb, path, spec.params, spec.data, JsonHeaders)
  }

  /** Python truthiness of a decoded response: None and `{}` are falsy. */
  predicate IsFalsy(response: Option<JsonObject>)
  {
    response == None || response == Some(map[])
  }

  /**
   * The `response or {}` step: an absent or empty response becomes the empty
   * object, and any other response is passed back unchanged.
   */
  function NormalizeResponse(response: Option<JsonObject>): (r: JsonObject)
    ensures response == None ==> r == map[]
    ensures response.Some? ==> r == response.value
  {
    if IsFalsy(response) then map[] else response.value
  }

  /**
   * The exception handler: any failure becomes a GenieSpaceError with no raw
   * payload; a missing status reads as 0; status 501 gets a fixed message,
   * every other status keeps the exception's text verbatim.
   */
  function TranslateFailure(statusCode: Option<int>, text: string): (e: GenieSpaceError)
    ensures e.response == None
    ensures statusCode == Some(501) ==> e.statusCode == 501 && e.message == NotSupportedMessage
    ensures statusCode != Some(501) ==> e.message == text
    ensures statusCode != Some(501) ==> e.statusCode == (if statusCode.Some? then statusCode.value else 0)
  {
    var status := statusCode.GetOr(0);
    if status == 501 then GenieSpaceError(501, NotSupportedMessage, None)
    else GenieSpaceError(status, text, None)
  }

  /** What `_make_request` returns or raises, given what the API client did. */
  function Complete(outcome: Outcome): (r: Result<JsonObject, GenieSpaceError>)
    ensures r.Success? <==> outcome.Returned?
    ensures outcome.Returned? ==> r.value == outcome.response.GetOr(map[])
    ensures outcome.Raised? ==> r.error == TranslateFailure(outcome.statusCode, outcome.text)
  {
    match outcome
    case Returned(response) => Success(NormalizeResponse(response))
    case Raised(statusCode, text) => Failure(TranslateFailure(statusCode, text))
  }

  /** The 501 message mentions that the API is "not yet supported". */
  lemma NotSupportedMessageSaysSo()
    ensures NotSupportedMessage[12..29] == "not yet supported"
  {
  }

  /**
   * A 501 failure always reads as "not yet supported" with status 501,
   * whatever text the transport's exception carried.
   */
  lemma NotImplementedIgnoresText(text1: string, text2: string)
    ensures Complete(Raised(Some(501), text1)) == Complete(Raised(Some(501), text2))
    ensures Complete(Raised(Some(501), text1)).error.statusCode == 501
  {
  }
}
