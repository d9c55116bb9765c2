/**
 * A whole public call of GenieSpacesManager: request assembly, the one call
 * `_make_request` makes, and, when the tracing library is importable, the span
 * the call is wrapped in. Whether tracing is available is the `traced` flag.
 * The span records only the attributes the Python client sets on it.
 */
module Tracing {
  import opened Wrappers
  import opened JsonValues
  import opened GenieErrors
  import opened ApiRequest
  import opened Spaces

  /** What a public call can raise. */
  datatype OpError = Invalid(invalid: ValueError) | Genie(genie: GenieSpaceError) | TypeError(message: string)

  /** A tracing span: its name and the attributes set on it, by key. */
  datatype Span = Span(name: string, attributes: JsonObject)

  /** Everything one public call does: its span, the API calls it makes, and what it returns or raises. */
  datatype Execution = Execution(span: Option<Span>, calls: seq<ApiCall>, result: Result<JsonObject, OpError>)

  function Lift(r: Result<JsonObject, GenieSpaceError>): Result<JsonObject, OpError>
  {
    match r
    case Success(v) => Success(v)
    case Failure(e) => Failure(Genie(e))
  }

  /**
   * Tracing changes nothing the caller or the API sees: exactly one call, the
   * one `spec` describes, and `_make_request`'s own result.
   */
  predicate SameAsRequest(x: Execution, spec: RequestSpec, outcome: Outcome)
  {
    x.calls == [ToApiCall(spec)] && x.result == Lift(Complete(outcome))
  }

  /** A `page_size` argument as a span attribute value (Python's None when absent). */
  function OptIntJson(v: Option<int>): Json
  {
    match v
    case None => JNull
    case Some(i) => JInt(i)
  }

  /** Python's `title or ""`. */
  function TextOrEmpty(v: Option<string>): (s: string)
    ensures StrGiven(v) ==> s == v.value
    ensures !StrGiven(v) ==> s == ""
  {
    if StrGiven(v) then v.value else ""
  }

  /** A JSON value that Python's `len` refuses: null, a boolean or a number. */
  predicate Unsized(v: Json)
  {
    v.JNull? || v.JBool? || v.JInt?
  }

  /** Python's `len(v)` on a decoded JSON value: a size, or the TypeError's text. */
  function PyLen(v: Json): (r: Result<nat, string>)
    ensures r.Failure? <==> Unsized(v)
    ensures v.JArr? ==> r == Success(|v.items|)
    ensures v.JStr? ==> r == Success(|v.s|)
    ensures v.JObj? ==> r == Success(|v.fields|)
  {
    match v
    case JArr(items) => Success(|items|)
    case JStr(s) => Success(|s|)
    case JObj(fields) => Success(|fields|)
    case JNull => Failure("object of type 'NoneType' has no len()")
    case JBool(_) => Failure("object of type 'bool' has no len()")
    case JInt(_) => Failure("object of type 'int' has no len()")
  }

  /**
   * `list_spaces` as written: the traced branch records
   * `len(result.get("spaces", []))`, which raises a TypeError when the
   * response's "spaces" is null, a boolean or a number.
   */
  function RunListSpacesAsWritten(traced: bool, pageSize: Option<int>, pageToken: Option<string>,
                                  outcome: Outcome): (x: Execution)
    ensures x.calls == [ToApiCall(ListSpaces(pageSize, pageToken))]
    ensures !traced ==> SameAsRequest(x, ListSpaces(pageSize, pageToken), outcome)
    ensures traced && outcome.Returned? && Unsized(Get(NormalizeResponse(outcome.response), "spaces", JArr([]))) ==>
      && x.span == Some(Span("list_spaces", map["page_size" := OptIntJson(pageSize)]))
      && x.result.Failure? && x.result.error.TypeError?
  {
    var spec := ListSpaces(pageSize, pageToken);
    var call, result := ToApiCall(spec), Complete(outcome);
    if !traced then Execution(None, [call], Lift(result))
    else
      var attributes := map["page_size" := OptIntJson(pageSize)];
      match result
      case Failure(_) => Execution(Some(Span("list_spaces", attributes)), [call], Lift(result))
      case Success(response) =>
        match PyLen(Get(response, "spaces", JArr([])))
        case Failure(msg) => Execution(Some(Span("list_spaces", attributes)), [call], Failure(TypeError(msg)))
        case Success(n) =>
          Execution(Some(Span("list_spaces", attributes["num_spaces" := JInt(n)])), [call], Lift(result))
  }

  /**
   * As written, tracing changes the outcome of `list_spaces` exactly when the
   * call succeeds with a response whose "spaces" entry has no length: the
   * untraced call returns that response, the traced one raises a TypeError.
   */
  lemma ListTracingAsWrittenDiverges(pageSize: Option<int>, pageToken: Option<string>, outcome: Outcome)
    ensures RunListSpacesAsWritten(true, pageSize, pageToken, outcome).result
            != RunListSpacesAsWritten(false, pageSize, pageToken, outcome).result
        <==> outcome.Returned? && outcome.response.Some? && "spaces" in outcome.response.value
             && Unsized(outcome.response.value["spaces"])
    ensures RunListSpacesAsWritten(true, pageSize, pageToken, outcome).result.Failure?
            && RunListSpacesAsWritten(true, pageSize, pageToken, outcome).result.error.TypeError?
        <==> outcome.Returned? && outcome.response.Some? && "spaces" in outcome.response.value
             && Unsized(outcome.response.value["spaces"])
  {
  }

  /** A concrete response showing the divergence: `{"spaces": null}`. */
  lemma ListTracingAsWrittenNullSpaces()
    ensures RunListSpacesAsWritten(false, None, None, Returned(Some(map["spaces" := JNull]))).result
            == Success(map["spaces" := JNull])
    ensures RunListSpacesAsWritten(true, None, None, Returned(Some(map["spaces" := JNull]))).result
            == Failure(TypeError("object of type 'NoneType' has no len()"))
  {
  }

  /**
   * The span's space count: `len(result.get("spaces", []))` wherever Python's
   * `len` is defined, and 0 instead of a TypeError where it is not.
   */
  function SpaceCount(response: JsonObject): (n: nat)
    ensures "spaces" !in response ==> n == 0
    ensures "spaces" in response && !Unsized(response["spaces"]) ==> PyLen(response["spaces"]) == Success(n)
    ensures "spaces" in response && Unsized(response["spaces"]) ==> n == 0
  {
    match PyLen(Get(response, "spaces", JArr([])))
    case Success(n) => n
    case Failure(_) => 0
  }

  /**
   * `list_spaces`, with the span's space count falling back to 0 where `len`
   * would raise, so that tracing never changes what the call returns or raises.
   */
  function RunListSpaces(traced: bool, pageSize: Option<int>, pageToken: Option<string>,
                         outcome: Outcome): (x: Execution)
    ensures SameAsRequest(x, ListSpaces(pageSize, pageToken), outcome)
    ensures traced <==> x.span.Some?
    ensures traced ==> x.span.value.name == "list_spaces"
    ensures traced ==> "page_size" in x.span.value.attributes
                       && x.span.value.attributes["page_size"] == OptIntJson(pageSize)
    ensures traced ==> ("num_spaces" in x.span.value.attributes <==> outcome.Returned?)
    ensures traced && outcome.Returned? ==>
      x.span.value.attributes["num_spaces"] == JInt(SpaceCount(NormalizeResponse(outcome.response)))
    ensures traced ==> x.span.value.attributes.Keys <= {"page_size", "num_spaces"}
  {
    var spec := ListSpaces(pageSize, pageToken);
    var call, result := ToApiCall(spec), Complete(outcome);
    if !traced then Execution(None, [call], Lift(result))
    else
      var attributes := map["page_size" := OptIntJson(pageSize)];
      match result
      case Failure(_) => Execution(Some(Span("list_spaces", attributes)), [call], Lift(result))
      case Success(response) =>
        Execution(Some(Span("list_spaces", attributes["num_spaces" := JInt(SpaceCount(response))])),
                  [call], Lift(result))
  }

  /**
   * Both versions agree entirely (span, calls and result) except on responses
   * whose "spaces" has no length.
   */
  lemma ListTracingCorrectionIsLocal(traced: bool, pageSize: Option<int>, pageToken: Option<string>,
                                     outcome: Outcome)
    requires !(outcome.Returned? && outcome.response.Some? && "spaces" in outcome.response.value
               && Unsized(outcome.response.value["spaces"]))
    ensures RunListSpaces(traced, pageSize, pageToken, outcome)
            == RunListSpacesAsWritten(traced, pageSize, pageToken, outcome)
  {
  }

  /** `create_space`, traced or not. */
  function RunCreateSpace(traced: bool, warehouseId: string, parentPath: string, serializedSpace: Option<string>,
                          title: Option<string>, description: Option<string>, outcome: Outcome): (x: Execution)
    ensures SameAsRequest(x, CreateSpace(warehouseId, parentPath, serializedSpace, title, description), outcome)
    ensures traced <==> x.span.Some?
    ensures traced ==> x.span.value.name == "create_space"
    ensures traced && outcome.Raised? ==>
      x.span.value.attributes == map["warehouse_id" := JStr(warehouseId), "title" := JStr(TextOrEmpty(title))]
    ensures traced && outcome.Returned? ==>
      x.span.value.attributes == map["warehouse_id" := JStr(warehouseId), "title" := JStr(TextOrEmpty(title)),
             "space_id" := Get(NormalizeResponse(outcome.response), "space_id", JStr(""))]
  {
    var spec := CreateSpace(warehouseId, parentPath, serializedSpace, title, description);
    var call, result := ToApiCall(spec), Complete(outcome);
    if !traced then Execution(None, [call], Lift(result))
    else
      var attributes := map["warehouse_id" := JStr(warehouseId), "title" := JStr(TextOrEmpty(title))];
      match result
      case Failure(_) => Execution(Some(Span("create_space", attributes)), [call], Lift(result))
      case Success(response) =>
        Execution(Some(Span("create_space", attributes["space_id" := Get(response, "space_id", JStr(""))])),
                  [call], Lift(result))
  }

  /** `get_space`, traced or not. */
  function RunGetSpace(traced: bool, spaceId: string, includeSerializedSpace: bool, outcome: Outcome): (x: Execution)
    ensures SameAsRequest(x, GetSpace(spaceId, includeSerializedSpace), outcome)
    ensures traced <==> x.span.Some?
    ensures traced ==> x.span.value == Span("get_space", map["space_id" := JStr(spaceId),
                                            "include_serialized_space" := JBool(includeSerializedSpace)])
  {
    var call, result := ToApiCall(GetSpace(spaceId, includeSerializedSpace)), Complete(outcome);
    var span := Span("get_space", map["space_id" := JStr(spaceId),
                                      "include_serialized_space" := JBool(includeSerializedSpace)]);
    Execution(if traced then Some(span) else None, [call], Lift(result))
  }

  /** The order in which `update_space` may insert its body's keys. */
  const UpdateFieldOrder: seq<string> := ["warehouse_id", "parent_path", "serialized_space", "title", "description"]

  /** A key's place in UpdateFieldOrder (5 for any other key). */
  function FieldRank(key: string): (n: nat)
    ensures n < 5 <==> key in UpdateFieldOrder
    ensures n < 5 ==> UpdateFieldOrder[n] == key
  {
    if key == "warehouse_id" then 0
    else if key == "parent_path" then 1
    else if key == "serialized_space" then 2
    else if key == "title" then 3
    else if key == "description" then 4
    else 5
  }

  /** The keys `update_space` inserts into its body, in insertion order. */
  function UpdatedFields(warehouseId: Option<string>, parentPath: Option<string>, serializedSpace: Option<string>,
                         title: Option<string>, description: Option<string>): seq<string>
  {
    (if StrGiven(warehouseId) then ["warehouse_id"] else [])
    + (if StrGiven(parentPath) then ["parent_path"] else [])
    + (if StrGiven(serializedSpace) then ["serialized_space"] else [])
    + (if StrGiven(title) then ["title"] else [])
    + (if StrGiven(description) then ["description"] else [])
  }

  /**
   * The span's `fields_updated` names each key of the body once and nothing
   * else, in the order the Python client inserts them.
   */
  lemma UpdatedFieldsAreBodyKeys(warehouseId: Option<string>, parentPath: Option<string>,
                                 serializedSpace: Option<string>, title: Option<string>,
                                 description: Option<string>)
    ensures var fields := UpdatedFields(warehouseId, parentPath, serializedSpace, title, description);
            && (forall k :: k in fields <==> k in UpdateBody(warehouseId, parentPath, serializedSpace, title, description))
            && (forall i, j :: 0 <= i < j < |fields| ==> FieldRank(fields[i]) < FieldRank(fields[j]))
            && (forall i, j :: 0 <= i < j < |fields| ==> fields[i] != fields[j])
  {
  }

  function FieldNamesJson(fields: seq<string>): (r: Json)
    ensures r.JArr? && |r.items| == |fields|
    ensures forall i :: 0 <= i < |fields| ==> r.items[i] == JStr(fields[i])
  {
    JArr(seq(|fields|, i requires 0 <= i < |fields| => JStr(fields[i])))
  }

  /**
   * `update_space`, traced or not: with no truthy field it raises the
   * ValueError before any span or call; otherwise it makes its one call.
   */
  function RunUpdateSpace(traced: bool, spaceId: string, warehouseId: Option<string>, parentPath: Option<string>,
                          serializedSpace: Option<string>, title: Option<string>, description: Option<string>,
                          outcome: Outcome): (x: Execution)
    ensures UpdateSpace(spaceId, warehouseId, parentPath, serializedSpace, title, description).Failure? ==>
      x == Execution(None, [], Failure(Invalid(ValueError(NoFieldsMessage))))
    ensures UpdateSpace(spaceId, warehouseId, parentPath, serializedSpace, title, description).Success? ==>
      SameAsRequest(x, UpdateSpace(spaceId, warehouseId, parentPath, serializedSpace, title, description).value, outcome)
    ensures x.span.Some? <==>
      traced && UpdateSpace(spaceId, warehouseId, parentPath, serializedSpace, title, description).Success?
    ensures x.span.Some? ==> x.span.value.name == "update_space"
    ensures x.span.Some? ==>
      x.span.value.attributes == map["space_id" := JStr(spaceId),
             "fields_updated" := FieldNamesJson(UpdatedFields(warehouseId, parentPath, serializedSpace, title, description))]
  {
    match UpdateSpace(spaceId, warehouseId, parentPath, serializedSpace, title, description)
    case Failure(err) => Execution(None, [], Failure(Invalid(err)))
    case Success(spec) =>
      var call, result := ToApiCall(spec), Complete(outcome);
      var fields := UpdatedFields(warehouseId, parentPath, serializedSpace, title, description);
      var span := Span("update_space", map["space_id" := JStr(spaceId), "fields_updated" := FieldNamesJson(fields)]);
      Execution(if traced then Some(span) else None, [call], Lift(result))
  }

  /** `trash_space`, traced or not. */
  function RunTrashSpace(traced: bool, spaceId: string, outcome: Outcome): (x: Execution)
    ensures SameAsRequest(x, TrashSpace(spaceId), outcome)
    ensures traced <==> x.span.Some?
    ensures traced ==> x.span.value == Span("trash_space", map["space_id" := JStr(spaceId)])
  {
    var call, result := ToApiCall(TrashSpace(spaceId)), Complete(outcome);
    Execution(if traced then Some(Span("trash_space", map["space_id" := JStr(spaceId)])) else None,
              [call], Lift(result))
  }

  /** Trashing with an empty (or absent) response returns the empty object. */
  lemma TrashReturnsEmpty(traced: bool, spaceId: string, response: Option<JsonObject>)
    requires IsFalsy(response)
    ensures RunTrashSpace(traced, spaceId, Returned(response)).result == Success(map[])
  {
  }

  /**
   * Whether tracing is available never changes what a call sends or what it
   * returns or raises (with the corrected `list_spaces`).
   */
  lemma TracingIsTransparent(spaceId: string, pageSize: Option<int>, pageToken: Option<string>,
                             warehouseId: string, parentPath: string, includeSerializedSpace: bool,
                             w: Option<string>, p: Option<string>, serializedSpace: Option<string>,
                             title: Option<string>, description: Option<string>, outcome: Outcome)
    ensures var traced, plain := RunListSpaces(true, pageSize, pageToken, outcome),
                                 RunListSpaces(false, pageSize, pageToken, outcome);
            traced.calls == plain.calls && traced.result == plain.result
    ensures var traced, plain := RunCreateSpace(true, warehouseId, parentPath, serializedSpace, title, description, outcome),
                                 RunCreateSpace(false, warehouseId, parentPath, serializedSpace, title, description, outcome);
            traced.calls == plain.calls && traced.result == plain.result
    ensures var traced, plain := RunGetSpace(true, spaceId, includeSerializedSpace, outcome),
                                 RunGetSpace(false, spaceId, includeSerializedSpace, outcome);
            traced.calls == plain.calls && traced.result == plain.result
    ensures var traced, plain := RunUpdateSpace(true, spaceId, w, p, serializedSpace, title, description, outcome),
                                 RunUpdateSpace(false, spaceId, w, p, serializedSpace, title, description, outcome);
            traced.calls == plain.calls && traced.result == plain.result
    ensures var traced, plain := RunTrashSpace(true, spaceId, outcome), RunTrashSpace(false, spaceId, outcome);
            traced.calls == plain.calls && traced.result == plain.result
  {
  }
}
