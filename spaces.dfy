/**
 * The request assembly of GenieSpacesManager's five public operations: each
 * turns its typed arguments into the method, endpoint, query map and body map
 * it hands to `_make_request`. `update_space` is the only operation with a
 * local rule, and may fail before any request exists.
 */
module Spaces {
  import opened Wrappers
  import opened JsonValues
  import opened ApiRequest

  /** The local validation failure Python raises as `ValueError`. */
  datatype ValueError = ValueError(message: string)

  const NoFieldsMessage: string := "At least one field must be provided to update"

  /** Python truthiness of an optional string argument: given and non-empty. */
  predicate StrGiven(v: Option<string>)
  {
    v.Some? && v.value != ""
  }

  /** Python truthiness of an optional integer argument: given and non-zero. */
  predicate IntGiven(v: Option<int>)
  {
    v.Some? && v.value != 0
  }

  /** `m` holds `key` exactly when `v` is truthy, and then holds `v`'s text there. */
  predicate Carries(m: JsonObject, key: string, v: Option<string>)
  {
    && (key in m <==> StrGiven(v))
    && (key in m ==> m[key] == JStr(v.value))
  }

  /** `if v: m[key] = v` — one conditional insertion into a dict being built. */
  function PutIfGiven(m: JsonObject, key: string, v: Option<string>): (r: JsonObject)
    ensures key !in m ==> Carries(r, key, v)
    ensures forall k :: k != key ==> (k in r <==> k in m) && (k in m ==> r[k] == m[k])
  {
    if StrGiven(v) then m[key := JStr(v.value)] else m
  }

  /** The endpoint of one space, `spaces/{space_id}`. */
  function SpaceEndpoint(spaceId: string): string
  {
    "spaces/" + spaceId
  }

  /** `list_spaces`: GET `spaces` with the paging arguments that are truthy. */
  function ListSpaces(pageSize: Option<int>, pageToken: Option<string>): (spec: RequestSpec)
    ensures spec.verb == GET && spec.endpoint == "spaces" && spec.data == None
    ensures spec.params.Some?
    ensures "page_size" in spec.params.value <==> IntGiven(pageSize)
    ensures IntGiven(pageSize) ==> spec.params.value["page_size"] == JInt(pageSize.value)
    ensures Carries(spec.params.value, "page_token", pageToken)
    ensures spec.params.value.Keys <= {"page_size", "page_token"}
  {
    var params := map[];
    var params := if IntGiven(pageSize) then params["page_size" := JInt(pageSize.value)] else params;
    var params := PutIfGiven(params, "page_token", pageToken);
    RequestSpec(GET, "spaces", Some(params), None)
  }

  /**
   * `create_space`: POST `spaces` whose body always names the warehouse and
   * parent path and carries each optional field only when it is truthy.
   */
  function CreateSpace(warehouseId: string, parentPath: string, serializedSpace: Option<string>,
                       title: Option<string>, description: Option<string>): (spec: RequestSpec)
    ensures spec.verb == POST && spec.endpoint == "spaces" && spec.params == None
    ensures spec.data.Some?
    ensures "warehouse_id" in spec.data.value && spec.data.value["warehouse_id"] == JStr(warehouseId)
    ensures "parent_path" in spec.data.value && spec.data.value["parent_path"] == JStr(parentPath)
    ensures Carries(spec.data.value, "serialized_space", serializedSpace)
    ensures Carries(spec.data.value, "title", title)
    ensures Carries(spec.data.value, "description", description)
    ensures spec.data.value.Keys <= {"warehouse_id", "parent_path", "serialized_space", "title", "description"}
  {
    var data := map["warehouse_id" := JStr(warehouseId), "parent_path" := JStr(parentPath)];
    var data := PutIfGiven(data, "serialized_space", serializedSpace);
    var data := PutIfGiven(data, "title", title);
    var data := PutIfGiven(data, "description", description);
    RequestSpec(POST, "spaces", None, Some(data))
  }

  /**
   * `get_space`: GET `spaces/{space_id}`; the configuration blob is asked for
   * with the string "true", and otherwise the query is empty.
   */
  function GetSpace(spaceId: string, includeSerializedSpace: bool): (spec: RequestSpec)
    ensures spec.verb == GET && spec.endpoint == SpaceEndpoint(spaceId) && spec.data == None
    ensures spec.params.Some?
    ensures spec.params.value.Keys <= {"include_serialized_space"}
    ensures "include_serialized_space" in spec.params.value <==> includeSerializedSpace
    ensures includeSerializedSpace ==> spec.params.value["include_serialized_space"] == JStr("true")
  {
    var params := map[];
    var params := if includeSerializedSpace then params["include_serialized_space" := JStr("true")] else params;
    RequestSpec(GET, SpaceEndpoint(spaceId), Some(params), None)
  }

  /** The body `update_space` assembles: every truthy field among the five. */
  function UpdateBody(warehouseId: Option<string>, parentPath: Option<string>, serializedSpace: Option<string>,
                      title: Option<string>, description: Option<string>): (data: JsonObject)
    ensures Carries(data, "warehouse_id", warehouseId)
    ensures Carries(data, "parent_path", parentPath)
    ensures Carries(data, "serialized_space", serializedSpace)
    ensures Carries(data, "title", title)
    ensures Carries(data, "description", description)
    ensures data.Keys <= {"warehouse_id", "parent_path", "serialized_space", "title", "description"}
  {
    var data := map[];
    var data := PutIfGiven(data, "warehouse_id", warehouseId);
    var data := PutIfGiven(data, "parent_path", parentPath);
    var data := PutIfGiven(data, "serialized_space", serializedSpace);
    var data := PutIfGiven(data, "title", title);
    PutIfGiven(data, "description", description)
  }

  /**
   * `update_space`: PATCH `spaces/{space_id}` with exactly the truthy fields,
   * or a ValueError when there are none.
   */
  function UpdateSpace(spaceId: string, warehouseId: Option<string>, parentPath: Option<string>,
                       serializedSpace: Option<string>, title: Option<string>,
                       description: Option<string>): (r: Result<RequestSpec, ValueError>)
    ensures r.Failure? <==>
      !(StrGiven(warehouseId) || StrGiven(parentPath) || StrGiven(serializedSpace) || StrGiven(title) || StrGiven(description))
    ensures r.Failure? ==> r.error == ValueError(NoFieldsMessage)
    ensures r.Success? ==> r.value.verb == PATCH && r.value.endpoint == SpaceEndpoint(spaceId)
    ensures r.Success? ==> r.value.params == None && r.value.data.Some? && r.value.data.value != map[]
    ensures r.Success? ==> Carries(r.value.data.value, "warehouse_id", warehouseId)
    ensures r.Success? ==> Carries(r.value.data.value, "parent_path", parentPath)
    ensures r.Success? ==> Carries(r.value.data.value, "serialized_space", serializedSpace)
    ensures r.Success? ==> Carries(r.value.data.value, "title", title)
    ensures r.Success? ==> Carries(r.value.data.value, "description", description)
    ensures r.Success? ==>
      r.value.data.value.Keys <= {"warehouse_id", "parent_path", "serialized_space", "title", "description"}
  {
    var data := UpdateBody(warehouseId, parentPath, serializedSpace, title, description);
    if data == map[] then Failure(ValueError(NoFieldsMessage))
    else Success(RequestSpec(PATCH, SpaceEndpoint(spaceId), None, Some(data)))
  }

  /** `trash_space`: DELETE `spaces/{space_id}` with neither query nor body. */
  function TrashSpace(spaceId: string): (spec: RequestSpec)
    ensures spec.verb == DELETE && spec.endpoint == SpaceEndpoint(spaceId)
    ensures spec.params == None && spec.data == None
  {
    RequestSpec(DELETE, SpaceEndpoint(spaceId), None, None)
  }

  /**
   * Reading, updating and trashing a space all address the same path,
   * `/api/2.0/genie/spaces/{space_id}`, whatever the other arguments.
   */
  lemma SpaceOperationsShareAPath(spaceId: string, includeSerializedSpace: bool, warehouseId: Option<string>,
                                  parentPath: Option<string>, serializedSpace: Option<string>,
                                  title: Option<string>, description: Option<string>)
    ensures ToApiCall(GetSpace(spaceId, includeSerializedSpace)).path == "/api/2.0/genie/spaces/" + spaceId
    ensures ToApiCall(TrashSpace(spaceId)).path == "/api/2.0/genie/spaces/" + spaceId
    ensures UpdateSpace(spaceId, warehouseId, parentPath, serializedSpace, title, description).Success? ==>
      ToApiCall(UpdateSpace(spaceId, warehouseId, parentPath, serializedSpace, title, description).value).path
        == "/api/2.0/genie/spaces/" + spaceId
  {
  }

  /** Listing and creating address the collection path `/api/2.0/genie/spaces`. */
  lemma CollectionOperationsShareAPath(pageSize: Option<int>, pageToken: Option<string>, warehouseId: string,
                                       parentPath: string, serializedSpace: Option<string>,
                                       title: Option<string>, description: Option<string>)
    ensures ToApiCall(ListSpaces(pageSize, pageToken)).path == "/api/2.0/genie/spaces"
    ensures ToApiCall(CreateSpace(warehouseId, parentPath, serializedSpace, title, description)).path
      == "/api/2.0/genie/spaces"
  {
  }

  /** Creating with a warehouse, a parent path and only a title sends exactly those three fields. */
  lemma CreateWithTitleOnly(warehouseId: string, parentPath: string, title: string)
    requires title != ""
    ensures CreateSpace(warehouseId, parentPath, None, Some(title), None).data
      == Some(map["warehouse_id" := JStr(warehouseId), "parent_path" := JStr(parentPath), "title" := JStr(title)])
  {
  }

  /** An update that names only a title sends a body holding only that title. */
  lemma UpdateTitleOnly(spaceId: string, title: string)
    requires title != ""
    ensures UpdateSpace(spaceId, None, None, None, Some(title), None)
      == Success(RequestSpec(PATCH, "spaces/" + spaceId, None, Some(map["title" := JStr(title)])))
  {
  }

  /**
   * Empty strings count as not given: an update whose fields are all absent
   * or empty is refused just like one with no fields.
   */
  lemma UpdateWithEmptyStringsFails(spaceId: string, a: Option<string>, b: Option<string>, c: Option<string>,
                                    d: Option<string>, e: Option<string>)
    requires a in {None, Some("")} && b in {None, Some("")} && c in {None, Some("")}
    requires d in {None, Some("")} && e in {None, Some("")}
    ensures UpdateSpace(spaceId, a, b, c, d, e) == Failure(ValueError(NoFieldsMessage))
  {
  }
}
