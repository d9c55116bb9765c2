# Genie spaces client — verified model

This project models the local logic of `GenieSpacesManager`, a thin Python client for
the Databricks Genie "spaces" REST API. The model covers four things:

- how each of the five public operations (`list_spaces`, `create_space`, `get_space`,
  `update_space`, `trash_space`) turns its arguments into a request: method, endpoint,
  query map and body map;
- how `_make_request` builds the path `/api/2.0/genie/<endpoint>` and the call it
  hands to the workspace's API client;
- how `_make_request` normalises a returned response and translates a raised failure
  into a `GenieSpaceError`;
- what the optional tracing branch of each operation does.

The API client's `do` is not modelled. Its effect enters as an `Outcome` value: either
it returned an optional decoded object, or it raised an exception that may carry an
integer `status_code`. Whether the tracing library is importable enters as a `traced`
flag.

Modules, one per concern of `src/databricks_genie_spaces/spaces.py`:

- `Wrappers` (wrappers.dfy): `Option` and `Result`.
- `JsonValues` (json_values.dfy): decoded JSON values and Python's `dict.get`.
- `Decimal` (decimal.dfy): Python's `str(int)` and its inverse.
- `GenieErrors` (genie_errors.dfy): the `GenieSpaceError` value and its exception text.
- `ApiRequest` (api_request.dfy): `_make_request`. This covers the path, the fixed JSON
  header, `response or {}`, and the failure translation with its 501 special case.
- `Spaces` (spaces.dfy): the five operations' request assembly with the
  "truthy argument" rule. It also holds `update_space`'s one local validation.
- `Tracing` (tracing.dfy): a whole call of each operation. This is the span it opens
  when tracing is available, the API calls it makes (none when `update_space` refuses
  its arguments) and what it returns or raises.

The truthiness rule is modelled as written. An optional string counts as given only when
it is present and non-empty, and an optional integer only when it is present and
non-zero. So an explicit empty title can never be sent.

## Model

| member | source | states |
|---|---|---|
| GenieErrors.ErrorText | src/databricks_genie_spaces/spaces.py:31-38 | The exception text starts with `Genie Space Error (` and ends with `): ` followed by the message verbatim; the canonical status between them is pinned by ErrorTextRoundTrip |
| GenieErrors.ErrorTextRoundTrip | src/databricks_genie_spaces/spaces.py:34-38 | Reading the exception text back yields exactly the error's status and message, for every status (negative included) and every message |
| GenieErrors.ErrorTextWithoutStatus | src/databricks_genie_spaces/spaces.py:38 | A status-less failure (status 0) reads exactly `Genie Space Error (0): ` followed by the message |
| GenieErrors.ErrorTextShowsStatus | tests/test_spaces.py:164-171 | A 404 error's text carries "404" right after the prefix |
| Decimal.NatToDecimal | src/databricks_genie_spaces/spaces.py:38 | The decimal spelling of a status is non-empty and all digits, and begins with `0` only when it is exactly "0" |
| Decimal.NatDecimalRoundTrip | src/databricks_genie_spaces/spaces.py:38 | The decimal spelling of a natural number reads back as that number |
| Decimal.IntToDecimal | src/databricks_genie_spaces/spaces.py:38 | `str(status)` begins with a minus sign exactly for negative statuses, then digits with no leading zero, "0" being the only spelling that starts with `0` |
| Decimal.IntDecimalRoundTrip | src/databricks_genie_spaces/spaces.py:38 | The spelling of every integer status reads back as that integer under a reader that accepts only canonical spellings (no leading zero, no "-0") |
| ApiRequest.StripLeadingSlashes | src/databricks_genie_spaces/spaces.py:98 | `lstrip('/')` returns a suffix of the endpoint that does not begin with `/`, and only slashes were removed before it |
| ApiRequest.StripSlashesOf | src/databricks_genie_spaces/spaces.py:98 | Any number of leading slashes before a slash-free start are removed exactly, and nothing else |
| ApiRequest.ApiPathDropsLeadingSlashes | src/databricks_genie_spaces/spaces.py:98 | The path of `k` slashes followed by `t` is `/api/2.0/genie/` followed by exactly `t` |
| ApiRequest.ToApiCall | src/databricks_genie_spaces/spaces.py:98-108 | The API client receives the operation's method, query and body unchanged, the `Content-Type: application/json` header, and a path of the prefix then the endpoint minus its leading slashes |
| ApiRequest.NormalizeResponse | src/databricks_genie_spaces/spaces.py:110 | An absent response becomes `{}`; a present response (empty or not) is returned unchanged |
| ApiRequest.TranslateFailure | src/databricks_genie_spaces/spaces.py:112-124 | Every failure becomes a GenieSpaceError with no payload. Status 501 gets the fixed "not yet supported" message. Any other status is kept (0 when absent) along with the original text |
| ApiRequest.Complete | src/databricks_genie_spaces/spaces.py:100-124 | `_make_request` succeeds exactly when the API client returned, with the response or `{}`. Otherwise it raises the translated GenieSpaceError and never the raw failure |
| ApiRequest.NotSupportedMessageSaysSo | tests/test_spaces.py:189-201 | The 501 message contains "not yet supported" |
| ApiRequest.NotImplementedIgnoresText | src/databricks_genie_spaces/spaces.py:117-122 | Two 501 failures give the same error, with status 501, whatever their texts |
| Spaces.PutIfGiven | src/databricks_genie_spaces/spaces.py:207-212 | A conditional insertion adds the key exactly when the argument is truthy, with its value, and changes no other key |
| Spaces.ListSpaces | src/databricks_genie_spaces/spaces.py:152-165 | GET `spaces`, no body. The query has `page_size` iff it is given and non-zero, and `page_token` iff it is given and non-empty, with their values. It has no other key |
| Spaces.CreateSpace | src/databricks_genie_spaces/spaces.py:202-222 | POST `spaces`, no query. The body always has `warehouse_id` and `parent_path`. It has each of `serialized_space`, `title`, `description` iff non-empty, with the given values, and no other key |
| Spaces.GetSpace | src/databricks_genie_spaces/spaces.py:258-269 | GET `spaces/{id}`, no body. The query holds `include_serialized_space` = the string "true" iff the flag is set, and is otherwise empty |
| Spaces.UpdateBody | src/databricks_genie_spaces/spaces.py:308-319 | The update body holds exactly the non-empty fields among the five, with their values |
| Spaces.UpdateSpace | src/databricks_genie_spaces/spaces.py:308-331 | Fails with the "At least one field must be provided to update" ValueError iff no field is non-empty. Otherwise PATCH `spaces/{id}`, no query, and a non-empty body of exactly the non-empty fields |
| Spaces.TrashSpace | src/databricks_genie_spaces/spaces.py:352-358 | DELETE `spaces/{id}` with no query and no body |
| Spaces.SpaceOperationsShareAPath | src/databricks_genie_spaces/spaces.py:266-358 | get, update and trash all address `/api/2.0/genie/spaces/{space_id}` |
| Spaces.CollectionOperationsShareAPath | src/databricks_genie_spaces/spaces.py:161-222 | list and create both address `/api/2.0/genie/spaces` |
| Spaces.CreateWithTitleOnly | tests/test_spaces.py:99-120 | Creating with only a title sends exactly `warehouse_id`, `parent_path` and `title` |
| Spaces.UpdateTitleOnly | tests/test_spaces.py:123-139 | Updating only the title is a PATCH to `spaces/{id}` whose body holds only the title |
| Spaces.UpdateWithEmptyStringsFails | src/databricks_genie_spaces/spaces.py:308-322 | Fields that are all absent or empty strings are refused like no fields at all |
| JsonValues.Get | src/databricks_genie_spaces/spaces.py:162 | `d.get(key, default)` is the stored value when the key is present and the default otherwise (also used at line 219) |
| Tracing.TextOrEmpty | src/databricks_genie_spaces/spaces.py:217 | `title or ""` is the title when non-empty, else the empty string |
| Tracing.PyLen | src/databricks_genie_spaces/spaces.py:162 | Python's `len` fails exactly on null, booleans and numbers, and gives the length of a list, string or object |
| Tracing.RunListSpacesAsWritten | src/databricks_genie_spaces/spaces.py:152-165 | As written, `list_spaces` makes the one list call. Untraced, it returns or raises exactly what `_make_request` does. Traced, on a response whose "spaces" has no length, it raises a TypeError and its span holds only `page_size` |
| Tracing.ListTracingAsWrittenDiverges | src/databricks_genie_spaces/spaces.py:158-163 | As written, the traced result differs from the untraced one iff the call returned a response whose "spaces" is null, a boolean or a number. Exactly then it raises a TypeError |
| Tracing.ListTracingAsWrittenNullSpaces | src/databricks_genie_spaces/spaces.py:162 | For the response `{"spaces": null}` the untraced call returns it and the traced call raises a TypeError |
| Tracing.SpaceCount | src/databricks_genie_spaces/spaces.py:162 | The span's space count is `len` of the "spaces" entry wherever `len` is defined, 0 when the key is absent, and 0 where `len` would raise |
| Tracing.RunListSpaces | src/databricks_genie_spaces/spaces.py:152-165 | `list_spaces` in its corrected form (see ## Findings): traced or not, it makes exactly the one list call and returns or raises what `_make_request` does. A traced span holds `page_size` and, on success only, `num_spaces`, and no other attribute |
| Tracing.ListTracingCorrectionIsLocal | src/databricks_genie_spaces/spaces.py:158-163 | The corrected and as-written `list_spaces` agree on span, calls and result for every outcome except a response whose "spaces" has no length |
| Tracing.RunCreateSpace | src/databricks_genie_spaces/spaces.py:214-222 | Traced or not, one create call and `_make_request`'s result. A traced span records exactly `warehouse_id`, the title (or "") and, on success only, `result.get("space_id", "")` |
| Tracing.RunGetSpace | src/databricks_genie_spaces/spaces.py:262-269 | Traced or not, one get call and `_make_request`'s result. A traced span records the space id and the flag |
| Tracing.UpdatedFieldsAreBodyKeys | src/databricks_genie_spaces/spaces.py:327 | The span's `fields_updated` lists every key of the update body once, no other key, and in the order the source inserts them |
| Tracing.FieldNamesJson | src/databricks_genie_spaces/spaces.py:327 | `list(data.keys())` becomes a JSON array of the same names in the same order |
| Tracing.RunUpdateSpace | src/databricks_genie_spaces/spaces.py:308-331 | With no truthy field: the ValueError, no span and no API call. Otherwise one PATCH call and `_make_request`'s result. When traced, the span holds exactly the space id and the ordered `fields_updated` list |
| Tracing.RunTrashSpace | src/databricks_genie_spaces/spaces.py:352-358 | Traced or not, one DELETE call and `_make_request`'s result. A traced span records the space id |
| Tracing.TrashReturnsEmpty | tests/test_spaces.py:150-157 | Trashing with an absent or empty response returns `{}` |
| Tracing.TracingIsTransparent | src/databricks_genie_spaces/spaces.py:158-358 | For get, create, update and trash as written, and for `list_spaces` in its corrected form (RunListSpaces; see ## Findings), tracing changes neither the API calls made nor what is returned or raised |

## Left out

- The API client's `do` (network, authentication, retries, URL composition) is an input `Outcome`, not modelled.
- Only `status_code` as an integer or absent is modelled. The `hasattr`/`getattr` probing of arbitrary exception objects, including a non-integer `status_code`, is not.
- The mlflow library is not modelled; a span is only its name and the attributes the source sets on it. Whether mlflow is importable is the `traced` flag.
- `create_spaces_manager` and the stored `client`/`_api_client` fields only construct or hold the SDK client.
- Python dicts keep insertion order; query and body maps do not. The insertion order of `update_space`'s keys is kept only where the source exposes it, in the span's `fields_updated`.
- JSON numbers are integers only: no floating point.

## Findings

| source | as written | input that shows it | evidently intended | confidence | as-written member | corrected member |
|---|---|---|---|---|---|---|
| src/databricks_genie_spaces/spaces.py:162 | When tracing is available, `list_spaces` records `len(result.get("spaces", []))`, which raises TypeError when "spaces" is null, a boolean or a number | the API client returns `{"spaces": null}`: untraced, the response is returned; traced, a TypeError escapes | tracing is optional instrumentation and never changes what the call returns or raises; the corrected version records `len` where it is defined and 0 where it would raise | low (a well-behaved server sends a list or omits the key); not executed | Tracing.ListTracingAsWrittenDiverges | Tracing.RunListSpaces |
