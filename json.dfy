/**
 * The decoded body of the metrics API and the selection `get_summary` makes
 * from it. The HTTP request itself is not modelled: its outcome is an input.
 */
module Json {

  /** A decoded JSON value. Numbers are integers in this model. */
  datatype Json =
    | JNull
    | JBool(b: bool)
    | JNum(n: int)
    | JStr(s: string)
    | JArray(items: seq<Json>)
    | JObject(fields: map<string, Json>)

  /** Python truthiness of a decoded value: `not v` holds exactly when this is false. */
  predicate Truthy(j: Json) {
    match j
    case JNull => false
    case JBool(b) => b
    case JNum(n) => n != 0
    case JStr(s) => s != ""
    case JArray(items) => items != []
    case JObject(fields) => fields != map[]
  }

  /** The `{}` that `get_summary` returns on every failure path. */
  const EmptyObject: Json := JObject(map[])

  /**
   * What the HTTP layer hands to `get_summary`: the decoded body, or a failure
   * (connection error, an error status raised by `raise_for_status`, a body
   * that is not JSON). All three end in the same `except` branch.
   */
  datatype FetchOutcome = FetchFailed | Fetched(body: Json)

  /** The body is a dict whose "data" entry is a list. */
  predicate HasDataList(j: Json) {
    j.JObject? && "data" in j.fields && j.fields["data"].JArray?
  }

  /** The body is a dict whose "data" entry is a non-empty list. */
  predicate HasDataItem(f: FetchOutcome) {
    f.Fetched? && HasDataList(f.body) && f.body.fields["data"].items != []
  }

  /**
   * The summary `get_summary` hands back: the first element of `data["data"]`
   * when that is a non-empty list, and `{}` for a failed request, a body of
   * another shape or an empty list.
   */
  function SelectSummary(f: FetchOutcome): (r: Json)
    ensures HasDataItem(f) ==> r == f.body.fields["data"].items[0]
    ensures !HasDataItem(f) ==> r == EmptyObject && !Truthy(r)
    ensures Truthy(r) ==> HasDataItem(f)
  {
    match f
    case FetchFailed => EmptyObject
    case Fetched(body) =>
      if HasDataList(body) then
        var items := body.fields["data"].items;
        if items != [] then items[0] else EmptyObject
      else
        EmptyObject
  }
}
