/** A decoded JSON value as `encoding/json` produces it for `interface{}`,
    and the checked type assertions the scanners apply to it. */
module Json {
  import opened Wrappers

  datatype Json =
    | JNull
    | JBool(b: bool)
    | JNumber(n: real)
    | JString(s: string)
    | JArray(items: seq<Json>)
    | JObject(fields: map<string, Json>)

  type JsonObject = map<string, Json>

  /** `v.(map[string]interface{})` with ok. */
  function AsObject(v: Json): (r: Option<JsonObject>)
    ensures r.Some? <==> v.JObject?
  {
    if v.JObject? then Some(v.fields) else None
  }

  /** `m[k].([]interface{})` with ok; a missing key reads as nil. */
  function ListAt(m: JsonObject, k: string): (r: Option<seq<Json>>)
    ensures r.Some? <==> k in m && m[k].JArray?
  {
    if k in m && m[k].JArray? then Some(m[k].items) else None
  }

  /** `m[k].(string)` with ok. */
  function StringAt(m: JsonObject, k: string): (r: Option<string>)
    ensures r.Some? <==> k in m && m[k].JString?
    ensures r.Some? ==> r.value == m[k].s
  {
    if k in m && m[k].JString? then Some(m[k].s) else None
  }
}
