/** The decoded form of one device record. Only the shape matters to the
    pipeline: an object is a map from key to value (Python's `dict` keeps the
    last of duplicated keys, so a map is exact), numbers are integers. */
module JsonValues {
  import opened Wrappers

  datatype Json =
    | JNull
    | JBool(b: bool)
    | JNumber(n: int)
    | JString(s: string)
    | JArray(items: seq<Json>)
    | JObject(fields: map<string, Json>)

  /** Python `value[key]` with a string key: succeeds only on an object that
      holds the key; on any other value it raises (None). */
  function Get(j: Json, key: string): (r: Option<Json>)
    ensures r.Some? <==> j.JObject? && key in j.fields
    ensures r.Some? ==> r.value == j.fields[key]
  {
    if j.JObject? && key in j.fields then Some(j.fields[key]) else None
  }

  /** Python `len(value)`: defined on objects, arrays and strings, raises
      `TypeError` (None) on numbers, booleans and null. */
  function Size(j: Json): (r: Option<nat>)
    ensures r.Some? <==> (j.JObject? || j.JArray? || j.JString?)
    ensures j.JObject? ==> r == Some(|j.fields|)
  {
    match j
    case JObject(fields) => Some(|fields|)
    case JArray(items) => Some(|items|)
    case JString(s) => Some(|s|)
    case _ => None
  }
}
