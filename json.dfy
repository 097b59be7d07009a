/** The JSON document model (`serde_json::Value`) shared by the config store and the 46elks bridge. */
module Json {

  /** A JSON value. Numbers are integers; fractional numbers are not modelled. */
  datatype Json =
    | JNull
    | JBool(b: bool)
    | JNumber(n: int)
    | JString(s: string)
    | JArray(items: seq<Json>)
    | JObject(fields: map<string, Json>)
}
