/** JSON values, the shape of the OpenAPI document the transform rewrites. */
module Json {

  datatype Json =
    | JNull
    | JBool(b: bool)
    | JNumber(n: int)
    | JString(s: string)
    | JArray(items: seq<Json>)
    | JObject(fields: map<string, Json>)

  /** A specification document: its top-level keys and their values. */
  type Spec = map<string, Json>
}
