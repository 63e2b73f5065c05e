/**
 * Decoded JSON values, as the Python JSON libraries return them. Numbers are
 * kept as their literal text: nothing in this core computes with them.
 */
module JsonValues {

  datatype Json =
    | JNull
    | JBool(b: bool)
    | JNumber(literal: string)
    | JString(s: string)
    | JArray(items: seq<Json>)
    | JObject(fields: map<string, Json>)
}
