/**
 JSON values as the program holds them after `json.load`: profile fields,
 API results and stored messages are all of this shape. A Python dict is a
 map from string keys to values; dict equality ignores insertion order, and
 so does map equality.
 */
module JsonValues {

  datatype Json =
    | JNull
    | JBool(b: bool)
    | JNumber(n: int)
    | JString(s: string)
    | JArray(items: seq<Json>)
    | JObject(fields: map<string, Json>)

  /** A JSON object, that is, a Python dict with string keys. */
  type Dict = map<string, Json>
}
