/** A decoded JSON document, close to what Python's `json` module hands over.
    It has no string holding a lone surrogate and no NaN or infinite number. */
module Json {

  /** JSON values; objects become Python dicts, arrays lists, `null` None. */
  datatype Json =
    | JNull
    | JBool(b: bool)
    | JNumber(n: real)
    | JString(s: string)
    | JArray(items: seq<Json>)
    | JObject(fields: map<string, Json>)

  /** One decoded occurrence result: a JSON object. */
  type Record = map<string, Json>

  /** Python's `record.get(key)`: the value under `key`, or None (here
      `JNull`) when the key is missing. */
  function Get(r: Record, key: string): Json {
    if key in r then r[key] else JNull
  }
}
