/** JSON values as Python's `json` module produces them, and that module's two
    entry points as abstract functions supplied by the caller. */
module JsonValue {
  import opened Wrappers

  datatype Json =
    | JNull
    | JBool(b: bool)
    | JNumber(n: real)
    | JString(s: string)
    | JArray(items: seq<Json>)
    | JObject(fields: map<string, Json>)

  /** `dumps` stands for `json.dumps` on a string; `loads` for `json.loads`,
      which gives `None` where the Python call raises. */
  datatype JsonLib = JsonLib(dumps: string -> string, loads: string -> Option<Json>)
}
