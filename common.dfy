/** Values shared by every stage of the lead pipeline: the JSON payloads the
    document store returns, optional values, and the typed failures the
    pipeline surfaces to its caller. */
module Common {

  /** A JSON value as decoded from the document store's responses.
      Python's `None` and JSON `null` are the same value, `JNull`. */
  datatype Json =
    | JNull
    | JBool(b: bool)
    | JNum(n: real)
    | JStr(s: string)
    | JArr(items: seq<Json>)
    | JObj(fields: map<string, Json>)

  datatype Option<+T> = None | Some(value: T)

  /** The failures of the pipeline; every one of them aborts the call. */
  datatype Error =
    | UnsupportedPropertyType   // a property whose `type` has no registered rule
    | MalformedInput            // a missing key or a value of the wrong JSON shape
    | ValidationError           // the record model refused the accumulated values
    | MissingNamedCollection    // no data source with the requested name
    | SchemaMismatch            // a cell does not fit its declared column type
    | TableNotFound             // the aggregation reads a location holding no table
    | QueryExecutionError       // the aggregation query cannot be bound

  datatype Result<+T> = Ok(value: T) | Err(error: Error)

  /** The items a Python `for` loop goes through, for the loops here whose
      body indexes each item by a string key: a list's items, and none for
      an empty dict or string. A non-empty dict or string yields strings,
      which those bodies cannot index, and any other value is not iterable;
      both raise, which is `None` here. */
  function Iterated(v: Json): (r: Option<seq<Json>>)
    ensures r.Some? <==> v.JArr? || v == JObj(map[]) || v == JStr("")
    ensures v.JArr? ==> r == Some(v.items)
    ensures r.Some? && !v.JArr? ==> r == Some([])
  {
    match v
    case JArr(items) => Some(items)
    case JObj(m) => if m == map[] then Some([]) else None
    case JStr(s) => if s == "" then Some([]) else None
    case _ => None
  }

  /** `d.get(key)` on a Python dict: the stored value, or `None` (JNull). */
  function Get(d: map<string, Json>, key: string): (r: Json)
    ensures key in d ==> r == d[key]
    ensures key !in d ==> r == JNull
  {
    if key in d then d[key] else JNull
  }

  /** `d.get(key, default)` on a Python dict. */
  function GetOr(d: map<string, Json>, key: string, default: Json): (r: Json)
    ensures key in d ==> r == d[key]
    ensures key !in d ==> r == default
  {
    if key in d then d[key] else default
  }
}
