/** The Python values that task results and HTTP response bodies are made of. */
module Values {
  import opened Wrappers

  datatype Value =
    | PyNone
    | PyStr(s: string)
    | PyBytes(bytes: seq<bv8>)
    | PyList(items: seq<Value>)
    | PyDict(entries: map<string, Value>)

  /** `d[key]` when `d` is a dict holding `key`. */
  function Get(d: Value, key: string): (r: Option<Value>)
    ensures r.Some? <==> d.PyDict? && key in d.entries
  {
    if d.PyDict? && key in d.entries then Some(d.entries[key]) else None
  }

  /** `d[k1][k2]` when both lookups succeed. */
  function GetPath(d: Value, k1: string, k2: string): Option<Value> {
    match Get(d, k1)
    case None => None
    case Some(inner) => Get(inner, k2)
  }
}
