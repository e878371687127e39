/** The decoded form of a JSON document, as `json.loads` returns it, and the
    Python exceptions that reading it can raise. */
module JsonValue {
  import opened Wrappers

  /** Booleans and floating-point numbers are not represented. */
  datatype Json =
    | Null
    | Num(n: int)
    | Str(s: string)
    | Arr(items: seq<Json>)
    | Obj(fields: map<string, Json>)

  /** The exception kinds the core can raise while reading a message. */
  datatype Exc = KeyError | IndexError | ValueError | TypeError | AttributeError

  /** Python can use the value as a dict key (lists and dicts cannot). */
  predicate Hashable(j: Json) {
    j.Null? || j.Num? || j.Str?
  }

  /** `j[key]`: a missing key raises KeyError, indexing a non-dict raises TypeError. */
  function Get(j: Json, key: string): (r: Result<Json, Exc>)
    ensures r.Ok? <==> j.Obj? && key in j.fields
    ensures r.Ok? ==> r.value == j.fields[key]
    ensures r == Err(KeyError) <==> j.Obj? && key !in j.fields
    ensures r == Err(TypeError) <==> !j.Obj?
  {
    match j
    case Obj(fields) => if key in fields then Ok(fields[key]) else Err(KeyError)
    case _ => Err(TypeError)
  }
}
