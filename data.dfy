/** Values the ingestion script handles: what JSON.parse can produce, the
    JavaScript rules it applies to them (truthiness, property reads), and the
    record it sends to the vector index. */
module Data {

  datatype Option<+T> = None | Some(value: T)

  datatype Result<+R, +E> = Ok(value: R) | Err(error: E)

  /** A value produced by JSON.parse. A number is a finite real: a numeric
      literal out of double range, which JSON.parse turns into Infinity or
      -Infinity, is left out. An object maps each key to the value JSON.parse
      kept for it. */
  datatype Json =
    | JNull
    | JBool(b: bool)
    | JNumber(n: real)
    | JString(s: string)
    | JArray(items: seq<Json>)
    | JObject(fields: map<string, Json>)

  /** A JavaScript value as the script sees it: `undefined` (None) or a parsed value. */
  type JsValue = Option<Json>

  /** The script's own failures, each of which ends up in the catch of `main`. */
  datatype PrepareError =
    | NullDereference   // a property read on `null` throws a TypeError
    | NoDesignArray     // the explicit throw when `design` is missing or not an array
    | EmbeddingFailed   // the embedding pipeline threw for one element

  /** ECMAScript ToBoolean on the values above: undefined, null, false, 0 and ""
      are falsy; everything else (arrays and objects included) is truthy. */
  predicate Truthy(v: JsValue) {
    match v
    case None => false
    case Some(JNull) => false
    case Some(JBool(b)) => b
    case Some(JNumber(n)) => n != 0.0
    case Some(JString(s)) => s != ""
    case Some(_) => true
  }

  /** The property read `v.key` for a key that no built-in prototype defines
      (the script reads only `design` and `id`): an object's own field, or
      undefined; reading any property of `null` throws. */
  function Get(v: Json, key: string): (r: Result<JsValue, PrepareError>)
    ensures r.Err? <==> v == JNull
    ensures r.Ok? && r.value.Some? <==> v.JObject? && key in v.fields
    ensures r.Ok? && r.value.Some? ==> r.value.value == v.fields[key]
  {
    match v
    case JNull => Err(NullDereference)
    case JObject(fields) => Ok(if key in fields then Some(fields[key]) else None)
    case _ => Ok(None)
  }

  type Vector = seq<real>

  datatype Metadata = Metadata(content: string)

  /** One vector as it is upserted: `{id, values, metadata: {content}}`. */
  datatype Record = Record(id: Json, values: Vector, metadata: Metadata)
}
