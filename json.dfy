/** Decoded JSON values, as the query endpoint returns them and the query cache stores them,
    with the truthiness Python gives to each of them. */
module Json {

  datatype Option<+T> = None | Some(value: T)

  datatype Result<+T, +E> = Ok(value: T) | Err(error: E)

  /** A value produced by decoding a JSON document. Numbers are integers only. */
  datatype Json =
    | JNull
    | JBool(b: bool)
    | JNum(n: int)
    | JStr(s: string)
    | JArr(items: seq<Json>)
    | JObj(fields: map<string, Json>)

  /** Python's `bool(v)` for the decoded value: `None`, `False`, `0`, `""`, `[]` and `{}` are false. */
  predicate Truthy(v: Json) {
    match v
    case JNull => false
    case JBool(b) => b
    case JNum(n) => n != 0
    case JStr(s) => s != ""
    case JArr(items) => items != []
    case JObj(fields) => fields != map[]
  }

  /** The six falsy values are exactly the ones listed: any other value, a non-empty
      object or `0` nested in an array included, is truthy. */
  lemma FalsyValues(v: Json)
    ensures !Truthy(v) <==> v in [JNull, JBool(false), JNum(0), JStr(""), JArr([]), JObj(map[])]
  {
  }

  /** `v[key]` on a decoded value: defined only when `v` is an object holding `key`
      (otherwise Python raises `KeyError` or `TypeError`). */
  function Field(v: Json, key: string): (r: Option<Json>)
    ensures r.Some? <==> v.JObj? && key in v.fields
    ensures r.Some? ==> r.value == v.fields[key]
  {
    if v.JObj? && key in v.fields then Some(v.fields[key]) else None
  }

  /** `v[key]["value"]` where the inner value must be a string. */
  function StringValue(v: Json, key: string): (r: Option<string>)
    ensures r.Some? <==> (Field(v, key).Some? && Field(Field(v, key).value, "value").Some?
                          && Field(Field(v, key).value, "value").value.JStr?)
  {
    match Field(v, key)
    case None => None
    case Some(inner) =>
      match Field(inner, "value")
      case Some(JStr(s)) => Some(s)
      case _ => None
  }
}
