/** JSON values as they travel in request sections and response bodies. */
module Json {
  import opened Wrappers

  /** A JSON value; an object is a map from keys to values (key order is
      not significant in JSON and is not modelled). */
  datatype Json =
    | JNull
    | JBool(b: bool)
    | JNum(n: int)
    | JStr(s: string)
    | JArr(items: seq<Json>)
    | JObj(fields: map<string, Json>)

  /** The value under `key` of an object, or None when the key is absent
      or `v` is not an object (JavaScript's `undefined`). */
  function Field(v: Json, key: string): (r: Option<Json>)
    ensures r.Some? <==> v.JObj? && key in v.fields
    ensures r.Some? ==> r.value == v.fields[key]
  {
    if v.JObj? && key in v.fields then Some(v.fields[key]) else None
  }

  /** `{ key: value }` when the value is defined, `{}` otherwise: a
      serialised object drops its undefined fields. */
  function Optional(key: string, v: Option<string>): map<string, Json> {
    if v.Some? then map[key := JStr(v.value)] else map[]
  }

  /** The name Zod gives to the type of a received value in its
      "Expected ..., received ..." messages. */
  function TypeName(v: Option<Json>): string {
    match v
    case None => "undefined"
    case Some(JNull) => "null"
    case Some(JBool(_)) => "boolean"
    case Some(JNum(_)) => "number"
    case Some(JStr(_)) => "string"
    case Some(JArr(_)) => "array"
    case Some(JObj(_)) => "object"
  }
}
