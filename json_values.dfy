/**
 * JSON values as the browser sees them after parsing a response body, with
 * JavaScript's property access (`v.key`) and truthiness on them.
 */
module JsonValues {

  datatype Json =
    | JNull
    | JBool(b: bool)
    | JNum(n: real)
    | JStr(s: string)
    | JArr(items: seq<Json>)
    | JObj(fields: map<string, Json>)

  /** The result of reading `v.key`: a value, `undefined`, or a thrown `TypeError`. */
  datatype Access = Found(value: Json) | Undefined | TypeError

  /**
   * `v.key` on a parsed value: `null` throws, an object yields its field or
   * `undefined`, any other value (string, number, boolean, array) has no such
   * own field and yields `undefined`.
   */
  function Member(v: Json, key: string): (r: Access)
    ensures r == TypeError <==> v == JNull
    ensures r.Found? <==> v.JObj? && key in v.fields
    ensures r.Found? ==> r.value == v.fields[key]
  {
    match v
    case JNull => TypeError
    case JObj(fields) => if key in fields then Found(fields[key]) else Undefined
    case _ => Undefined
  }

  /** `a.key` where `a` is itself the result of an access: `undefined.key` throws too. */
  function Then(a: Access, key: string): (r: Access)
    ensures a.Found? ==> r == Member(a.value, key)
    ensures !a.Found? ==> r == TypeError
  {
    match a
    case Found(v) => Member(v, key)
    case _ => TypeError
  }

  /** JavaScript truthiness of a parsed value (JSON has no `NaN`). */
  predicate Truthy(v: Json)
  {
    match v
    case JNull => false
    case JBool(b) => b
    case JNum(n) => n != 0.0
    case JStr(s) => s != ""
    case _ => true
  }

  /** `{}` */
  const EmptyObject: Json := JObj(map[])

  /** `{ data: {} }`, the fallback of several read operations. */
  const EmptyData: Json := JObj(map["data" := EmptyObject])
}
