/**
 * Decoded JSON values, as `request.json()` and the output parser hand them to
 * the route, together with the JavaScript truthiness the route's guard
 * relies on.
 */
module JsonValues {
  import opened Wrappers

  /** A decoded JSON value. Numbers are kept as reals; objects are maps since
      `JSON.parse` keeps only the last of duplicate keys. */
  datatype Json =
    | JNull
    | JBool(b: bool)
    | JNum(n: real)
    | JStr(s: string)
    | JArr(items: seq<Json>)
    | JObj(fields: map<string, Json>)

  /** JavaScript truthiness of a possibly-undefined decoded value. `undefined`,
      `null`, `false`, `0` (and `-0`) and the empty string are falsy; every
      array and object, even an empty one, is truthy. */
  predicate Truthy(v: Option<Json>)
  {
    match v
    case None => false
    case Some(JNull) => false
    case Some(JBool(b)) => b
    case Some(JNum(n)) => n != 0.0
    case Some(JStr(s)) => s != ""
    case Some(JArr(_)) => true
    case Some(JObj(_)) => true
  }

  /** The falsy values are exactly the five listed; nothing else is. */
  lemma FalsyValues(v: Option<Json>)
    ensures !Truthy(v) <==>
      v == None || v == Some(JNull) || v == Some(JBool(false))
      || v == Some(JNum(0.0)) || v == Some(JStr(""))
  {
  }
}
