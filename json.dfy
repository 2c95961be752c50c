/** Decoded JSON values as Python's json.loads produces them, and the few Python operations
    the pipeline applies to values whose type it never checks. */
module Json {
  import opened Wrappers
  import Text

  datatype Json =
    | JNull
    | JBool(b: bool)
    | JNum(n: real)
    | JStr(s: string)
    | JArr(items: seq<Json>)
    | JObj(fields: map<string, Json>)

  /** Python truthiness of a decoded value. */
  predicate Truthy(j: Json)
  {
    match j
    case JNull => false
    case JBool(b) => b
    case JNum(n) => n != 0.0
    case JStr(s) => s != []
    case JArr(xs) => xs != []
    case JObj(m) => m != map[]
  }

  /** `key in value` for a str key; None where Python raises TypeError (null, bool, number). */
  function In(key: string, j: Json): (r: Option<bool>)
    ensures r.None? <==> !(j.JObj? || j.JArr? || j.JStr?)
    ensures j.JObj? ==> r == Some(key in j.fields)
  {
    match j
    case JObj(m) => Some(key in m)
    case JArr(xs) => Some(JStr(key) in xs)
    case JStr(s) => Some(Text.Contains(s, key))
    case _ => None
  }

  /** Usable as a dict key: lists and objects are unhashable. */
  predicate Hashable(j: Json)
  {
    !(j.JArr? || j.JObj?)
  }

  /** `', '.join(value)` succeeds: a string (joins its characters), an object (joins its keys)
      or a list of strings. */
  predicate Joinable(j: Json)
  {
    j.JStr? || j.JObj? || (j.JArr? && forall x :: x in j.items ==> x.JStr?)
  }

  /** `', '.join(value[:3])` succeeds: a string, or a list whose first three items are strings
      (slicing an object or a scalar raises TypeError). */
  predicate HeadJoinable(j: Json)
  {
    j.JStr? || (j.JArr? && forall i :: 0 <= i < |j.items| && i < 3 ==> j.items[i].JStr?)
  }

  /** `f"{value:.2f}"` succeeds: numbers and booleans only. */
  predicate FormatsAsFixed(j: Json)
  {
    j.JNum? || j.JBool?
  }
}
