/** Decoded JSON documents, as the web API returns them and as the cache stores them. */
module JsonData {
  import opened Wrappers

  datatype Json =
    | JNull
    | JBool(b: bool)
    | JInt(n: int)
    | JStr(s: string)
    | JArr(items: seq<Json>)
    | JObj(fields: map<string, Json>)

  /** `j[key]`; None where Python raises, because `j` is not an object or lacks `key`. */
  function Member(j: Json, key: string): Option<Json>
  {
    if j.JObj? && key in j.fields then Some(j.fields[key]) else None
  }

  /** Python truthiness of a decoded value; an absent value (`None`) is falsy. */
  predicate Truthy(v: Option<Json>)
  {
    match v
    case None => false
    case Some(JNull) => false
    case Some(JBool(b)) => b
    case Some(JInt(n)) => n != 0
    case Some(JStr(s)) => s != ""
    case Some(JArr(items)) => items != []
    case Some(JObj(fields)) => fields != map[]
  }

  /**
   * The elements a `for x in j:` loop visits before its body can subscript them.
   * A list gives its items; an empty string or object gives nothing. Any other value
   * makes the loop raise: a number or null is not iterable, and the elements of a
   * non-empty string or object are strings, which the loop bodies here cannot subscript
   * by a key.
   */
  function Iterated(j: Json): Option<seq<Json>>
  {
    match j
    case JArr(items) => Some(items)
    case JStr(s) => if s == "" then Some([]) else None
    case JObj(fields) => if fields == map[] then Some([]) else None
    case _ => None
  }
}
