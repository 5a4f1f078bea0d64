/**
 * Decoded JSON documents and the few Python operations the importer applies
 * to them: subscripting (`v[key]`), `dict.get(key, default)`, and the list
 * comprehension `[x["name"] for x in v]`. Each operation either yields a value
 * or raises the exception Python raises for that shape of document.
 */
module PyJson {

  /** A JSON document as `json.loads` returns it (floats are not modelled). */
  datatype Json =
    | JNull
    | JBool(b: bool)
    | JNum(n: int)
    | JStr(s: string)
    | JArr(items: seq<Json>)
    | JObj(fields: map<string, Json>)

  /** The Python exceptions that evaluating a listing expression can raise. */
  datatype Exc =
    | KeyError        // a dict subscripted with a key it lacks
    | TypeError       // subscripting or iterating a value that does not support it
    | AttributeError  // `.get` on a value that is not a dict
    | DecodeError     // `Response.json()` on a body that is not JSON

  /** The outcome of evaluating a Python expression: a value or a raised exception. */
  datatype Py<T> = Value(v: T) | Raise(exc: Exc)

  /** `v[key]` with a string key. */
  function Subscript(v: Json, key: string): Py<Json>
  {
    match v
    case JObj(m) => if key in m then Value(m[key]) else Raise(KeyError)
    case _ => Raise(TypeError)
  }

  /** `v.get(key, default)`: only a dict has `.get`. */
  function GetOr(v: Json, key: string, default: Json): Py<Json>
  {
    match v
    case JObj(m) => if key in m then Value(m[key]) else Value(default)
    case _ => Raise(AttributeError)
  }

  /**
   * `[x["name"] for x in v]`. Iterating a dict yields its keys and iterating a
   * string yields one-character strings; subscripting either with "name"
   * raises TypeError, so those succeed only when empty. Numbers, booleans and
   * None are not iterable.
   */
  function Names(v: Json): Py<seq<Json>>
  {
    match v
    case JArr(items) => EachName(items)
    case JObj(m) => if |m| == 0 then Value([]) else Raise(TypeError)
    case JStr(s) => if |s| == 0 then Value([]) else Raise(TypeError)
    case _ => Raise(TypeError)
  }

  /** The comprehension over a list: elements in order, the first exception wins. */
  function EachName(items: seq<Json>): Py<seq<Json>>
  {
    if items == [] then Value([])
    else
      match Subscript(items[0], "name")
      case Raise(e) => Raise(e)
      case Value(n) =>
        match EachName(items[1..])
        case Raise(e) => Raise(e)
        case Value(ns) => Value([n] + ns)
  }

  /** An `except` clause: the listed exceptions are swallowed and leave the empty list. */
  function Catch(r: Py<seq<Json>>, caught: set<Exc>): Py<seq<Json>>
  {
    if r.Raise? && r.exc in caught then Value([]) else r
  }
}
