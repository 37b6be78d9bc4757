/**
 * JSON values as Python's `json` module hands them to the page (dict, list, str,
 * int, float, bool, None), and the few Python operations the page applies to a
 * parsed reply: `k in v`, `v[k]`, `len(v)` and `v[0]`. Each of them either yields
 * a value or raises; a raise carries the text `str(e)` of the exception, worded
 * as CPython 3.11 words it.
 */
module PyJson {

  datatype Json =
    | JNull
    | JBool(b: bool)
    | JInt(i: int)
    | JFloat(x: real)
    | JStr(s: string)
    | JArr(items: seq<Json>)
    | JObj(fields: map<string, Json>)

  /** The outcome of a Python expression that may raise. */
  datatype Py<+T> = Ok(value: T) | Raise(text: string) {

    predicate IsFailure() {
      Raise?
    }

    function PropagateFailure<U>(): Py<U>
      requires Raise?
    {
      Raise(text)
    }

    function Extract(): T
      requires Ok?
    {
      value
    }
  }

  /** `type(v).__name__` */
  function TypeName(v: Json): string {
    match v
    case JNull => "NoneType"
    case JBool(_) => "bool"
    case JInt(_) => "int"
    case JFloat(_) => "float"
    case JStr(_) => "str"
    case JArr(_) => "list"
    case JObj(_) => "dict"
  }

  /** Python's `needle in hay` on two strings. */
  predicate IsSubstring(needle: string, hay: string) {
    exists k :: 0 <= k <= |hay| && needle <= hay[k..]
  }

  /** `key in v` for a string key. */
  function Contains(v: Json, key: string): Py<bool> {
    match v
    case JObj(fields) => Ok(key in fields)
    case JArr(items) => Ok(JStr(key) in items)
    case JStr(s) => Ok(IsSubstring(key, s))
    case _ => Raise("argument of type '" + TypeName(v) + "' is not iterable")
  }

  /** `v[key]` for a string key. */
  function Index(v: Json, key: string): Py<Json> {
    match v
    case JObj(fields) => if key in fields then Ok(fields[key]) else Raise("'" + key + "'")
    case JArr(_) => Raise("list indices must be integers or slices, not str")
    case JStr(_) => Raise("string indices must be integers, not 'str'")
    case _ => Raise("'" + TypeName(v) + "' object is not subscriptable")
  }

  /** `len(v)` */
  function Len(v: Json): Py<nat> {
    match v
    case JObj(fields) => Ok(|fields|)
    case JArr(items) => Ok(|items|)
    case JStr(s) => Ok(|s|)
    case _ => Raise("object of type '" + TypeName(v) + "' has no len()")
  }

  /** `v[0]`; a parsed JSON object has only string keys, so the integer key 0 is never in it. */
  function First(v: Json): Py<Json> {
    match v
    case JArr(items) => if |items| > 0 then Ok(items[0]) else Raise("list index out of range")
    case JStr(s) => if |s| > 0 then Ok(JStr([s[0]])) else Raise("string index out of range")
    case JObj(_) => Raise("0")
    case _ => Raise("'" + TypeName(v) + "' object is not subscriptable")
  }
}
