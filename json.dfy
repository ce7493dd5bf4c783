/** Optional values, with the `:-` protocol, for lookups that may fail. */
module Wrappers {
  datatype Option<+T> = None | Some(value: T) {
    predicate IsFailure() {
      None?
    }

    function PropagateFailure<U>(): Option<U>
      requires None?
    {
      None
    }

    function Extract(): T
      requires Some?
    {
      value
    }
  }
}

/** The JSON values that `requests.Response.json()` and `json.load` hand to the scraper. */
module JsonValues {
  import opened Wrappers

  datatype Json =
    | JNull
    | JBool(b: bool)
    | JNum(n: real)
    | JStr(s: string)
    | JArr(items: seq<Json>)
    | JObj(fields: map<string, Json>)

  /** `v[key]`: succeeds only on an object holding the key; a missing key raises KeyError,
      indexing any other value with a string raises TypeError. */
  function Lookup(v: Json, key: string): Option<Json> {
    if v.JObj? && key in v.fields then Some(v.fields[key]) else None
  }

  /** Python's truth value of a decoded JSON value (`if x:` / `not x`). */
  predicate Truthy(v: Json) {
    match v
    case JNull => false
    case JBool(b) => b
    case JNum(n) => n != 0.0
    case JStr(s) => s != ""
    case JArr(items) => items != []
    case JObj(fields) => fields != map[]
  }

  /** The number a decoded value stands for in arithmetic: Python's `bool` is an `int`;
      None, strings, lists and dicts raise TypeError. */
  function NumberValue(v: Json): Option<real> {
    match v
    case JNum(n) => Some(n)
    case JBool(b) => Some(if b then 1.0 else 0.0)
    case _ => None
  }

  /** What `for el in v` visits. A list yields its elements and a string its characters.
      A dict yields its keys, which are strings; every consumer here fails on a string
      element, so a non-empty dict is recorded as failing right away (`raises`) with no
      element visited. Any other value is not iterable and raises TypeError. */
  datatype Visit = Visit(items: seq<Json>, raises: bool)

  function Iterate(v: Json): Visit {
    match v
    case JArr(items) => Visit(items, false)
    case JStr(s) => Visit(seq(|s|, i requires 0 <= i < |s| => JStr([s[i]])), false)
    case JObj(fields) => Visit([], fields != map[])
    case _ => Visit([], true)
  }
}
