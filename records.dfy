/** Worksheet records as the Python code holds them: a mutable dict from
    string keys to JSON values, with Python's truthiness and `dict.get`. */
module Records {

  datatype Option<T> = None | Some(value: T)

  /** A JSON value. Floats, lists and nested objects are never inspected by
      the modelled code beyond their truthiness, which `Opaque` carries. */
  datatype Value = Null | Bool(b: bool) | Int(i: int) | Str(s: string) | Opaque(truthy: bool)

  /** Python's `bool(v)`. */
  predicate Truthy(v: Value) {
    match v
    case Null => false
    case Bool(b) => b
    case Int(i) => i != 0
    case Str(s) => s != ""
    case Opaque(t) => t
  }

  /** `d.get(key, default)`. */
  function Get(d: map<string, Value>, key: string, default: Value): Value {
    if key in d then d[key] else default
  }

  /** The key is absent or holds a string, so `d.get(key, "")` is a string. */
  predicate StrOrAbsent(d: map<string, Value>, key: string) {
    key in d ==> d[key].Str?
  }

  /** `d.get(key, "")` where the value, if present, is a string. */
  function GetStr(d: map<string, Value>, key: string): (s: string)
    requires StrOrAbsent(d, key)
    ensures key in d ==> d[key] == Str(s)
    ensures key !in d ==> s == ""
  {
    if key in d then d[key].s else ""
  }

  /** The longest verse, in whitespace-separated words, that a worksheet
      traces as it is. */
  const MaxTraceWords: nat := 26

  /** A Python dict that the code updates in place. */
  class Dict {
    var entries: map<string, Value>

    constructor (entries: map<string, Value>)
      ensures this.entries == entries
    {
      this.entries := entries;
    }
  }
}
