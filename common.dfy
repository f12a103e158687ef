/**
 * Small shared vocabulary: an optional value and the values a JSON settings
 * document or an API record can hold.
 */
module Common {

  /** A value that may be absent: Python's `None` or a missing dictionary key. */
  datatype Option<T> = None | Some(value: T) {
    function GetOr(default: T): T {
      match this
      case Some(v) => v
      case None => default
    }
  }

  /** The value of a call, or the exception it raises. */
  datatype Result<T, E> = Ok(value: T) | Err(error: E)

  /** A scalar JSON value as stored in the settings document. */
  datatype Value = Null | Bool(b: bool) | Int(i: int) | Str(s: string)

  /** Python truthiness of a JSON scalar: null, false, 0 and "" are falsy. */
  predicate Truthy(v: Value) {
    match v
    case Null => false
    case Bool(b) => b
    case Int(i) => i != 0
    case Str(s) => s != ""
  }

  /** Python truthiness of an optional integer (`None` and `0` are falsy). */
  predicate TruthyInt(v: Option<int>) {
    v.Some? && v.value != 0
  }

  /** Python truthiness of an optional string (`None` and `""` are falsy). */
  predicate TruthyStr(v: Option<string>) {
    v.Some? && v.value != ""
  }

  /** `dict.get(key, default)`. */
  function Lookup(d: map<string, Value>, key: string, default: Value): Value {
    if key in d then d[key] else default
  }
}
