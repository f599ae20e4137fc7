/** Small shared vocabulary: optional values, results, and JSON as Python sees it. */
module Prelude {
  datatype Option<+T> = None | Some(value: T) {
    function GetOr(default: T): T {
      if Some? then value else default
    }
  }

  datatype Result<+T, +E> = Ok(value: T) | Err(error: E)

  function Lookup<K, V>(m: map<K, V>, k: K): (r: Option<V>) {
    if k in m then Some(m[k]) else None
  }

  ghost predicate NoDuplicates<T>(xs: seq<T>) {
    forall i, j | 0 <= i < j < |xs| :: xs[i] != xs[j]
  }
}

/** Decoded JSON values, with the Python notions of truth and of equality to zero. */
module JsonValues {
  datatype Json =
    | Null
    | Bool(b: bool)
    | Int(i: int)
    | Real(r: real)
    | Str(s: string)
    | Arr(items: seq<Json>)
    | Obj(fields: map<string, Json>)

  // A process record, or any other JSON object handled field by field.
  type Record = map<string, Json>

  // `bool(value)` in Python.
  predicate Truthy(v: Json) {
    match v
    case Null => false
    case Bool(b) => b
    case Int(i) => i != 0
    case Real(r) => r != 0.0
    case Str(s) => s != ""
    case Arr(items) => items != []
    case Obj(fields) => fields != map[]
  }

  // `value == 0` in Python, where False, 0 and 0.0 are all equal.
  predicate EqualsZero(v: Json) {
    v == Int(0) || v == Real(0.0) || v == Bool(false)
  }

  function GetField(r: Record, key: string, default: Json): Json {
    if key in r then r[key] else default
  }
}
