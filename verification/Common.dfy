/** Values shared by every component of the model. */
module Common {

  datatype Option<+T> = None | Some(value: T)

  /** The value under `k`, or the default a `dict.get(k, d)` would answer. */
  function GetOr<K, V>(m: map<K, V>, k: K, d: V): V {
    if k in m then m[k] else d
  }

  function Min(a: real, b: real): real {
    if a <= b then a else b
  }

  function Max(a: real, b: real): real {
    if a >= b then a else b
  }
}
