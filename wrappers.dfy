/** Optional values, error-carrying results and map lookup shared by every module. */
module Wrappers {

  /** A value that may be missing: a Go zero time, a nil pointer, an absent map entry. */
  datatype Option<+T> = None | Some(value: T)

  /** A Go `(value, error)` pair in which exactly one side is meaningful. */
  datatype Result<+T> = Ok(value: T) | Err(error: string)

  /** Go's `v, ok := m[k]`. */
  function Lookup<K, V>(m: map<K, V>, k: K): (r: Option<V>)
    ensures r.Some? <==> k in m
    ensures r.Some? ==> r.value == m[k]
  {
    if k in m then Some(m[k]) else None
  }
}
