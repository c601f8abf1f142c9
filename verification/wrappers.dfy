/** Optional values, operation results, and a map lookup that mirrors JavaScript's
    `Map.prototype.get`, which yields `undefined` for a missing key. */
module Wrappers {

  /** `undefined` (None) or a present value (Some). */
  datatype Option<+T> = None | Some(value: T)

  /** The value of an operation, or the error it raised. */
  datatype Result<+T, +E> = Ok(value: T) | Err(error: E)

  /** `m.get(k)`: the value stored at `k`, or None when `k` is absent. */
  function Get<K, V>(m: map<K, V>, k: K): (r: Option<V>)
    ensures r.Some? <==> k in m
    ensures r.Some? ==> r.value == m[k]
  {
    if k in m then Some(m[k]) else None
  }

  /** `m.get(k)` where the key may itself be `undefined`; an undefined key
      is never stored, so the lookup then yields None. */
  function GetOpt<K, V>(m: map<K, V>, k: Option<K>): (r: Option<V>)
    ensures r.Some? <==> k.Some? && k.value in m
    ensures r.Some? ==> r.value == m[k.value]
  {
    match k
    case None => None
    case Some(key) => Get(m, key)
  }
}
