/** Optional values: Python's `None` and the "field absent" cases of the source. */
module Wrappers {

  datatype Option<+T> = None | Some(value: T)

  /** Python's `dict.get(key)` / `dict.get(key, None)` on a string map. */
  function Get<K, V>(m: map<K, V>, k: K): (r: Option<V>)
    ensures r.Some? <==> k in m
    ensures r.Some? ==> r.value == m[k]
  {
    if k in m then Some(m[k]) else None
  }
}
