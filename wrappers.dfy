/** Optional values: a key-map lookup that misses yields None (pandas NaN, Python None). */
module Wrappers {

  datatype Option<+T> = None | Some(value: T)

  /** `dict.get(k)` / `Series.map(dict)` for one key. */
  function Get<K, V>(m: map<K, V>, k: K): (r: Option<V>)
    ensures r.Some? <==> k in m
    ensures r.Some? ==> r.value == m[k]
  {
    if k in m then Some(m[k]) else None
  }
}
