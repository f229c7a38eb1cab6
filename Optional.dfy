/** Optional values, used for JavaScript's `undefined`/`null` results. */
module Optional {

  datatype Option<+T> = None | Some(value: T)

  /** Lookup in a dictionary: `None` when the key is not present. */
  function Find<K, V>(m: map<K, V>, key: K): (r: Option<V>)
    ensures r.Some? <==> key in m
    ensures r.Some? ==> r.value == m[key]
  {
    if key in m then Some(m[key]) else None
  }
}
