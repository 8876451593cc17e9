/** Optional values: a JSON `null` or an absent key on one side, a present value on the other. */
module Wrappers {

  datatype Option<+T> = None | Some(value: T)

  /** Python's `dict.get(key)`: the value under `key`, or `None` when the key is absent. */
  function Get<K, V>(m: map<K, V>, key: K): (r: Option<V>)
    ensures r.Some? <==> key in m
    ensures r.Some? ==> r.value == m[key]
  {
    if key in m then Some(m[key]) else None
  }
}
