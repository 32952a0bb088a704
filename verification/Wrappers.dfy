/** Small shared datatypes and helpers. */
module Wrappers {
  datatype Option<+T> = None | Some(value: T)

  datatype Result<+T, +E> = Ok(value: T) | Err(error: E)

  /** m with f applied to the values at the given keys. */
  ghost function Updated<K(!new), V(!new)>(m: map<K, V>, keys: set<K>, f: V -> V): (r: map<K, V>)
    ensures r.Keys == m.Keys
    ensures forall k :: k in m ==> r[k] == if k in keys then f(m[k]) else m[k]
    decreases keys
  {
    if keys == {} then m
    else
      var k :| k in keys;
      var r := Updated(m, keys - {k}, f);
      if k in m then r[k := f(m[k])] else r
  }
}
