/** Option and Result: JavaScript's `undefined` and a thrown error, as values. */
module Wrappers {

  /** A JavaScript value that may be `undefined` (`None`). */
  datatype Option<+T> = None | Some(value: T)

  /** The outcome of a call that may throw: `Failure` carries the text `${err}` would give. */
  datatype Result<+T, +E> = Success(value: T) | Failure(error: E)

  /** Reading a key of a JavaScript object: the value, or `undefined` when the key is missing. */
  function Find<K, V>(m: map<K, V>, key: K): (v: Option<V>)
    ensures v.Some? <==> key in m
    ensures v.Some? ==> v.value == m[key]
  {
    if key in m then Some(m[key]) else None
  }
}
