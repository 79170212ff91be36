/** Option, the shape of Effect's `Option` used by the endpoint lookup. */
module Wrappers {

  datatype Option<+T> = None | Some(value: T)

  /** `Record.get`: the value stored under `key`, if the record has that key. */
  function Get<K, V>(record: map<K, V>, key: K): (r: Option<V>)
    ensures r.Some? <==> key in record
    ensures r.Some? ==> r.value == record[key]
  {
    if key in record then Some(record[key]) else None
  }
}
