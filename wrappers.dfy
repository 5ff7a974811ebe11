/** Small value wrappers shared by the modules of this project. */
module Wrappers {

  /** The conventional Some/None datatype, used where the source has an optional value
      or a lookup that may miss. */
  datatype Option<+T> = None | Some(value: T)

  /** Looks `k` up in `m`, as `dict.get` or `std::unordered_map::at` without an exception. */
  function Get<K, V>(m: map<K, V>, k: K): (r: Option<V>)
    ensures r.Some? <==> k in m
    ensures r.Some? ==> r.value == m[k]
  {
    if k in m then Some(m[k]) else None
  }
}
