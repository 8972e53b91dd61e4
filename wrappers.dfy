/** The optional value the worker reads from headers, query parameters and its environment. */
module Wrappers {

  datatype Option<+T> = None | Some(value: T) {

    /** Returns the value held, or `default` when there is none. */
    function GetOr(default: T): T {
      match this
      case Some(v) => v
      case None => default
    }
  }

  /** Looks up `k` in `m`, the way `headers.get` or `searchParams.get` answer null for a missing name. */
  function Get<K, V>(m: map<K, V>, k: K): (r: Option<V>)
    ensures r.Some? <==> k in m
    ensures r.Some? ==> r.value == m[k]
  {
    if k in m then Some(m[k]) else None
  }

  /**
   * JavaScript truthiness of an optional string: an absent value and the empty
   * string are both false, every other string is true.
   */
  predicate Truthy(o: Option<string>) {
    o.Some? && o.value != ""
  }
}
