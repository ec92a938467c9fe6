/** The optional value that stands for Go's (value, ok) and (value, error) results. */
module Wrappers {
  datatype Option<+T> = None | Some(value: T)

  function GetOr<K, V>(m: map<K, V>, k: K, default: V): V {
    if k in m then m[k] else default
  }

  /** The value a successful result carries in every other case as well. */
  function OrElse<T>(o: Option<T>, default: T): T {
    if o.Some? then o.value else default
  }
}
