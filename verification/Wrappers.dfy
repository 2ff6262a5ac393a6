/** Optional values, shared by every module. */
module Wrappers {
  datatype Option<+T> = None | Some(value: T)

  /** The list stored under a key, or the empty list a `defaultdict` would create. */
  function Of<K, T>(table: map<K, seq<T>>, key: K): seq<T> {
    if key in table then table[key] else []
  }

  /** `dict.get(key)`. */
  function Lookup<K, T>(table: map<K, T>, key: K): Option<T> {
    if key in table then Some(table[key]) else None
  }

  /** A string that counts as true. */
  predicate Truthy(text: Option<string>) {
    text.Some? && text.value != ""
  }
}
