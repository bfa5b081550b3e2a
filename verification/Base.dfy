/** Shared vocabulary: optional and fallible values, names, and the identity of a
    subscription source. */
module Base {
  datatype Option<+T> = None | Some(value: T)

  datatype Result<+T, +E> = Ok(value: T) | Err(error: E)

  type Name = string

  /** What `source_identity` hashes. The digest is taken to be injective, so the
      identity of a source is the source itself: two sources are equal exactly when
      their normalised paths are. */
  datatype Source =
    | Local(files: seq<string>)
    | Remote(urlFile: string, cacheFile: string)

  function Lookup<K, V>(m: map<K, V>, k: K): Option<V> {
    if k in m then Some(m[k]) else None
  }
}
