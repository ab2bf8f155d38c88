/** Optional values: an environment variable that may be unset, an identifier
    that may not be resolved yet. */
module Options {

  datatype Option<T> = None | Some(value: T)

  /** JavaScript truthiness of a value that is either absent or a string:
      `undefined`, `null` and `""` are falsy, every other string is truthy. */
  predicate Truthy(v: Option<string>) {
    v.Some? && v.value != ""
  }
}
