/** Optional values, and results for operations that can throw. */
module Outcomes {
  datatype Option<+T> = None | Some(value: T)
  datatype Result<+T, +E> = Ok(value: T) | Err(error: E)

  /** JavaScript's truth of an optional string. */
  predicate Truthy(s: Option<string>) { s.Some? && s.value != "" }
}
