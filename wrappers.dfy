/** Optional values and results shared by the models: JavaScript's `undefined`/`null`
    become `None`, a thrown exception becomes `Failure`. */
module Wrappers {

  datatype Option<+T> = None | Some(value: T)

  datatype Result<+T, +E> = Success(value: T) | Failure(error: E)

  /** JavaScript truthiness of an optional string: neither undefined/null nor "". */
  predicate Truthy(s: Option<string>)
  {
    s.Some? && s.value != ""
  }
}
