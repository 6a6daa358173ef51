/** Option and Result: the absent value and the match failure of the conversion patterns. */
module Wrappers {

  datatype Option<+T> = None | Some(value: T)

  /** The outcome of a rewrite pattern: the rewrite, or a match failure carrying its diagnostic. */
  datatype Result<+T> = Success(value: T) | Failure(error: string)
}
