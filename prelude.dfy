/** Swift language values the library builds on: optionals and the outcome of a `throws` call. */
module Prelude {

  /** Swift's `Optional`: `nil` or a wrapped value. */
  datatype Option<T> = None | Some(value: T)

  /** What evaluating a Swift `throws` expression produces: it returns a value or it throws an
      error. A throwing function `A throws -> B` is modelled as `A -> Completion<B, E>`. */
  datatype Completion<T, E> = Returned(value: T) | Threw(error: E)
}
