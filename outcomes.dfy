/** Go's two-valued results: an optional value, and an `error` that is nil or
    carries its message. */
module Outcomes {

  datatype Option<+T> = None | Some(value: T)

  /** A Go `error` value: `Ok` stands for nil, `Err` for `errors.New(message)`. */
  datatype Outcome = Ok | Err(message: string)
}
