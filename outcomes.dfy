/** Value-or-failure wrappers shared by the model.
    Go functions in the modelled code return `(T, error)` or a bare `error`;
    the failure text is the `fmt.Errorf` prefix, without the wrapped cause. */
module Outcomes {

  datatype Option<+T> = None | Some(value: T)

  /** A Go `(T, error)` pair where exactly one side is meaningful. */
  datatype Result<+T> = Ok(value: T) | Err(msg: string)

  /** A bare Go `error`: `Nil` when the call succeeded. */
  datatype MaybeError = Nil | Error(msg: string)
}
