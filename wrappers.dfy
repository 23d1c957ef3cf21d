/** Option, Result and the process-exit outcome shared by the other modules. */
module Wrappers {

  datatype Option<+T> = None | Some(value: T) {
    /** The carried value, or `default` when there is none. */
    function GetOr(default: T): T {
      match this
      case Some(v) => v
      case None => default
    }
  }

  /** A value or an error status, like C++ `StatusOr<T>`. */
  datatype Result<+T, +E> = Success(value: T) | Failure(error: E)

  /** How a call ends when it may abort the whole process (`LOG(FATAL)`,
      a failed `CHECK_EQ`): either it returns a value, or the process stops. */
  datatype Exit<+T> = Return(value: T) | Fatal(message: string)
}
