/** Value wrappers shared by every module: C# `null` and thrown exceptions become data. */
module Common {

  /** A possibly-null reference: `None` stands for C# `null`. */
  datatype Option<+T> = None | Some(value: T)

  /** The .NET exceptions the modelled code can throw, by type. */
  datatype Error =
    | ArgumentNull(paramName: string)
    | Argument(paramName: string)
    | ArgumentOutOfRange
    | InvalidOperation
    | Format
    | Overflow
    | NullReference
    | FileNotFound(path: string)

  /** A call that either returns a value or throws. */
  datatype Result<+T> = Success(value: T) | Failure(error: Error) {
    predicate IsFailure() {
      Failure?
    }

    function PropagateFailure<U>(): Result<U>
      requires Failure?
    {
      Failure(error)
    }

    function Extract(): T
      requires Success?
    {
      value
    }
  }

  /** A `void` call that either completes or throws. */
  datatype Outcome = Pass | Fail(error: Error)
}
