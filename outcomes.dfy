/** The exceptions the scheduler can raise, and a failure-compatible result type. */
module Outcomes {

  /** One constructor per exception the core can raise before submission. */
  datatype Error =
    | RemoteNotGitHub              // the `assert` on the remote URL fails (AssertionError)
    | MissingKey(key: string)      // `d[key]` or `d.pop(key)` on a dict without `key` (KeyError)
    | MissingIndex(index: nat)     // `d[0]` on a dict: keys are strings, so 0 is never a key (KeyError)
    | IndexOutOfRange              // `s[0]` on an empty list or string (IndexError)
    | WrongType                    // an operation the value's type does not support (TypeError)
    | NoSuchAttribute              // `.pop` on a value that has no such method (AttributeError)
    | TaskCountError(count: nat)   // the rendered `tasks` does not hold exactly one task

  datatype Result<+T> = Success(value: T) | Failure(error: Error) {
    predicate IsFailure() {
      Failure?
    }

    function PropagateFailure<U>(): Result<U>
      requires Failure?
    {
      Failure(error)
    }

    function Extract(): T
      requires Success?
    {
      value
    }
  }
}
