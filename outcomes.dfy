/** Values and outcomes of the Python runtime that the webhook guard relies on:
    an optional value, the exceptions its code can raise, and a result that is
    either a returned value or a raised exception. */
module Outcomes {

  datatype Option<+T> = None | Some(value: T)

  /** The exceptions that the guard's code, or the library code it calls, can
      raise past the guard. `json.JSONDecodeError` is not listed: the guard
      catches it. */
  datatype PyError =
    | TypeError           // `in` or `[...]` applied to a value that does not support it
    | KeyError            // a dict subscripted with a key it does not hold
    | IndexError          // `[0]` on an empty list or string
    | UnicodeDecodeError  // `bytes.decode("utf-8")` on a malformed byte sequence
    | RecursionError      // `json.loads` on input nested deeper than the recursion limit
    | ValueError          // `json.loads` on an integer literal longer than the digit limit

  /** Either the value an expression returned or the exception it raised. */
  datatype Result<+T> = Ok(value: T) | Raise(error: PyError) {

    predicate IsFailure() {
      Raise?
    }

    function PropagateFailure<U>(): Result<U>
      requires Raise?
    {
      Raise(error)
    }

    function Extract(): T
      requires Ok?
    {
      value
    }
  }
}
