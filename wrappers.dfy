/** Failure-compatible result types shared by every module of the model. */
module Wrappers {

  datatype Option<+T> = None | Some(value: T)

  /** The ways the modelled Python code stops with an exception. */
  datatype Error =
    | Assertion(what: string)   // an `assert` of the decoder failed (AssertionError)
    | Raised(message: string)   // `raise Exception(message)`
    | Overflow                  // `int.to_bytes` on a value that does not fit
    | BadEncoding               // `bytes.decode` / `str.encode` rejected the text (UnicodeError)
    | BadLiteral                // `int(s)` / `int(s, 16)` rejected the text (ValueError)
    | BadSeek                   // `seek` to a negative position (ValueError)
    | BadRead                   // `read(n)` on a buffered file with n below -1 (ValueError)
    | Missing(what: string)     // a missing file, dict key or unbound name
    | IndexOutOfRange           // a list subscript past the end (IndexError)
    | NotImplemented            // `raise NotImplementedError`

  datatype Result<+T> = Ok(value: T) | Err(error: Error) {
    predicate IsFailure() {
      Err?
    }

    function PropagateFailure<U>(): Result<U>
      requires Err?
    {
      Err(error)
    }

    function Extract(): T
      requires Ok?
    {
      value
    }
  }

  /** `Need(c, e)` fails with `e` unless `c` holds; used with `:-`. */
  datatype Outcome = Pass | Fail(error: Error) {
    predicate IsFailure() {
      Fail?
    }

    function PropagateFailure<U>(): Result<U>
      requires Fail?
    {
      Err(error)
    }
  }

  function Need(condition: bool, error: Error): Outcome {
    if condition then Pass else Fail(error)
  }
}
