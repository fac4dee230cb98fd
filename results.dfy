/** Error values and wrappers shared by the model.

    The Python code raises `ValueError` (bad configuration, wrong vector length, qubit index out of
    range) and `AssertionError` (a code layout whose check list has the wrong length). Each of
    these becomes a constructor of `QecError`, returned through `Result` or `Outcome`. */
module Results {

  datatype QecError =
    | CodeTooSmall(n: int)                      // RepetitionCode with n < 3
    | LengthMismatch(expected: int, got: int)   // error vector of the wrong length
    | QubitOutOfRange(k: int)                   // single-flip oracle with k outside [0, n)
    | ProbabilityOutOfRange(p: real)            // BitFlipChannel with p outside [0, 1]
    | ChecksLengthMismatch                      // validate(): len(checks) != n - 1
    | StabilizersLengthMismatch                 // validate(): len(stabilizers) != n - 1

  datatype Option<+T> = None | Some(value: T)

  datatype Result<+T> = Ok(value: T) | Err(error: QecError)

  /** The result of an operation that returns nothing but may raise. */
  datatype Outcome = Pass | Fail(error: QecError)
}
