/** Error values for the exceptions the EasyWMI core raises, and the
    Option/Result/Outcome wrappers that carry them instead of a throw. */
module Results {

  /** The exceptions of the core, one constructor per cause. */
  datatype Error =
    | IndexOutOfRange   // propVal[VALUE] on a line without '='
    | DuplicateKey      // Dictionary.Add of a key that is already present (an ArgumentException)
    | MissingRequest    // ExecuteRequest with the NONE alias (an ArgumentException)
    | NullReference     // a member access through a null Alias
    | ProcessFailure    // Process.Start or WaitForExit threw; rethrown unchanged

  /** A value, or the exception that replaced it. */
  datatype Result<+T> = Ok(value: T) | Fail(error: Error)

  /** A nullable reference or a missing lookup. */
  datatype Option<+T> = None | Some(value: T)

  /** The completion of a void method: it returned, or it threw. */
  datatype Outcome = Pass | Failed(error: Error)
}
