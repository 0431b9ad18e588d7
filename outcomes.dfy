/** The error outcomes of `subprocesses` and the two result wrappers used by the model. */
module Outcomes {
  import opened Templates

  /** The exceptions of `subprocesses` the model covers, one constructor per exception,
      with `AssertionError` split by its message. */
  datatype Error =
    /** TypeError: the items are neither all strings nor all tuples (dpipe.py:77). */
    | TypeError
    /** AssertionError 'Items in iterable not uniform in length' (dpipe.py:85). */
    | NotUniform
    /** AssertionError 'Number of dummies does not match iterable item length' (dpipe.py:81, 86). */
    | DummyMismatch
    /** CalledProcessError carrying the exit code and the command of the failing child (dpipe.py:114). */
    | CalledProcessError(returncode: int, cmd: seq<Token>)

  /** A value or the exception raised instead. */
  datatype Result<T> = Ok(value: T) | Err(error: Error)

  /** Normal return (no value) or the exception raised instead. */
  datatype Outcome = Pass | Fail(error: Error)
}
