/** The Python exceptions the test scripts' shape helpers can raise. */
module PythonErrors {
  /**
   * AssertionError: a failed `assert`. ZeroDivisionError: `//` by zero.
   * RuntimeError: a torch reshape or view whose element counts do not match.
   */
  datatype PyError = AssertionError | ZeroDivisionError | RuntimeError
}
