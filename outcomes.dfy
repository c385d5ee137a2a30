/** Results and exceptions shared by the filter compiler, the command runner
    and the lifecycle orchestrator. A Python `raise` becomes a returned
    exception value. */
module Outcomes {

  datatype Option<+T> = None | Some(value: T)

  /** The two exception classes the core raises: Python's built-in
      `Exception` (raised by tc.py and by `CommandRunner.expect` in util.py)
      and `BundlerException` (raised by bundler.py). The difference matters:
      `Bundler.check_dead` catches only the second kind. */
  datatype Exc = Exception(msg: string) | BundlerException(msg: string)

  datatype Result<+T> = Ok(value: T) | Err(error: Exc)
}
