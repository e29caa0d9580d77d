/** Failure-carrying values shared by every module: Go's `(T, error)` pairs
    become a Result, an optional value (a nil error, a nil reference) an Option,
    and a computation that may end the whole process with os.Exit an Exit. */
module Wrappers {

  datatype Option<+T> = None | Some(value: T)

  datatype Result<+T> = Ok(value: T) | Err(error: string)

  /** Either the value computed, or the process terminated with `status`. */
  datatype Exit<+T> = Done(value: T) | Exited(status: int)

  /** The status a Go runtime panic ends the process with. */
  const PanicStatus := 2
}
