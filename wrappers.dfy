/** Option and Result values for the error paths of the system's operations. */
module Wrappers {

  datatype Option<+T> = None | Some(value: T)

  datatype Result<+T, +E> = Ok(value: T) | Err(error: E)

  /**
    How an awaited call to the authentication service settled: it resolved, or
    it threw an error whose `message` is given ("" when the error has none).
   */
  datatype Outcome = Succeeded | Failed(message: string)
}
