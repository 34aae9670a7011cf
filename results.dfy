/** Error values and the failure-carrying wrappers used by every other module. */
module Results {

  /** Why an operation of the service failed. */
  datatype Error =
    | Transport                   // the HTTP request could not be sent or answered
    | UnexpectedStatus(code: int) // the answer's status was not 200 OK
    | MalformedBody               // the JSON body did not decode
    | DecodeFailed                // a stored blob is absent or does not decode
    | NoSummaries                 // the cached summary collection is unusable
    | WriteFailed                 // a write transaction was not committed
    | CapacityPanic               // a slice capacity out of range: a run-time panic, not an error return

  /** A value or the error that prevented computing it (Go's `(T, error)` pair). */
  datatype Result<+T> = Ok(value: T) | Err(error: Error)

  /** A possibly absent value (a bolt lookup returns nil for a missing key). */
  datatype Option<+T> = None | Some(value: T)

  /** The outcome of a write transaction: committed, or rolled back with an error. */
  datatype Status = Committed | Aborted(error: Error)
}
