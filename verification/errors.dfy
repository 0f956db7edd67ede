/** Error values and call outcomes shared by the garden utility and the
    tagger collector. */
module Errors {

  /** Go's nil-able pointer: an absent value or a present one. */
  datatype Option<+T> = None | Some(value: T)

  /** The errors the modelled code receives from its collaborators or builds itself. */
  datatype Error =
    | WillRetry(reason: string)                // a retrier failure that will be retried on a later call
    | PermanentFailure(reason: string)         // a retrier failure whose attempt budget is spent
    | BackendError(reason: string)             // returned by the garden client or the cgroup scraper
    | Wrapped(context: string, cause: Error)   // fmt.Errorf("<context>: %v", cause)
    | NotFound(entity: string)                 // errors.NewNotFound(entity)

  /** The result of a call into code outside the model: a value or an error. */
  datatype Result<+T> = Ok(value: T) | Err(error: Error)

  /** How a modelled Go call ends: it returns a value, returns an error,
      panics (a nil dereference), or blocks forever (a send on a nil channel). */
  datatype Outcome<+T> =
    | Returned(value: T)
    | Failed(error: Error)
    | Panicked(reason: string)
    | Blocked

  /** The Go runtime's message for a nil pointer dereference. */
  const NilDereference: string := "invalid memory address or nil pointer dereference"

  /** retry.IsErrWillRetry: the error says the retrier will try again. */
  predicate IsErrWillRetry(e: Error) {
    e.WillRetry?
  }
}
