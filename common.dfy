/** Shared vocabulary of the model: optional values, the HTTP errors the route
    handlers raise, and the opaque identifiers of the stored documents. */
module Common {

  datatype Option<T> = None | Some(value: T)

  /** An error as the server's error handler reports it: an HTTP status code and
      the message. A thrown error without a status (a database error such as a
      duplicate key) is reported with status 500. */
  datatype Error = Error(status: int, message: string)

  datatype Result<T> = Ok(value: T) | Err(error: Error)

  /** Document identifiers are opaque; the model draws them from a counter. */
  type UserId = nat
  type MedId = nat
  type OrderId = nat
  type SlotId = nat
  type AppointmentId = nat
  type ReminderId = nat
  type SubscriptionId = nat
  type ProfileId = nat

  /** Times are milliseconds since the Unix epoch, as `Date.getTime()` gives. */
  type Millis = int

  const MillisPerMinute: int := 60000
  const MillisPerDay: int := 86400000
}
