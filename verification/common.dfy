/** Option, results and the error kinds the request handlers answer with. */
module Common {

  datatype Option<+T> = None | Some(value: T)

  /** A handler's reply: a value, or one of the error kinds below. */
  datatype Result<+T> = Ok(value: T) | Err(error: Error)

  /** A handler's reply when success carries no value. */
  datatype Outcome = Pass | Fail(error: Error)

  /**
   * Error kinds. The comment on each gives the HTTP status the backend
   * answers with; the wire format itself is not modelled.
   */
  datatype Error =
    | MissingFields        // 400: a required request field is absent or falsy
    | EmailTaken           // 400: signup with an email that is already verified
    | CustomerNotFound     // 404: no customer with that email
    | WrongOtp             // 400: one-time code does not match the stored one
    | WrongPassword        // 401
    | BadAuthHeader        // 401: no Authorization header, or it does not start with "Bearer "
    | UnknownSession       // 401: no active session carries that token
    | SessionExpired       // 401: the matching session is past its validity
    | InvalidSession       // 401: legacy booking, no active session for that user and token
    | RouteNotFound        // 404
    | BusNotFound          // 404
    | BookingNotFound      // 404
    | NotEnoughSeats       // 400: request exceeds capacity minus seats already booked
    | SeatsExceedCapacity  // 400: legacy booking, request exceeds the bus capacity
    | ServerError          // 500: an exception escaped the handler

  /** pat occurs in s starting at index i. */
  predicate OccursAt(pat: string, s: string, i: int) {
    0 <= i && i + |pat| <= |s| && s[i..i + |pat|] == pat
  }

  /** pat occurs somewhere in s (Python's `pat in s`). */
  predicate Occurs(pat: string, s: string) {
    exists i | 0 <= i <= |s| - |pat| :: OccursAt(pat, s, i)
  }
}
