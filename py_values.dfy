/** Values that cross the boundary between the model and the Python services it wraps. */
module PyValues {

  /** The Python exception classes the core raises, catches or re-raises. */
  datatype ExceptionKind =
    | ValueError
    | ConnectionError
    | UnexpectedResponse   // qdrant_client's HTTP error
    | ServiceError         // any other exception thrown inside a foreign service

  /** A raised exception; `message` is what `str(e)` gives. */
  datatype Exception = Exception(kind: ExceptionKind, message: string)

  /** A Python call that either returns a value or raises. */
  datatype Outcome<+T> = Returned(value: T) | Raised(error: Exception)

  /** One embedding: a list of floats, kept as opaque IEEE-754 bit patterns. */
  type Vector = seq<bv64>
}
