/** Shared value types: optional values, results and the error values the client surfaces. */
module Base {

  /** An absent or present value (a Go nil pointer or a non-nil one). */
  datatype Option<+T> = None | Some(value: T)

  /** The errors the service library produces.
      A Go `fmt.Errorf("<context>: %v", cause)` becomes `Wrapped(context, cause)`;
      a Go runtime panic (nil dereference, index out of range) becomes `Panic`. */
  datatype Error =
    | Failure(message: string)
    | Wrapped(context: string, cause: Error)
    | Panic(reason: string)

  /** A value or the error that prevented it (Go's `(T, error)` pair). */
  datatype Result<+T> = Ok(value: T) | Err(error: Error)

  /** Raw bytes on the wire. */
  type Bytes = seq<bv8>
}
