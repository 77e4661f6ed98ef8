/** Values shared by the data, domain and UI layers: an optional value, the
    throwables the application tells apart, and the `Result` wrapper that
    repositories and use cases emit. */
module Results {

  datatype Option<+T> = None | Some(value: T)

  /** The throwables the application distinguishes.
      `Wrapped(cause)` is a plain `Exception` built around another throwable,
      which is how the use-case layer turns an upstream failure into a value. */
  datatype Throwable =
    | IOErr                      // an I/O exception (no connection, reset, ...)
    | ResponseErr(status: int)   // an HTTP response exception carrying its status code
    | Other                      // any other throwable
    | Wrapped(cause: Throwable)  // `Exception(cause)`

  /** Either the data of a successful operation or the exception it failed with. */
  datatype Result<+T> = Success(data: T) | Error(exception: Throwable)
}
