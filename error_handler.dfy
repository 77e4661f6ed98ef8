/** The classifier that turns a throwable into the message shown to the user. */
module ErrorHandling {
  import opened Results

  /** HTTP status codes the classifier recognises. */
  const HttpInternalError: int := 500
  const HttpNotFound: int := 404

  /** The four messages the classifier can produce. */
  const NoInternet: string := "No internet connection"
  const InternalServerError: string := "Internal server error"
  const ResourceNotFound: string := "Resource not found"
  const UnexpectedError: string := "An unexpected error occurred"

  const Messages: set<string> := {NoInternet, InternalServerError, ResourceNotFound, UnexpectedError}

  /** Maps every throwable to one of the four messages. Each message is
      produced for exactly one class of throwables. */
  function GetError(t: Throwable): (msg: string)
    ensures msg in Messages
    ensures msg == NoInternet <==> t.IOErr?
    ensures msg == InternalServerError <==> t.ResponseErr? && t.status == HttpInternalError
    ensures msg == ResourceNotFound <==> t.ResponseErr? && t.status == HttpNotFound
    ensures msg == UnexpectedError <==>
      !t.IOErr? && !(t.ResponseErr? && (t.status == HttpInternalError || t.status == HttpNotFound))
  {
    match t
    case IOErr => NoInternet
    case ResponseErr(status) =>
      if status == HttpInternalError then InternalServerError
      else if status == HttpNotFound then ResourceNotFound
      else UnexpectedError
    case _ => UnexpectedError
  }

  /** The range of the classifier is exactly the four messages: there are four
      distinct messages and each is produced by some throwable. */
  lemma MessagesAreExactlyFour()
    ensures |Messages| == 4
    ensures forall m :: m in Messages <==> exists t :: GetError(t) == m
  {
    assert NoInternet != InternalServerError && NoInternet != ResourceNotFound &&
           NoInternet != UnexpectedError && InternalServerError != ResourceNotFound &&
           InternalServerError != UnexpectedError && ResourceNotFound != UnexpectedError;
    assert GetError(IOErr) == NoInternet;
    assert GetError(ResponseErr(HttpInternalError)) == InternalServerError;
    assert GetError(ResponseErr(HttpNotFound)) == ResourceNotFound;
    assert GetError(Other) == UnexpectedError;
  }

  /** A throwable wrapped in a new exception is no longer recognised: the
      wrapper is neither an I/O nor a response exception. */
  lemma WrappedIsUnexpected(cause: Throwable)
    ensures GetError(Wrapped(cause)) == UnexpectedError
  {
  }
}
