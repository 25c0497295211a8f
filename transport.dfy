/** The HTTP transport as seen by the API functions: one GET per URL, giving
    the body bytes or an error, in Go's `([]byte, error)` shape. */
module Transport {
  import opened Wrappers
  import opened NetUrl

  newtype byte = b: int | 0 <= b < 256

  /** A Go `error` value; only its message is observable. */
  datatype Error = Error(message: string)

  /** What a GET returns: the body, and an error that is `None` when Go's is nil.
      A nil byte slice is the empty sequence. */
  datatype Response = Response(body: seq<byte>, err: Option<Error>)

  /** The transport: performs a GET on a URL. */
  type Fetch = Url -> Response
}
