/** What the transport hands back to the middleware, and the error the middleware
    raises for a response it does not accept. The transport itself and the body
    decoders `res.json()` / `res.text()` are foreign code: a response carries, as
    data, what each decoder would produce for it. */
module Exchange {
  import opened Values

  /** An exception thrown by foreign code (the transport or a body decoder). */
  datatype Thrown = Thrown(message: string)

  /** A response as the middleware sees it: its status, the transport's `ok` flag,
      the `Content-Type` header if present, and the outcome of decoding the body
      as JSON and as text. */
  datatype Response = Response(
    status: int,
    ok: bool,
    contentType: Option<string>,
    json: Result<Value, Thrown>,
    text: Result<string, Thrown>)

  /** The error raised when a response is not accepted. Only its data fields are
      modelled; the formatted message is not. */
  datatype FetchError = FetchError(route: string, response: Response, body: Value)
}
