/**
 * The parts of the HTTP layer (PSR-7 messages and Guzzle's exceptions) that
 * the batch dispatcher relies on, as plain values.
 */
module Http {

  datatype Option<+T> = None | Some(value: T)

  /** One header line: a name and a value. */
  type Header = (string, string)

  /** An immutable PSR-7 request: the dispatcher only ever adds headers to it. */
  datatype Request = Request(verb: string, uri: string, headers: seq<Header>, body: string)

  /** A response as the transport delivers it. */
  datatype Response = Response(status: int, body: string)

  /**
   * The exception a rejected transfer carries: a connection failure (no
   * response at all) or any other request exception, which may or may not
   * carry a response.
   */
  datatype RequestException =
    | ConnectException
    | OtherRequestException(response: Option<Response>)

  /** How one dispatched transfer settles. */
  datatype Outcome = Fulfilled(response: Response) | Rejected(exception: RequestException)

  /** The values of header `name`, in the order they were added (PSR-7 getHeader). */
  function HeaderValues(headers: seq<Header>, name: string): (values: seq<string>)
    ensures |values| <= |headers|
  {
    if headers == [] then []
    else
      var last := headers[|headers| - 1];
      HeaderValues(headers[..|headers| - 1], name) + (if last.0 == name then [last.1] else [])
  }

  /** PSR-7 withAddedHeader: a new request with one more value for `name`. */
  function WithAddedHeader(req: Request, name: string, value: string): (r: Request)
    ensures r.verb == req.verb && r.uri == req.uri && r.body == req.body
    ensures forall m :: (HeaderValues(r.headers, m) ==
      HeaderValues(req.headers, m) + (if m == name then [value] else []))
  {
    var r := req.(headers := req.headers + [(name, value)]);
    assert r.headers[..|r.headers| - 1] == req.headers;
    r
  }
}
