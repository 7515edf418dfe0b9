/** The HTTP values the callback server and the subscribe handshake exchange. */
module Http {
  import opened Wrappers

  newtype Byte = b: int | 0 <= b < 256

  /** What `wsgi.input.readline()` returns: the first line of the request body, never interpreted. */
  type Body = seq<Byte>

  /** A header as a (name, value) pair. */
  type Header = (string, string)

  /** What a WSGI application hands to `start_response` and returns as its body. */
  datatype Response = Response(status: string, headers: seq<Header>, body: string)

  /** An outgoing request: the verb, the URL and the headers, in order. */
  datatype Request = Request(verb: string, url: string, headers: seq<Header>)

  /** The value of the first header called `name`, if any. */
  function HeaderValue(headers: seq<Header>, name: string): Option<string> {
    if headers == [] then None
    else if headers[0].0 == name then Some(headers[0].1)
    else HeaderValue(headers[1..], name)
  }
}
