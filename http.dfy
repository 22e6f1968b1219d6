/** The slice of the `http` crate, the futures 0.1 `Poll` type and the
    proxy's HTTP/1 helpers that the two authority decorators see. */
module Http {

  datatype Option<+T> = None | Some(value: T)

  /** `http::uri::Authority`: validated `host[:port]` text, opaque here
      beyond equality. */
  type Authority(==)

  /** A header value; opaque beyond equality. */
  type HeaderValue(==)

  /** A header name in the `http` crate's normalised spelling: no
      upper-case ASCII letter. */
  type HeaderName = s: string | forall c | c in s :: !('A' <= c <= 'Z')

  /** `http::header::HOST`. */
  const Host: HeaderName := "host"

  /** A header map: each name holds the list of its values, in the order
      they were appended. */
  type Headers = map<HeaderName, seq<HeaderValue>>

  /** A header map as `http::HeaderMap` keeps it: no name is present with
      no value. */
  predicate WellFormedHeaders(h: Headers)
  {
    forall n :: n in h ==> h[n] != []
  }

  datatype Version = Http09 | Http10 | Http11 | Http2

  /** A request target: the authority part, when it has one (absolute form),
      and the path with its query. */
  datatype Uri = Uri(authority: Option<Authority>, pathAndQuery: string)

  /** `http::Request<B>`. */
  datatype Request<B> = Request(version: Version, uri: Uri, headers: Headers, body: B)

  /** The shape of `h1::set_authority`: given a URI and an authority, the URI
      it leaves behind. Its definition is not part of this model, so every
      operation that needs it takes it as a parameter. */
  type SetAuthority = (Uri, Authority) -> Uri

  /** futures 0.1 `Poll<T, E>`, that is `Result<Async<T>, E>`. */
  datatype Poll<+T, +E> = NotReady | Ready(value: T) | Err(error: E)

  /** What polling an inner future reports: still pending, resolved to a
      value, or failed. */
  datatype FutureState<+T, +E> = Pending | Resolved(value: T) | Failed(error: E)

  /** `HeaderMap::remove(HOST)`: every value stored under `host` goes, every
      other entry stays exactly as it was. */
  function RemoveHost(h: Headers): (r: Headers)
    ensures Host !in r
    ensures r.Keys == h.Keys - {Host}
    ensures forall n :: n in r ==> r[n] == h[n]
    ensures WellFormedHeaders(h) ==> WellFormedHeaders(r)
  {
    h - {Host}
  }

  /** Removing `host` a second time changes nothing. */
  lemma RemoveHostIdempotent(h: Headers)
    ensures RemoveHost(RemoveHost(h)) == RemoveHost(h)
  {
  }
}
