/** The shapes of outbound HTTP traffic as the proxy sees them through its
    HTTP client: the request it builds and the three ways a call can end. */
module Http {
  import opened Basics

  /** Header names as the code spells them; response header names arrive
      lower-cased. */
  type Headers = map<string, string>

  const Authorization: string := "Authorization"
  const WwwAuthenticate: string := "www-authenticate"
  const Location: string := "location"

  /** One outbound request: target, headers, timeout and redirect policy. */
  datatype Request = Request(url: string, headers: Headers, timeoutMs: nat, followRedirect: bool)

  /** A response the client resolved with: its headers and, for the token
      endpoint, the `token` field of its JSON body. */
  datatype Response = Response(headers: Headers, token: Option<string>)

  /** How one call ends: resolved with a response, thrown as an HTTP error
      that carries the status and headers, or thrown without any response
      (timeout, connection failure). */
  datatype Outcome =
    | Delivered(response: Response)
    | Rejected(status: int, headers: Headers)
    | Unreachable(reason: string)
  {
    /** True of an HTTP error with status 401. */
    predicate Unauthorized() {
      Rejected? && status == 401
    }
  }

  /** `headers[name]`: the value, or nothing when the header is absent. */
  function Header(h: Headers, name: string): (r: Option<string>)
    ensures r.Some? <==> name in h
    ensures r.Some? ==> r.value == h[name]
  {
    if name in h then Some(h[name]) else None
  }
}
