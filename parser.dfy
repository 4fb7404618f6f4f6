/**
 * The HTTP/1.1 start-line parser (src/http/parser.rs): one line of text is
 * split into whitespace-separated tokens and classified as a status line
 * (section 4 of RFC 9112) when its first token starts with `HTTP/`, and as a
 * request line (section 3 of RFC 9112) otherwise.  The outcome is a typed
 * start line, or the status code the server answers a rejected line with:
 * 400 for a malformed line, 501 for a known method the server does not serve.
 */
module StartLineParser {
  import opened Whitespace
  import opened DecimalU16

  /** Rust's `Result`, usable with `:-` as Rust's `?` operator. */
  datatype Result<T, E> = Ok(value: T) | Err(error: E) {
    predicate IsFailure()
    {
      Err?
    }

    function PropagateFailure<U>(): Result<U, E>
      requires Err?
    {
      Err(error)
    }

    function Extract(): T
      requires Ok?
    {
      value
    }
  }

  /** Only HTTP/1.1 is representable (section 2.3 of RFC 9112). */
  datatype HttpVersion = Http11

  /** The methods a server must support (section 9.1 of RFC 9110). */
  datatype Method = GET | HEAD

  /** The parser's error channel.  Only BadRequest and NotImplemented are ever
      produced; the other three are kept for future checks. */
  datatype StatusCode = BadRequest | MethodNotAllowed | URITooLong | NotImplemented | GatewayTimeout
  {
    /** The numeric code the server sends (`status_code as u16`): a client
        error (4xx) for the malformed-request members, a server error (5xx)
        for the others. */
    function Code(): (n: u16)
      ensures 400 <= n < 600
      ensures n < 500 <==> (this == BadRequest || this == MethodNotAllowed || this == URITooLong)
    {
      match this
      case BadRequest => 400
      case MethodNotAllowed => 405
      case URITooLong => 414
      case NotImplemented => 501
      case GatewayTimeout => 504
    }
  }

  datatype RequestLine = RequestLine(requestMethod: Method, requestTarget: string, httpVersion: HttpVersion)

  /** The reason phrase is optional (section 4 of RFC 9112) and not kept. */
  datatype StatusLine = StatusLine(httpVersion: HttpVersion, statusCode: u16)

  datatype StartLine = Request(request: RequestLine) | Status(status: StatusLine)

  /** The methods the parser recognises but does not serve: the six other
      methods of section 9.3 of RFC 9110, and PATCH from RFC 5789. */
  const UnsupportedMethods: set<string> :=
    {"POST", "PUT", "DELETE", "PATCH", "OPTIONS", "TRACE", "CONNECT"}

  /** The token that names a method. */
  function MethodToken(m: Method): (s: string)
    ensures s != [] && NoWhitespace(s) && !HasHttpPrefix(s)
    ensures s !in UnsupportedMethods
    ensures ParseMethod(s) == Ok(m)
  {
    match m
    case GET => "GET"
    case HEAD => "HEAD"
  }

  /** The token that names a version. */
  function VersionToken(v: HttpVersion): (s: string)
    ensures s != [] && NoWhitespace(s) && HasHttpPrefix(s)
    ensures ParseHttpVersion(s) == Ok(v)
  {
    match v
    case Http11 => "HTTP/1.1"
  }

  /** `parse_method`: GET and HEAD are served, the six other methods of
      RFC 9110 and PATCH (RFC 5789) are Not Implemented, any other token is a
      Bad Request. */
  function ParseMethod(s: string): (r: Result<Method, StatusCode>)
    ensures r == Ok(GET) <==> s == "GET"
    ensures r == Ok(HEAD) <==> s == "HEAD"
    ensures r == Err(NotImplemented) <==> s in UnsupportedMethods
    ensures r.Err? ==> r.error == BadRequest || r.error == NotImplemented
  {
    match s
    case "GET" => Ok(GET)
    case "HEAD" => Ok(HEAD)
    case "POST" => Err(NotImplemented)
    case "PUT" => Err(NotImplemented)
    case "DELETE" => Err(NotImplemented)
    case "PATCH" => Err(NotImplemented)
    case "OPTIONS" => Err(NotImplemented)
    case "TRACE" => Err(NotImplemented)
    case "CONNECT" => Err(NotImplemented)
    case _ => Err(BadRequest)
  }

  /** `parse_http_version`: the exact literal `HTTP/1.1` and nothing else. */
  function ParseHttpVersion(s: string): (r: Result<HttpVersion, StatusCode>)
    ensures r == Ok(Http11) <==> s == "HTTP/1.1"
    ensures r.Err? ==> r.error == BadRequest
  {
    match s
    case "HTTP/1.1" => Ok(Http11)
    case _ => Err(BadRequest)
  }

  /** `str::starts_with("HTTP/")`: the first five characters are `HTTP/`. */
  function HasHttpPrefix(s: string): (b: bool)
    ensures b <==> |s| >= 5 && s[0] == 'H' && s[1] == 'T' && s[2] == 'T' && s[3] == 'P' && s[4] == '/'
  {
    "HTTP/" <= s
  }

  /** `parse_start_line`: classify and validate the tokens of the line.
      Only BadRequest and NotImplemented come out as errors, and a parsed
      line is a status line exactly when its first token starts with
      `HTTP/`. */
  function ParseStartLine(line: string): (r: Result<StartLine, StatusCode>)
    ensures r.Err? ==> r.error == BadRequest || r.error == NotImplemented
    ensures r.Ok? ==> 2 <= |Tokens(line)| <= 3
    ensures r.Ok? ==> (r.value.Status? <==> HasHttpPrefix(Tokens(line)[0]))
  {
    TokensTrim(line);
    ParseParts(Tokens(Trim(line)))
  }

  /** The body of `parse_start_line` after the line is split into `parts`. */
  function ParseParts(parts: seq<string>): (r: Result<StartLine, StatusCode>)
    ensures r.Err? ==> r.error == BadRequest || r.error == NotImplemented
    ensures r.Ok? ==> 2 <= |parts| <= 3
    ensures r.Ok? ==> (r.value.Status? <==> HasHttpPrefix(parts[0]))
  {
    if |parts| < 2 || |parts| > 3 then Err(BadRequest)
    else if HasHttpPrefix(parts[0]) then
      var httpVersion :- ParseHttpVersion(parts[0]);
      (match ParseU16(parts[1])
       case None => Err(BadRequest)
       case Some(statusCode) => Ok(Status(StatusLine(httpVersion, statusCode))))
    else if |parts| != 3 then Err(BadRequest)
    else
      var requestMethod :- ParseMethod(parts[0]);
      var requestTarget := parts[1];
      var httpVersion :- ParseHttpVersion(parts[2]);
      Ok(Request(RequestLine(requestMethod, requestTarget, httpVersion)))
  }
}
