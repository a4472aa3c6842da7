/**
 * What the views hand back to the web framework: a JSON response with a
 * status code, a streamed body, or an exception that escaped the view.
 */
module Http {
  import opened Wrappers

  /** A JSON value as `jsonify` serialises it. */
  datatype Json =
    | JNull
    | JBool(b: bool)
    | JInt(i: int)
    | JStr(s: string)
    | JList(items: seq<Json>)
    | JObject(fields: map<string, Json>)

  newtype byte = x: int | 0 <= x < 256

  /** The Python exceptions that can escape a view or the importer. */
  datatype PyException = TypeError | ValueError | UnboundLocalError

  datatype Response =
    | JsonResponse(status: int, body: map<string, Json>)
    | StreamResponse(status: int, contentType: string, chunks: seq<seq<byte>>)
    | Uncaught(exception: PyException)

  /** werkzeug's `HTTP_STATUS_CODES` (werkzeug 1.0): the reason phrase of each status it names. */
  function StatusPhrase(code: int): Option<string> {
    match code
    case 100 => Some("Continue")
    case 101 => Some("Switching Protocols")
    case 102 => Some("Processing")
    case 103 => Some("Early Hints")
    case 200 => Some("OK")
    case 201 => Some("Created")
    case 202 => Some("Accepted")
    case 203 => Some("Non Authoritative Information")
    case 204 => Some("No Content")
    case 205 => Some("Reset Content")
    case 206 => Some("Partial Content")
    case 207 => Some("Multi Status")
    case 208 => Some("Already Reported")
    case 226 => Some("IM Used")
    case 300 => Some("Multiple Choices")
    case 301 => Some("Moved Permanently")
    case 302 => Some("Found")
    case 303 => Some("See Other")
    case 304 => Some("Not Modified")
    case 305 => Some("Use Proxy")
    case 306 => Some("Switch Proxy")
    case 307 => Some("Temporary Redirect")
    case 308 => Some("Permanent Redirect")
    case 400 => Some("Bad Request")
    case 401 => Some("Unauthorized")
    case 402 => Some("Payment Required")
    case 403 => Some("Forbidden")
    case 404 => Some("Not Found")
    case 405 => Some("Method Not Allowed")
    case 406 => Some("Not Acceptable")
    case 407 => Some("Proxy Authentication Required")
    case 408 => Some("Request Timeout")
    case 409 => Some("Conflict")
    case 410 => Some("Gone")
    case 411 => Some("Length Required")
    case 412 => Some("Precondition Failed")
    case 413 => Some("Request Entity Too Large")
    case 414 => Some("Request URI Too Long")
    case 415 => Some("Unsupported Media Type")
    case 416 => Some("Requested Range Not Satisfiable")
    case 417 => Some("Expectation Failed")
    case 418 => Some("I'm a teapot")
    case 421 => Some("Misdirected Request")
    case 422 => Some("Unprocessable Entity")
    case 423 => Some("Locked")
    case 424 => Some("Failed Dependency")
    case 425 => Some("Too Early")
    case 426 => Some("Upgrade Required")
    case 428 => Some("Precondition Required")
    case 429 => Some("Too Many Requests")
    case 431 => Some("Request Header Fields Too Large")
    case 449 => Some("Retry With")
    case 451 => Some("Unavailable For Legal Reasons")
    case 500 => Some("Internal Server Error")
    case 501 => Some("Not Implemented")
    case 502 => Some("Bad Gateway")
    case 503 => Some("Service Unavailable")
    case 504 => Some("Gateway Timeout")
    case 505 => Some("HTTP Version Not Supported")
    case 506 => Some("Variant Also Negotiates")
    case 507 => Some("Insufficient Storage")
    case 508 => Some("Loop Detected")
    case 510 => Some("Not Extended")
    case 511 => Some("Network Authentication Failed")
    case _ => None
  }

  /** `HTTP_STATUS_CODES.get(code, 'Internal Server Error')` */
  function ReasonPhrase(code: int): string {
    if StatusPhrase(code).Some? then StatusPhrase(code).value else "Internal Server Error"
  }

  /** The `message` entry of a JSON response, or "" when there is none. */
  function MessageOf(r: Response): string {
    if r.JsonResponse? && "message" in r.body && r.body["message"].JStr? then r.body["message"].s
    else ""
  }

  /** The status code the client sees; an escaped exception becomes a 500 page. */
  function StatusOf(r: Response): int {
    match r
    case JsonResponse(status, _) => status
    case StreamResponse(status, _, _) => status
    case Uncaught(_) => 500
  }
}
