/** The responses that castle makes up itself, and how they are printed. */
module Responses {
  import opened RequestHead

  datatype Answer =
    | HeaderTooLarge
    | MalformedRequest
    | RepeatedLength
    | BadLength
    | ChunkedBody
    | BodyTooLarge
    | NoRoute
    | Upstream(why: string)
    | MethodNotAllowed
    | Health(allUp: bool, text: string, headOnly: bool)
    | Uptime(text: string, headOnly: bool)
    | UnknownEndpoint(headOnly: bool)

  function Code(a: Answer): nat {
    match a
    case HeaderTooLarge => 431
    case MalformedRequest => 400
    case RepeatedLength => 400
    case BadLength => 400
    case ChunkedBody => 501
    case BodyTooLarge => 413
    case NoRoute => 404
    case Upstream(_) => 502
    case MethodNotAllowed => 405
    case Health(allUp, _, _) => if allUp then 200 else 503
    case Uptime(_, _) => 200
    case UnknownEndpoint(_) => 404
  }

  function Reason(code: nat): string {
    match code
    case 200 => "OK"
    case 400 => "Bad Request"
    case 404 => "Not Found"
    case 405 => "Method Not Allowed"
    case 413 => "Payload Too Large"
    case 431 => "Request Header Fields Too Large"
    case 501 => "Not Implemented"
    case 502 => "Bad Gateway"
    case _ => "Service Unavailable"
  }

  function Text(a: Answer): string {
    match a
    case HeaderTooLarge => "header too large"
    case MalformedRequest => "malformed request"
    case RepeatedLength => "duplicate content-length"
    case BadLength => "invalid content-length"
    case ChunkedBody => "chunked request body unsupported"
    case BodyTooLarge => "request body too large"
    case NoRoute => "no matching route"
    case Upstream(why) => why
    case MethodNotAllowed => "use GET or HEAD\n"
    case Health(_, text, _) => text
    case Uptime(text, _) => text
    case UnknownEndpoint(_) => "unknown castle endpoint\n"
  }

  predicate HeadOnly(a: Answer) {
    (a.Health? || a.Uptime? || a.UnknownEndpoint?) && a.headOnly
  }

  const BEFORE_LENGTH := "Content-Type: text/plain\r\nContent-Length: "
  const AFTER_LENGTH := "\r\n" + "Cache-Control: no-store\r\n" + "Connection: close\r\n\r\n"

  function Head(code: nat, reason: string, length: nat): string {
    "HTTP/1.1 " + DecimalText(code) + " " + reason + "\r\n" + BEFORE_LENGTH + DecimalText(length) + AFTER_LENGTH
  }

  function Render(a: Answer): string {
    var head := Head(Code(a), Reason(Code(a)), |Text(a)|);
    if HeadOnly(a) then head else head + Text(a)
  }
}
