/** `System.Net.HttpStatusCode`: the codes the core branches on, and how `ToString()` renders a code. */
module HttpStatus {
  import opened Text

  const OK: int := 200
  const BadRequest: int := 400
  const Unauthorized: int := 401
  const Forbidden: int := 403
  const NotFound: int := 404
  const TooManyRequests: int := 429
  const InternalServerError: int := 500
  const BadGateway: int := 502
  const ServiceUnavailable: int := 503
  const GatewayTimeout: int := 504

  /**
   * The enum member name of a code, as string interpolation prints it; a code without a name
   * prints as its number. A code with two member names prints as one fixed name of the two.
   */
  function StatusName(code: int): string {
    match code
    case 100 => "Continue"
    case 101 => "SwitchingProtocols"
    case 102 => "Processing"
    case 103 => "EarlyHints"
    case 200 => "OK"
    case 201 => "Created"
    case 202 => "Accepted"
    case 203 => "NonAuthoritativeInformation"
    case 204 => "NoContent"
    case 205 => "ResetContent"
    case 206 => "PartialContent"
    case 207 => "MultiStatus"
    case 208 => "AlreadyReported"
    case 226 => "IMUsed"
    case 300 => "Ambiguous"
    case 301 => "Moved"
    case 302 => "Redirect"
    case 303 => "RedirectMethod"
    case 304 => "NotModified"
    case 305 => "UseProxy"
    case 306 => "Unused"
    case 307 => "RedirectKeepVerb"
    case 308 => "PermanentRedirect"
    case 400 => "BadRequest"
    case 401 => "Unauthorized"
    case 402 => "PaymentRequired"
    case 403 => "Forbidden"
    case 404 => "NotFound"
    case 405 => "MethodNotAllowed"
    case 406 => "NotAcceptable"
    case 407 => "ProxyAuthenticationRequired"
    case 408 => "RequestTimeout"
    case 409 => "Conflict"
    case 410 => "Gone"
    case 411 => "LengthRequired"
    case 412 => "PreconditionFailed"
    case 413 => "RequestEntityTooLarge"
    case 414 => "RequestUriTooLong"
    case 415 => "UnsupportedMediaType"
    case 416 => "RequestedRangeNotSatisfiable"
    case 417 => "ExpectationFailed"
    case 421 => "MisdirectedRequest"
    case 422 => "UnprocessableEntity"
    case 423 => "Locked"
    case 424 => "FailedDependency"
    case 426 => "UpgradeRequired"
    case 428 => "PreconditionRequired"
    case 429 => "TooManyRequests"
    case 431 => "RequestHeaderFieldsTooLarge"
    case 451 => "UnavailableForLegalReasons"
    case 500 => "InternalServerError"
    case 501 => "NotImplemented"
    case 502 => "BadGateway"
    case 503 => "ServiceUnavailable"
    case 504 => "GatewayTimeout"
    case 505 => "HttpVersionNotSupported"
    case 506 => "VariantAlsoNegotiates"
    case 507 => "InsufficientStorage"
    case 508 => "LoopDetected"
    case 510 => "NotExtended"
    case 511 => "NetworkAuthenticationRequired"
    case _ => IntToString(code)
  }
}
