/**
 * The replies the handler sends and the server response object it writes
 * them to (`res.setHeader`, `res.status(...)`, `.json(...)`, `.end()`).
 */
module Http {
  import opened Wrappers
  import opened Fields

  /** The parsed JSON answer of the captcha verification service. */
  datatype CaptchaData = CaptchaData(success: bool, errorCodes: Option<seq<string>>)

  /** The JSON object (or empty body) of one reply. */
  datatype ReplyBody =
    | EmptyBody
    | MethodNotAllowed
    | EmailRequired(received: Body)
    | CountrycodeRequired(received: Body)
    | CaptchaTokenRequired(fieldChecked: seq<string>, receivedKeys: set<string>)
    | CaptchaVerificationFailed(details: Option<seq<string>>, captchaResponse: CaptchaData)
    | RelayUrlNotConfigured
    | RelayRejected(status: int, response: string)
    | InternalServerError
    | Submitted(message: string)
  {
    /** The reply's `error` field, present on every failure reply. */
    function Error(): Option<string>
    {
      match this
      case EmptyBody => None
      case MethodNotAllowed => Some("Method not allowed")
      case EmailRequired(_) => Some("Email is required")
      case CountrycodeRequired(_) => Some("Country code is required")
      case CaptchaTokenRequired(_, _) => Some("Captcha token is required")
      case CaptchaVerificationFailed(_, _) => Some("Captcha verification failed")
      case RelayUrlNotConfigured => Some("ViceVersa URL not configured")
      case RelayRejected(_, _) => Some("Failed to submit to ViceVersa")
      case InternalServerError => Some("Internal server error")
      case Submitted(_) => None
    }
  }

  const ConfirmationMessage: string :=
    "Form submitted successfully. Please check your email to confirm."

  const AllowOrigin: string := "Access-Control-Allow-Origin"
  const AllowMethods: string := "Access-Control-Allow-Methods"
  const AllowHeaders: string := "Access-Control-Allow-Headers"

  /** The server's response object, as far as the handler writes to it. */
  class Response {
    var statusCode: int
    var headers: map<string, string>
    var body: ReplyBody
    var finished: bool

    /** A response not yet written: status 200, no headers, nothing sent. */
    constructor ()
      ensures statusCode == 200 && headers == map[] && body == EmptyBody && !finished
    {
      statusCode, headers, body, finished := 200, map[], EmptyBody, false;
    }

    /** `res.setHeader(name, value)`: a later value for a name replaces an earlier one. */
    method SetHeader(name: string, value: string)
      requires !finished
      modifies this
      ensures headers == old(headers)[name := value]
      ensures statusCode == old(statusCode) && body == old(body) && !finished
    {
      headers := headers[name := value];
    }

    /** `res.status(code)`. */
    method Status(code: int)
      requires !finished
      modifies this
      ensures statusCode == code
      ensures headers == old(headers) && body == old(body) && !finished
    {
      statusCode := code;
    }

    /** `.json(obj)`: sends `obj` as the body and finishes the response. */
    method Json(reply: ReplyBody)
      requires !finished
      modifies this
      ensures body == reply && finished
      ensures statusCode == old(statusCode) && headers == old(headers)
    {
      body, finished := reply, true;
    }

    /** `.end()`: finishes the response with no body. */
    method End()
      requires !finished
      modifies this
      ensures body == EmptyBody && finished
      ensures statusCode == old(statusCode) && headers == old(headers)
    {
      body, finished := EmptyBody, true;
    }
  }
}
