/**
 * The form-submission handler (api/submit-form.js): the method gate,
 * validation, the captcha verification call, the relay call and the
 * mapping of their results to a reply.
 *
 * The two outbound calls are not performed: what the services answer is an
 * input (`Network`), and the handler returns the trace of the calls it made.
 * `Handle` is the whole behaviour as a function; the method `Handler` does
 * the same step by step on a `Response` object and is proved equal to it.
 */
module SubmitForm {
  import opened Wrappers
  import opened Fields
  import opened RelayPayload
  import opened Http

  /** An inbound request: its HTTP method (`req.method`) and its parsed body (`None` for a missing body). */
  datatype Request = Request(verb: string, body: Option<Body>)

  /** The two environment variables the handler reads when it runs. */
  datatype Config = Config(secretKey: Option<string>, relayUrl: Option<string>)

  /** What the captcha service answers: a JSON object, or nothing usable (a failed fetch or parse). */
  datatype CaptchaReply = CaptchaUnreachable | CaptchaAnswer(data: CaptchaData)

  /** What the relay answers: a status and a text body, or nothing (a failed fetch or read). */
  datatype RelayReply = RelayUnreachable | RelayAnswer(status: int, text: string)

  /** The answers the two services would give to this request. */
  datatype Network = Network(captcha: CaptchaReply, relay: RelayReply)

  /** One outbound POST made by the handler. */
  datatype Call =
    | CaptchaCall(url: string, secret: string, token: string)
    | RelayCall(url: string, payload: seq<(string, string)>)

  /** Everything the handler produces: the reply, the headers it set, and its outbound calls in order. */
  datatype Outcome = Outcome(status: int, headers: map<string, string>, body: ReplyBody, trace: seq<Call>)

  const CaptchaVerifyUrl: string := "https://www.google.com/recaptcha/api/siteverify"

  /** The secret as a template literal renders it: an unset variable becomes the text "undefined". */
  function SecretText(secretKey: Option<string>): string
  {
    match secretKey
    case None => "undefined"
    case Some(s) => s
  }

  /** `Response.ok`: a status in 200-299. */
  predicate RelayAccepted(status: int)
  {
    200 <= status <= 299
  }

  /** The headers of a pre-flight reply. */
  function PreflightHeaders(): map<string, string>
  {
    map[AllowOrigin := "*", AllowMethods := "POST, OPTIONS", AllowHeaders := "Content-Type"]
  }

  /** The headers of every reply to a POST. */
  function CorsHeaders(): map<string, string>
  {
    map[AllowOrigin := "*", AllowMethods := "POST", AllowHeaders := "Content-Type"]
  }

  /** The whole handler: method gate first, then the POST pipeline. */
  function Handle(req: Request, cfg: Config, net: Network): Outcome
  {
    if req.verb == "OPTIONS" then Outcome(200, PreflightHeaders(), EmptyBody, [])
    else if req.verb != "POST" then Outcome(405, map[], MethodNotAllowed, [])
    else Submit(req.body, cfg, net)
  }

  /** Lines 18-68: field extraction and validation; a missing body makes the property reads throw. */
  function Submit(body: Option<Body>, cfg: Config, net: Network): (o: Outcome)
    ensures o.headers == CorsHeaders()
  {
    match body
    case None => Outcome(500, CorsHeaders(), InternalServerError, [])
    case Some(b) =>
      match Validate(Extract(b))
      case Failure(MissingEmail) => Outcome(400, CorsHeaders(), EmailRequired(b), [])
      case Failure(MissingCountrycode) => Outcome(400, CorsHeaders(), CountrycodeRequired(b), [])
      case Failure(MissingCaptchaToken) =>
        Outcome(400, CorsHeaders(), CaptchaTokenRequired(CaptchaTokenKeys, b.Keys), [])
      case Success(s) => Forward(s, cfg, net)
  }

  /** Lines 72-144: verify the captcha, then relay the submission. */
  function Forward(s: Submission, cfg: Config, net: Network): (o: Outcome)
    ensures o.headers == CorsHeaders()
  {
    var captchaCall := CaptchaCall(CaptchaVerifyUrl, SecretText(cfg.secretKey), s.captchaToken);
    match net.captcha
    case CaptchaUnreachable => Outcome(500, CorsHeaders(), InternalServerError, [captchaCall])
    case CaptchaAnswer(data) =>
      if !data.success then
        Outcome(400, CorsHeaders(), CaptchaVerificationFailed(data.errorCodes, data), [captchaCall])
      else if !Present(cfg.relayUrl) then
        Outcome(500, CorsHeaders(), RelayUrlNotConfigured, [captchaCall])
      else
        var trace := [captchaCall, RelayCall(cfg.relayUrl.value, Payload(s))];
        match net.relay
        case RelayUnreachable => Outcome(500, CorsHeaders(), InternalServerError, trace)
        case RelayAnswer(status, text) =>
          if !RelayAccepted(status) then Outcome(500, CorsHeaders(), RelayRejected(status, text), trace)
          else Outcome(200, CorsHeaders(), Submitted(ConfirmationMessage), trace)
  }

  /**
   * The handler as it runs: it writes the reply to `res` and returns the
   * outbound calls it made. Headers set earlier on `res` are kept unless
   * the handler sets the same name.
   */
  method Handler(req: Request, cfg: Config, net: Network, res: Response) returns (trace: seq<Call>)
    requires !res.finished
    modifies res
    ensures res.finished
    ensures res.statusCode == Handle(req, cfg, net).status
    ensures res.headers == old(res.headers) + Handle(req, cfg, net).headers
    ensures res.body == Handle(req, cfg, net).body
    ensures trace == Handle(req, cfg, net).trace
  {
    if req.verb == "OPTIONS" {
      SetCorsHeaders(res, "POST, OPTIONS");
      res.Status(200);
      res.End();
      return [];
    }
    if req.verb != "POST" {
      Send(res, 405, MethodNotAllowed);
      return [];
    }
    SetCorsHeaders(res, "POST");
    trace := SubmitTo(req.body, cfg, net, res);
  }

  /** Lines 4-6 and 14-16: the three cross-origin headers, with the allowed methods given. */
  method SetCorsHeaders(res: Response, methods: string)
    requires !res.finished
    modifies res
    ensures res.headers ==
      old(res.headers) + map[AllowOrigin := "*", AllowMethods := methods, AllowHeaders := "Content-Type"]
    ensures res.statusCode == old(res.statusCode) && res.body == old(res.body) && !res.finished
  {
    res.SetHeader(AllowOrigin, "*");
    res.SetHeader(AllowMethods, methods);
    res.SetHeader(AllowHeaders, "Content-Type");
  }

  /** `res.status(code).json(reply)`. */
  method Send(res: Response, code: int, reply: ReplyBody)
    requires !res.finished
    modifies res
    ensures res.statusCode == code && res.body == reply && res.finished
    ensures res.headers == old(res.headers)
  {
    res.Status(code);
    res.Json(reply);
  }

  /** The body of the `try` block up to validation, written to `res`. */
  method SubmitTo(body: Option<Body>, cfg: Config, net: Network, res: Response) returns (trace: seq<Call>)
    requires !res.finished
    modifies res
    ensures res.finished
    ensures res.statusCode == Submit(body, cfg, net).status
    ensures res.headers == old(res.headers)
    ensures res.body == Submit(body, cfg, net).body
    ensures trace == Submit(body, cfg, net).trace
  {
    if body.None? {
      Send(res, 500, InternalServerError);
      return [];
    }
    var b := body.value;
    var fields := Extract(b);
    if fields.email.None? {
      Send(res, 400, EmailRequired(b));
      return [];
    }
    if fields.countrycode.None? {
      Send(res, 400, CountrycodeRequired(b));
      return [];
    }
    if fields.captchaToken.None? {
      Send(res, 400, CaptchaTokenRequired(CaptchaTokenKeys, b.Keys));
      return [];
    }
    var sub := Submission(fields.email.value, fields.countrycode.value, fields.captchaToken.value,
                          fields.firstname, fields.lastname, fields.postalcode);
    trace := ForwardTo(sub, cfg, net, res);
  }

  /** The two outbound calls and the reply their results select, written to `res`. */
  method ForwardTo(sub: Submission, cfg: Config, net: Network, res: Response) returns (trace: seq<Call>)
    requires !res.finished
    modifies res
    ensures res.finished
    ensures res.statusCode == Forward(sub, cfg, net).status
    ensures res.headers == old(res.headers)
    ensures res.body == Forward(sub, cfg, net).body
    ensures trace == Forward(sub, cfg, net).trace
  {
    trace := [CaptchaCall(CaptchaVerifyUrl, SecretText(cfg.secretKey), sub.captchaToken)];
    if net.captcha.CaptchaUnreachable? {
      Send(res, 500, InternalServerError);
      return;
    }
    var captchaData := net.captcha.data;
    if !captchaData.success {
      Send(res, 400, CaptchaVerificationFailed(captchaData.errorCodes, captchaData));
      return;
    }
    var payload := Payload(sub);
    if !Present(cfg.relayUrl) {
      Send(res, 500, RelayUrlNotConfigured);
      return;
    }
    trace := trace + [RelayCall(cfg.relayUrl.value, payload)];
    if net.relay.RelayUnreachable? {
      Send(res, 500, InternalServerError);
      return;
    }
    if !RelayAccepted(net.relay.status) {
      Send(res, 500, RelayRejected(net.relay.status, net.relay.text));
      return;
    }
    Send(res, 200, Submitted(ConfirmationMessage));
  }
}
