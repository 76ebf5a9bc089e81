/**
 * What the handler promises, stated about `SubmitForm.Handle` for every
 * request, configuration and pair of service answers.
 */
module SubmitFormProperties {
  import opened Wrappers
  import opened Fields
  import opened RelayPayload
  import opened Http
  import opened SubmitForm

  /** Some alias in `keys` carries a non-empty value. */
  predicate HasTruthy(b: Body, keys: seq<string>)
  {
    exists k :: k in keys && Truthy(b, k)
  }

  /** The body carries all three required fields under one of their aliases. */
  predicate Complete(b: Body)
  {
    HasTruthy(b, EmailKeys) && HasTruthy(b, CountrycodeKeys) && HasTruthy(b, CaptchaTokenKeys)
  }

  /** A POST with a complete body, which gets as far as the captcha call. */
  predicate ReachesCaptcha(req: Request)
  {
    req.verb == "POST" && req.body.Some? && Complete(req.body.value)
  }

  /** The captcha call the handler makes for a complete body. */
  function VerifyCall(req: Request, cfg: Config): Call
    requires ReachesCaptcha(req)
  {
    CaptchaCall(CaptchaVerifyUrl, SecretText(cfg.secretKey), FirstTruthy(req.body.value, CaptchaTokenKeys).value)
  }

  /**
   * A pre-flight request gets 200 with the three permissive cross-origin
   * headers and no body; it makes no call, and neither its body, the
   * configuration nor the services affect the reply.
   */
  lemma PreflightReply(req: Request, cfg: Config, net: Network,
                       otherBody: Option<Body>, otherCfg: Config, otherNet: Network)
    requires req.verb == "OPTIONS"
    ensures Handle(req, cfg, net).status == 200
    ensures Handle(req, cfg, net).headers ==
              map[AllowOrigin := "*", AllowMethods := "POST, OPTIONS", AllowHeaders := "Content-Type"]
    ensures Handle(req, cfg, net).body == EmptyBody && Handle(req, cfg, net).trace == []
    ensures Handle(Request("OPTIONS", otherBody), otherCfg, otherNet) == Handle(req, cfg, net)
  {
  }

  /**
   * Any method other than POST and OPTIONS gets 405 "Method not allowed",
   * with no header set (the header writes come after this return) and no call.
   */
  lemma OtherMethodRejected(req: Request, cfg: Config, net: Network)
    requires req.verb != "OPTIONS" && req.verb != "POST"
    ensures Handle(req, cfg, net).status == 405
    ensures Handle(req, cfg, net).body == MethodNotAllowed
    ensures Handle(req, cfg, net).body.Error() == Some("Method not allowed")
    ensures Handle(req, cfg, net).headers == map[]
    ensures Handle(req, cfg, net).trace == []
  {
  }

  /** A POST without a body fails reading its fields: 500 "Internal server error", no call. */
  lemma MissingBodyFails(req: Request, cfg: Config, net: Network)
    requires req.verb == "POST" && req.body.None?
    ensures Handle(req, cfg, net) == Outcome(500, CorsHeaders(), InternalServerError, [])
    ensures Handle(req, cfg, net).body.Error() == Some("Internal server error")
  {
  }

  /**
   * The required fields are checked in the order email, country code,
   * captcha token: the first one with no truthy alias is reported with a
   * 400, whatever else is missing, and nothing is sent anywhere.
   */
  lemma ValidationPriority(req: Request, cfg: Config, net: Network)
    requires req.verb == "POST" && req.body.Some?
    ensures !HasTruthy(req.body.value, EmailKeys) ==>
              Handle(req, cfg, net) == Outcome(400, CorsHeaders(), EmailRequired(req.body.value), [])
    ensures HasTruthy(req.body.value, EmailKeys) && !HasTruthy(req.body.value, CountrycodeKeys) ==>
              Handle(req, cfg, net) == Outcome(400, CorsHeaders(), CountrycodeRequired(req.body.value), [])
    ensures HasTruthy(req.body.value, EmailKeys) && HasTruthy(req.body.value, CountrycodeKeys) &&
            !HasTruthy(req.body.value, CaptchaTokenKeys) ==>
              Handle(req, cfg, net) == Outcome(400, CorsHeaders(),
                CaptchaTokenRequired(["captchaToken", "g-recaptcha-response", "recaptcha_token"],
                                     req.body.value.Keys), [])
    ensures Handle(req, cfg, net).trace != [] ==> Complete(req.body.value)
  {
  }

  /**
   * A captcha answer with a false success flag gives 400 with the provider's
   * error codes; only the captcha service was called, and neither the relay
   * URL nor the relay's answer can change the reply.
   */
  lemma CaptchaRejected(req: Request, cfg: Config, net: Network,
                        otherUrl: Option<string>, otherRelay: RelayReply)
    requires ReachesCaptcha(req)
    requires net.captcha.CaptchaAnswer? && !net.captcha.data.success
    ensures Handle(req, cfg, net) ==
              Outcome(400, CorsHeaders(),
                      CaptchaVerificationFailed(net.captcha.data.errorCodes, net.captcha.data),
                      [VerifyCall(req, cfg)])
    ensures Handle(req, cfg.(relayUrl := otherUrl), net.(relay := otherRelay)) == Handle(req, cfg, net)
  {
  }

  /** A captcha call that fails in transport or JSON parsing ends in 500 "Internal server error". */
  lemma CaptchaUnavailable(req: Request, cfg: Config, net: Network)
    requires ReachesCaptcha(req) && net.captcha.CaptchaUnreachable?
    ensures Handle(req, cfg, net) == Outcome(500, CorsHeaders(), InternalServerError, [VerifyCall(req, cfg)])
  {
  }

  /**
   * A missing relay URL is noticed only after the captcha succeeded: 500
   * "ViceVersa URL not configured", and the relay is never contacted.
   */
  lemma RelayUrlMissing(req: Request, cfg: Config, net: Network, otherRelay: RelayReply)
    requires ReachesCaptcha(req)
    requires net.captcha.CaptchaAnswer? && net.captcha.data.success
    requires !Present(cfg.relayUrl)
    ensures Handle(req, cfg, net) == Outcome(500, CorsHeaders(), RelayUrlNotConfigured, [VerifyCall(req, cfg)])
    ensures Handle(req, cfg, net).body.Error() == Some("ViceVersa URL not configured")
    ensures Handle(req, cfg, net.(relay := otherRelay)) == Handle(req, cfg, net)
  {
  }

  /**
   * Once the captcha succeeded and a relay URL is set, the relay gets a
   * POST carrying the resolved email, the country code uppercased, each
   * optional field exactly when it is truthy, and the two double-opt-in
   * flags; a 2xx answer gives 200 with the confirmation message, any other
   * status 500 carrying that status and the relay's text.
   */
  lemma RelayOutcome(req: Request, cfg: Config, net: Network)
    requires ReachesCaptcha(req)
    requires net.captcha.CaptchaAnswer? && net.captcha.data.success
    requires Present(cfg.relayUrl) && net.relay.RelayAnswer?
    ensures |Handle(req, cfg, net).trace| == 2
    ensures Handle(req, cfg, net).trace[0] == VerifyCall(req, cfg)
    ensures Handle(req, cfg, net).trace[1].RelayCall? && Handle(req, cfg, net).trace[1].url == cfg.relayUrl.value
    ensures var p := Handle(req, cfg, net).trace[1].payload; var b := req.body.value;
            && Lookup(p, "email") == FirstTruthy(b, EmailKeys)
            && Lookup(p, "countrycode") == Some(ToUpper(FirstTruthy(b, CountrycodeKeys).value))
            && Lookup(p, "firstname") == FirstTruthy(b, FirstnameKeys)
            && Lookup(p, "lastname") == FirstTruthy(b, LastnameKeys)
            && Lookup(p, "postalcode") == FirstTruthy(b, PostalcodeKeys)
            && Lookup(p, "dm_this") == Some("1") && Lookup(p, "dm_format") == Some("2")
    ensures RelayAccepted(net.relay.status) ==>
              Handle(req, cfg, net).status == 200 &&
              Handle(req, cfg, net).body ==
                Submitted("Form submitted successfully. Please check your email to confirm.")
    ensures !RelayAccepted(net.relay.status) ==>
              Handle(req, cfg, net).status == 500 &&
              Handle(req, cfg, net).body == RelayRejected(net.relay.status, net.relay.text)
  {
    var s := Validate(Extract(req.body.value)).value;
    PayloadLookup(s, "email");
  }

  /** A relay call that fails in transport or while reading its text ends in 500 "Internal server error". */
  lemma RelayUnavailable(req: Request, cfg: Config, net: Network)
    requires ReachesCaptcha(req)
    requires net.captcha.CaptchaAnswer? && net.captcha.data.success
    requires Present(cfg.relayUrl) && net.relay.RelayUnreachable?
    ensures Handle(req, cfg, net).status == 500 && Handle(req, cfg, net).body == InternalServerError
    ensures Handle(req, cfg, net).trace ==
              [VerifyCall(req, cfg),
               RelayCall(cfg.relayUrl.value, Payload(Validate(Extract(req.body.value)).value))]
  {
  }

  /**
   * The outbound calls: at most two, the captcha call first and only for a
   * POST with all required fields, the relay call second and only after a
   * successful captcha answer and with a relay URL set.
   */
  lemma OutboundCallOrder(req: Request, cfg: Config, net: Network)
    ensures |Handle(req, cfg, net).trace| <= 2
    ensures |Handle(req, cfg, net).trace| >= 1 ==>
              ReachesCaptcha(req) && Handle(req, cfg, net).trace[0] == VerifyCall(req, cfg)
    ensures forall i :: 0 <= i < |Handle(req, cfg, net).trace| && Handle(req, cfg, net).trace[i].RelayCall? ==>
              && i == 1
              && net.captcha.CaptchaAnswer? && net.captcha.data.success
              && Present(cfg.relayUrl) && Handle(req, cfg, net).trace[i].url == cfg.relayUrl.value
  {
  }

  /**
   * The reply's shape: one of four statuses; an `error` field exactly on the
   * failures; 200 only for a pre-flight or a relay that accepted the
   * submission; the cross-origin headers on every reply to a POST.
   */
  lemma ReplyShape(req: Request, cfg: Config, net: Network)
    ensures Handle(req, cfg, net).status in {200, 400, 405, 500}
    ensures Handle(req, cfg, net).status == 200 <==> Handle(req, cfg, net).body.Error().None?
    ensures Handle(req, cfg, net).status == 405 <==> req.verb != "OPTIONS" && req.verb != "POST"
    ensures Handle(req, cfg, net).status == 200 && req.verb == "POST" ==>
              && |Handle(req, cfg, net).trace| == 2
              && net.relay.RelayAnswer? && RelayAccepted(net.relay.status)
              && Handle(req, cfg, net).body == Submitted(ConfirmationMessage)
    ensures req.verb == "POST" ==> Handle(req, cfg, net).headers == CorsHeaders()
  {
    if req.verb == "POST" && req.body.Some? {
      var v := Validate(Extract(req.body.value));
      if v.Success? {
        assert Handle(req, cfg, net) == Forward(v.value, cfg, net);
        ForwardShape(v.value, cfg, net);
      }
    }
  }

  /** The shape of every reply after validation. */
  lemma ForwardShape(s: Submission, cfg: Config, net: Network)
    ensures Forward(s, cfg, net).status in {200, 400, 500}
    ensures Forward(s, cfg, net).status == 200 <==> Forward(s, cfg, net).body.Error().None?
    ensures Forward(s, cfg, net).status == 200 ==>
              && |Forward(s, cfg, net).trace| == 2
              && net.relay.RelayAnswer? && RelayAccepted(net.relay.status)
              && Forward(s, cfg, net).body == Submitted(ConfirmationMessage)
  {
    if net.captcha.CaptchaAnswer? && net.captcha.data.success && Present(cfg.relayUrl) {
      assert |Forward(s, cfg, net).trace| == 2;
    }
  }

  /**
   * A complete submission with no optional fields: the relay receives the
   * email, the country code "US" and the two flags, and nothing else.
   */
  lemma MinimalSubmission()
    ensures var req := Request("POST", Some(map["email" := "a@b.com", "countrycode" := "us", "captchaToken" := "tok"]));
            var net := Network(CaptchaAnswer(CaptchaData(true, None)), RelayAnswer(200, "OK"));
            var o := Handle(req, Config(Some("secret"), Some("https://relay.example")), net);
            && o.status == 200 && o.body == Submitted(ConfirmationMessage)
            && o.trace == [CaptchaCall(CaptchaVerifyUrl, "secret", "tok"),
                           RelayCall("https://relay.example",
                                     [("email", "a@b.com"), ("countrycode", "US"),
                                      ("dm_this", "1"), ("dm_format", "2")])]
  {
    var b := map["email" := "a@b.com", "countrycode" := "us", "captchaToken" := "tok"];
    var s := Submission("a@b.com", "us", "tok", None, None, None);
    MinimalFields();
    MinimalPayload();
    assert Submit(Some(b), Config(Some("secret"), Some("https://relay.example")),
                  Network(CaptchaAnswer(CaptchaData(true, None)), RelayAnswer(200, "OK")))
        == Forward(s, Config(Some("secret"), Some("https://relay.example")),
                   Network(CaptchaAnswer(CaptchaData(true, None)), RelayAnswer(200, "OK")));
  }

  lemma MinimalFields()
    ensures Validate(Extract(map["email" := "a@b.com", "countrycode" := "us", "captchaToken" := "tok"]))
         == Success(Submission("a@b.com", "us", "tok", None, None, None))
  {
    var b := map["email" := "a@b.com", "countrycode" := "us", "captchaToken" := "tok"];
    assert !Truthy(b, "firstname") && !Truthy(b, "Firstname") && !Truthy(b, "lastname") && !Truthy(b, "Lastname");
    assert !Truthy(b, "postalcode") && !Truthy(b, "Postcode") && !Truthy(b, "postalCode");
    assert Truthy(b, "email") && Truthy(b, "countrycode") && Truthy(b, "captchaToken");
    assert Extract(b) == Fields(None, None, Some("a@b.com"), None, Some("us"), Some("tok"));
  }

  lemma MinimalPayload()
    ensures Payload(Submission("a@b.com", "us", "tok", None, None, None))
         == [("email", "a@b.com"), ("countrycode", "US"), ("dm_this", "1"), ("dm_format", "2")]
  {
    assert ToUpper("us") == "US" by {
      assert "us"[1..] == "s" && "s"[1..] == [];
    }
  }
}
