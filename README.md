# Form-submission handler, modelled and verified in Dafny

This project models the serverless handler in `api/submit-form.js`. The handler receives a sign-up form, checks the
required fields and verifies the bot-verification (reCAPTCHA) token with Google. It then forwards the submission as
a double-opt-in sign-up to a ViceVersa relay endpoint and answers the browser with a JSON reply.

The model covers the handler's deterministic decision procedure:

- **Method gate.** OPTIONS gets a pre-flight reply. Any other method except POST gets 405.
- **Alias resolution.** Each logical field takes the first *truthy* value among its fixed alias keys, so an empty
  string counts as absent.
- **Prioritised validation.** The checks run in order: email, then country code, then captcha token.
- **Relay payload.** An ordered key/value list: email, the uppercased country code, the optional fields that are
  truthy, then `dm_this=1` and `dm_format=2`.
- **Outcome mapping.** The two service answers are turned into a status and a reply body.

The two `fetch` calls are not performed. Their answers are inputs (`SubmitForm.Network`), and the two environment
variables are a `SubmitForm.Config`. The handler returns a **trace** of the outbound calls it made, so statements
such as "the relay is never contacted" are properties of the trace.

Layout, one module per file:

- `wrappers.dfy` (`Wrappers`): `Option` and `Result`.
- `fields.dfy` (`Fields`): the alias chains (`FirstTruthy`, `Extract`) and `Validate`.
- `relay_payload.dfy` (`RelayPayload`): ASCII `ToUpper`, `Payload`, and `Lookup` / `Keys` over the payload.
- `response.dfy` (`Http`): the reply bodies and the mutable `Response` object (`setHeader`, `status`, `json`, `end`).
- `submit_form.dfy` (`SubmitForm`): `Handle`, the whole handler as a function, plus the imperative `Handler`
  method. `Handler` writes to a `Response` step by step and is proved to produce exactly what `Handle` says.
- `submit_form_properties.dfy` (`SubmitFormProperties`): the handler's promises, proved about `Handle` for all
  inputs.

Notes on the code:

- **405 replies.** A 405 reply carries no cross-origin header: that `return` (api/submit-form.js:10-12) comes
  before the header writes at lines 14-16.
- **Allowed methods.** The pre-flight reply advertises `POST, OPTIONS`. Replies to POST advertise only `POST`.

## Model

| member | source | states |
|---|---|---|
| `Fields.FirstTruthy` | api/submit-form.js:24-33 | an alias chain yields a non-empty value, or nothing exactly when no alias in the list is truthy |
| `Fields.FirstTruthySelectsFirst` | api/submit-form.js:24-33 | when alias i is the first truthy one, the chain yields its value, whatever later aliases hold |
| `Fields.FirstTruthyHasSource` | api/submit-form.js:24-33 | any value the chain yields is the value of its first truthy alias |
| `Fields.EmptyAliasIsAbsent` | api/submit-form.js:24-33 | an alias sent as the empty string resolves exactly as if the key were missing |
| `Fields.Validate` | api/submit-form.js:45-68 | email is reported missing iff absent; the country code iff email is present and it is absent; the token iff both are present and it is absent; success iff all three are present, carrying the resolved values |
| `RelayPayload.ToUpper` | api/submit-form.js:100 | uppercasing keeps the length |
| `RelayPayload.ToUpperAt` | api/submit-form.js:100 | each character is mapped on its own: a-z moves to A-Z, any other character is kept |
| `RelayPayload.ToUpperHasNoLower` | api/submit-form.js:100 | no lower-case ASCII letter remains after uppercasing |
| `RelayPayload.ToUpperIdempotent` | api/submit-form.js:100 | uppercasing twice equals uppercasing once |
| `RelayPayload.Payload` | api/submit-form.js:98-106 | 4 to 7 entries; email first, the uppercased country code second, `dm_this=1` and `dm_format=2` last |
| `RelayPayload.PayloadKeys` | api/submit-form.js:98-106 | the keys are, in order, email, countrycode, the truthy optional fields, then the two flags, and no key repeats |
| `RelayPayload.PayloadLookupAt` | api/submit-form.js:98-106 | for every key, the exact value the payload carries under it (or none) |
| `RelayPayload.PayloadLookup` | api/submit-form.js:98-106 | email unchanged; country code uppercased; each optional field present iff truthy, with its value; the constant flags; no other key |
| `Http.Response.constructor` | api/submit-form.js:1 | a response not yet written: status 200, no headers, not finished |
| `Http.Response.SetHeader` | api/submit-form.js:4 | the header map is updated at that name and nothing else changes |
| `Http.Response.Status` | api/submit-form.js:7 | only the status changes |
| `Http.Response.Json` | api/submit-form.js:11 | the body is set and the response is finished; status and headers are kept |
| `Http.Response.End` | api/submit-form.js:7 | the response is finished with an empty body |
| `SubmitForm.Submit` | api/submit-form.js:18-68 | every reply to a POST carries the three cross-origin headers with `POST` |
| `SubmitForm.Forward` | api/submit-form.js:72-144 | replies after validation carry the same cross-origin headers |
| `SubmitForm.Handler` | api/submit-form.js:1-154 | the handler leaves `res` finished, with the status, headers and body of `Handle`, and returns `Handle`'s call trace |
| `SubmitForm.SetCorsHeaders` | api/submit-form.js:14-16 | the three cross-origin headers are added with the given allowed methods; nothing else changes |
| `SubmitForm.Send` | api/submit-form.js:47-50 | `res.status(code).json(reply)` sets both and finishes the response, keeping the headers |
| `SubmitForm.SubmitTo` | api/submit-form.js:18-68 | the try block writes exactly `Submit`'s reply and returns its trace |
| `SubmitForm.ForwardTo` | api/submit-form.js:72-144 | the captcha and relay steps write exactly `Forward`'s reply and return its trace |
| `SubmitFormProperties.PreflightReply` | api/submit-form.js:3-8 | OPTIONS gets 200 with Allow-Origin `*`, Allow-Methods `POST, OPTIONS` and Allow-Headers `Content-Type`, with no body and no call; body, configuration and service answers do not matter |
| `SubmitFormProperties.OtherMethodRejected` | api/submit-form.js:10-12 | any other non-POST method gets 405 "Method not allowed", with no header and no call |
| `SubmitFormProperties.MissingBodyFails` | api/submit-form.js:146-153 | a POST without a body fails reading its fields and gets 500 "Internal server error" with no call |
| `SubmitFormProperties.ValidationPriority` | api/submit-form.js:45-68 | the first required field with no truthy alias (in the order email, country code, token) gives its 400 reply, whatever else is missing; the token reply lists the three token keys in order and the body's keys; the trace is non-empty only for a complete body |
| `SubmitFormProperties.CaptchaRejected` | api/submit-form.js:86-93 | a false success flag gives 400 with the provider's error codes; the trace is only the captcha call; the relay URL and the relay's answer cannot change the reply |
| `SubmitFormProperties.CaptchaUnavailable` | api/submit-form.js:74-83 | a captcha call that fails in transport or parsing gives 500 "Internal server error" after that call alone |
| `SubmitFormProperties.RelayUrlMissing` | api/submit-form.js:111-116 | a missing or empty relay URL, noticed after captcha success, gives 500 "ViceVersa URL not configured" and the relay is never called |
| `SubmitFormProperties.RelayOutcome` | api/submit-form.js:98-144 | the relay call goes to the configured URL with the resolved email, the uppercased country code, the truthy optional fields and both flags; a 2xx status gives 200 with the confirmation message, any other status 500 with that status and text |
| `SubmitFormProperties.RelayUnavailable` | api/submit-form.js:120-126 | a relay call that fails in transport or while reading its text gives 500 "Internal server error"; the trace is the captcha call followed by the relay call to the configured URL with the submission's payload |
| `SubmitFormProperties.OutboundCallOrder` | api/submit-form.js:72-124 | at most two calls; the captcha call comes first and only for a POST with all required fields; the relay call comes second and only after captcha success with a URL set |
| `SubmitFormProperties.ReplyShape` | api/submit-form.js:1-154 | the status is 200, 400, 405 or 500; an `error` field appears exactly when the status is not 200; 405 iff the method is neither POST nor OPTIONS; 200 for a POST only after the relay accepted; every POST reply carries the cross-origin headers |
| `SubmitFormProperties.ForwardShape` | api/submit-form.js:86-144 | after validation the status is 200, 400 or 500, with an `error` field exactly when it is not 200; 200 only after both calls and an accepted relay status |
| `SubmitFormProperties.MinimalSubmission` | api/submit-form.js:98-144 | for email `a@b.com`, country `us` and a token, with captcha success and relay 200, the reply is the confirmation, and the relay receives `email`, `countrycode=US`, `dm_this=1`, `dm_format=2` and none of the optional keys |

## Left out

- The network calls are not performed. The captcha answer and the relay answer are fixed inputs, so the model does
  not capture an answer that depends on what was sent. A failed `fetch`, a failed `captchaResponse.json()` or a
  failed `vvResponse.text()` is the single outcome "unreachable".
- `process.env` is read as an explicit `Config`. An unset secret is rendered as the text `undefined`, as the
  template literal would render it.
- Logging (`console.log` / `console.error`) has no effect on the reply.
- The captcha request body is a form-encoded string. The trace records only the URL, the secret and the token it
  carries. The relay payload is the ordered key/value list, not its percent-encoded serialisation by
  `URLSearchParams`.
- `Fields.FirstTruthy`: yields `None` where the `||` chain yields its last falsy operand (`""` or `undefined`).
  Every later use only tests truthiness, so the two agree on every reply.
- `RelayPayload.ToUpper`: uppercases only ASCII `a`-`z`. Full Unicode `toUpperCase`, which can change the length
  (`ß` becomes `SS`), is not modelled.
- Body values are strings only. Numbers, booleans, `null`, arrays and nested objects are not modelled. Neither is
  the `TypeError` that `toUpperCase` throws on a non-string country code.
- A missing body is the only malformed-request case modelled (it makes the property reads throw).
- The catch-all reply's `details` (the exception message) and `stack` are not modelled. Only the error text
  "Internal server error" and status 500 are.
- The captcha answer is reduced to its `success` flag and its `error-codes` list. Its other fields (hostname,
  timestamp) are not modelled. A success flag that is a non-boolean truthy value is not modelled either.
- The order of `Object.keys(body)` in the missing-token reply is not modelled (a set of keys).
- Duplicate keys in the JSON body are not modelled.
- Headers set by the server runtime itself are not modelled: `res.json` adds `Content-Type`, and header names are
  case-insensitive. Only the headers the handler sets are.
- Retries, timeouts and duplicate submissions on client retry: the source has none.
