/**
 * Field extraction and validation of the form-submission handler
 * (api/submit-form.js, lines 24-68).
 *
 * The request body is a JSON object whose values are modelled as strings.
 * JavaScript's `a || b || c` picks the first truthy operand; for a string
 * that means the first non-empty one, and an absent key is `undefined`,
 * which is falsy as well.
 */
module Fields {
  import opened Wrappers

  /** A parsed request body: the keys that are present and their values. */
  type Body = map<string, string>

  /** A JavaScript string value is truthy: defined and not the empty string. */
  predicate Present(v: Option<string>)
  {
    v.Some? && v.value != ""
  }

  /** `body[key]`, with `None` for a missing key (`undefined`). */
  function Get(body: Body, key: string): Option<string>
  {
    if key in body then Some(body[key]) else None
  }

  /** `body[key]` is truthy. */
  predicate Truthy(body: Body, key: string)
  {
    Present(Get(body, key))
  }

  /** The alias keys of each logical field, in the order the `||` chains try them. */
  const FirstnameKeys: seq<string> := ["firstname", "Firstname"]
  const LastnameKeys: seq<string> := ["lastname", "Lastname"]
  const EmailKeys: seq<string> := ["email", "Email"]
  const PostalcodeKeys: seq<string> := ["postalcode", "Postcode", "postalCode"]
  const CountrycodeKeys: seq<string> := ["countrycode", "Country", "country"]
  const CaptchaTokenKeys: seq<string> := ["captchaToken", "g-recaptcha-response", "recaptcha_token"]

  /**
   * The value of `body[keys[0]] || body[keys[1]] || ...`, with `None` when
   * every operand is falsy (every later use of the result only tests its
   * truthiness, so which falsy operand the chain yields is immaterial).
   */
  function FirstTruthy(body: Body, keys: seq<string>): (r: Option<string>)
    ensures r.Some? ==> r.value != ""
    ensures r.None? <==> forall k :: k in keys ==> !Truthy(body, k)
  {
    if keys == [] then None
    else if Truthy(body, keys[0]) then Some(body[keys[0]])
    else FirstTruthy(body, keys[1..])
  }

  /** Alias `keys[i]` holds a truthy value and no alias before it does. */
  ghost predicate FirstTruthyAt(body: Body, keys: seq<string>, i: int)
  {
    0 <= i < |keys| && Truthy(body, keys[i]) &&
    forall j :: 0 <= j < i ==> !Truthy(body, keys[j])
  }

  /** The chain yields the value of the first truthy alias, whatever the later aliases hold. */
  lemma {:induction false} FirstTruthySelectsFirst(body: Body, keys: seq<string>, i: int)
    requires FirstTruthyAt(body, keys, i)
    ensures FirstTruthy(body, keys) == Some(body[keys[i]])
  {
    if i > 0 {
      assert !Truthy(body, keys[0]);
      FirstTruthySelectsFirst(body, keys[1..], i - 1);
    }
  }

  /** Conversely, a value the chain yields comes from its first truthy alias. */
  lemma {:induction false} FirstTruthyHasSource(body: Body, keys: seq<string>)
    requires FirstTruthy(body, keys).Some?
    ensures exists i :: FirstTruthyAt(body, keys, i) && FirstTruthy(body, keys).value == body[keys[i]]
  {
    if Truthy(body, keys[0]) {
      assert FirstTruthyAt(body, keys, 0);
    } else {
      FirstTruthyHasSource(body, keys[1..]);
      var i :| FirstTruthyAt(body, keys[1..], i) && FirstTruthy(body, keys[1..]).value == body[keys[1..][i]];
      assert FirstTruthyAt(body, keys, i + 1);
    }
  }

  /** An alias sent as the empty string is treated exactly as a missing one. */
  lemma {:induction false} EmptyAliasIsAbsent(body: Body, keys: seq<string>, k: string)
    ensures FirstTruthy(body[k := ""], keys) == FirstTruthy(body - {k}, keys)
  {
    if keys != [] {
      assert Truthy(body[k := ""], keys[0]) == Truthy(body - {k}, keys[0]);
      EmptyAliasIsAbsent(body, keys[1..], k);
    }
  }

  /** The resolved logical fields of one submission (`Some` only for truthy values). */
  datatype Fields = Fields(
    firstname: Option<string>,
    lastname: Option<string>,
    email: Option<string>,
    postalcode: Option<string>,
    countrycode: Option<string>,
    captchaToken: Option<string>)

  /** Lines 24-33: every logical field resolved through its alias chain. */
  function Extract(body: Body): Fields
  {
    Fields(
      FirstTruthy(body, FirstnameKeys),
      FirstTruthy(body, LastnameKeys),
      FirstTruthy(body, EmailKeys),
      FirstTruthy(body, PostalcodeKeys),
      FirstTruthy(body, CountrycodeKeys),
      FirstTruthy(body, CaptchaTokenKeys))
  }

  /** A submission that passed validation: the three required fields are non-empty. */
  datatype Submission = Submission(
    email: string,
    countrycode: string,
    captchaToken: string,
    firstname: Option<string>,
    lastname: Option<string>,
    postalcode: Option<string>)

  /** The required field whose absence stopped validation. */
  datatype MissingField = MissingEmail | MissingCountrycode | MissingCaptchaToken

  /**
   * Lines 45-68: the required fields are checked in the order email,
   * country code, captcha token; the first one missing is reported.
   */
  function Validate(f: Fields): (r: Result<Submission, MissingField>)
    ensures r == Failure(MissingEmail) <==> f.email.None?
    ensures r == Failure(MissingCountrycode) <==> f.email.Some? && f.countrycode.None?
    ensures r == Failure(MissingCaptchaToken) <==>
              f.email.Some? && f.countrycode.Some? && f.captchaToken.None?
    ensures r.Success? <==> f.email.Some? && f.countrycode.Some? && f.captchaToken.Some?
    ensures r.Success? ==>
              && Some(r.value.email) == f.email
              && Some(r.value.countrycode) == f.countrycode
              && Some(r.value.captchaToken) == f.captchaToken
              && r.value.firstname == f.firstname
              && r.value.lastname == f.lastname
              && r.value.postalcode == f.postalcode
  {
    if f.email.None? then Failure(MissingEmail)
    else if f.countrycode.None? then Failure(MissingCountrycode)
    else if f.captchaToken.None? then Failure(MissingCaptchaToken)
    else Success(Submission(f.email.value, f.countrycode.value, f.captchaToken.value,
                            f.firstname, f.lastname, f.postalcode))
  }
}
