/**
  What the oracle handler promises, stated over `Oracle.Handle`: the order
  of its early exits, when the pipeline is called and with what, how the
  call's outcome maps to the reply, and the end-to-end scenarios.
*/
module OracleProperties {
  import opened Wrappers
  import Cors
  import EmailFormat
  import opened Pipeline
  import opened Oracle

  /** A preflight is answered 200 with no body, whatever else the request holds. */
  lemma PreflightAlwaysOk(req: Request, env: Env, ds: Downstream, timestamp: string)
    requires req.verb == "OPTIONS"
    ensures var x := Handle(req, env, ds, timestamp);
      x.reply.status == 200 && x.reply.body == NoContent && x.sent == None
  {
  }

  /** Any method but OPTIONS and POST is refused with 405 before anything else. */
  lemma OtherMethodsRefused(req: Request, env: Env, ds: Downstream, timestamp: string)
    requires req.verb != "OPTIONS" && req.verb != "POST"
    ensures var x := Handle(req, env, ds, timestamp);
      x.reply.status == 405 && x.reply.body == ErrorJson("Method not allowed") && x.sent == None
  {
  }

  /** A missing or empty secret is reported before the body is looked at. */
  lemma ConfigurationCheckedBeforeBody(req: Request, env: Env, ds: Downstream, timestamp: string)
    requires req.verb == "POST" && !Configured(env)
    ensures var x := Handle(req, env, ds, timestamp);
      x.reply.status == 500 && x.reply.body == ErrorJson("Server configuration error") && x.sent == None
  {
  }

  /** A null body throws in the destructuring and is caught as a send failure. */
  lemma NullBodyIsSendFailure(req: Request, env: Env, ds: Downstream, timestamp: string)
    requires req.verb == "POST" && Configured(env) && req.body.None?
    ensures var x := Handle(req, env, ds, timestamp);
      x.reply.status == 500 && x.reply.body == ErrorJson("Failed to send oracle reading") && x.sent == None
  {
  }

  /** A missing required field is reported even when the email is malformed too. */
  lemma MissingFieldsBeforeEmailFormat(req: Request, env: Env, ds: Downstream, timestamp: string)
    requires req.verb == "POST" && Configured(env) && req.body.Some?
    requires !Truthy(req.body.value.name) || !Truthy(req.body.value.email) || !Truthy(req.body.value.birthdate)
    ensures var x := Handle(req, env, ds, timestamp);
      x.reply.status == 400 && x.reply.body == ErrorJson("Missing required fields") && x.sent == None
  {
  }

  /**
    Once the secrets and fields are present, the email is refused exactly
    when it is not a single-`@` address with an inner `.` after the `@`.
  */
  lemma EmailFormatDecides(req: Request, env: Env, ds: Downstream, timestamp: string)
    requires req.verb == "POST" && Configured(env) && req.body.Some? && HasRequiredFields(req.body.value)
    ensures var x := Handle(req, env, ds, timestamp);
      (x.reply.body == ErrorJson("Invalid email format")) <==> !EmailFormat.ValidEmail(req.body.value.email.value)
    ensures var x := Handle(req, env, ds, timestamp);
      x.reply.body == ErrorJson("Invalid email format") ==> x.reply.status == 400 && x.sent == None
  {
    EmailFormat.MatchesIffValidEmail(req.body.value.email.value);
  }

  /**
    The pipeline is called exactly when every check passes, and then with the
    credentials in the URL and the form fields unchanged in the payload.
  */
  lemma CalledIffAllChecksPass(req: Request, env: Env, ds: Downstream, timestamp: string)
    ensures var x := Handle(req, env, ds, timestamp);
      x.sent.Some? <==>
        req.verb == "POST" && Configured(env) && req.body.Some? &&
        HasRequiredFields(req.body.value) && EmailFormat.Matches(req.body.value.email.value)
    ensures var x := Handle(req, env, ds, timestamp);
      x.sent.Some? ==>
        x.sent.value.url == PipelineUrl(Credentials(env.userId.value, env.savedItemId.value, env.apiKey.value)) &&
        x.sent.value.contentType == "application/json" &&
        FormOf(x.sent.value.payload) == req.body.value &&
        x.sent.value.payload.source == "lunae-oracle" && x.sent.value.payload.timestamp == timestamp
  {
  }

  /** When no call is made, the reply does not depend on what the call would have done. */
  lemma UncalledOutcomeIrrelevant(req: Request, env: Env, ds1: Downstream, ds2: Downstream, timestamp: string)
    requires Handle(req, env, ds1, timestamp).sent.None?
    ensures Handle(req, env, ds1, timestamp) == Handle(req, env, ds2, timestamp)
  {
  }

  /** After the call: 200 with the success object only for an ok, JSON answer; otherwise 500. */
  lemma OutcomeMapping(req: Request, env: Env, ds: Downstream, timestamp: string)
    requires Handle(req, env, ds, timestamp).sent.Some?
    ensures var x := Handle(req, env, ds, timestamp);
      if ds.Responded? && 200 <= ds.status <= 299 && ds.bodyIsJson
      then x.reply.status == 200 && x.reply.body == SuccessJson(true, "Oracle reading sent successfully")
      else x.reply.status == 500 && x.reply.body == ErrorJson("Failed to send oracle reading")
  {
  }

  /** Every reply carries the two fixed headers, and echoes the origin only when allowed. */
  lemma CorsOnEveryReply(req: Request, env: Env, ds: Downstream, timestamp: string)
    ensures var h := Handle(req, env, ds, timestamp).reply.headers;
      h["Access-Control-Allow-Methods"] == "POST, OPTIONS" &&
      h["Access-Control-Allow-Headers"] == "Content-Type"
    ensures var h := Handle(req, env, ds, timestamp).reply.headers;
      ("Access-Control-Allow-Origin" in h <==>
        req.origin.Some? && req.origin.value in
          ["https://lunaeboho.com", "https://www.lunaeboho.com", "http://localhost:9292"]) &&
      ("Access-Control-Allow-Origin" in h ==> h["Access-Control-Allow-Origin"] == req.origin.value)
  {
  }

  const Secrets := Env(Some("key"), Some("user"), Some("item"))

  function Form(name: string, email: string, birthdate: string): Submission
  {
    Submission(Some(name), Some(email), Some(birthdate), None, None, None)
  }

  /** Scenario: a complete form and an ok pipeline answer give the success reply. */
  lemma ScenarioSuccess()
    ensures var x := Handle(Request("POST", None, Some(Form("Ana", "ana@x.com", "1990-01-01"))),
                            Secrets, Responded(200, true), "2024-01-01T00:00:00.000Z");
      x.reply.status == 200 && x.reply.body == SuccessJson(true, "Oracle reading sent successfully") &&
      x.sent.Some?
  {
    EmailFormat.AcceptsExamples();
  }

  /** Scenario: the pipeline answers 503, so the reply is the send failure. */
  lemma ScenarioUnavailable()
    ensures var x := Handle(Request("POST", None, Some(Form("Ana", "ana@x.com", "1990-01-01"))),
                            Secrets, Responded(503, false), "2024-01-01T00:00:00.000Z");
      x.reply.status == 500 && x.reply.body == ErrorJson("Failed to send oracle reading") &&
      x.sent.Some?
  {
    EmailFormat.AcceptsExamples();
  }

  /** Scenario: a malformed email is refused with 400 and the pipeline is not called. */
  lemma ScenarioBadEmail(ds: Downstream)
    ensures var x := Handle(Request("POST", None, Some(Form("Ana", "not-an-email", "1990-01-01"))),
                            Secrets, ds, "2024-01-01T00:00:00.000Z");
      x.reply.status == 400 && x.reply.body == ErrorJson("Invalid email format") && x.sent == None
  {
    EmailFormat.RejectsMissingAt();
  }

  /** Scenario: with one secret unset, every POST gets the configuration error. */
  lemma ScenarioMissingSecret(origin: Option<string>, body: Option<Submission>, ds: Downstream)
    ensures var x := Handle(Request("POST", origin, body), Env(Some("key"), None, Some("item")),
                            ds, "2024-01-01T00:00:00.000Z");
      x.reply.status == 500 && x.reply.body == ErrorJson("Server configuration error") && x.sent == None
  {
  }
}
