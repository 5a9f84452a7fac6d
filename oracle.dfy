/**
  The oracle request handler: CORS headers, then a chain of checks each of
  which may end the request (preflight, method, server configuration,
  required fields, email format), then the call to the pipeline service and
  the mapping of its outcome to the reply.

  `Handle` is the handler as a function of its inputs; `Handler` is the same
  procedure written the way the source runs it, updating a `ServerResponse`
  step by step, and is proved to leave exactly the reply `Handle` gives.
*/
module Oracle {
  import opened Wrappers
  import Cors
  import EmailFormat
  import opened Pipeline

  /** An incoming request: its HTTP method (`verb`), `Origin` header, and the parsed body (`None` when null). */
  datatype Request = Request(verb: string, origin: Option<string>, body: Option<Submission>)

  /** The three environment variables holding the pipeline credentials. */
  datatype Env = Env(apiKey: Option<string>, userId: Option<string>, savedItemId: Option<string>)

  /**
    What the pipeline call turns out to do: answer with an HTTP status and a
    body that may or may not parse as JSON, or fail before any answer.
  */
  datatype Downstream = Responded(status: int, bodyIsJson: bool) | NetworkError

  /** The reply body: nothing (`end()`), an error object, or the success object. */
  datatype ReplyBody = NoContent | ErrorJson(error: string) | SuccessJson(success: bool, message: string)

  /** A finished reply. */
  datatype Reply = Reply(status: int, headers: map<string, string>, body: ReplyBody)

  /** The reply together with the pipeline call made on the way, if any. */
  datatype Exchange = Exchange(reply: Reply, sent: Option<Outbound>)

  const MethodNotAllowed := "Method not allowed"
  const ConfigurationError := "Server configuration error"
  const MissingFields := "Missing required fields"
  const InvalidEmail := "Invalid email format"
  const SendFailed := "Failed to send oracle reading"
  const SentMessage := "Oracle reading sent successfully"

  /** JavaScript truthiness of a string that may be absent: present and non-empty. */
  predicate Truthy(v: Option<string>)
  {
    v.Some? && v.value != ""
  }

  /** All three secrets are set. */
  predicate Configured(env: Env)
  {
    Truthy(env.apiKey) && Truthy(env.userId) && Truthy(env.savedItemId)
  }

  function CredentialsOf(env: Env): Credentials
    requires Configured(env)
  {
    Credentials(env.userId.value, env.savedItemId.value, env.apiKey.value)
  }

  /** Name, email and birthdate are all truthy. */
  predicate HasRequiredFields(b: Submission)
  {
    Truthy(b.name) && Truthy(b.email) && Truthy(b.birthdate)
  }

  /** `Response.ok` of the Fetch standard: a status in the range 200 to 299. */
  predicate IsOkStatus(status: int)
  {
    200 <= status <= 299
  }

  /** The pipeline call completes without throwing: an ok status and a JSON body. */
  predicate Succeeded(ds: Downstream)
  {
    ds.Responded? && IsOkStatus(ds.status) && ds.bodyIsJson
  }

  /** Where the chain of checks ends: a reply, or the call to the pipeline. */
  datatype Step = Finish(status: int, body: ReplyBody) | Send(outbound: Outbound)

  /**
    The checks after the CORS headers, in source order. A null body makes the
    destructuring throw inside the `try`, which the `catch` turns into the
    generic send failure.
  */
  function Gate(req: Request, env: Env, timestamp: string): Step
  {
    if req.verb == "OPTIONS" then Finish(200, NoContent)
    else if req.verb != "POST" then Finish(405, ErrorJson(MethodNotAllowed))
    else if !Configured(env) then Finish(500, ErrorJson(ConfigurationError))
    else if req.body.None? then Finish(500, ErrorJson(SendFailed))
    else if !HasRequiredFields(req.body.value) then Finish(400, ErrorJson(MissingFields))
    else if !EmailFormat.Matches(req.body.value.email.value) then Finish(400, ErrorJson(InvalidEmail))
    else Send(MakeOutbound(CredentialsOf(env), req.body.value, timestamp))
  }

  /** The reply once the pipeline has been called: success, or the caught failure. */
  function AfterSend(ds: Downstream): (r: (int, ReplyBody))
  {
    if Succeeded(ds) then (200, SuccessJson(true, SentMessage)) else (500, ErrorJson(SendFailed))
  }

  /** The whole handler: the reply it leaves and the pipeline call it makes. */
  function Handle(req: Request, env: Env, ds: Downstream, timestamp: string): (x: Exchange)
    ensures x.reply.headers == Cors.CorsHeaders(req.origin)
    ensures x.reply.status in {200, 400, 405, 500}
    ensures x.reply.body.NoContent? <==> req.verb == "OPTIONS"
    ensures x.reply.body.SuccessJson? <==> x.sent.Some? && Succeeded(ds)
  {
    var headers := Cors.CorsHeaders(req.origin);
    match Gate(req, env, timestamp)
    case Finish(status, body) => Exchange(Reply(status, headers, body), None)
    case Send(outbound) =>
      var (status, body) := AfterSend(ds);
      Exchange(Reply(status, headers, body), Some(outbound))
  }

  /**
    The server's response object: the headers set so far, the status code,
    the body written, and whether the response has been sent.
  */
  class ServerResponse {
    var headers: map<string, string>
    var statusCode: int
    var body: ReplyBody
    var finished: bool

    /** A fresh response: no headers, status 200, nothing sent. */
    constructor ()
      ensures headers == map[] && statusCode == 200 && body == NoContent && !finished
    {
      headers := map[];
      statusCode := 200;
      body := NoContent;
      finished := false;
    }

    /** `res.setHeader(name, value)`: replaces any earlier value. */
    method SetHeader(name: string, value: string)
      requires !finished
      modifies this`headers
      ensures headers == old(headers)[name := value]
    {
      headers := headers[name := value];
    }

    /** `res.status(code)`. */
    method Status(code: int)
      requires !finished
      modifies this`statusCode
      ensures statusCode == code
    {
      statusCode := code;
    }

    /** `res.json(value)`: writes the object and sends the response. */
    method Json(value: ReplyBody)
      requires !finished
      modifies this`body, this`finished
      ensures body == value && finished
    {
      body := value;
      finished := true;
    }

    /** `res.end()`: sends the response with no body. */
    method End()
      requires !finished
      modifies this`body, this`finished
      ensures body == NoContent && finished
    {
      body := NoContent;
      finished := true;
    }
  }

  /** Lines 8 to 14 of the handler: the CORS headers, set one at a time. */
  method SetCorsHeaders(origin: Option<string>, res: ServerResponse)
    requires !res.finished
    modifies res`headers
    ensures res.headers == old(res.headers) + Cors.CorsHeaders(origin)
  {
    if Cors.IsAllowed(origin) {
      res.SetHeader(Cors.AllowOriginHeader, origin.value);
    }
    res.SetHeader(Cors.AllowMethodsHeader, Cors.AllowedMethods);
    res.SetHeader(Cors.AllowHeadersHeader, Cors.AllowedHeaders);
  }

  /** `res.status(status).json(body)`. */
  method SendJson(res: ServerResponse, status: int, body: ReplyBody)
    requires !res.finished
    modifies res`statusCode, res`body, res`finished
    ensures res.statusCode == status && res.body == body && res.finished
  {
    res.Status(status);
    res.Json(body);
  }

  /**
    The handler as the source runs it: sets the CORS headers on `res`, then
    returns at the first check that fails, sending exactly one reply; the
    result is the pipeline call it made, if any.
  */
  method Handler(req: Request, env: Env, ds: Downstream, timestamp: string, res: ServerResponse)
    returns (sent: Option<Outbound>)
    requires !res.finished
    modifies res
    ensures res.finished
    ensures var x := Handle(req, env, ds, timestamp);
      res.headers == old(res.headers) + x.reply.headers &&
      res.statusCode == x.reply.status && res.body == x.reply.body && sent == x.sent
  {
    SetCorsHeaders(req.origin, res);

    if req.verb == "OPTIONS" {
      res.Status(200);
      res.End();
      return None;
    }
    if req.verb != "POST" {
      SendJson(res, 405, ErrorJson(MethodNotAllowed));
      return None;
    }
    if !Truthy(env.apiKey) || !Truthy(env.userId) || !Truthy(env.savedItemId) {
      SendJson(res, 500, ErrorJson(ConfigurationError));
      return None;
    }
    if req.body.None? {
      // destructuring a null body throws; the catch replies with the send failure
      SendJson(res, 500, ErrorJson(SendFailed));
      return None;
    }
    var form := req.body.value;
    if !Truthy(form.name) || !Truthy(form.email) || !Truthy(form.birthdate) {
      SendJson(res, 400, ErrorJson(MissingFields));
      return None;
    }
    if !EmailFormat.Matches(form.email.value) {
      SendJson(res, 400, ErrorJson(InvalidEmail));
      return None;
    }

    var credentials := Credentials(env.userId.value, env.savedItemId.value, env.apiKey.value);
    sent := Some(Outbound(PipelineUrl(credentials), JsonContentType, MakePayload(form, timestamp)));
    match ds {
      case NetworkError =>
        SendJson(res, 500, ErrorJson(SendFailed));
      case Responded(status, bodyIsJson) =>
        if !IsOkStatus(status) {
          // the error text is logged and an error thrown into the catch
          SendJson(res, 500, ErrorJson(SendFailed));
        } else if !bodyIsJson {
          // `response.json()` rejects into the catch
          SendJson(res, 500, ErrorJson(SendFailed));
        } else {
          SendJson(res, 200, SuccessJson(true, SentMessage));
        }
    }
  }
}
