# Lunae oracle proxy: a verified model of the request handler

The repository is one serverless HTTP handler (`api/oracle.js`) that receives
the "oracle reading" form of the Lunae Boho shop and forwards it to a
Gumloop pipeline. This project models its decision procedure in Dafny:

- **CORS** (`Cors`): the `Origin` header is echoed in
  `Access-Control-Allow-Origin` only when it equals one of
  `https://lunaeboho.com`, `https://www.lunaeboho.com`,
  `http://localhost:9292`; `Access-Control-Allow-Methods: POST, OPTIONS` and
  `Access-Control-Allow-Headers: Content-Type` are set on every reply.
- **The chain of early exits** (`Oracle.Gate`, `Oracle.Handle`): preflight
  (200, no body), method (405), server configuration (500), required fields
  (400), email format (400), then the pipeline call and its outcome (200 or
  500).
- **The email check** (`EmailFormat`): the regular expression
  `^[^\s@]+@[^\s@]+\.[^\s@]+$` read literally (`Matches`), proved equal to a
  structural description (`ValidEmail`: exactly one `@`, no whitespace, a
  non-empty local part, a `.` after the `@` that is neither the first nor the
  last character of the domain). `\s` is ECMAScript's WhiteSpace and
  LineTerminator set, listed code point by code point.
- **The outbound call** (`Pipeline`): the URL with the three credentials in
  its query string, and the payload that repeats the six form fields and adds
  `source: "lunae-oracle"` and the timestamp.

The source mutates the platform's response object step by step, so
`Oracle.ServerResponse` is a class with the header map, status code, body and
a sent flag, and `Oracle.Handler` is the handler written the way the source
runs it, with early returns; its postcondition says it leaves exactly the
reply that the pure `Oracle.Handle` computes, and that it makes the pipeline
call `Handle` reports. The properties are lemmas about `Handle`.

Inputs that the source reads from the outside world are parameters: the
request (`Oracle.Request`), the three environment variables (`Oracle.Env`,
each an `Option<string>`), the timestamp string, and the outcome of the
pipeline call (`Oracle.Downstream`: an HTTP status with a body that does or
does not parse as JSON, or a network failure).

Where the documented behaviour and the code differ, the model follows the
code:
- a secret set to the empty string counts as missing (the `!` test on line 29),
  not only an absent one;
- a request whose parsed body is null makes the destructuring on line 34
  throw inside the `try`, so the reply is 500 "Failed to send oracle reading",
  not a 400.

Files: `wrappers.dfy` (Option), `email_format.dfy`, `cors.dfy`,
`pipeline.dfy`, `oracle.dfy` (types, `Handle`, `ServerResponse`, `Handler`),
`oracle_properties.dfy` (lemmas about the handler).

## Model

| member | source | states |
|---|---|---|
| `EmailFormat.MatchesIffValidEmail` | api/oracle.js:40-41 | the regex accepts a string exactly when it has one `@`, no whitespace, a non-empty part before the `@` and a `.` strictly inside the part after it |
| `EmailFormat.MatchesImpliesValidEmail` | api/oracle.js:40-41 | every string the regex accepts has exactly one `@`, no whitespace and an inner `.` after the `@` |
| `EmailFormat.ValidEmailImpliesMatches` | api/oracle.js:40-41 | every such structurally valid address is accepted by the regex (three non-empty runs of `[^\s@]` split by `@` and `.`) |
| `EmailFormat.AcceptsExamples` | api/oracle.js:40-41 | `user@domain.com`, `a@b.c.d` and `ana@x.com` are accepted |
| `EmailFormat.RejectsMissingDot` | api/oracle.js:40-43 | `user@domain` (no `.` after the `@`) is refused |
| `EmailFormat.RejectsMissingAt` | api/oracle.js:40-43 | `not-an-email` (no `@`) is refused |
| `EmailFormat.RejectsTwoAts` | api/oracle.js:40-43 | `a@b@c.d` is refused because the class `[^\s@]` excludes a second `@` |
| `EmailFormat.RejectsSpace` | api/oracle.js:40-43 | an address containing a space is refused |
| `EmailFormat.RejectsEmptyLocalPart` | api/oracle.js:40-43 | `@domain.com` is refused: the part before the `@` must be non-empty |
| `EmailFormat.RejectsEmptyDomainLabel` | api/oracle.js:40-43 | `user@.com` is refused: the `.` may not follow the `@` directly |
| `EmailFormat.RejectsEmptyTopLabel` | api/oracle.js:40-43 | `user@domain.` is refused: the `.` may not be the last character |
| `Cors.CorsHeaders` | api/oracle.js:2-14 | the allow-origin header is present exactly when the origin is one of the three listed values and then equals it; the methods and headers entries are always `POST, OPTIONS` and `Content-Type`; nothing else is set |
| `Cors.TrailingSlashNotAllowed` | api/oracle.js:2-11 | an allowed origin with a trailing `/` is not allowed (exact match, no normalisation) |
| `Cors.VariantsNotAllowed` | api/oracle.js:2-11 | scheme, letter-case, port and subdomain variants and an absent origin are not allowed |
| `Pipeline.MakePayload` | api/oracle.js:52-61 | the payload carries the six form fields unchanged (`FormOf` gives the form back) plus `source = "lunae-oracle"` and the given timestamp |
| `Pipeline.MakeOutbound` | api/oracle.js:45-62 | the call goes to the credential URL with a JSON content type and that payload |
| `Pipeline.ParseUrlRoundTrip` | api/oracle.js:45 | reading the query string back on `&` yields the three credentials when the user id and saved-item id hold no `&` |
| `Pipeline.AmpersandInUserIdIsNotEscaped` | api/oracle.js:45 | the interpolation does no encoding: a user id with `&` does not read back |
| `Oracle.Handle` | api/oracle.js:1-83 | every reply carries the CORS headers of its origin, has status 200, 400, 405 or 500, has no body exactly for OPTIONS, and is the success object exactly when the call was made and succeeded |
| `Oracle.ServerResponse.SetHeader` | api/oracle.js:10-14 | setting a header replaces that one entry of the header map |
| `Oracle.ServerResponse.Status` | api/oracle.js:17 | the status code becomes the given one |
| `Oracle.ServerResponse.Json` | api/oracle.js:21 | the body becomes the given object and the response is sent |
| `Oracle.ServerResponse.End` | api/oracle.js:17 | the response is sent with no body |
| `Oracle.SetCorsHeaders` | api/oracle.js:8-14 | after the three conditional/unconditional `setHeader` calls the header map is the old one updated with `Cors.CorsHeaders` of the origin |
| `Oracle.SendJson` | api/oracle.js:72-81 | `status(...).json(...)` leaves that status and body and sends the response |
| `Oracle.Handler` | api/oracle.js:1-83 | run step by step on a response not yet sent, the handler sends it exactly once, with the headers, status and body of `Handle`, and makes exactly the pipeline call `Handle` reports |
| `OracleProperties.PreflightAlwaysOk` | api/oracle.js:16-18 | an OPTIONS request gets 200 with no body and no pipeline call, whatever its body, the secrets or the outcome |
| `OracleProperties.OtherMethodsRefused` | api/oracle.js:20-22 | any method other than OPTIONS and POST gets 405 `Method not allowed` and no call |
| `OracleProperties.ConfigurationCheckedBeforeBody` | api/oracle.js:25-32 | a POST with any secret missing or empty gets 500 `Server configuration error` and no call, whatever the body |
| `OracleProperties.NullBodyIsSendFailure` | api/oracle.js:34 | a configured POST whose body is null gets 500 `Failed to send oracle reading` and no call |
| `OracleProperties.MissingFieldsBeforeEmailFormat` | api/oracle.js:34-38 | a missing or empty name, email or birthdate gets 400 `Missing required fields` and no call, even if the email is malformed |
| `OracleProperties.EmailFormatDecides` | api/oracle.js:40-43 | with secrets and fields present, the reply is `Invalid email format` exactly when the email is not structurally valid, and that reply is a 400 with no call |
| `OracleProperties.CalledIffAllChecksPass` | api/oracle.js:45-62 | the pipeline is called exactly when the method is POST, the secrets are set, and the fields and email pass; the call carries the credential URL, a JSON content type, the form fields unchanged, the source tag and the timestamp |
| `OracleProperties.UncalledOutcomeIrrelevant` | api/oracle.js:16-43 | when no call is made, the reply is the same whatever the pipeline would have done |
| `OracleProperties.OutcomeMapping` | api/oracle.js:64-81 | after the call, an ok (200-299) status with a JSON body gives 200 and the success object; a non-ok status, an unparsable body or a network failure gives 500 `Failed to send oracle reading` |
| `OracleProperties.CorsOnEveryReply` | api/oracle.js:2-14 | every reply, on every path, has the two fixed CORS headers, and the allow-origin header exactly for the three listed origins, equal to the origin |
| `OracleProperties.ScenarioSuccess` | api/oracle.js:34-75 | a complete form with `ana@x.com` and an ok answer gives 200 with the success message |
| `OracleProperties.ScenarioUnavailable` | api/oracle.js:64-81 | the same form with a 503 answer gives 500 `Failed to send oracle reading` |
| `OracleProperties.ScenarioBadEmail` | api/oracle.js:40-43 | `not-an-email` gives 400 `Invalid email format` and no call |
| `OracleProperties.ScenarioMissingSecret` | api/oracle.js:25-32 | with the user id unset, any POST gets 500 `Server configuration error` and no call |

## Left out

- The `fetch` call and the remote service: the outcome is an input (`Oracle.Downstream`); the model records the call made, not its transport.
- `response.text()` and `response.json()`: only whether the JSON parse succeeds is modelled (`bodyIsJson`); a failing `text()` on a non-ok answer leads to the same 500, and the parsed data is never inspected by the source.
- `console.error` logging on the configuration and pipeline error paths: no effect on the reply.
- Reading `process.env` and `new Date().toISOString()`: the secrets and the timestamp are parameters.
- JSON serialisation of the payload and of the reply: both are records; `null` and `undefined` fields are both `None`.
- Oracle.ServerResponse.Json: does not model the `Content-Type` header the platform's `res.json` adds when it serialises the body.
- Body fields that are not strings (numbers, objects) and their truthiness and string coercion before the regex test: every field is an optional string.
- JavaScript regular expressions without the `u` flag work on UTF-16 code units; here strings are sequences of Unicode scalar values. The accepted language is the same for well-formed strings, since `@`, `.` and every `\s` character are single code units; lone surrogates are not representable.
- Asynchrony and concurrent invocations: each call of the handler is modelled as one sequential run.
