/**
  The request the oracle handler sends to the pipeline service: a POST to a
  fixed endpoint whose query string carries the three credentials, with a
  JSON body that repeats the form fields and adds two metadata fields.
*/
module Pipeline {
  import opened Wrappers

  const Endpoint := "https://api.gumloop.com/api/v1/start_pipeline"
  const UserIdKey := "?user_id="
  const SavedItemKey := "&saved_item_id="
  const ApiKeyKey := "&api_key="
  const JsonContentType := "application/json"

  /** The `source` metadata value attached to every payload. */
  const Source := "lunae-oracle"

  /** The three server-held secrets, once known to be present. */
  datatype Credentials = Credentials(userId: string, savedItemId: string, apiKey: string)

  /** The form fields of the request body; `None` is an absent (`undefined`) field. */
  datatype Submission = Submission(
    name: Option<string>,
    email: Option<string>,
    birthdate: Option<string>,
    birthtime: Option<string>,
    birthplace: Option<string>,
    focus: Option<string>)

  /** The JSON object sent to the pipeline. */
  datatype Payload = Payload(
    name: Option<string>,
    email: Option<string>,
    birthdate: Option<string>,
    birthtime: Option<string>,
    birthplace: Option<string>,
    focus: Option<string>,
    source: string,
    timestamp: string)

  /** The outbound call: always a POST with a JSON content type. */
  datatype Outbound = Outbound(url: string, contentType: string, payload: Payload)

  /** The template-literal URL: plain concatenation, no percent-encoding. */
  function PipelineUrl(c: Credentials): string
  {
    Endpoint + UserIdKey + c.userId + SavedItemKey + c.savedItemId + ApiKeyKey + c.apiKey
  }

  /** The form fields a payload carries, without its metadata. */
  function FormOf(p: Payload): Submission
  {
    Submission(p.name, p.email, p.birthdate, p.birthtime, p.birthplace, p.focus)
  }

  /** The payload object literal: every form field unchanged, plus `source` and `timestamp`. */
  function MakePayload(b: Submission, timestamp: string): (p: Payload)
    ensures FormOf(p) == b
    ensures p.source == "lunae-oracle" && p.timestamp == timestamp
  {
    Payload(b.name, b.email, b.birthdate, b.birthtime, b.birthplace, b.focus, Source, timestamp)
  }

  /** The call the handler makes once every check has passed. */
  function MakeOutbound(c: Credentials, b: Submission, timestamp: string): (o: Outbound)
    ensures o.url == PipelineUrl(c) && o.contentType == "application/json"
    ensures FormOf(o.payload) == b && o.payload.source == Source && o.payload.timestamp == timestamp
  {
    Outbound(PipelineUrl(c), JsonContentType, MakePayload(b, timestamp))
  }

  // A reading of the query string the way a receiver splits it on `&`,
  // used to state when the credentials survive the unencoded concatenation.

  /** The longest prefix of `s` without `c`. */
  function TakeUntil(s: string, c: char): (r: string)
    ensures r <= s && c !in r
    ensures |r| < |s| ==> s[|r|] == c
  {
    if s == [] || s[0] == c then [] else [s[0]] + TakeUntil(s[1..], c)
  }

  /** `s` without its prefix `p`, when `p` is one. */
  function StripPrefix(s: string, p: string): (r: Option<string>)
    ensures r.Some? <==> p <= s
    ensures r.Some? ==> p + r.value == s
  {
    if p <= s then Some(s[|p|..]) else None
  }

  /**
    After the prefix `key`, the value up to the next `&` and what follows it.
  */
  function ReadField(s: string, key: string): Option<(string, string)>
  {
    match StripPrefix(s, key)
    case None => None
    case Some(afterKey) =>
      var value := TakeUntil(afterKey, '&');
      Some((value, afterKey[|value|..]))
  }

  /** The credentials read back from a pipeline URL. */
  function ParseUrl(url: string): Option<Credentials>
  {
    match ReadField(url, Endpoint + UserIdKey)
    case None => None
    case Some((user, afterUser)) =>
      match ReadField(afterUser, SavedItemKey)
      case None => None
      case Some((saved, afterSaved)) =>
        match StripPrefix(afterSaved, ApiKeyKey)
        case None => None
        case Some(key) => Some(Credentials(user, saved, key))
  }

  /** The prefix before the first `c` is exactly a `c`-free leading part. */
  lemma TakeUntilSplit(u: string, c: char, rest: string)
    requires c !in u
    requires rest == [] || rest[0] == c
    ensures TakeUntil(u + rest, c) == u
  {
    var s := u + rest;
    var r := TakeUntil(s, c);
    assert |r| == |u|;
    assert r == s[..|u|] == u;
  }

  /** A field written as `key`, an `&`-free value and a rest that starts with `&` reads back. */
  lemma ReadFieldSplit(key: string, value: string, rest: string)
    requires '&' !in value
    requires rest == [] || rest[0] == '&'
    ensures ReadField(key + value + rest, key) == Some((value, rest))
  {
    var s := key + value + rest;
    assert key <= s;
    assert s[|key|..] == value + rest;
    TakeUntilSplit(value, '&', rest);
    assert (value + rest)[|value|..] == rest;
  }

  /** The query string gives back the credentials unless a value holds an `&`. */
  lemma ParseUrlRoundTrip(c: Credentials)
    requires '&' !in c.userId && '&' !in c.savedItemId
    ensures ParseUrl(PipelineUrl(c)) == Some(c)
  {
    var keyPart := ApiKeyKey + c.apiKey;
    var savedPart := SavedItemKey + c.savedItemId + keyPart;
    assert PipelineUrl(c) == (Endpoint + UserIdKey) + c.userId + savedPart;
    ReadFieldSplit(Endpoint + UserIdKey, c.userId, savedPart);
    ReadFieldSplit(SavedItemKey, c.savedItemId, keyPart);
    assert StripPrefix(keyPart, ApiKeyKey) == Some(c.apiKey);
  }

  /** An `&` inside the user id is not escaped and cuts that value short. */
  lemma AmpersandInUserIdIsNotEscaped()
    ensures ParseUrl(PipelineUrl(Credentials("u&1", "s", "k"))) != Some(Credentials("u&1", "s", "k"))
  {
  }
}
