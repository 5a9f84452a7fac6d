/**
  CORS header resolution of the oracle handler: the request's `Origin` is
  echoed back only when it equals one of three fixed origins, and the
  allowed methods and headers are announced on every response.
*/
module Cors {
  import opened Wrappers

  const AllowOriginHeader := "Access-Control-Allow-Origin"
  const AllowMethodsHeader := "Access-Control-Allow-Methods"
  const AllowHeadersHeader := "Access-Control-Allow-Headers"

  const AllowedMethods := "POST, OPTIONS"
  const AllowedHeaders := "Content-Type"

  /** The production domain, its `www` variant and the local theme server. */
  const AllowedOrigins: seq<string> :=
    ["https://lunaeboho.com", "https://www.lunaeboho.com", "http://localhost:9292"]

  /** `allowedOrigins.includes(origin)`: exact, case-sensitive equality. */
  predicate IsAllowed(origin: Option<string>)
  {
    origin.Some? && origin.value in AllowedOrigins
  }

  /**
    The headers the handler sets before looking at the method: the echoed
    origin when it is allowed, and the two fixed headers always.
  */
  function CorsHeaders(origin: Option<string>): (h: map<string, string>)
    ensures AllowOriginHeader in h <==> IsAllowed(origin)
    ensures AllowOriginHeader in h ==> h[AllowOriginHeader] == origin.value
    ensures AllowMethodsHeader in h && h[AllowMethodsHeader] == "POST, OPTIONS"
    ensures AllowHeadersHeader in h && h[AllowHeadersHeader] == "Content-Type"
    ensures h.Keys <= {AllowOriginHeader, AllowMethodsHeader, AllowHeadersHeader}
  {
    var echoed := if IsAllowed(origin) then map[AllowOriginHeader := origin.value] else map[];
    echoed[AllowMethodsHeader := AllowedMethods][AllowHeadersHeader := AllowedHeaders]
  }

  /** No allowed origin ends in a slash, so a trailing-slash variant is never echoed. */
  lemma TrailingSlashNotAllowed(o: string)
    requires o in AllowedOrigins
    ensures !IsAllowed(Some(o + "/"))
  {
  }

  /** Scheme, case and port variants of the allowed origins are not echoed. */
  lemma VariantsNotAllowed()
    ensures !IsAllowed(Some("http://lunaeboho.com"))
    ensures !IsAllowed(Some("https://LunaeBoho.com"))
    ensures !IsAllowed(Some("https://localhost:9292"))
    ensures !IsAllowed(Some("http://localhost:3000"))
    ensures !IsAllowed(Some("https://shop.lunaeboho.com"))
    ensures !IsAllowed(None)
  {
  }
}
