/**
  The request side of the backend service: the host-based dispatch of the
  root route, the middleware that stamps the seven security headers on every
  response, and the layer that adds a `Server` header when the response has
  none. A response's headers are a `HeaderMap` updated in place; header names
  use one canonical spelling and carry one value each.
*/
module Server {
  import opened Config

  // ---------------------------------------------------------------------------
  // Routing

  /** What the root route answers with. */
  datatype Page = HealthStatus | HelloWorld

  const HEALTH_PREFIX := "health."

  /** `root_handler`: hosts that start with `health.` get the health status, all others the hello page. */
  function RootHandler(host: string): Page
  {
    if HEALTH_PREFIX <= host then HealthStatus else HelloWorld
  }

  /** Every host under the `health.` prefix is answered with the health status. */
  lemma HealthHostRouted(rest: string)
    ensures RootHandler(HEALTH_PREFIX + rest) == HealthStatus
  {
    assert (HEALTH_PREFIX + rest)[..|HEALTH_PREFIX|] == HEALTH_PREFIX;
  }

  /** A host whose first seven characters are not `health.` gets the hello page. */
  lemma OtherHostRouted(host: string)
    requires |host| < |HEALTH_PREFIX| || host[..|HEALTH_PREFIX|] != HEALTH_PREFIX
    ensures RootHandler(host) == HelloWorld
  {
  }

  /** The test is on the prefix only and is case-sensitive. */
  lemma PrefixOnly()
    ensures RootHandler("health.example.com") == HealthStatus
    ensures RootHandler("api.health.example.com") == HelloWorld
    ensures RootHandler("Health.example.com") == HelloWorld
    ensures RootHandler("health") == HelloWorld
  {
    HealthHostRouted("example.com");
    assert "api.health.example.com"[0] != HEALTH_PREFIX[0];
    assert "Health.example.com"[0] != HEALTH_PREFIX[0];
  }

  // ---------------------------------------------------------------------------
  // Response headers

  /** A response's header map, changed in place by the layers it passes through. */
  class HeaderMap {
    var entries: map<string, string>

    constructor (initial: map<string, string>)
      ensures entries == initial
    {
      entries := initial;
    }

    /** `HeaderMap::contains_key`. */
    function ContainsKey(name: string): bool
      reads this
    {
      name in entries
    }

    /** `HeaderMap::insert`: the value replaces any value the name had. */
    method Insert(name: string, value: string)
      modifies this
      ensures entries == old(entries)[name := value]
    {
      entries := entries[name := value];
    }
  }

  const SERVER := "Server"
  const SERVER_NAME := "cloudflare-tunnel-example"

  /** The fixed values the middleware writes. */
  const NOSNIFF := "nosniff"
  const DENY := "DENY"
  const XSS_BLOCK := "1; mode=block"
  const HSTS_ONE_YEAR_PRELOAD := "max-age=31536000" + "; " + "includeSubDomains" + "; " + "preload"
  const CSP_SELF_ONLY :=
    "default-src 'self'"
    + "; " + "script-src 'self'"
    + "; " + "style-src 'self' 'unsafe-inline'"
    + "; " + "img-src 'self' data:"
    + "; " + "connect-src 'self'"
    + "; " + "font-src 'self'"
    + "; " + "object-src 'none'"
    + "; " + "media-src 'self'"
    + "; " + "frame-src 'none'"
    + "; " + "child-src 'none'"
    + "; " + "worker-src 'none'"
    + "; " + "base-uri 'self'"
    + "; " + "form-action 'self'"
  const STRICT_ORIGIN_WHEN_CROSS_ORIGIN := "strict-origin-when-cross-origin"
  const NO_SENSORS := "geolocation=(), microphone=(), camera=()"

  /** The seven headers the middleware writes, with their values. */
  const MIDDLEWARE_HEADERS: map<string, string> := map[
    X_CONTENT_TYPE_OPTIONS := NOSNIFF,
    X_FRAME_OPTIONS := DENY,
    X_XSS_PROTECTION := XSS_BLOCK,
    STRICT_TRANSPORT_SECURITY := HSTS_ONE_YEAR_PRELOAD,
    CONTENT_SECURITY_POLICY := CSP_SELF_ONLY,
    REFERRER_POLICY := STRICT_ORIGIN_WHEN_CROSS_ORIGIN,
    PERMISSIONS_POLICY := NO_SENSORS
  ]

  /**
    The headers after the middleware: each of the seven security headers has
    its fixed value, replacing whatever the handler set, and every other
    header is exactly as it was.
  */
  function WithSecurityHeaders(m: map<string, string>): (r: map<string, string>)
    ensures forall name :: name in SECURITY_HEADER_NAMES ==> name in r && r[name] == MIDDLEWARE_HEADERS[name]
    ensures forall name :: name !in SECURITY_HEADER_NAMES ==> (name in r <==> name in m)
    ensures forall name :: name !in SECURITY_HEADER_NAMES && name in m ==> r[name] == m[name]
  {
    m[X_CONTENT_TYPE_OPTIONS := NOSNIFF]
     [X_FRAME_OPTIONS := DENY]
     [X_XSS_PROTECTION := XSS_BLOCK]
     [STRICT_TRANSPORT_SECURITY := HSTS_ONE_YEAR_PRELOAD]
     [CONTENT_SECURITY_POLICY := CSP_SELF_ONLY]
     [REFERRER_POLICY := STRICT_ORIGIN_WHEN_CROSS_ORIGIN]
     [PERMISSIONS_POLICY := NO_SENSORS]
  }

  /** The headers after the `Server` layer: a `Server` header is added only when there is none. */
  function WithDefaultServer(m: map<string, string>): (r: map<string, string>)
    ensures SERVER in r
    ensures SERVER in m ==> r[SERVER] == m[SERVER]
    ensures SERVER !in m ==> r[SERVER] == SERVER_NAME
    ensures forall name :: name != SERVER ==> (name in r <==> name in m)
    ensures forall name :: name != SERVER && name in m ==> r[name] == m[name]
  {
    if SERVER in m then m else m[SERVER := SERVER_NAME]
  }

  /** `security_headers`: insert the seven headers, one after the other, into the response's map. */
  method SecurityHeaders(headers: HeaderMap)
    modifies headers
    ensures headers.entries == WithSecurityHeaders(old(headers.entries))
  {
    headers.Insert(X_CONTENT_TYPE_OPTIONS, NOSNIFF);
    headers.Insert(X_FRAME_OPTIONS, DENY);
    headers.Insert(X_XSS_PROTECTION, XSS_BLOCK);
    headers.Insert(STRICT_TRANSPORT_SECURITY, HSTS_ONE_YEAR_PRELOAD);
    headers.Insert(CONTENT_SECURITY_POLICY, CSP_SELF_ONLY);
    headers.Insert(REFERRER_POLICY, STRICT_ORIGIN_WHEN_CROSS_ORIGIN);
    headers.Insert(PERMISSIONS_POLICY, NO_SENSORS);
  }

  /** `SetResponseHeaderLayer::if_not_present(SERVER, ...)`. */
  method SetServerIfNotPresent(headers: HeaderMap)
    modifies headers
    ensures headers.entries == WithDefaultServer(old(headers.entries))
  {
    if !headers.ContainsKey(SERVER) {
      headers.Insert(SERVER, SERVER_NAME);
    }
  }

  /**
    The layer stack on the way out: the `Server` layer sits inside the
    middleware, so it sees the handler's response first and the middleware
    second.
  */
  method FinishResponse(headers: HeaderMap)
    modifies headers
    ensures headers.entries == WithSecurityHeaders(WithDefaultServer(old(headers.entries)))
  {
    SetServerIfNotPresent(headers);
    SecurityHeaders(headers);
  }

  /** The two layers touch different headers, so their order does not matter. */
  lemma LayersCommute(m: map<string, string>)
    ensures WithSecurityHeaders(WithDefaultServer(m)) == WithDefaultServer(WithSecurityHeaders(m))
  {
    assert SERVER !in SECURITY_HEADER_NAMES;
  }

  /** Running the middleware again changes nothing. */
  lemma SecurityHeadersIdempotent(m: map<string, string>)
    ensures WithSecurityHeaders(WithSecurityHeaders(m)) == WithSecurityHeaders(m)
  {
  }

  /**
    Every finished response carries the seven security headers with the
    middleware's values and a `Server` header, which keeps the handler's own
    value when it set one; every other header is the handler's.
  */
  lemma FinishedResponse(m: map<string, string>)
    ensures var r := WithSecurityHeaders(WithDefaultServer(m));
      && (forall name :: name in SECURITY_HEADER_NAMES ==> name in r && r[name] == MIDDLEWARE_HEADERS[name])
      && SERVER in r
      && r[SERVER] == (if SERVER in m then m[SERVER] else SERVER_NAME)
      && (forall name :: name !in SECURITY_HEADER_NAMES && name != SERVER ==> (name in r <==> name in m))
      && (forall name :: name !in SECURITY_HEADER_NAMES && name != SERVER && name in m ==> r[name] == m[name])
  {
    assert SERVER !in SECURITY_HEADER_NAMES;
  }

  /**
    The middleware's fixed values are exactly the header table of the
    default configuration, the HSTS and CSP strings included.
  */
  lemma MiddlewareMatchesDefaults()
    ensures MIDDLEWARE_HEADERS == HeaderTable(DefaultSecurityConfig())
  {
    DefaultHstsValues();
    DefaultCspValue();
  }

  /** The `Server` value the layer adds is the default configuration's server header. */
  lemma ServerNameMatchesDefault()
    ensures SERVER_NAME == DefaultSecurityConfig().serverHeader
  {
  }
}
