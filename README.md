# Security headers of the tunnel example backend

A Dafny model of the backend service's security-header logic: the
`SecurityConfig` settings record with its defaults and its environment
loader (`src/config.rs`), the rendering of the `Strict-Transport-Security`
and `Content-Security-Policy` values and of the seven-entry header table,
and the request side in `src/main.rs` (the host-based dispatch of `/`, the
`security_headers` middleware and the layer that adds a `Server` header when
there is none).

Modules:

- `Results`: Rust's `Result` with `map_err`; the loader's `?` is Dafny's `:-`.
- `Text`: Rust standard-library behaviour the loader and the renderers rely on.
  - `[String]::join`.
  - `format!("{}", n)` for an unsigned integer.
  - `u32::from_str`: one optional `+`, decimal digits read left to right, the first non-digit an invalid digit and the first digit past `u32::MAX` an overflow. An empty string is an error.
  - `bool::from_str`: exactly `true` or `false`.
  - The `Display` texts of both parse errors.
- `HeaderSyntax`: how a receiver reads the two structured values.
  - Split at `;`, strip ASCII whitespace and skip empty pieces (section 6.1 of RFC 6797; section 2.2.1 of Content Security Policy Level 3).
  - A CSP directive is split into its name and its value.
  - Not modelled: the CSP step that skips a non-ASCII directive, and the split of a value into its source expressions.
  - Its round-trip lemmas are what the HSTS and CSP contracts are proved against.
- `Config`: `src/config.rs`.
  - `FromEnv`, `LoadHsts`, `LoadCspSources`, `Override`, `HstsHeaderValue` and `ToHeaders` are methods, because the source builds their results step by step.
  - Each is tied to a reference function: `ConfigFromEnv`/`LoadError`, `HstsValue` or `HeaderTable`.
  - The defaults and `csp_header_value` are functions.
- `Server`: `src/main.rs`.
  - A response's headers are a `HeaderMap` class, changed in place by `SecurityHeaders` and `SetServerIfNotPresent`.
  - `FinishResponse` applies the two layers in the order tower runs them on the way out. `ServiceBuilder` makes the first `.layer` the outermost, so the `Server` layer sees the response first and the middleware second.

The process environment is a `map<string, string>` parameter. Header names
use the source's own spelling as the one canonical key.

The middleware in `src/main.rs` does not read `SecurityConfig`. It writes
fixed literals. `Server.MiddlewareMatchesDefaults` proves those literals are
exactly the header table of the default configuration, HSTS and CSP strings
included. So environment overrides change what `SecurityConfig` renders but
not what the service sends. In the model the two long literals (the HSTS and
the CSP values) are written as their items joined by `"; "`. This is the
same string as the source's single literal.

## Model

| member | source | states |
|---|---|---|
| Config.DefaultValues | src/config.rs:91-114 | The defaults are `nosniff`, `DENY`, `1; mode=block`, a max-age of one year (31536000 s), and both HSTS flags on. |
| Config.DefaultCspValue | src/config.rs:116-133 | The default CSP sources render the policy `default-src 'self'; script-src 'self'; style-src 'self' 'unsafe-inline'; img-src 'self' data:; connect-src 'self'; font-src 'self'; object-src 'none'; media-src 'self'; frame-src 'none'; child-src 'none'; worker-src 'none'; base-uri 'self'; form-action 'self'`. |
| Config.Override | src/config.rs:142-144 | One `if let Ok(value) = env::var(..)` step: the variable's value when it is set, the field's current value otherwise. |
| Config.LoadHsts | src/config.rs:154-173 | The three HSTS variables are parsed in order. The result is Ok exactly when every set one parses, in which case each replaces its field. Otherwise the error is the first failure's message, in the order max-age, include-subdomains, preload. |
| Results.Result.MapErr | src/config.rs:155-158 | `map_err` keeps a success unchanged and passes an error through the given function. |
| Config.FromEnv | src/config.rs:138-200 | The load succeeds exactly when all set HSTS variables parse. On success the result is the defaults with every set variable in place of its own field. On failure it is the first parse error's `ConfigError` message. |
| Config.FromEmptyEnv | src/config.rs:138-200 | With none of the twelve variables set, loading cannot fail and yields exactly `SecurityConfig::default()`. |
| Config.UnknownVariableIgnored | src/config.rs:138-200 | A variable outside the twelve changes neither the loaded settings nor whether, or how, loading fails. |
| Config.StringOverride | src/config.rs:142-197 | Setting any of the nine string variables (content-type options, frame options, XSS protection, the three CSP source lists, referrer policy, permissions policy, server header) to any value never makes the load fail. It puts that value in its own field of the loaded settings and changes no other field. |
| Config.LoadCspSources | src/config.rs:175-185 | The three CSP steps: each set source-list variable replaces `default-src`, `script-src` or `style-src`, and every other directive is kept. |
| Config.CspDefaultsKept | src/config.rs:175-185 | Whatever the environment holds, the ten CSP directives from `img-src` to `form-action` keep their default source lists. |
| Config.MaxAgeOverride | src/config.rs:154-159 | Any age written in decimal as `SECURITY_HSTS_MAX_AGE` is loaded back as that age, and nothing else changes. |
| Config.PreloadParse | src/config.rs:168-173 | `SECURITY_HSTS_PRELOAD` loads exactly when its value is `true` or `false`, and sets `preload` accordingly. |
| Config.MaxAgeErrorFirst | src/config.rs:154-159 | A bad max-age fails the load with `Invalid HSTS max age: ` and the integer error's text, whatever the boolean variables hold. |
| Text.ParseDecimal | src/config.rs:155 | Parsing the decimal form of any `u32` gives it back. |
| Config.HstsHeaderValue | src/config.rs:203-215 | Pushing the enabled tokens onto the `max-age` part and joining with `"; "` gives the HSTS value. |
| Config.HstsReadBack | src/config.rs:203-215 | A receiver splitting the HSTS value at `;` and trimming finds exactly the directives, in order: max-age, then `includeSubDomains` if enabled, then `preload` if enabled. |
| Config.HstsStructure | src/config.rs:203-215 | The value starts with `max-age=` and the decimal age, and the number after `max-age=` parses back to the configured age. `includeSubDomains` is a directive iff it is enabled, and `preload` iff preload is enabled. The directive count is 1, plus one per enabled flag. |
| Config.HstsSpelledOut | src/config.rs:203-215 | The value spelled out for each of the four flag combinations; with both off it is exactly `max-age=<n>`. |
| Config.DefaultHstsValues | src/config.rs:267-295 | The defaults render `max-age=31536000; includeSubDomains; preload`; with both flags off they render `max-age=31536000`. |
| Config.CspIsSerialized | src/config.rs:218-234 | The policy is the serialization of the thirteen (name, source list) directives in the fixed order. |
| Config.CspNamesValid | src/config.rs:220-232 | Each of the thirteen directive names is non-empty and holds neither whitespace nor `;`. |
| Config.CspPieces | src/config.rs:218-234 | When no source list holds a `;`, the policy splits into exactly thirteen pieces. Piece i is directive i's name, a space and its source list (after the separator's space), so no directive is left out, even with an empty source list. |
| Config.CspReadBack | src/config.rs:218-234 | A receiver parsing the policy gets back every (name, value) directive in order, empty values included. This holds when every source list is ASCII and holds no `;` and no leading or trailing whitespace. |
| HeaderSyntax.PolicyRoundTrip | src/config.rs:218-234 | Parsing any serialized policy whose names and values survive serialization gives its directives back. |
| Config.ToHeaders | src/config.rs:237-249 | The seven inserts give exactly the header table of the settings. |
| Config.HeaderTableKeys | src/config.rs:237-249 | The table's keys are exactly the seven security header names, and `Server` is not among them. |
| Config.HeaderTableSize | src/config.rs:297-306 | The table has seven entries. |
| Config.HeaderTableValues | src/config.rs:240-246 | `Strict-Transport-Security` holds the HSTS value and `Content-Security-Policy` the CSP value. The other five hold their settings verbatim. |
| Server.HealthHostRouted | src/main.rs:46-55 | Every host starting with `health.` is answered with the health status. |
| Server.OtherHostRouted | src/main.rs:46-55 | Every host whose first seven characters are not `health.` gets the hello page. |
| Server.PrefixOnly | src/main.rs:48 | Examples of the prefix test above: `health.example.com` gets the health status; `api.health.example.com`, `Health.example.com` (the test is case-sensitive) and `health` get the hello page. |
| Server.HeaderMap.constructor | src/main.rs:73-75 | The response's header map starts as the handler left it. |
| Server.HeaderMap.Insert | src/main.rs:77-101 | `insert` replaces the name's value and leaves every other entry as it was. |
| Server.WithSecurityHeaders | src/main.rs:69-104 | After the middleware, each of the seven security headers has its fixed value, whatever the handler set. Every other header is present exactly when it was, with its old value. |
| Server.SecurityHeaders | src/main.rs:69-104 | The seven in-place inserts turn the header map into the middleware's result. |
| Server.WithDefaultServer | src/main.rs:29-32 | After the layer a `Server` header is always present. It keeps an existing value and is otherwise `cloudflare-tunnel-example`. No other header changes. |
| Server.SetServerIfNotPresent | src/main.rs:29-32 | Inserting only when `contains_key` fails gives the layer's result. |
| Server.FinishResponse | src/main.rs:23-33 | The response passes the `Server` layer, then the middleware. |
| Server.LayersCommute | src/main.rs:26-33 | The two layers touch different headers, so their order does not matter. |
| Server.SecurityHeadersIdempotent | src/main.rs:77-101 | Running the middleware twice is the same as running it once. |
| Server.FinishedResponse | src/main.rs:23-33 | A finished response has the seven security headers with the middleware's values and a `Server` header. `Server` keeps the handler's value when there was one. All other headers are the handler's. |
| Server.MiddlewareMatchesDefaults | src/main.rs:77-101 | The middleware's seven literal values are exactly `SecurityConfig::default().to_headers()`, HSTS and CSP strings included. |
| Server.ServerNameMatchesDefault | src/main.rs:29-32 | The `Server` value the layer adds equals the default configuration's server header. |

## Left out

- Server startup (tokio runtime, socket binding, `axum::serve`, `process::exit`) and all `tracing` logging are I/O.
- The health payload (its clock-read timestamp) and the hello-world HTML body: the dispatch is modelled only as which of the two pages answers.
- The `Host` extractor: where axum takes the host from, and its rejection of a request without one. `RootHandler` receives the host as a string.
- The route table and the not-found answer for other paths.
- Headers that axum adds itself, such as `content-type` and `content-length`. Headers with several values are left out too.
- Header-name case folding: one canonical spelling per name is used, as the source writes them.
- `std::env::var` on a value that is not valid Unicode returns an error that the loader treats like an unset variable. The environment map holds only set, valid values.
- Serde derives and `Debug`/`Clone`.
- `crate::ServerError` and `crate::Result` are declared in a file that is not part of this model. Only the `ConfigError(String)` case the loader builds is modelled.
- Config.CspReadBack: the receiver lower-cases directive names and drops later duplicates. Both steps are left out, because the names the service emits are already lower-case and distinct.
- Config.CspReadBack: the receiver does not skip non-ASCII directives; the round trip requires ASCII source lists instead. A configured non-ASCII source list (one from `SECURITY_CSP_DEFAULT_SRC`, say) is still emitted, and a CSP receiver drops that directive.
- Config.CspReadBack: a directive's value is one string, not split into its whitespace-separated source expressions.
