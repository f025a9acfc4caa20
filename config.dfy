/**
  The security-header configuration of the backend service: the settings
  record with its defaults, loading it from the process environment, and
  rendering it into the `Strict-Transport-Security` and
  `Content-Security-Policy` values and the table of seven security headers.
*/
module Config {
  import opened Results
  import opened Text
  import opened HeaderSyntax

  // ---------------------------------------------------------------------------
  // The settings

  /** `Strict-Transport-Security` settings. */
  datatype HstsConfig = HstsConfig(maxAge: U32, includeSubdomains: bool, preload: bool)

  /** One source list per `Content-Security-Policy` directive the service emits. */
  datatype CspConfig = CspConfig(
    defaultSrc: string,
    scriptSrc: string,
    styleSrc: string,
    imgSrc: string,
    connectSrc: string,
    fontSrc: string,
    objectSrc: string,
    mediaSrc: string,
    frameSrc: string,
    childSrc: string,
    workerSrc: string,
    baseUri: string,
    formAction: string)

  datatype SecurityConfig = SecurityConfig(
    contentTypeOptions: string,
    frameOptions: string,
    xssProtection: string,
    hsts: HstsConfig,
    csp: CspConfig,
    referrerPolicy: string,
    permissionsPolicy: string,
    serverHeader: string)

  /** The service's error type; only its configuration-error case arises here. */
  datatype ServerError = ConfigError(message: string)

  function DefaultHsts(): HstsConfig
  {
    HstsConfig(31536000, true, true)
  }

  function DefaultCsp(): CspConfig
  {
    CspConfig(
      "'self'",
      "'self'",
      "'self' 'unsafe-inline'",
      "'self' data:",
      "'self'",
      "'self'",
      "'none'",
      "'self'",
      "'none'",
      "'none'",
      "'none'",
      "'self'",
      "'self'")
  }

  function DefaultSecurityConfig(): SecurityConfig
  {
    SecurityConfig(
      "nosniff",
      "DENY",
      "1; mode=block",
      DefaultHsts(),
      DefaultCsp(),
      "strict-origin-when-cross-origin",
      "geolocation=(), microphone=(), camera=()",
      "cloudflare-tunnel-example")
  }

  /** The defaults the unit test of the defaults checks, and the HSTS setting of one year. */
  lemma DefaultValues()
    ensures DefaultSecurityConfig().contentTypeOptions == "nosniff"
    ensures DefaultSecurityConfig().frameOptions == "DENY"
    ensures DefaultSecurityConfig().xssProtection == "1; mode=block"
    ensures DefaultSecurityConfig().hsts.maxAge == 365 * 24 * 60 * 60
    ensures DefaultSecurityConfig().hsts.includeSubdomains && DefaultSecurityConfig().hsts.preload
  {
  }

  // ---------------------------------------------------------------------------
  // Loading from the environment

  const CONTENT_TYPE_OPTIONS_VAR := "SECURITY_CONTENT_TYPE_OPTIONS"
  const FRAME_OPTIONS_VAR := "SECURITY_FRAME_OPTIONS"
  const XSS_PROTECTION_VAR := "SECURITY_XSS_PROTECTION"
  const HSTS_MAX_AGE_VAR := "SECURITY_HSTS_MAX_AGE"
  const HSTS_INCLUDE_SUBDOMAINS_VAR := "SECURITY_HSTS_INCLUDE_SUBDOMAINS"
  const HSTS_PRELOAD_VAR := "SECURITY_HSTS_PRELOAD"
  const CSP_DEFAULT_SRC_VAR := "SECURITY_CSP_DEFAULT_SRC"
  const CSP_SCRIPT_SRC_VAR := "SECURITY_CSP_SCRIPT_SRC"
  const CSP_STYLE_SRC_VAR := "SECURITY_CSP_STYLE_SRC"
  const REFERRER_POLICY_VAR := "SECURITY_REFERRER_POLICY"
  const PERMISSIONS_POLICY_VAR := "SECURITY_PERMISSIONS_POLICY"
  const SERVER_HEADER_VAR := "SERVER_HEADER"

  /** Every variable the loader reads. */
  const ENV_VARS: set<string> := {
    CONTENT_TYPE_OPTIONS_VAR, FRAME_OPTIONS_VAR, XSS_PROTECTION_VAR,
    HSTS_MAX_AGE_VAR, HSTS_INCLUDE_SUBDOMAINS_VAR, HSTS_PRELOAD_VAR,
    CSP_DEFAULT_SRC_VAR, CSP_SCRIPT_SRC_VAR, CSP_STYLE_SRC_VAR,
    REFERRER_POLICY_VAR, PERMISSIONS_POLICY_VAR, SERVER_HEADER_VAR
  }

  /** The variable's value when it is set, `fallback` otherwise. */
  function Lookup(env: map<string, string>, name: string, fallback: string): string
  {
    if name in env then env[name] else fallback
  }

  /** The variable is set and does not parse as a `u32`. */
  predicate BadU32(env: map<string, string>, name: string)
  {
    name in env && ParseU32(env[name]).Err?
  }

  /** The variable is set and does not parse as a `bool`. */
  predicate BadBool(env: map<string, string>, name: string)
  {
    name in env && ParseBool(env[name]).Err?
  }

  /** All three numeric and boolean variables that are set parse. */
  predicate EnvParses(env: map<string, string>)
  {
    !BadU32(env, HSTS_MAX_AGE_VAR) && !BadBool(env, HSTS_INCLUDE_SUBDOMAINS_VAR) && !BadBool(env, HSTS_PRELOAD_VAR)
  }

  /** The HSTS settings `h` with every set variable's parsed value in place of its field. */
  function HstsFromEnv(env: map<string, string>, h: HstsConfig): HstsConfig
    requires EnvParses(env)
  {
    HstsConfig(
      if HSTS_MAX_AGE_VAR in env then ParseU32(env[HSTS_MAX_AGE_VAR]).value else h.maxAge,
      if HSTS_INCLUDE_SUBDOMAINS_VAR in env then ParseBool(env[HSTS_INCLUDE_SUBDOMAINS_VAR]).value
      else h.includeSubdomains,
      if HSTS_PRELOAD_VAR in env then ParseBool(env[HSTS_PRELOAD_VAR]).value else h.preload)
  }

  /**
    The settings a parsing environment stands for: the defaults, with every
    variable that is set in place of its own field; the ten CSP directives
    without a variable keep their defaults.
  */
  function ConfigFromEnv(env: map<string, string>): SecurityConfig
    requires EnvParses(env)
  {
    var d := DefaultSecurityConfig();
    SecurityConfig(
      Lookup(env, CONTENT_TYPE_OPTIONS_VAR, d.contentTypeOptions),
      Lookup(env, FRAME_OPTIONS_VAR, d.frameOptions),
      Lookup(env, XSS_PROTECTION_VAR, d.xssProtection),
      HstsFromEnv(env, d.hsts),
      d.csp.(
        defaultSrc := Lookup(env, CSP_DEFAULT_SRC_VAR, d.csp.defaultSrc),
        scriptSrc := Lookup(env, CSP_SCRIPT_SRC_VAR, d.csp.scriptSrc),
        styleSrc := Lookup(env, CSP_STYLE_SRC_VAR, d.csp.styleSrc)),
      Lookup(env, REFERRER_POLICY_VAR, d.referrerPolicy),
      Lookup(env, PERMISSIONS_POLICY_VAR, d.permissionsPolicy),
      Lookup(env, SERVER_HEADER_VAR, d.serverHeader))
  }

  /** The error the first unparsable HSTS variable (max-age, include-subdomains, preload) produces. */
  function LoadError(env: map<string, string>): ServerError
    requires !EnvParses(env)
  {
    if BadU32(env, HSTS_MAX_AGE_VAR) then
      ConfigError("Invalid HSTS max age: " + IntErrorText(ParseU32(env[HSTS_MAX_AGE_VAR]).error))
    else if BadBool(env, HSTS_INCLUDE_SUBDOMAINS_VAR) then
      ConfigError("Invalid HSTS include subdomains: " + BoolErrorText(BoolError))
    else
      ConfigError("Invalid HSTS preload: " + BoolErrorText(BoolError))
  }

  /**
    One `if let Ok(value) = std::env::var(name) { field = value; }` step:
    the variable's value when it is set, the field's current value otherwise.
  */
  method Override(env: map<string, string>, name: string, current: string) returns (value: string)
    ensures name in env ==> value == env[name]
    ensures name !in env ==> value == current
  {
    value := current;
    if name in env {
      value := env[name];
    }
  }

  /**
    The three HSTS steps of the loader: each set variable is parsed and
    replaces its field, and the first one that does not parse (max-age,
    then include-subdomains, then preload) ends the load with its error.
  */
  method LoadHsts(env: map<string, string>, h: HstsConfig) returns (r: Result<HstsConfig, ServerError>)
    ensures r.Ok? <==> EnvParses(env)
    ensures r.Ok? ==> r.value == HstsFromEnv(env, h)
    ensures r.Err? ==> r.error == LoadError(env)
  {
    var hsts := h;
    if HSTS_MAX_AGE_VAR in env {
      var maxAge :- ParseU32(env[HSTS_MAX_AGE_VAR])
        .MapErr(e => ConfigError("Invalid HSTS max age: " + IntErrorText(e)));
      hsts := hsts.(maxAge := maxAge);
    }
    if HSTS_INCLUDE_SUBDOMAINS_VAR in env {
      var includeSubdomains :- ParseBool(env[HSTS_INCLUDE_SUBDOMAINS_VAR])
        .MapErr(e => ConfigError("Invalid HSTS include subdomains: " + BoolErrorText(e)));
      hsts := hsts.(includeSubdomains := includeSubdomains);
    }
    if HSTS_PRELOAD_VAR in env {
      var preload :- ParseBool(env[HSTS_PRELOAD_VAR])
        .MapErr(e => ConfigError("Invalid HSTS preload: " + BoolErrorText(e)));
      hsts := hsts.(preload := preload);
    }
    return Ok(hsts);
  }

  /** The three CSP steps of the loader: each set source-list variable replaces its directive. */
  method LoadCspSources(env: map<string, string>, csp: CspConfig) returns (r: CspConfig)
    ensures r == csp.(
      defaultSrc := Lookup(env, CSP_DEFAULT_SRC_VAR, csp.defaultSrc),
      scriptSrc := Lookup(env, CSP_SCRIPT_SRC_VAR, csp.scriptSrc),
      styleSrc := Lookup(env, CSP_STYLE_SRC_VAR, csp.styleSrc))
  {
    r := csp;
    var value := Override(env, CSP_DEFAULT_SRC_VAR, r.defaultSrc);
    r := r.(defaultSrc := value);
    value := Override(env, CSP_SCRIPT_SRC_VAR, r.scriptSrc);
    r := r.(scriptSrc := value);
    value := Override(env, CSP_STYLE_SRC_VAR, r.styleSrc);
    r := r.(styleSrc := value);
  }

  /**
    `SecurityConfig::from_env`, reading the environment `env`: start from the
    defaults and let every variable that is set override its own field; the
    first of the numeric and boolean variables that does not parse ends the
    load with a configuration error.
  */
  method FromEnv(env: map<string, string>) returns (r: Result<SecurityConfig, ServerError>)
    ensures r.Ok? <==> EnvParses(env)
    ensures r.Ok? ==> r.value == ConfigFromEnv(env)
    ensures r.Err? ==> r.error == LoadError(env)
  {
    var config := DefaultSecurityConfig();

    var value := Override(env, CONTENT_TYPE_OPTIONS_VAR, config.contentTypeOptions);
    config := config.(contentTypeOptions := value);
    value := Override(env, FRAME_OPTIONS_VAR, config.frameOptions);
    config := config.(frameOptions := value);
    value := Override(env, XSS_PROTECTION_VAR, config.xssProtection);
    config := config.(xssProtection := value);

    var hsts :- LoadHsts(env, config.hsts);
    config := config.(hsts := hsts);

    var csp := LoadCspSources(env, config.csp);
    config := config.(csp := csp);
    value := Override(env, REFERRER_POLICY_VAR, config.referrerPolicy);
    config := config.(referrerPolicy := value);
    value := Override(env, PERMISSIONS_POLICY_VAR, config.permissionsPolicy);
    config := config.(permissionsPolicy := value);
    value := Override(env, SERVER_HEADER_VAR, config.serverHeader);
    config := config.(serverHeader := value);

    return Ok(config);
  }

  /** With none of the variables set the loader yields exactly the defaults. */
  lemma FromEmptyEnv(env: map<string, string>)
    requires forall name :: name in env ==> name !in ENV_VARS
    ensures EnvParses(env)
    ensures ConfigFromEnv(env) == DefaultSecurityConfig()
  {
    assert CONTENT_TYPE_OPTIONS_VAR !in env && FRAME_OPTIONS_VAR !in env && XSS_PROTECTION_VAR !in env;
    assert HSTS_MAX_AGE_VAR !in env && HSTS_INCLUDE_SUBDOMAINS_VAR !in env && HSTS_PRELOAD_VAR !in env;
    assert CSP_DEFAULT_SRC_VAR !in env && CSP_SCRIPT_SRC_VAR !in env && CSP_STYLE_SRC_VAR !in env;
    assert REFERRER_POLICY_VAR !in env && PERMISSIONS_POLICY_VAR !in env && SERVER_HEADER_VAR !in env;
  }

  /** Variables the loader does not read change nothing, also not whether it fails. */
  lemma UnknownVariableIgnored(env: map<string, string>, name: string, v: string)
    requires name !in ENV_VARS
    ensures EnvParses(env[name := v]) <==> EnvParses(env)
    ensures EnvParses(env) ==> ConfigFromEnv(env[name := v]) == ConfigFromEnv(env)
    ensures !EnvParses(env) ==> LoadError(env[name := v]) == LoadError(env)
  {
  }

  /** The nine variables whose value the loader takes over verbatim. */
  const STRING_VARS: set<string> := {
    CONTENT_TYPE_OPTIONS_VAR, FRAME_OPTIONS_VAR, XSS_PROTECTION_VAR,
    CSP_DEFAULT_SRC_VAR, CSP_SCRIPT_SRC_VAR, CSP_STYLE_SRC_VAR,
    REFERRER_POLICY_VAR, PERMISSIONS_POLICY_VAR, SERVER_HEADER_VAR
  }

  /** The settings `c` with `v` in the one field the string variable `name` is read into. */
  function SetString(c: SecurityConfig, name: string, v: string): SecurityConfig
    requires name in STRING_VARS
  {
    if name == CONTENT_TYPE_OPTIONS_VAR then c.(contentTypeOptions := v)
    else if name == FRAME_OPTIONS_VAR then c.(frameOptions := v)
    else if name == XSS_PROTECTION_VAR then c.(xssProtection := v)
    else if name == CSP_DEFAULT_SRC_VAR then c.(csp := c.csp.(defaultSrc := v))
    else if name == CSP_SCRIPT_SRC_VAR then c.(csp := c.csp.(scriptSrc := v))
    else if name == CSP_STYLE_SRC_VAR then c.(csp := c.csp.(styleSrc := v))
    else if name == REFERRER_POLICY_VAR then c.(referrerPolicy := v)
    else if name == PERMISSIONS_POLICY_VAR then c.(permissionsPolicy := v)
    else c.(serverHeader := v)
  }

  /**
    Setting any of the nine string variables, to any value, never makes the
    load fail and changes its own field of the loaded settings and nothing else.
  */
  lemma StringOverride(env: map<string, string>, name: string, v: string)
    requires EnvParses(env)
    requires name in STRING_VARS
    ensures EnvParses(env[name := v])
    ensures ConfigFromEnv(env[name := v]) == SetString(ConfigFromEnv(env), name, v)
  {
    if name in {CONTENT_TYPE_OPTIONS_VAR, FRAME_OPTIONS_VAR, XSS_PROTECTION_VAR} {
      HeaderOptionOverride(env, name, v);
    } else if name in {CSP_DEFAULT_SRC_VAR, CSP_SCRIPT_SRC_VAR, CSP_STYLE_SRC_VAR} {
      CspSourceOverride(env, name, v);
    } else {
      PolicyOverride(env, name, v);
    }
  }

  // StringOverride, proved for three variables at a time to keep each proof small.

  lemma HeaderOptionOverride(env: map<string, string>, name: string, v: string)
    requires EnvParses(env)
    requires name in {CONTENT_TYPE_OPTIONS_VAR, FRAME_OPTIONS_VAR, XSS_PROTECTION_VAR}
    ensures ConfigFromEnv(env[name := v]) == SetString(ConfigFromEnv(env), name, v)
  {
  }

  lemma CspSourceOverride(env: map<string, string>, name: string, v: string)
    requires EnvParses(env)
    requires name in {CSP_DEFAULT_SRC_VAR, CSP_SCRIPT_SRC_VAR, CSP_STYLE_SRC_VAR}
    ensures ConfigFromEnv(env[name := v]) == SetString(ConfigFromEnv(env), name, v)
  {
  }

  lemma PolicyOverride(env: map<string, string>, name: string, v: string)
    requires EnvParses(env)
    requires name in {REFERRER_POLICY_VAR, PERMISSIONS_POLICY_VAR, SERVER_HEADER_VAR}
    ensures ConfigFromEnv(env[name := v]) == SetString(ConfigFromEnv(env), name, v)
  {
  }

  /** The ten CSP directives that no variable names always keep their defaults. */
  lemma CspDefaultsKept(env: map<string, string>)
    requires EnvParses(env)
    ensures CspValues(ConfigFromEnv(env).csp)[3..] == CspValues(DefaultCsp())[3..]
  {
  }

  /** Any age the service prints, set as the max-age variable, is loaded back unchanged. */
  lemma MaxAgeOverride(env: map<string, string>, n: U32)
    requires EnvParses(env)
    ensures EnvParses(env[HSTS_MAX_AGE_VAR := Decimal(n)])
    ensures ConfigFromEnv(env[HSTS_MAX_AGE_VAR := Decimal(n)])
         == ConfigFromEnv(env).(hsts := ConfigFromEnv(env).hsts.(maxAge := n))
  {
    ParseDecimal(n);
  }

  /** The preload variable accepts exactly `true` and `false`. */
  lemma PreloadParse(env: map<string, string>, v: string)
    requires EnvParses(env)
    ensures EnvParses(env[HSTS_PRELOAD_VAR := v]) <==> v == "true" || v == "false"
    ensures v == "true" ==> ConfigFromEnv(env[HSTS_PRELOAD_VAR := v]).hsts.preload
    ensures v == "false" ==> !ConfigFromEnv(env[HSTS_PRELOAD_VAR := v]).hsts.preload
  {
  }

  /** An unparsable max-age is reported before any boolean error, with the integer error's text. */
  lemma MaxAgeErrorFirst(env: map<string, string>)
    requires BadU32(env, HSTS_MAX_AGE_VAR)
    ensures !EnvParses(env)
    ensures LoadError(env)
         == ConfigError("Invalid HSTS max age: " + IntErrorText(ParseU32(env[HSTS_MAX_AGE_VAR]).error))
  {
  }

  // ---------------------------------------------------------------------------
  // Strict-Transport-Security

  /** The directives of the `Strict-Transport-Security` value, in order. */
  function HstsDirectives(h: HstsConfig): (ds: seq<string>)
    ensures |ds| >= 1
  {
    ["max-age=" + Decimal(h.maxAge)]
      + (if h.includeSubdomains then ["includeSubDomains"] else [])
      + (if h.preload then ["preload"] else [])
  }

  /**
    The `Strict-Transport-Security` value (section 6.1 of RFC 6797, with the
    `preload` token of the HSTS preload list): the directives joined with `"; "`.
  */
  function HstsValue(h: HstsConfig): string
  {
    Join(HstsDirectives(h), "; ")
  }

  /**
    `SecurityConfig::hsts_header_value`: collect the enabled directives and
    join them with `"; "`.
  */
  method HstsHeaderValue(c: SecurityConfig) returns (v: string)
    ensures v == HstsValue(c.hsts)
  {
    var parts := ["max-age=" + Decimal(c.hsts.maxAge)];
    if c.hsts.includeSubdomains {
      parts := parts + ["includeSubDomains"];
    }
    if c.hsts.preload {
      parts := parts + ["preload"];
    }
    v := Join(parts, "; ");
    assert parts == HstsDirectives(c.hsts);
  }

  /** A receiver reads the HSTS value back as exactly its directives, in order. */
  lemma HstsReadBack(h: HstsConfig)
    ensures DirectiveTokens(HstsValue(h)) == HstsDirectives(h)
  {
    var ds := HstsDirectives(h);
    var m := "max-age=" + Decimal(h.maxAge);
    assert ds[0] == m;
    assert m[|m| - 1] == Decimal(h.maxAge)[|Decimal(h.maxAge)| - 1];
    forall i | 0 <= i < |ds| ensures ';' !in ds[i] && Trim(ds[i]) == ds[i] != "" {
      if i == 0 {
        assert forall j :: 0 <= j < |m| ==> m[j] != ';' by {
          forall j | 0 <= j < |m| ensures m[j] != ';' {
            if j >= 8 {
              assert m[j] == Decimal(h.maxAge)[j - 8];
            }
          }
        }
      }
      TrimUnpadded(ds[i]);
    }
    TokensOfJoin(ds);
  }

  /**
    The HSTS value opens with the max-age directive, whose number reads back
    as the configured age, and carries `includeSubDomains` and `preload`
    exactly when they are enabled.
  */
  lemma HstsStructure(h: HstsConfig)
    ensures "max-age=" + Decimal(h.maxAge) <= HstsValue(h)
    ensures var ds := DirectiveTokens(HstsValue(h));
      && |ds| == 1 + (if h.includeSubdomains then 1 else 0) + (if h.preload then 1 else 0)
      && |ds[0]| > 8 && ds[0][..8] == "max-age=" && ParseU32(ds[0][8..]) == Ok(h.maxAge)
      && ("includeSubDomains" in ds <==> h.includeSubdomains)
      && ("preload" in ds <==> h.preload)
  {
    HstsReadBack(h);
    var ds := HstsDirectives(h);
    var m := "max-age=" + Decimal(h.maxAge);
    JoinPrefix(ds, "; ");
    assert m[..8] == "max-age=" && m[8..] == Decimal(h.maxAge);
    ParseDecimal(h.maxAge);
    assert m != "includeSubDomains" && m != "preload" by {
      assert m[0] == 'm';
    }
  }

  /** With both flags off the value is the max-age directive alone, with them on it carries both tokens. */
  lemma HstsSpelledOut(h: HstsConfig)
    ensures var m := "max-age=" + Decimal(h.maxAge);
      HstsValue(h)
      == if h.includeSubdomains && h.preload then m + "; " + "includeSubDomains" + "; " + "preload"
         else if h.includeSubdomains then m + "; " + "includeSubDomains"
         else if h.preload then m + "; " + "preload"
         else m
  {
    var m := "max-age=" + Decimal(h.maxAge);
    if h.includeSubdomains {
      JoinSnoc([m], "includeSubDomains", "; ");
      assert HstsDirectives(h)[..2] == [m] + ["includeSubDomains"];
      if h.preload {
        JoinSnoc([m, "includeSubDomains"], "preload", "; ");
        assert HstsDirectives(h) == [m, "includeSubDomains"] + ["preload"];
      } else {
        assert HstsDirectives(h) == [m] + ["includeSubDomains"];
      }
    } else if h.preload {
      JoinSnoc([m], "preload", "; ");
      assert HstsDirectives(h) == [m] + ["preload"];
    } else {
      assert HstsDirectives(h) == [m];
    }
  }

  /** One year in seconds, printed in decimal. */
  lemma OneYearDecimal()
    ensures Decimal(31536000) == "31536000"
  {
    assert Decimal(3) == "3";
    assert Decimal(31) == "31";
    assert Decimal(315) == "315";
    assert Decimal(3153) == "3153";
    assert Decimal(31536) == "31536";
    assert Decimal(315360) == "315360";
    assert Decimal(3153600) == "3153600";
  }

  /** The value the defaults render, and the minimal one the unit test checks. */
  lemma DefaultHstsValues()
    ensures HstsValue(DefaultHsts()) == "max-age=31536000" + "; " + "includeSubDomains" + "; " + "preload"
    ensures HstsValue(DefaultHsts().(includeSubdomains := false, preload := false)) == "max-age=31536000"
  {
    OneYearDecimal();
    HstsSpelledOut(DefaultHsts());
    HstsSpelledOut(DefaultHsts().(includeSubdomains := false, preload := false));
  }

  // ---------------------------------------------------------------------------
  // Content-Security-Policy

  /** The thirteen directives the policy always carries, in the order it lists them. */
  const CSP_DIRECTIVE_NAMES: seq<string> := [
    "default-src", "script-src", "style-src", "img-src", "connect-src", "font-src",
    "object-src", "media-src", "frame-src", "child-src", "worker-src", "base-uri",
    "form-action"
  ]

  /** The configured source lists, in the order of `CSP_DIRECTIVE_NAMES`. */
  function CspValues(csp: CspConfig): (vs: seq<string>)
    ensures |vs| == |CSP_DIRECTIVE_NAMES|
  {
    [csp.defaultSrc, csp.scriptSrc, csp.styleSrc, csp.imgSrc, csp.connectSrc, csp.fontSrc,
     csp.objectSrc, csp.mediaSrc, csp.frameSrc, csp.childSrc, csp.workerSrc, csp.baseUri,
     csp.formAction]
  }

  /** The (name, value) directives the policy stands for: each name with its configured source list. */
  function CspDirectives(csp: CspConfig): (ds: seq<(string, string)>)
    ensures |ds| == |CSP_DIRECTIVE_NAMES|
    ensures forall i :: 0 <= i < |ds| ==> ds[i] == (CSP_DIRECTIVE_NAMES[i], CspValues(csp)[i])
  {
    [("default-src", csp.defaultSrc),
     ("script-src", csp.scriptSrc),
     ("style-src", csp.styleSrc),
     ("img-src", csp.imgSrc),
     ("connect-src", csp.connectSrc),
     ("font-src", csp.fontSrc),
     ("object-src", csp.objectSrc),
     ("media-src", csp.mediaSrc),
     ("frame-src", csp.frameSrc),
     ("child-src", csp.childSrc),
     ("worker-src", csp.workerSrc),
     ("base-uri", csp.baseUri),
     ("form-action", csp.formAction)]
  }

  /**
    `SecurityConfig::csp_header_value`: the serialized policy of section 2.2
    of Content Security Policy Level 3, one `"<name> <value>"` item per
    directive, joined with `"; "`.
  */
  function CspHeaderValue(c: SecurityConfig): string
  {
    Join([
      "default-src" + " " + c.csp.defaultSrc,
      "script-src" + " " + c.csp.scriptSrc,
      "style-src" + " " + c.csp.styleSrc,
      "img-src" + " " + c.csp.imgSrc,
      "connect-src" + " " + c.csp.connectSrc,
      "font-src" + " " + c.csp.fontSrc,
      "object-src" + " " + c.csp.objectSrc,
      "media-src" + " " + c.csp.mediaSrc,
      "frame-src" + " " + c.csp.frameSrc,
      "child-src" + " " + c.csp.childSrc,
      "worker-src" + " " + c.csp.workerSrc,
      "base-uri" + " " + c.csp.baseUri,
      "form-action" + " " + c.csp.formAction
    ], "; ")
  }

  /** Thirteen parts joined, written out. */
  lemma JoinThirteen(parts: seq<string>, sep: string)
    requires |parts| == 13
    ensures Join(parts, sep)
      == parts[0]
      + sep + parts[1]
      + sep + parts[2]
      + sep + parts[3]
      + sep + parts[4]
      + sep + parts[5]
      + sep + parts[6]
      + sep + parts[7]
      + sep + parts[8]
      + sep + parts[9]
      + sep + parts[10]
      + sep + parts[11]
      + sep + parts[12]
  {
    assert parts[..1] == [parts[0]];
    JoinSnoc(parts[..1], parts[1], sep);
    assert parts[..1] + [parts[1]] == parts[..2];
    JoinSnoc(parts[..2], parts[2], sep);
    assert parts[..2] + [parts[2]] == parts[..3];
    JoinSnoc(parts[..3], parts[3], sep);
    assert parts[..3] + [parts[3]] == parts[..4];
    JoinSnoc(parts[..4], parts[4], sep);
    assert parts[..4] + [parts[4]] == parts[..5];
    JoinSnoc(parts[..5], parts[5], sep);
    assert parts[..5] + [parts[5]] == parts[..6];
    JoinSnoc(parts[..6], parts[6], sep);
    assert parts[..6] + [parts[6]] == parts[..7];
    JoinSnoc(parts[..7], parts[7], sep);
    assert parts[..7] + [parts[7]] == parts[..8];
    JoinSnoc(parts[..8], parts[8], sep);
    assert parts[..8] + [parts[8]] == parts[..9];
    JoinSnoc(parts[..9], parts[9], sep);
    assert parts[..9] + [parts[9]] == parts[..10];
    JoinSnoc(parts[..10], parts[10], sep);
    assert parts[..10] + [parts[10]] == parts[..11];
    JoinSnoc(parts[..11], parts[11], sep);
    assert parts[..11] + [parts[11]] == parts[..12];
    JoinSnoc(parts[..12], parts[12], sep);
    assert parts[..12] + [parts[12]] == parts[..13];
    assert parts[..13] == parts;
  }

  /** The policy is the serialization of the thirteen directives with their configured source lists. */
  lemma CspIsSerialized(c: SecurityConfig)
    ensures CspHeaderValue(c) == Serialize(CspDirectives(c.csp))
  {
    var ds := CspDirectives(c.csp);
    assert Items(ds)[0] == "default-src" + " " + c.csp.defaultSrc;
    assert Items(ds)[1] == "script-src" + " " + c.csp.scriptSrc;
    assert Items(ds)[2] == "style-src" + " " + c.csp.styleSrc;
    assert Items(ds)[3] == "img-src" + " " + c.csp.imgSrc;
    assert Items(ds)[4] == "connect-src" + " " + c.csp.connectSrc;
    assert Items(ds)[5] == "font-src" + " " + c.csp.fontSrc;
    assert Items(ds)[6] == "object-src" + " " + c.csp.objectSrc;
    assert Items(ds)[7] == "media-src" + " " + c.csp.mediaSrc;
    assert Items(ds)[8] == "frame-src" + " " + c.csp.frameSrc;
    assert Items(ds)[9] == "child-src" + " " + c.csp.childSrc;
    assert Items(ds)[10] == "worker-src" + " " + c.csp.workerSrc;
    assert Items(ds)[11] == "base-uri" + " " + c.csp.baseUri;
    assert Items(ds)[12] == "form-action" + " " + c.csp.formAction;
    assert Items(ds) == [
      "default-src" + " " + c.csp.defaultSrc,
      "script-src" + " " + c.csp.scriptSrc,
      "style-src" + " " + c.csp.styleSrc,
      "img-src" + " " + c.csp.imgSrc,
      "connect-src" + " " + c.csp.connectSrc,
      "font-src" + " " + c.csp.fontSrc,
      "object-src" + " " + c.csp.objectSrc,
      "media-src" + " " + c.csp.mediaSrc,
      "frame-src" + " " + c.csp.frameSrc,
      "child-src" + " " + c.csp.childSrc,
      "worker-src" + " " + c.csp.workerSrc,
      "base-uri" + " " + c.csp.baseUri,
      "form-action" + " " + c.csp.formAction
    ];
  }

  lemma CspNamesValid()
    ensures forall i :: 0 <= i < |CSP_DIRECTIVE_NAMES| ==> DirectiveName(CSP_DIRECTIVE_NAMES[i])
  {
  }

  /**
    While no source list holds a `;`, splitting the policy at `;` gives
    exactly thirteen pieces, one per directive in the fixed order, each
    directive present even when its source list is empty.
  */
  lemma CspPieces(c: SecurityConfig)
    requires forall i :: 0 <= i < 13 ==> ';' !in CspValues(c.csp)[i]
    ensures var pieces := SplitOn(CspHeaderValue(c), ';');
      && |pieces| == 13
      && forall i :: 0 <= i < 13 ==>
           pieces[i] == (if i == 0 then "" else " ") + CSP_DIRECTIVE_NAMES[i] + " " + CspValues(c.csp)[i]
  {
    CspIsSerialized(c);
    CspNamesValid();
    SerializedPieces(CspDirectives(c.csp));
  }

  /**
    A receiver parsing the policy (section 2.2.1 of Content Security Policy
    Level 3) recovers every directive with its configured source list, in
    order, as long as no source list holds a `;` or leading or trailing
    whitespace; an empty source list included.
  */
  lemma CspReadBack(c: SecurityConfig)
    requires forall i :: 0 <= i < 13 ==> DirectiveValue(CspValues(c.csp)[i])
    ensures ParsePolicy(CspHeaderValue(c)) == CspDirectives(c.csp)
  {
    CspIsSerialized(c);
    CspNamesValid();
    PolicyRoundTrip(CspDirectives(c.csp));
  }

  /** The seven directives limited to the service's own origin by default. */
  lemma DefaultSelfItems()
    ensures "default-src" + " " + DefaultCsp().defaultSrc == "default-src 'self'"
    ensures "script-src" + " " + DefaultCsp().scriptSrc == "script-src 'self'"
    ensures "connect-src" + " " + DefaultCsp().connectSrc == "connect-src 'self'"
    ensures "font-src" + " " + DefaultCsp().fontSrc == "font-src 'self'"
    ensures "media-src" + " " + DefaultCsp().mediaSrc == "media-src 'self'"
    ensures "base-uri" + " " + DefaultCsp().baseUri == "base-uri 'self'"
    ensures "form-action" + " " + DefaultCsp().formAction == "form-action 'self'"
  {
  }

  /** The four directives that allow nothing by default. */
  lemma DefaultNoneItems()
    ensures "object-src" + " " + DefaultCsp().objectSrc == "object-src 'none'"
    ensures "frame-src" + " " + DefaultCsp().frameSrc == "frame-src 'none'"
    ensures "child-src" + " " + DefaultCsp().childSrc == "child-src 'none'"
    ensures "worker-src" + " " + DefaultCsp().workerSrc == "worker-src 'none'"
  {
  }

  /** The style directive also allows inline styles by default. */
  lemma DefaultStyleItem()
    ensures "style-src" + " " + DefaultCsp().styleSrc == "style-src 'self' 'unsafe-inline'"
  {
  }

  /** The image directive also allows `data:` URLs by default. */
  lemma DefaultImgItem()
    ensures "img-src" + " " + DefaultCsp().imgSrc == "img-src 'self' data:"
  {
  }

  /** The items the defaults render. */
  lemma DefaultCspItems()
    ensures CspHeaderValue(DefaultSecurityConfig()) == Join([
      "default-src 'self'",
      "script-src 'self'",
      "style-src 'self' 'unsafe-inline'",
      "img-src 'self' data:",
      "connect-src 'self'",
      "font-src 'self'",
      "object-src 'none'",
      "media-src 'self'",
      "frame-src 'none'",
      "child-src 'none'",
      "worker-src 'none'",
      "base-uri 'self'",
      "form-action 'self'"
    ], "; ")
  {
    DefaultSelfItems();
    DefaultNoneItems();
    DefaultStyleItem();
    DefaultImgItem();
  }

  /** The policy the defaults render. */
  lemma DefaultCspValue()
    ensures CspHeaderValue(DefaultSecurityConfig())
         == "default-src 'self'"
         + "; " + "script-src 'self'"
         + "; " + "style-src 'self' 'unsafe-inline'"
         + "; " + "img-src 'self' data:"
         + "; " + "connect-src 'self'"
         + "; " + "font-src 'self'"
         + "; " + "object-src 'none'"
         + "; " + "media-src 'self'"
         + "; " + "frame-src 'none'"
         + "; " + "child-src 'none'"
         + "; " + "worker-src 'none'"
         + "; " + "base-uri 'self'"
         + "; " + "form-action 'self'"
  {
    DefaultCspItems();
    JoinThirteen([
      "default-src 'self'",
      "script-src 'self'",
      "style-src 'self' 'unsafe-inline'",
      "img-src 'self' data:",
      "connect-src 'self'",
      "font-src 'self'",
      "object-src 'none'",
      "media-src 'self'",
      "frame-src 'none'",
      "child-src 'none'",
      "worker-src 'none'",
      "base-uri 'self'",
      "form-action 'self'"
    ], "; ");
  }

  // ---------------------------------------------------------------------------
  // The header table

  const X_CONTENT_TYPE_OPTIONS := "X-Content-Type-Options"
  const X_FRAME_OPTIONS := "X-Frame-Options"
  const X_XSS_PROTECTION := "X-XSS-Protection"
  const STRICT_TRANSPORT_SECURITY := "Strict-Transport-Security"
  const CONTENT_SECURITY_POLICY := "Content-Security-Policy"
  const REFERRER_POLICY := "Referrer-Policy"
  const PERMISSIONS_POLICY := "Permissions-Policy"

  /** The seven security headers. */
  const SECURITY_HEADER_NAMES: set<string> := {
    X_CONTENT_TYPE_OPTIONS, X_FRAME_OPTIONS, X_XSS_PROTECTION, STRICT_TRANSPORT_SECURITY,
    CONTENT_SECURITY_POLICY, REFERRER_POLICY, PERMISSIONS_POLICY
  }

  /** The security headers a configuration stands for. */
  function HeaderTable(c: SecurityConfig): map<string, string>
  {
    map[
      X_CONTENT_TYPE_OPTIONS := c.contentTypeOptions,
      X_FRAME_OPTIONS := c.frameOptions,
      X_XSS_PROTECTION := c.xssProtection,
      STRICT_TRANSPORT_SECURITY := HstsValue(c.hsts),
      CONTENT_SECURITY_POLICY := CspHeaderValue(c),
      REFERRER_POLICY := c.referrerPolicy,
      PERMISSIONS_POLICY := c.permissionsPolicy
    ]
  }

  /** The table has exactly the seven security headers as keys; the `Server` value is not part of it. */
  lemma HeaderTableKeys(c: SecurityConfig)
    ensures HeaderTable(c).Keys == SECURITY_HEADER_NAMES
    ensures "Server" !in HeaderTable(c)
  {
    assert "Server" !in SECURITY_HEADER_NAMES;
  }

  /** The seven header names are distinct, so the table has seven entries. */
  lemma HeaderTableSize(c: SecurityConfig)
    ensures |HeaderTable(c)| == 7
  {
    HeaderTableKeys(c);
    assert |SECURITY_HEADER_NAMES| == 7;
    assert |HeaderTable(c)| == |HeaderTable(c).Keys|;
  }

  /** The plain settings are copied into the table verbatim and the two structured ones rendered. */
  lemma HeaderTableValues(c: SecurityConfig)
    ensures HeaderTable(c)[X_CONTENT_TYPE_OPTIONS] == c.contentTypeOptions
    ensures HeaderTable(c)[X_FRAME_OPTIONS] == c.frameOptions
    ensures HeaderTable(c)[X_XSS_PROTECTION] == c.xssProtection
    ensures HeaderTable(c)[STRICT_TRANSPORT_SECURITY] == HstsValue(c.hsts)
    ensures HeaderTable(c)[CONTENT_SECURITY_POLICY] == CspHeaderValue(c)
    ensures HeaderTable(c)[REFERRER_POLICY] == c.referrerPolicy
    ensures HeaderTable(c)[PERMISSIONS_POLICY] == c.permissionsPolicy
  {
  }

  /** `SecurityConfig::to_headers`: insert the seven headers one by one into a fresh map. */
  method ToHeaders(c: SecurityConfig) returns (headers: map<string, string>)
    ensures headers == HeaderTable(c)
  {
    headers := map[];
    headers := headers[X_CONTENT_TYPE_OPTIONS := c.contentTypeOptions];
    headers := headers[X_FRAME_OPTIONS := c.frameOptions];
    headers := headers[X_XSS_PROTECTION := c.xssProtection];
    var hsts := HstsHeaderValue(c);
    headers := headers[STRICT_TRANSPORT_SECURITY := hsts];
    headers := headers[CONTENT_SECURITY_POLICY := CspHeaderValue(c)];
    headers := headers[REFERRER_POLICY := c.referrerPolicy];
    headers := headers[PERMISSIONS_POLICY := c.permissionsPolicy];
  }
}
