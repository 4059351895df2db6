/** Startup configuration of the proxy (cmd/mcp-media-proxy/main.go), and its agreement with
    the environment the webhook injects. Whether a text is an http(s) URL with a host and
    without credentials, and whether it is a regular expression, are parameters. */
module ProxyConfig {
  import opened Core
  import opened Decimal
  import opened Webhook
  import opened Environment
  import Annotations

  datatype ProxyMode = Full | Standalone

  datatype Config = Config(
    mode: ProxyMode, upstreamUrl: string, mintUrl: string, token: string, authToken: string,
    toolMatch: string, listenAddr: string, inlineMaxBytes: int, fetchBaseUrl: string, autoDetected: bool)

  datatype Problem =
    | BadMode | UpstreamInStandalone | ToolMatchInStandalone | BadUpstreamUrl | BadMintUrl
    | NoToken | ShortAuthToken | BadToolMatch | BadInlineMax | BadFetchBaseUrl

  const DEFAULT_INLINE_MAX: int := 102400
  const DEFAULT_LISTEN_ADDR: string := ":5780"
  const MIN_AUTH_TOKEN: nat := 32

  /** The variables the proxy reads. */
  datatype Vars = Vars(
    mode: string, upstream: string, toolMatch: string, mint: string, token: string, auth: string,
    inlineMax: string, listenAddr: string, fetchBase: string)

  function Read(env: Env): Vars {
    Vars(
      env("PROXY_MODE"), env("UPSTREAM_MCP_URL"), env("TOOL_MATCH"),
      env("MINT_URL"), env("MEDIA_INTERNAL_TOKEN"), env("MEDIA_AUTH_TOKEN"),
      env("INLINE_MAX_BYTES"), env("PROXY_LISTEN_ADDR"), env("MEDIA_FETCH_BASE_URL"))
  }

  /** Standalone is chosen explicitly, or by leaving both variables out. */
  predicate IsStandalone(v: Vars) {
    v.mode == "standalone" || (v.mode == "" && v.upstream == "")
  }

  predicate PositiveInt64(s: string) {
    ParseInt(s).Some? && ParseInt(s).value > 0
  }

  /** What is wrong with an environment, one problem at a time. */
  predicate Has(v: Vars, urlOk: string -> bool, regexOk: string -> bool, problem: Problem) {
    match problem
    case BadMode => v.mode !in {"", "full", "standalone"}
    case UpstreamInStandalone => IsStandalone(v) && v.upstream != ""
    case ToolMatchInStandalone => IsStandalone(v) && v.toolMatch != ""
    case BadUpstreamUrl =>
      !IsStandalone(v) && (v.upstream == "" || !urlOk(v.upstream))
    case BadMintUrl => v.mint == "" || !urlOk(v.mint)
    case NoToken => v.token == ""
    case ShortAuthToken => 0 < |v.auth| < MIN_AUTH_TOKEN
    case BadToolMatch => !IsStandalone(v) && v.toolMatch != "" && !regexOk(v.toolMatch)
    case BadInlineMax => v.inlineMax != "" && !PositiveInt64(v.inlineMax)
    case BadFetchBaseUrl => v.fetchBase != "" && !urlOk(v.fetchBase)
  }

  predicate Sound(v: Vars, urlOk: string -> bool, regexOk: string -> bool) {
    && !Has(v, urlOk, regexOk, BadMode)
    && !Has(v, urlOk, regexOk, UpstreamInStandalone)
    && !Has(v, urlOk, regexOk, ToolMatchInStandalone)
    && !Has(v, urlOk, regexOk, BadUpstreamUrl)
    && !Has(v, urlOk, regexOk, BadMintUrl)
    && !Has(v, urlOk, regexOk, NoToken)
    && !Has(v, urlOk, regexOk, ShortAuthToken)
    && !Has(v, urlOk, regexOk, BadToolMatch)
    && !Has(v, urlOk, regexOk, BadInlineMax)
    && !Has(v, urlOk, regexOk, BadFetchBaseUrl)
  }

  /** The configuration a sound environment describes. */
  function Described(v: Vars): Config {
    var standalone := IsStandalone(v);
    Config(
      if standalone then Standalone else Full,
      if standalone then "" else v.upstream,
      v.mint, v.token, v.auth,
      if standalone then "" else v.toolMatch,
      Or(v.listenAddr, DEFAULT_LISTEN_ADDR),
      if PositiveInt64(v.inlineMax) then ParseInt(v.inlineMax).value else DEFAULT_INLINE_MAX,
      v.fetchBase,
      standalone && v.mode == "")
  }

  /** Each part of a configuration comes from the variable of that purpose. */
  ghost predicate Describes(c: Config, env: Env) {
    && (c.mode.Standalone? <==> env("PROXY_MODE") == "standalone"
                                || (env("PROXY_MODE") == "" && env("UPSTREAM_MCP_URL") == ""))
    && c.upstreamUrl == (if c.mode.Full? then env("UPSTREAM_MCP_URL") else "")
    && c.toolMatch == (if c.mode.Full? then env("TOOL_MATCH") else "")
    && c.mintUrl == env("MINT_URL") && c.fetchBaseUrl == env("MEDIA_FETCH_BASE_URL")
    && c.token == env("MEDIA_INTERNAL_TOKEN") && c.authToken == env("MEDIA_AUTH_TOKEN")
    && c.listenAddr == (if env("PROXY_LISTEN_ADDR") == "" then ":5780" else env("PROXY_LISTEN_ADDR"))
    && (if env("INLINE_MAX_BYTES") == "" then c.inlineMaxBytes == 102400
        else ParseInt(env("INLINE_MAX_BYTES")) == Some(c.inlineMaxBytes) && c.inlineMaxBytes > 0)
    && (c.autoDetected <==> env("PROXY_MODE") == "" && env("UPSTREAM_MCP_URL") == "")
  }

  /** httpURLEnv, on the value of the key: it must be a URL, or may also be empty. */
  function UrlEnv(v: string, urlOk: string -> bool, required: bool): Option<string> {
    if v == "" then if required then None else Some("")
    else if urlOk(v) then Some(v) else None
  }

  /** loadConfig, first part: the mode and the upstream it needs or must not have. */
  method LoadMode(env: Env, urlOk: string -> bool, regexOk: string -> bool)
    returns (r: Result<(ProxyMode, string, bool), Problem>)
    ensures r.Err? ==> Has(Read(env), urlOk, regexOk, r.error)
    ensures r.Ok? ==>
              var v := Read(env);
              && r.value == (Described(v).mode, Described(v).upstreamUrl, Described(v).autoDetected)
              && !Has(v, urlOk, regexOk, BadMode) && !Has(v, urlOk, regexOk, BadUpstreamUrl)
              && !Has(v, urlOk, regexOk, UpstreamInStandalone) && !Has(v, urlOk, regexOk, ToolMatchInStandalone)
  {
    var modeEnv := env("PROXY_MODE");
    var upstreamEnv := env("UPSTREAM_MCP_URL");
    var mode := Full;
    var autoDetected := false;
    if modeEnv == "" {
      if upstreamEnv == "" {
        mode := Standalone;
        autoDetected := true;
      }
    } else if modeEnv == "full" {
      mode := Full;
    } else if modeEnv == "standalone" {
      mode := Standalone;
    } else {
      return Err(BadMode);
    }

    var upstreamUrl := "";
    if mode == Standalone {
      if upstreamEnv != "" {
        return Err(UpstreamInStandalone);
      }
      if env("TOOL_MATCH") != "" {
        return Err(ToolMatchInStandalone);
      }
    } else {
      var upstream := UrlEnv(env("UPSTREAM_MCP_URL"), urlOk, true);
      if upstream.None? {
        return Err(BadUpstreamUrl);
      }
      upstreamUrl := upstream.value;
    }
    return Ok((mode, upstreamUrl, autoDetected));
  }

  /** loadConfig, the inline limit. */
  method LoadInlineMax(v: string) returns (limit: Option<int>)
    ensures limit.Some? <==> v == "" || PositiveInt64(v)
    ensures limit.Some? ==> limit.value == if v == "" then DEFAULT_INLINE_MAX else ParseInt(v).value
  {
    if v == "" {
      return Some(DEFAULT_INLINE_MAX);
    }
    var n := ParseInt(v);
    if n.None? || n.value <= 0 {
      return None;
    }
    return n;
  }

  /** loadConfig accepts exactly the sound environments; what it rejects has the problem it
      reports. */
  method LoadConfig(env: Env, urlOk: string -> bool, regexOk: string -> bool) returns (r: Result<Config, Problem>)
    ensures r.Err? ==> Has(Read(env), urlOk, regexOk, r.error)
    ensures r.Ok? <==> Sound(Read(env), urlOk, regexOk)
    ensures r.Ok? ==> r.value == Described(Read(env))
    ensures r.Ok? ==> Describes(r.value, env)
  {
    var loaded := LoadMode(env, urlOk, regexOk);
    if loaded.Err? {
      return Err(loaded.error);
    }
    var (mode, upstreamUrl, autoDetected) := loaded.value;

    var mintUrl := UrlEnv(env("MINT_URL"), urlOk, true);
    if mintUrl.None? {
      return Err(BadMintUrl);
    }
    var token := env("MEDIA_INTERNAL_TOKEN");
    if token == "" {
      return Err(NoToken);
    }
    var authToken := env("MEDIA_AUTH_TOKEN");
    if authToken != "" && |authToken| < MIN_AUTH_TOKEN {
      return Err(ShortAuthToken);
    }
    var toolMatch := "";
    if mode == Full {
      toolMatch := env("TOOL_MATCH");
      if toolMatch != "" && !regexOk(toolMatch) {
        return Err(BadToolMatch);
      }
    }
    var listenAddr := env("PROXY_LISTEN_ADDR");
    if listenAddr == "" {
      listenAddr := DEFAULT_LISTEN_ADDR;
    }
    var inlineMaxBytes := LoadInlineMax(env("INLINE_MAX_BYTES"));
    if inlineMaxBytes.None? {
      return Err(BadInlineMax);
    }
    var fetchBaseUrl := UrlEnv(env("MEDIA_FETCH_BASE_URL"), urlOk, false);
    if fetchBaseUrl.None? {
      return Err(BadFetchBaseUrl);
    }
    return Ok(Config(
      mode, upstreamUrl, mintUrl.value, token, authToken, toolMatch, listenAddr, inlineMaxBytes.value,
      fetchBaseUrl.value, autoDetected));
  }

  // ------------------------------------------------------------------ producer and consumer

  /** The environment the injected proxy starts with. */
  function InjectedEnv(cfg: Settings, req: Request, secrets: string -> string): Env {
    name => Lookup(ProxyEnv(cfg, req), secrets, name)
  }

  /** A fact about url.Parse: a localhost URL with a number behind the colon is valid exactly
      when the number has digits only, and no sign. */
  ghost predicate LocalhostUrls(urlOk: string -> bool) {
    forall port | ParseInt(port).Some? :: urlOk("http://localhost:" + port) <==> AllDigits(port)
  }

  /** The variables the webhook can set, by name. */
  function Chosen(cfg: Settings, req: Request, secrets: string -> string, name: string): string {
    var standalone := Mode(req) == "standalone";
    if name == "PROXY_MODE" then Mode(req)
    else if name == "PROXY_LISTEN_ADDR" then ":" + FormatInt(LISTEN_PORT)
    else if name == "MEDIA_INTERNAL_TOKEN" then secrets(cfg.tokenSecret)
    else if name == "MEDIA_INJECTION_NOTE" then if standalone && req.upstreamPort != "" then PORT_IGNORED else ""
    else if name == "UPSTREAM_MCP_URL" then
      if !standalone && req.upstreamPort != "" then "http://localhost:" + req.upstreamPort else ""
    else if name == "TOOL_MATCH" then if Mode(req) == "full" then req.toolMatch else ""
    else if name == "INLINE_MAX_BYTES" then req.inlineMaxBytes
    else if name == "MINT_URL" then MintUrl(req)
    else if name == "MEDIA_AUTH_TOKEN" then if req.authSecret != "" then secrets(req.authSecret) else ""
    else ""
  }

  lemma LookupMint(req: Request, secrets: string -> string, name: string)
    ensures Lookup(MintEnv(req), secrets, name)
            == if MintUrl(req) != "" && name == "MINT_URL" then MintUrl(req)
               else if req.authSecret != "" && name == "MEDIA_AUTH_TOKEN" then secrets(req.authSecret)
               else ""
  {
    var auth := EnvVar("MEDIA_AUTH_TOKEN", FromSecret(req.authSecret));
    var tail := When(req.authSecret != "", auth);
    LookupWhen(MintUrl(req) != "", EnvVar("MINT_URL", Literal(MintUrl(req))), tail, secrets, name);
    LookupWhen(req.authSecret != "", auth, [], secrets, name);
    assert tail + [] == tail;
  }

  lemma LookupTool(req: Request, rest: seq<EnvVar>, secrets: string -> string, name: string)
    ensures Lookup(ToolEnv(req) + rest, secrets, name)
            == if req.toolMatch != "" && Mode(req) == "full" && name == "TOOL_MATCH" then req.toolMatch
               else if req.inlineMaxBytes != "" && name == "INLINE_MAX_BYTES" then req.inlineMaxBytes
               else Lookup(rest, secrets, name)
  {
    var tool := EnvVar("TOOL_MATCH", Literal(req.toolMatch));
    var limit := EnvVar("INLINE_MAX_BYTES", Literal(req.inlineMaxBytes));
    var tail := When(req.inlineMaxBytes != "", limit) + rest;
    LookupWhen(req.toolMatch != "" && Mode(req) == "full", tool, tail, secrets, name);
    LookupWhen(req.inlineMaxBytes != "", limit, rest, secrets, name);
    assert ToolEnv(req) + rest == When(req.toolMatch != "" && Mode(req) == "full", tool) + tail;
  }

  lemma LookupBase(cfg: Settings, mode: string, rest: seq<EnvVar>, secrets: string -> string, name: string)
    ensures Lookup(BaseEnv(cfg, mode) + rest, secrets, name)
            == if name == "PROXY_MODE" then mode
               else if name == "PROXY_LISTEN_ADDR" then ":" + FormatInt(LISTEN_PORT)
               else if name == "MEDIA_INTERNAL_TOKEN" then secrets(cfg.tokenSecret)
               else Lookup(rest, secrets, name)
  {
    var (a, b, c) := (BaseEnv(cfg, mode)[0], BaseEnv(cfg, mode)[1], BaseEnv(cfg, mode)[2]);
    LookupOne(a, [b] + ([c] + rest), secrets, name);
    LookupOne(b, [c] + rest, secrets, name);
    LookupOne(c, rest, secrets, name);
    assert BaseEnv(cfg, mode) + rest == [a] + ([b] + ([c] + rest));
  }

  lemma LookupUpstream(req: Request, rest: seq<EnvVar>, secrets: string -> string, name: string)
    ensures Lookup(UpstreamEnv(req) + rest, secrets, name)
            == if req.upstreamPort != "" && Mode(req) == "standalone" && name == "MEDIA_INJECTION_NOTE" then PORT_IGNORED
               else if req.upstreamPort != "" && Mode(req) != "standalone" && name == "UPSTREAM_MCP_URL"
               then "http://localhost:" + req.upstreamPort
               else Lookup(rest, secrets, name)
  {
    var v := if Mode(req) == "standalone" then EnvVar("MEDIA_INJECTION_NOTE", Literal(PORT_IGNORED))
             else EnvVar("UPSTREAM_MCP_URL", Literal("http://localhost:" + req.upstreamPort));
    LookupWhen(req.upstreamPort != "", v, rest, secrets, name);
  }

  lemma Regroup<T>(a: seq<T>, b: seq<T>, c: seq<T>, d: seq<T>)
    ensures a + b + c + d == a + (b + (c + d))
  {}

  /** Each variable has the value chosen for it, whatever else is set. */
  lemma InjectedValue(cfg: Settings, req: Request, secrets: string -> string, name: string)
    ensures InjectedEnv(cfg, req, secrets)(name) == Chosen(cfg, req, secrets, name)
  {
    Regroup(BaseEnv(cfg, Mode(req)), UpstreamEnv(req), ToolEnv(req), MintEnv(req));
    LookupBase(cfg, Mode(req), UpstreamEnv(req) + (ToolEnv(req) + MintEnv(req)), secrets, name);
    LookupUpstream(req, ToolEnv(req) + MintEnv(req), secrets, name);
    LookupTool(req, MintEnv(req), secrets, name);
    LookupMint(req, secrets, name);
  }

  lemma KeysDiffer()
    ensures "MEDIA_AUTH_TOKEN" !in {"INLINE_MAX_BYTES", "UPSTREAM_MCP_URL"}
    ensures "INLINE_MAX_BYTES" != "UPSTREAM_MCP_URL"
    ensures "TOOL_MATCH" != "PROXY_MODE"
    ensures "MEDIA_FETCH_BASE_URL" !in {"MEDIA_INTERNAL_TOKEN", "MEDIA_INJECTION_NOTE"}
    ensures "MEDIA_INTERNAL_TOKEN" != "MEDIA_INJECTION_NOTE"
  {}

  /** The variables the proxy reads, as the webhook sets them. */
  function InjectedVars(cfg: Settings, req: Request, secrets: string -> string): Vars {
    Vars(
      Mode(req),
      if Mode(req) != "standalone" && req.upstreamPort != "" then "http://localhost:" + req.upstreamPort else "",
      if Mode(req) == "full" then req.toolMatch else "",
      MintUrl(req), secrets(cfg.tokenSecret), if req.authSecret != "" then secrets(req.authSecret) else "",
      req.inlineMaxBytes, ":" + FormatInt(LISTEN_PORT), "")
  }

  lemma ModeVars(cfg: Settings, req: Request, secrets: string -> string, v: Vars)
    requires v == InjectedVars(cfg, req, secrets)
    ensures InjectedEnv(cfg, req, secrets)("PROXY_MODE") == v.mode
    ensures InjectedEnv(cfg, req, secrets)("UPSTREAM_MCP_URL") == v.upstream
    ensures InjectedEnv(cfg, req, secrets)("TOOL_MATCH") == v.toolMatch
  {
    KeysDiffer();
    InjectedValue(cfg, req, secrets, "PROXY_MODE");
    InjectedValue(cfg, req, secrets, "UPSTREAM_MCP_URL");
    InjectedValue(cfg, req, secrets, "TOOL_MATCH");
  }

  lemma SecretVars(cfg: Settings, req: Request, secrets: string -> string, v: Vars)
    requires v == InjectedVars(cfg, req, secrets)
    ensures InjectedEnv(cfg, req, secrets)("MINT_URL") == v.mint
    ensures InjectedEnv(cfg, req, secrets)("MEDIA_INTERNAL_TOKEN") == v.token
    ensures InjectedEnv(cfg, req, secrets)("MEDIA_AUTH_TOKEN") == v.auth
  {
    KeysDiffer();
    InjectedValue(cfg, req, secrets, "MINT_URL");
    InjectedValue(cfg, req, secrets, "MEDIA_INTERNAL_TOKEN");
    InjectedValue(cfg, req, secrets, "MEDIA_AUTH_TOKEN");
  }

  lemma OtherVars(cfg: Settings, req: Request, secrets: string -> string, v: Vars)
    requires v == InjectedVars(cfg, req, secrets)
    ensures InjectedEnv(cfg, req, secrets)("INLINE_MAX_BYTES") == v.inlineMax
    ensures InjectedEnv(cfg, req, secrets)("PROXY_LISTEN_ADDR") == v.listenAddr
    ensures InjectedEnv(cfg, req, secrets)("MEDIA_FETCH_BASE_URL") == v.fetchBase
  {
    KeysDiffer();
    InjectedValue(cfg, req, secrets, "INLINE_MAX_BYTES");
    InjectedValue(cfg, req, secrets, "PROXY_LISTEN_ADDR");
    InjectedValue(cfg, req, secrets, "MEDIA_FETCH_BASE_URL");
  }

  lemma WebhookSets(cfg: Settings, req: Request, secrets: string -> string)
    ensures Read(InjectedEnv(cfg, req, secrets)) == InjectedVars(cfg, req, secrets)
  {
    var v := InjectedVars(cfg, req, secrets);
    ModeVars(cfg, req, secrets, v);
    SecretVars(cfg, req, secrets, v);
    OtherVars(cfg, req, secrets, v);
  }

  /** What it takes for an injected proxy to start. */
  ghost predicate Startable(
    cfg: Settings, req: Request, secrets: string -> string, urlOk: string -> bool, regexOk: string -> bool)
  {
    && req.mode in {"", "full", "standalone"}
    && (req.mode != "standalone" ==> AllDigits(req.upstreamPort))
    && (req.mode != "standalone" && req.toolMatch != "" ==> regexOk(req.toolMatch))
    && MintUrl(req) != "" && urlOk(MintUrl(req))
    && secrets(cfg.tokenSecret) != ""
    && (req.authSecret != "" ==> |secrets(req.authSecret)| == 0 || |secrets(req.authSecret)| >= MIN_AUTH_TOKEN)
    && (req.inlineMaxBytes != "" ==> PositiveInt64(req.inlineMaxBytes))
  }

  /** The parts of the agreement that do not depend on the mode. */
  lemma CommonProblems(
    cfg: Settings, req: Request, secrets: string -> string, v: Vars, urlOk: string -> bool, regexOk: string -> bool)
    requires v == InjectedVars(cfg, req, secrets)
    ensures !Has(v, urlOk, regexOk, BadFetchBaseUrl)
    ensures Has(v, urlOk, regexOk, BadMintUrl) <==> MintUrl(req) == "" || !urlOk(MintUrl(req))
    ensures Has(v, urlOk, regexOk, NoToken) <==> secrets(cfg.tokenSecret) == ""
    ensures Has(v, urlOk, regexOk, ShortAuthToken)
            <==> req.authSecret != "" && 0 < |secrets(req.authSecret)| < MIN_AUTH_TOKEN
    ensures Has(v, urlOk, regexOk, BadInlineMax) <==> req.inlineMaxBytes != "" && !PositiveInt64(req.inlineMaxBytes)
  {}

  lemma ModeProblems(
    cfg: Settings, req: Request, secrets: string -> string, v: Vars, urlOk: string -> bool, regexOk: string -> bool)
    requires v == InjectedVars(cfg, req, secrets) && LocalhostUrls(urlOk)
    requires req.upstreamPort == "" || ParseInt(req.upstreamPort).Some?
    ensures Has(v, urlOk, regexOk, BadMode) <==> req.mode !in {"", "full", "standalone"}
    ensures IsStandalone(v) <==> req.mode == "standalone"
    ensures !Has(v, urlOk, regexOk, UpstreamInStandalone) && !Has(v, urlOk, regexOk, ToolMatchInStandalone)
    ensures Has(v, urlOk, regexOk, BadUpstreamUrl) <==> req.mode != "standalone" && !AllDigits(req.upstreamPort)
    ensures req.mode in {"", "full", "standalone"} ==>
              (Has(v, urlOk, regexOk, BadToolMatch)
               <==> req.mode != "standalone" && req.toolMatch != "" && !regexOk(req.toolMatch))
  {
    assert "http://localhost:" + req.upstreamPort != "";
  }

  /** Producer and consumer agree: a proxy injected for accepted annotations starts exactly
      when its mode is known, a full proxy has a port of digits and a valid expression, the
      mint URL can be derived and is valid, the inline limit is empty or positive and the
      secrets are long enough. It then runs in the mode asked for, on the derived URLs. */
  lemma InjectedProxyStarts(
    cfg: Settings, req: Request, secrets: string -> string, urlOk: string -> bool, regexOk: string -> bool)
    requires Annotations.Accepted(req) && req.proxy && LocalhostUrls(urlOk)
    ensures var v := Read(InjectedEnv(cfg, req, secrets));
            && (Sound(v, urlOk, regexOk) <==> Startable(cfg, req, secrets, urlOk, regexOk))
            && (Sound(v, urlOk, regexOk) ==>
                  var c := Described(v);
                  && c.mode == (if req.mode == "standalone" then Standalone else Full)
                  && c.upstreamUrl == (if c.mode == Full then "http://localhost:" + req.upstreamPort else "")
                  && c.mintUrl == MintUrl(req) && c.fetchBaseUrl == "" && !c.autoDetected
                  && c.toolMatch == (if c.mode == Full then req.toolMatch else "")
                  && c.listenAddr == ":" + FormatInt(LISTEN_PORT)
                  && c.token == secrets(cfg.tokenSecret)
                  && c.authToken == (if req.authSecret == "" then "" else secrets(req.authSecret))
                  && (if req.inlineMaxBytes == "" then c.inlineMaxBytes == DEFAULT_INLINE_MAX
                      else ParseInt(req.inlineMaxBytes) == Some(c.inlineMaxBytes)))
  {
    var v := InjectedVars(cfg, req, secrets);
    WebhookSets(cfg, req, secrets);
    CommonProblems(cfg, req, secrets, v, urlOk, regexOk);
    ModeProblems(cfg, req, secrets, v, urlOk, regexOk);
  }

  /** A standalone proxy never carries the two variables it must not have. */
  lemma StandaloneIsClean(cfg: Settings, req: Request, secrets: string -> string)
    requires req.mode == "standalone"
    ensures var v := Read(InjectedEnv(cfg, req, secrets));
            IsStandalone(v) && v.upstream == "" && v.toolMatch == ""
  {
    WebhookSets(cfg, req, secrets);
  }

  /** Leaving the port out does not detect anything: since the mode is always set, a full
      proxy without the annotation refuses to start. */
  lemma FullNeedsUpstreamPort(
    cfg: Settings, req: Request, secrets: string -> string, urlOk: string -> bool, regexOk: string -> bool)
    requires req.mode in {"", "full"} && req.upstreamPort == ""
    ensures var v := Read(InjectedEnv(cfg, req, secrets));
            Has(v, urlOk, regexOk, BadUpstreamUrl) && !Sound(v, urlOk, regexOk)
  {
    WebhookSets(cfg, req, secrets);
  }
}
