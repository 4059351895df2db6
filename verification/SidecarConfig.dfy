/** Startup configuration of the sidecar (cmd/media-sidecar/main.go): it establishes what path
    resolution and the TTL arithmetic rely on, and it agrees with what the webhook injects. */
module SidecarConfig {
  import opened Core
  import opened Text
  import opened Decimal
  import opened Paths
  import opened Resolver
  import opened Webhook
  import opened Environment
  import Minting

  /** Durations are in nanoseconds. */
  datatype Config = Config(
    secret: string, token: string, publicBaseUrl: string, roots: seq<string>,
    serveAddr: string, mintAddr: string, defaultTtl: int, maxTtl: int)

  datatype Problem =
    | NoSecret | ShortSecret | NoToken | NoBaseUrl | BadBaseUrl | RelativeRoot | NoRoots
    | BadDefaultTtl | BadMaxTtl | DefaultNotPositive | MaxBelowDefault

  const MIN_SECRET: nat := 32
  const SECOND: int := 1_000_000_000
  const DEFAULT_ROOTS: string := "/data"

  // ------------------------------------------------------------------ media roots

  predicate IsSpace(c: char) {
    c in {' ', '\t', '\n', '\r', 11 as char, 12 as char}
  }

  /** strings.TrimSpace, for ASCII white space. */
  function TrimSpace(s: string): (t: string)
    ensures t != "" ==> !IsSpace(t[0]) && !IsSpace(t[|t| - 1])
  {
    if s != "" && IsSpace(s[0]) then TrimSpace(s[1..])
    else if s != "" && IsSpace(s[|s| - 1]) then TrimSpace(s[..|s| - 1])
    else s
  }

  /** The entries of a list that are not blank, trimmed. */
  function Named(entries: seq<string>): seq<string> {
    if entries == [] then []
    else
      var root := TrimSpace(entries[|entries| - 1]);
      Named(entries[..|entries| - 1]) + if root == "" then [] else [root]
  }

  function RootsOf(value: string): seq<string> {
    Named(Split(Or(value, DEFAULT_ROOTS), ','))
  }

  method LoadRoots(value: string) returns (r: Result<seq<string>, Problem>)
    ensures r.Ok? <==> RootsOf(value) != [] && ValidRoots(RootsOf(value))
    ensures r.Ok? ==> r.value == RootsOf(value)
    ensures r == Err(NoRoots) <==> RootsOf(value) == []
    ensures r.Err? ==> r.error in {NoRoots, RelativeRoot}
  {
    var entries := Split(Or(value, DEFAULT_ROOTS), ',');
    var roots := [];
    for i := 0 to |entries|
      invariant roots == Named(entries[..i]) && ValidRoots(roots)
    {
      assert entries[..i + 1][..i] == entries[..i];
      var root := TrimSpace(entries[i]);
      if root != "" {
        if !IsAbs(root) {
          NamedPrefix(entries, i + 1);
          assert Named(entries[..i + 1])[|roots|] == root;
          return Err(RelativeRoot);
        }
        roots := roots + [root];
      }
    }
    assert entries[..|entries|] == entries;
    if |roots| == 0 {
      return Err(NoRoots);
    }
    return Ok(roots);
  }

  lemma {:induction false} NamedPrefix(entries: seq<string>, i: nat)
    requires i <= |entries|
    ensures Named(entries[..i]) <= Named(entries)
    decreases |entries| - i
  {
    if i < |entries| {
      assert entries[..i + 1][..i] == entries[..i];
      NamedPrefix(entries, i + 1);
    } else {
      assert entries[..i] == entries;
    }
  }

  lemma {:induction false} NamedAppend(a: seq<string>, b: seq<string>)
    ensures Named(a + b) == Named(a) + Named(b)
  {
    if b == [] {
      assert a + b == a && Named(b) == [];
    } else {
      assert (a + b)[..|a + b| - 1] == a + b[..|b| - 1] && (a + b)[|a + b| - 1] == b[|b| - 1];
      NamedAppend(a, b[..|b| - 1]);
    }
  }

  predicate Blank(s: string) {
    forall i | 0 <= i < |s| :: IsSpace(s[i])
  }

  lemma {:induction false} TrimFront(before: string, s: string)
    requires Blank(before)
    ensures TrimSpace(before + s) == TrimSpace(s)
  {
    if before == "" {
      assert before + s == s;
    } else {
      assert (before + s)[0] == before[0] && (before + s)[1..] == before[1..] + s;
      TrimFront(before[1..], s);
    }
  }

  lemma {:induction false} TrimBack(core: string, after: string)
    requires Blank(after) && core != "" && !IsSpace(core[0]) && !IsSpace(core[|core| - 1])
    ensures TrimSpace(core + after) == core
    decreases |after|
  {
    var s := core + after;
    if after == "" {
      assert s == core;
    } else {
      var shorter := after[..|after| - 1];
      assert s[0] == core[0] && s[|s| - 1] == after[|after| - 1] && s[..|s| - 1] == core + shorter;
      TrimBack(core, shorter);
    }
  }

  /** White space around an entry is dropped, and none within it. */
  lemma TrimExact(before: string, core: string, after: string)
    requires Blank(before) && Blank(after) && (core != "" ==> !IsSpace(core[0]) && !IsSpace(core[|core| - 1]))
    ensures TrimSpace(before + core + after) == core
  {
    assert before + core + after == before + (core + after);
    TrimFront(before, core + after);
    if core == "" {
      assert core + after == after + "";
      TrimFront(after, "");
    } else {
      TrimBack(core, after);
    }
  }

  /** The roots are the entries between commas, in their order, each without the white space
      around it, and blank ones left out. */
  lemma RootsOfList(value: string, before: string, root: string, after: string)
    requires value != "" && ',' !in before + root + after && Blank(before) && Blank(after)
    requires root != "" ==> !IsSpace(root[0]) && !IsSpace(root[|root| - 1])
    ensures RootsOf(value + "," + (before + root + after)) == RootsOf(value) + if root == "" then [] else [root]
  {
    var entry := before + root + after;
    SplitAtSeparator(value, entry, ',');
    SplitWhole(entry, ',');
    NamedAppend(Split(value, ','), [entry]);
    TrimExact(before, root, after);
    assert Named([]) == [] && [entry][..0] == [];
    assert value + "," + entry == value + [','] + entry;
  }

  // ------------------------------------------------------------------ the whole configuration

  /** The variables the sidecar reads. */
  datatype Vars = Vars(
    secret: string, token: string, baseUrl: string, roots: string,
    serveAddr: string, mintAddr: string, defaultTtl: string, maxTtl: string)

  function Read(env: Env): Vars {
    Vars(
      env("MEDIA_SIGNING_SECRET"), env("MEDIA_INTERNAL_TOKEN"), env("MEDIA_PUBLIC_BASE_URL"), env("MEDIA_ROOTS"),
      env("MEDIA_SERVE_ADDR"), env("MEDIA_MINT_ADDR"), env("MEDIA_DEFAULT_TTL"), env("MEDIA_MAX_TTL"))
  }

  /** durationEnv: time.ParseDuration is a parameter. */
  function DurationOr(value: string, parse: string -> Option<int>, otherwise: int): Option<int> {
    if value == "" then Some(otherwise) else parse(value)
  }

  function DefaultTtl(v: Vars, parse: string -> Option<int>): Option<int> {
    DurationOr(v.defaultTtl, parse, 300 * SECOND)
  }

  function MaxTtl(v: Vars, parse: string -> Option<int>): Option<int> {
    DurationOr(v.maxTtl, parse, 900 * SECOND)
  }

  ghost predicate Has(v: Vars, urlOk: string -> bool, parse: string -> Option<int>, problem: Problem) {
    match problem
    case NoSecret => v.secret == ""
    case ShortSecret => |v.secret| < MIN_SECRET
    case NoToken => v.token == ""
    case NoBaseUrl => v.baseUrl == ""
    case BadBaseUrl => !urlOk(v.baseUrl)
    case RelativeRoot => !ValidRoots(RootsOf(v.roots))
    case NoRoots => RootsOf(v.roots) == []
    case BadDefaultTtl => DefaultTtl(v, parse).None?
    case BadMaxTtl => MaxTtl(v, parse).None?
    case DefaultNotPositive => DefaultTtl(v, parse).Some? && DefaultTtl(v, parse).value <= 0
    case MaxBelowDefault =>
      DefaultTtl(v, parse).Some? && MaxTtl(v, parse).Some? && MaxTtl(v, parse).value < DefaultTtl(v, parse).value
  }

  ghost predicate Sound(v: Vars, urlOk: string -> bool, parse: string -> Option<int>) {
    && |v.secret| >= MIN_SECRET && v.token != "" && v.baseUrl != "" && urlOk(v.baseUrl)
    && RootsOf(v.roots) != [] && ValidRoots(RootsOf(v.roots))
    && DefaultTtl(v, parse).Some? && MaxTtl(v, parse).Some?
    && 0 < DefaultTtl(v, parse).value <= MaxTtl(v, parse).value
  }

  function Described(v: Vars, parse: string -> Option<int>): Config
    requires DefaultTtl(v, parse).Some? && MaxTtl(v, parse).Some?
  {
    Config(
      v.secret, v.token, v.baseUrl, RootsOf(v.roots), Or(v.serveAddr, ":8090"), Or(v.mintAddr, ":8091"),
      DefaultTtl(v, parse).value, MaxTtl(v, parse).value)
  }

  /** Each part of a configuration comes from the variable of that purpose. */
  ghost predicate Describes(c: Config, env: Env, parse: string -> Option<int>) {
    && c.secret == env("MEDIA_SIGNING_SECRET") && c.token == env("MEDIA_INTERNAL_TOKEN")
    && c.publicBaseUrl == env("MEDIA_PUBLIC_BASE_URL")
    && c.roots == RootsOf(env("MEDIA_ROOTS"))
    && c.serveAddr == (if env("MEDIA_SERVE_ADDR") == "" then ":8090" else env("MEDIA_SERVE_ADDR"))
    && c.mintAddr == (if env("MEDIA_MINT_ADDR") == "" then ":8091" else env("MEDIA_MINT_ADDR"))
    && (if env("MEDIA_DEFAULT_TTL") == "" then c.defaultTtl == 300 * SECOND
        else parse(env("MEDIA_DEFAULT_TTL")) == Some(c.defaultTtl))
    && (if env("MEDIA_MAX_TTL") == "" then c.maxTtl == 900 * SECOND
        else parse(env("MEDIA_MAX_TTL")) == Some(c.maxTtl))
  }

  /** loadConfig: exactly the sound environments are accepted. */
  method LoadConfig(env: Env, urlOk: string -> bool, parse: string -> Option<int>) returns (r: Result<Config, Problem>)
    ensures r.Err? ==> Has(Read(env), urlOk, parse, r.error)
    ensures r.Ok? <==> Sound(Read(env), urlOk, parse)
    ensures r.Ok? ==> r.value == Described(Read(env), parse)
    ensures r.Ok? ==> Describes(r.value, env, parse)
  {
    var secret := env("MEDIA_SIGNING_SECRET");
    if secret == "" {
      return Err(NoSecret);
    }
    if |secret| < MIN_SECRET {
      return Err(ShortSecret);
    }
    var token := env("MEDIA_INTERNAL_TOKEN");
    if token == "" {
      return Err(NoToken);
    }
    var baseUrl := env("MEDIA_PUBLIC_BASE_URL");
    if baseUrl == "" {
      return Err(NoBaseUrl);
    }
    if !urlOk(baseUrl) {
      return Err(BadBaseUrl);
    }
    var roots := LoadRoots(env("MEDIA_ROOTS"));
    if roots.Err? {
      return Err(roots.error);
    }
    var serveAddr := env("MEDIA_SERVE_ADDR");
    if serveAddr == "" {
      serveAddr := ":8090";
    }
    var mintAddr := env("MEDIA_MINT_ADDR");
    if mintAddr == "" {
      mintAddr := ":8091";
    }
    var defaultTtl := DurationOr(env("MEDIA_DEFAULT_TTL"), parse, 300 * SECOND);
    if defaultTtl.None? {
      return Err(BadDefaultTtl);
    }
    var maxTtl := DurationOr(env("MEDIA_MAX_TTL"), parse, 900 * SECOND);
    if maxTtl.None? {
      return Err(BadMaxTtl);
    }
    if defaultTtl.value <= 0 {
      return Err(DefaultNotPositive);
    }
    if maxTtl.value < defaultTtl.value {
      return Err(MaxBelowDefault);
    }
    return Ok(Config(secret, token, baseUrl, roots.value, serveAddr, mintAddr, defaultTtl.value, maxTtl.value));
  }

  // ------------------------------------------------------------------ what it establishes

  /** strings.TrimRight(s, "/"). */
  function TrimSlashes(s: string): string {
    if s != "" && s[|s| - 1] == '/' then TrimSlashes(s[..|s| - 1]) else s
  }

  lemma {:induction false} TrimSlashesExact(s: string, k: nat)
    requires s == "" || s[|s| - 1] != '/'
    ensures TrimSlashes(s + seq(k, i => '/')) == s
    decreases k
  {
    var t := s + seq(k, i => '/');
    if k == 0 {
      assert t == s;
    } else {
      assert t[..|t| - 1] == s + seq(k - 1, i => '/');
      TrimSlashesExact(s, k - 1);
    }
  }

  /** A configuration that loads meets all that minting, serving and path resolution require. */
  lemma LoadedIsValid(v: Vars, urlOk: string -> bool, parse: string -> Option<int>)
    requires Sound(v, urlOk, parse)
    requires forall text | parse(text).Some? :: IsInt64(parse(text).value)
    ensures var c := Described(v, parse);
            && Minting.Config(c.secret, TrimSlashes(c.publicBaseUrl), c.roots, c.defaultTtl, c.maxTtl).Valid()
            && ValidRoots(c.roots) && RootComps(c.roots) != []
            && |c.secret| >= MIN_SECRET && c.token != ""
  {}

  /** The validation of mint.NewHandler, whose URL check is weaker: it allows credentials. */
  predicate HandlerAccepts(c: Config, baseOk: string -> bool) {
    && |c.secret| >= MIN_SECRET && c.token != "" && baseOk(c.publicBaseUrl)
    && 0 < c.defaultTtl <= c.maxTtl && c.roots != []
  }

  /** Whatever loads passes the handler's own validation. The converse fails: the handler takes
      a relative root, for which path resolution would recurse forever. */
  lemma LoadedPassesNewHandler(v: Vars, urlOk: string -> bool, baseOk: string -> bool, parse: string -> Option<int>)
    requires Sound(v, urlOk, parse) && forall u | urlOk(u) :: baseOk(u)
    ensures var c := Described(v, parse);
            && HandlerAccepts(c, baseOk)
            && HandlerAccepts(c.(roots := ["media"]), baseOk)
            && !ValidRoots(["media"])
  {
    assert !IsAbs(["media"][0]);
  }

  // ------------------------------------------------------------------ producer and consumer

  function InjectedEnv(cfg: Settings, p: Pod, req: Request, secrets: string -> string): Env {
    name => Lookup(SidecarEnv(cfg, p, req), secrets, name)
  }

  function InjectedVars(cfg: Settings, p: Pod, req: Request, secrets: string -> string): Vars {
    Vars(secrets(cfg.signingSecret), secrets(cfg.tokenSecret), PublicUrl(p, req), MediaPath(req), "", "", "", "")
  }

  lemma InjectedValue(cfg: Settings, p: Pod, req: Request, secrets: string -> string, name: string)
    ensures InjectedEnv(cfg, p, req, secrets)(name)
            == if name == "MEDIA_PUBLIC_BASE_URL" then PublicUrl(p, req)
               else if name == "MEDIA_INTERNAL_TOKEN" then secrets(cfg.tokenSecret)
               else if name == "MEDIA_SIGNING_SECRET" then secrets(cfg.signingSecret)
               else if name == "MEDIA_ROOTS" then MediaPath(req)
               else ""
  {
    var env := SidecarEnv(cfg, p, req);
    LookupOne(env[0], [env[1]] + ([env[2]] + ([env[3]] + [])), secrets, name);
    LookupOne(env[1], [env[2]] + ([env[3]] + []), secrets, name);
    LookupOne(env[2], [env[3]] + [], secrets, name);
    LookupOne(env[3], [], secrets, name);
    assert env == [env[0]] + ([env[1]] + ([env[2]] + ([env[3]] + [])));
  }

  /** Variable names of the same length. */
  lemma KeysDiffer()
    ensures "MEDIA_INTERNAL_TOKEN" != "MEDIA_SIGNING_SECRET"
  {}

  lemma WebhookSets(cfg: Settings, p: Pod, req: Request, secrets: string -> string)
    ensures Read(InjectedEnv(cfg, p, req, secrets)) == InjectedVars(cfg, p, req, secrets)
  {
    KeysDiffer();
    forall name {
      InjectedValue(cfg, p, req, secrets, name);
    }
  }

  /** An injected sidecar starts exactly when its secrets are long enough, the public URL is
      valid and every entry of the media path is absolute; the webhook checks none of these.
      It then listens where the mint URL and the media service point. */
  lemma InjectedSidecarStarts(
    cfg: Settings, p: Pod, req: Request, secrets: string -> string, urlOk: string -> bool, parse: string -> Option<int>)
    ensures var v := Read(InjectedEnv(cfg, p, req, secrets));
            && (Sound(v, urlOk, parse) <==>
                  && |secrets(cfg.signingSecret)| >= MIN_SECRET && secrets(cfg.tokenSecret) != ""
                  && PublicUrl(p, req) != "" && urlOk(PublicUrl(p, req))
                  && RootsOf(MediaPath(req)) != [] && ValidRoots(RootsOf(MediaPath(req))))
            && (Sound(v, urlOk, parse) ==>
                  var c := Described(v, parse);
                  && c.secret == secrets(cfg.signingSecret) && c.token == secrets(cfg.tokenSecret)
                  && c.publicBaseUrl == PublicUrl(p, req) && c.roots == RootsOf(MediaPath(req))
                  && c.defaultTtl == 300 * SECOND && c.maxTtl == 900 * SECOND
                  && c.serveAddr == ":" + FormatInt(SERVE_PORT) && c.mintAddr == ":" + FormatInt(MINT_PORT))
  {
    WebhookSets(cfg, p, req, secrets);
    DefaultAddresses();
  }

  lemma DefaultAddresses()
    ensures ":" + FormatInt(SERVE_PORT) == ":8090" && ":" + FormatInt(MINT_PORT) == ":8091"
  {}

  /** An absolute path without commas or surrounding white space is the sidecar's only root:
      it serves the directory the media volume is mounted at. */
  lemma MountedPathIsTheRoot(path: string)
    requires path != "" && ',' !in path && !IsSpace(path[0]) && !IsSpace(path[|path| - 1])
    ensures RootsOf(path) == [path]
    ensures ValidRoots(RootsOf(path)) <==> IsAbs(path)
  {
    SplitWhole(path, ',');
    assert Named([]) == [] && [path][..0] == [];
  }
}
