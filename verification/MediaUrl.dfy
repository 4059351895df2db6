/** The text of a signed media URL: how the mint handler builds it, how the file server
    takes it apart, and how the proxy replaces its scheme and host. */
module MediaUrl {
  import opened Core
  import opened Text
  import opened Decimal
  import opened Paths
  import Base64Url
  import Percent

  datatype Request = Request(pathB64: string, filename: string, exp: string, d: string, sig: string)

  /** An http(s) URL: scheme in lower case, user info with its @ or nothing, host, and the rest. */
  datatype Url = Url(scheme: string, user: string, host: string, target: string)

  predicate EndsHost(c: char) {
    c == '/' || c == '?' || c == '#'
  }

  predicate IsHost(s: string) {
    forall i | 0 <= i < |s| :: !EndsHost(s[i])
  }

  /** The URL the mint handler returns. */
  function Build(base: string, pathB64: string, name: string, exp: int, d: string, sig: string): string
    requires IsBytes(name)
  {
    base + Target(pathB64, name, exp, d, sig)
  }

  function Path(pathB64: string, name: string): string
    requires IsBytes(name)
  {
    "/" + "media" + "/" + pathB64 + "/" + Percent.PathEscape(name)
  }

  function Field(key: string, value: string): string {
    key + "=" + value
  }

  function Query(exp: int, d: string, sig: string): string {
    Field("exp", FormatInt(exp)) + "&" + (Field("d", d) + "&" + Field("sig", sig))
  }

  function Target(pathB64: string, name: string, exp: int, d: string, sig: string): string
    requires IsBytes(name)
  {
    Path(pathB64, name) + "?" + Query(exp, d, sig)
  }

  /** Splits off the leading part that can be a host. */
  function TakeHost(s: string): (r: (string, string))
    ensures s == r.0 + r.1 && IsHost(r.0)
    ensures r.1 == "" || EndsHost(r.1[0])
  {
    if s == "" || EndsHost(s[0]) then ("", s)
    else
      var (host, rest) := TakeHost(s[1..]);
      ([s[0]] + host, rest)
  }

  function Lower(s: string): (t: string)
    ensures |t| == |s|
  {
    seq(|s|, i requires 0 <= i < |s| => if 'A' <= s[i] <= 'Z' then s[i] + ' ' else s[i])
  }

  /** Splits off the text up to the last `@`, if there is one. */
  function TakeUser(s: string): (r: (string, string))
    ensures s == r.0 + r.1 && '@' !in r.1 && (r.0 == "" || r.0[|r.0| - 1] == '@')
  {
    if s == "" then ("", "")
    else if s[|s| - 1] == '@' then (s, "")
    else
      var (user, host) := TakeUser(s[..|s| - 1]);
      (user, host + [s[|s| - 1]])
  }

  /** The scheme, which may be spelled in either case. */
  function SchemeOf(url: string): (scheme: Option<string>)
    ensures scheme.Some? ==> scheme.value in {"http", "https"} && |scheme.value| + 3 <= |url|
  {
    if |url| >= 7 && Lower(url[..7]) == "http://" then Some("http")
    else if |url| >= 8 && Lower(url[..8]) == "https://" then Some("https")
    else None
  }

  /** url.Parse of an http(s) URL. */
  function ParseUrl(url: string): Option<Url> {
    match SchemeOf(url)
    case None => None
    case Some(scheme) =>
      var (authority, target) := TakeHost(url[|scheme| + 3..]);
      var (user, host) := TakeUser(authority);
      if host == "" then None else Some(Url(scheme, user, host, target))
  }

  /** One key=value pair of a query; pairs that do not decode are ignored. */
  function Pair(part: string): Option<(string, string)> {
    var (k, v) := match Cut(part, '=') case None => (part, "") case Some(kv) => kv;
    match (Percent.Unescape(k, true), Percent.Unescape(v, true))
    case (Some(key), Some(value)) => if ';' in part then None else Some((key, value))
    case _ => None
  }

  /** url.Values.Get: the first value of a key, or the empty string. */
  function Get(parts: seq<string>, key: string): string {
    if parts == [] then ""
    else
      match Pair(parts[0])
      case Some((k, v)) => if k == key then v else Get(parts[1..], key)
      case None => Get(parts[1..], key)
  }

  /** The path that the request multiplexer makes of a path: clean, a trailing slash kept. */
  function MuxClean(path: string): string {
    var rooted := if IsAbs(path) then path else "/" + path;
    var clean := Clean(rooted);
    if rooted[|rooted| - 1] == '/' && clean != "/" then clean + "/" else clean
  }

  function SplitQuery(target: string): (string, string) {
    match Cut(Before(target, '#'), '?')
    case None => (Before(target, '#'), "")
    case Some(pq) => pq
  }

  /** The route GET /media/{pathB64}/{filename}, on a path and a query. */
  function MatchRoute(path: string, query: string): Option<Request> {
    var segments := Split(path, '/');
    if |segments| != 4 || segments[0] != "" || segments[1] != "media"
       || segments[2] == "" || segments[3] == "" then None
    else
      match (Percent.Unescape(segments[2], false), Percent.Unescape(segments[3], false))
      case (Some(pathB64), Some(filename)) =>
        var parts := Split(query, '&');
        Some(Request(pathB64, filename, Get(parts, "exp"), Get(parts, "d"), Get(parts, "sig")))
      case _ => None
  }

  /** What the handler reads from a request target; a path that is not clean is answered with a
      redirect instead. */
  function ParseTarget(target: string): Option<Request> {
    var (path, query) := SplitQuery(target);
    if MuxClean(path) != path then None else MatchRoute(path, query)
  }

  /** Percent signs are escaped once more in the redirect. */
  function EscapePercents(s: string): string {
    if s == "" then ""
    else if s[0] == '%' then "%25" + EscapePercents(s[1..])
    else [s[0]] + EscapePercents(s[1..])
  }

  /** What the handler reads when the client follows the redirect. */
  function FollowTarget(target: string): Option<Request> {
    var (path, query) := SplitQuery(target);
    if MuxClean(path) == path then MatchRoute(path, query)
    else MatchRoute(EscapePercents(MuxClean(path)), query)
  }

  function Parse(url: string): Option<Request> {
    match ParseUrl(url)
    case None => None
    case Some(u) => ParseTarget(u.target)
  }

  function Follow(url: string): Option<Request> {
    match ParseUrl(url)
    case None => None
    case Some(u) => FollowTarget(u.target)
  }

  /** proxy.swapBase: scheme and host of `base` in the URL, everything else kept. */
  function SwapBase(url: string, base: string): Result<string, ()> {
    if base == "" then Ok(url)
    else
      match (ParseUrl(url), ParseUrl(base))
      case (Some(u), Some(b)) => Ok(b.scheme + "://" + u.user + b.host + u.target)
      case _ => Err(())
  }

  /** A base URL with nothing behind its host. */
  predicate Bare(base: string) {
    ParseUrl(base).Some? && ParseUrl(base).value.target == ""
  }

  lemma {:induction false} TakeUserExact(user: string, host: string)
    requires '@' !in host && (user == "" || user[|user| - 1] == '@')
    ensures TakeUser(user + host) == (user, host)
  {
    if host == "" {
      assert user + host == user;
    } else {
      var s := user + host;
      assert s[..|s| - 1] == user + host[..|host| - 1] && s[|s| - 1] == host[|host| - 1];
      TakeUserExact(user, host[..|host| - 1]);
      assert host[..|host| - 1] + [host[|host| - 1]] == host;
    }
  }

  lemma {:induction false} TakeHostExact(host: string, rest: string)
    requires IsHost(host) && (rest == "" || EndsHost(rest[0]))
    ensures TakeHost(host + rest) == (host, rest)
  {
    if host == "" {
      assert host + rest == rest;
    } else {
      assert (host + rest)[1..] == host[1..] + rest;
      TakeHostExact(host[1..], rest);
      assert [host[0]] + host[1..] == host;
    }
  }

  lemma LowerOfLower(s: string)
    requires forall i | 0 <= i < |s| :: !('A' <= s[i] <= 'Z')
    ensures Lower(s) == s
  {}

  lemma SchemeExact(scheme: string, rest: string)
    requires scheme in {"http", "https"}
    ensures SchemeOf(scheme + "://" + rest) == Some(scheme)
    ensures (scheme + "://" + rest)[|scheme| + 3..] == rest
  {
    var url := scheme + "://" + rest;
    assert url[..|scheme| + 3] == scheme + "://";
    LowerOfLower(scheme + "://");
    if scheme == "https" {
      assert Lower(url[..7])[4] == 's' && "http://"[4] == ':';
    }
  }

  lemma SchemeStays(base: string, target: string)
    requires SchemeOf(base).Some?
    ensures SchemeOf(base + target) == SchemeOf(base)
  {
    var url := base + target;
    assert url[..7] == base[..7];
    if |base| >= 8 {
      assert url[..8] == base[..8];
    }
  }

  lemma ParseUrlParts(url: string, scheme: string, authority: string, target: string)
    requires SchemeOf(url) == Some(scheme) && url[|scheme| + 3..] == authority + target
    requires IsHost(authority) && (target == "" || EndsHost(target[0])) && TakeUser(authority).1 != ""
    ensures ParseUrl(url) == Some(Url(scheme, TakeUser(authority).0, TakeUser(authority).1, target))
  {
    TakeHostExact(authority, target);
  }

  /** The parts of a URL written one after the other parse into themselves. */
  lemma ParseUrlExact(u: Url)
    requires u.scheme in {"http", "https"} && u.host != "" && '@' !in u.host && IsHost(u.user + u.host)
    requires u.user == "" || u.user[|u.user| - 1] == '@'
    requires u.target == "" || EndsHost(u.target[0])
    ensures ParseUrl(u.scheme + "://" + u.user + u.host + u.target) == Some(u)
  {
    var rest := (u.user + u.host) + u.target;
    assert u.scheme + "://" + u.user + u.host + u.target == u.scheme + "://" + rest;
    SchemeExact(u.scheme, rest);
    TakeUserExact(u.user, u.host);
    ParseUrlParts(u.scheme + "://" + rest, u.scheme, u.user + u.host, u.target);
  }

  lemma ParsedParts(url: string)
    requires ParseUrl(url).Some?
    ensures var u := ParseUrl(url).value;
            && u.scheme in {"http", "https"} && u.host != "" && '@' !in u.host && IsHost(u.user + u.host)
            && (u.user == "" || u.user[|u.user| - 1] == '@')
            && (u.target == "" || EndsHost(u.target[0]))
  {}

  lemma BareAuthority(base: string)
    requires Bare(base)
    ensures var rest := base[|SchemeOf(base).value| + 3..];
            IsHost(rest) && ParseUrl(base) == Some(Url(SchemeOf(base).value, TakeUser(rest).0, TakeUser(rest).1, ""))
  {
    var rest := base[|SchemeOf(base).value| + 3..];
    assert TakeHost(rest).1 == "" && rest == TakeHost(rest).0;
  }

  lemma SplitBehind(a: string, b: string, n: nat)
    requires n <= |a|
    ensures (a + b)[n..] == a[n..] + b
  {}

  /** Text behind a bare base is the rest of the URL. */
  lemma ParseBehindBase(base: string, target: string)
    requires Bare(base) && (target == "" || EndsHost(target[0]))
    ensures ParseUrl(base + target) == Some(ParseUrl(base).value.(target := target))
  {
    var scheme := SchemeOf(base).value;
    var rest := base[|scheme| + 3..];
    BareAuthority(base);
    SchemeStays(base, target);
    SplitBehind(base, target, |scheme| + 3);
    ParseUrlParts(base + target, scheme, rest, target);
  }

  /** Text that neither the URL syntax nor its decoders touch. */
  predicate Inert(s: string) {
    forall i | 0 <= i < |s| ::
      'A' <= s[i] <= 'Z' || 'a' <= s[i] <= 'z' || '0' <= s[i] <= '9' || s[i] == '-' || s[i] == '_'
  }

  lemma InertLacks(s: string)
    requires Inert(s)
    ensures '%' !in s && '+' !in s && '=' !in s && '&' !in s && '#' !in s && ';' !in s
  {}

  lemma InertPair(key: string, value: string)
    requires Inert(key) && Inert(value)
    ensures Pair(Field(key, value)) == Some((key, value))
    ensures '&' !in Field(key, value) && '#' !in Field(key, value)
  {
    InertLacks(key);
    InertLacks(value);
    assert Field(key, value) == key + ['='] + value;
    CutUnique(key, value, '=');
    Percent.UnescapePlain(key, true);
    Percent.UnescapePlain(value, true);
  }

  lemma SplitThree(a: string, b: string, c: string, sep: char)
    requires sep !in a && sep !in b && sep !in c
    ensures Split(a + [sep] + (b + [sep] + c), sep) == [a, b, c]
  {
    SplitAtSeparator(a, b + [sep] + c, sep);
    SplitAtSeparator(b, c, sep);
    SplitWhole(a, sep);
    SplitWhole(b, sep);
    SplitWhole(c, sep);
  }

  lemma GetThree(a: string, b: string, c: string, va: string, vb: string, vc: string)
    requires Pair(a) == Some(("exp", va)) && Pair(b) == Some(("d", vb)) && Pair(c) == Some(("sig", vc))
    ensures Get([a, b, c], "exp") == va && Get([a, b, c], "d") == vb && Get([a, b, c], "sig") == vc
  {
    assert "exp" != "d" && "exp" != "sig" && "d" != "sig";
    assert [a, b, c][1..] == [b, c] && [b, c][1..] == [c];
    assert Get([b, c], "sig") == Get([c], "sig");
  }

  lemma QueryParses(exp: int, d: string, sig: string)
    requires Inert(d) && Inert(sig)
    ensures var parts := Split(Query(exp, d, sig), '&');
            && Get(parts, "exp") == FormatInt(exp)
            && Get(parts, "d") == d
            && Get(parts, "sig") == sig
    ensures '#' !in Query(exp, d, sig)
  {
    var e := FormatInt(exp);
    var (a, b, c) := (Field("exp", e), Field("d", d), Field("sig", sig));
    FormatIntInert(exp);
    InertPair("exp", e);
    InertPair("d", d);
    InertPair("sig", sig);
    assert '#' !in b + "&" + c;
    SplitThree(a, b, c, '&');
    GetThree(a, b, c, e, d, sig);
  }

  lemma FormatIntInert(n: int)
    ensures Inert(FormatInt(n))
  {
    var s := FormatInt(n);
    forall i | 0 <= i < |s| ensures IsDigit(s[i]) || s[i] == '-' {
      assert s[i] in s;
    }
  }

  /** Separators that must not occur inside an escaped path segment. */
  predicate Segment(s: string) {
    forall i | 0 <= i < |s| :: s[i] != '/' && s[i] != '?' && s[i] != '#'
  }

  lemma SegmentLacks(s: string)
    requires Segment(s)
    ensures '/' !in s && '?' !in s && '#' !in s
  {}

  lemma SegmentsOfPath(a: string, b: string, c: string)
    requires Segment(a) && Segment(b) && Segment(c)
    ensures Split("/" + a + "/" + b + "/" + c, '/') == ["", a, b, c]
  {
    SegmentLacks(a);
    SegmentLacks(b);
    SegmentLacks(c);
    var inner := a + ['/'] + (b + ['/'] + c);
    SplitAtSeparator("", inner, '/');
    SplitThree(a, b, c, '/');
    assert "/" + a + "/" + b + "/" + c == "" + ['/'] + inner;
  }

  lemma SegmentsLack(a: string, b: string, c: string, ch: char)
    requires ch !in a && ch !in b && ch !in c && ch != '/'
    ensures ch !in "/" + a + "/" + b + "/" + c
  {}

  lemma PathParses(pathB64: string, name: string)
    requires Base64Url.IsSymbols(pathB64) && IsBytes(name)
    ensures var path := Path(pathB64, name);
            && Split(path, '/') == ["", "media", pathB64, Percent.PathEscape(name)]
            && '?' !in path && '#' !in path
  {
    var escaped := Percent.PathEscape(name);
    SegmentLacks(pathB64);
    SegmentLacks(escaped);
    SegmentLacks("media");
    SegmentsOfPath("media", pathB64, escaped);
    SegmentsLack("media", pathB64, escaped, '?');
    SegmentsLack("media", pathB64, escaped, '#');
  }

  lemma SegmentsProper(pathB64: string, name: string)
    requires pathB64 != "" && Base64Url.IsSymbols(pathB64) && IsBytes(name) && Proper(name)
    ensures AllProper(["media", pathB64, Percent.PathEscape(name)])
  {
    var escaped := Percent.PathEscape(name);
    SegmentLacks(pathB64);
    SegmentLacks(escaped);
    SegmentLacks("media");
    Percent.UnescapeEscape(name);
    Percent.UnescapePlain(".", false);
    Percent.UnescapePlain("..", false);
    assert pathB64[0] != '.';
  }

  lemma FlatThree(a: string, b: string, c: string)
    ensures Abs([a, b, c]) == "/" + a + "/" + b + "/" + c
  {
    assert [a, b, c][1..] == [b, c] && [b, c][1..] == [c];
    assert Flat([c]) == "/" + c + Flat([c][1..]);
    assert Flat([b, c]) == "/" + b + Flat([c]);
    assert Flat([a, b, c]) == "/" + a + Flat([b, c]);
  }

  lemma MuxCleanAbs(cs: seq<string>)
    requires AllProper(cs)
    ensures MuxClean(Abs(cs)) == Abs(cs)
  {
    CompsAbs(cs);
    if cs != [] {
      FlatEnds(cs);
    }
  }

  lemma {:induction false} FlatEnds(cs: seq<string>)
    requires AllProper(cs) && cs != []
    ensures |Flat(cs)| > 0 && Flat(cs)[|Flat(cs)| - 1] != '/'
  {
    if |cs| == 1 {
      assert Flat(cs) == "/" + cs[0] + Flat(cs[1..]);
    } else {
      FlatEnds(cs[1..]);
    }
  }

  lemma PathIsClean(pathB64: string, name: string)
    requires pathB64 != "" && Base64Url.IsSymbols(pathB64) && IsBytes(name) && Proper(name)
    ensures Path(pathB64, name) == Abs(["media", pathB64, Percent.PathEscape(name)])
    ensures MuxClean(Path(pathB64, name)) == Path(pathB64, name)
  {
    SegmentsProper(pathB64, name);
    FlatThree("media", pathB64, Percent.PathEscape(name));
    MuxCleanAbs(["media", pathB64, Percent.PathEscape(name)]);
  }

  lemma QuerySplits(path: string, query: string)
    requires '?' !in path && '#' !in path && '#' !in query
    ensures SplitQuery(path + "?" + query) == (path, query)
  {
    BeforeWhole(path + "?" + query, '#');
    CutUnique(path, query, '?');
  }

  lemma RouteReads(path: string, query: string, a: string, b: string, pathB64: string, filename: string)
    requires Split(path, '/') == ["", "media", a, b] && a != "" && b != ""
    requires Percent.Unescape(a, false) == Some(pathB64) && Percent.Unescape(b, false) == Some(filename)
    ensures var parts := Split(query, '&');
            MatchRoute(path, query)
            == Some(Request(pathB64, filename, Get(parts, "exp"), Get(parts, "d"), Get(parts, "sig")))
  {}

  lemma RouteMatches(pathB64: string, name: string, exp: int, d: string, sig: string)
    requires IsBytes(name) && name != ""
    requires pathB64 != "" && Base64Url.IsSymbols(pathB64) && Inert(d) && Inert(sig)
    ensures MatchRoute(Path(pathB64, name), Query(exp, d, sig))
            == Some(Request(pathB64, name, FormatInt(exp), d, sig))
  {
    PathParses(pathB64, name);
    QueryParses(exp, d, sig);
    Percent.UnescapePlain(pathB64, false);
    Percent.UnescapeEscape(name);
    RouteReads(Path(pathB64, name), Query(exp, d, sig), pathB64, Percent.PathEscape(name), pathB64, name);
  }

  lemma TargetParses(pathB64: string, name: string, exp: int, d: string, sig: string)
    requires IsBytes(name) && Proper(name)
    requires pathB64 != "" && Base64Url.IsSymbols(pathB64) && Inert(d) && Inert(sig)
    ensures ParseTarget(Target(pathB64, name, exp, d, sig))
            == Some(Request(pathB64, name, FormatInt(exp), d, sig))
  {
    TargetSplits("", pathB64, name, exp, d, sig);
    assert "" + Path(pathB64, name) == Path(pathB64, name);
    assert "" + Target(pathB64, name, exp, d, sig) == Target(pathB64, name, exp, d, sig);
    PathIsClean(pathB64, name);
    RouteMatches(pathB64, name, exp, d, sig);
  }

  lemma TargetSplits(before: string, pathB64: string, name: string, exp: int, d: string, sig: string)
    requires '?' !in before && '#' !in before && IsBytes(name) && Base64Url.IsSymbols(pathB64)
    requires Inert(d) && Inert(sig)
    ensures SplitQuery(before + Target(pathB64, name, exp, d, sig))
            == (before + Path(pathB64, name), Query(exp, d, sig))
  {
    var (path, query) := (Path(pathB64, name), Query(exp, d, sig));
    PathParses(pathB64, name);
    QueryParses(exp, d, sig);
    assert before + (path + "?" + query) == (before + path) + "?" + query;
    QuerySplits(before + path, query);
  }

  /** Building and parsing are inverse for every byte path name, expiry, disposition and
      signature the mint handler can put in. */
  lemma ParseBuild(base: string, pathB64: string, name: string, exp: int, d: string, sig: string)
    requires Bare(base) && IsBytes(name) && Proper(name)
    requires pathB64 != "" && Base64Url.IsSymbols(pathB64) && Inert(d) && Inert(sig)
    ensures Parse(Build(base, pathB64, name, exp, d, sig))
            == Some(Request(pathB64, name, FormatInt(exp), d, sig))
  {
    ParseBehindBase(base, Target(pathB64, name, exp, d, sig));
    TargetParses(pathB64, name, exp, d, sig);
  }

  /** Exchanging the base gives the URL that scheme and host, and changes nothing else the file
      server reads. */
  lemma SwapBaseKeepsRequest(url: string, base: string, swapped: string)
    requires SwapBase(url, base) == Ok(swapped)
    ensures Parse(swapped) == Parse(url) && Follow(swapped) == Follow(url)
    ensures base != "" ==>
              && ParseUrl(url).Some? && ParseUrl(base).Some?
              && var (u, b) := (ParseUrl(url).value, ParseUrl(base).value);
                 ParseUrl(swapped) == Some(u.(scheme := b.scheme, host := b.host))
  {
    if base != "" {
      var (u, b) := (ParseUrl(url).value, ParseUrl(base).value);
      ParsedParts(url);
      ParsedParts(base);
      HostOfParts(u, b);
      ParseUrlExact(u.(scheme := b.scheme, host := b.host));
    }
  }

  /** It is refused exactly when one of the two is not an http or https URL; without a base the
      URL is left as it is. */
  lemma SwapBaseExact(url: string, base: string)
    ensures SwapBase(url, base).Ok? <==> base == "" || (ParseUrl(url).Some? && ParseUrl(base).Some?)
    ensures base == "" ==> SwapBase(url, base) == Ok(url)
  {}

  lemma HostOfParts(u: Url, b: Url)
    requires IsHost(u.user + u.host) && IsHost(b.user + b.host)
    ensures IsHost(u.user + b.host)
  {
    forall i | 0 <= i < |u.user + b.host| ensures !EndsHost((u.user + b.host)[i]) {
      if i < |u.user| {
        assert (u.user + u.host)[i] == u.user[i];
      } else {
        assert (b.user + b.host)[|b.user| + (i - |u.user|)] == b.host[i - |u.user|];
      }
    }
  }

  // ------------------------------------------------------------------ bases that are not bare

  /** What can stand behind the host of a configured base: nothing, or a path, query or fragment. */
  predicate IsSuffix(s: string) {
    s == "" || EndsHost(s[0])
  }

  /** What a minted URL is made of. */
  ghost predicate Mintable(path: string, name: string, d: string, sig: string) {
    IsBytes(path) && path != "" && IsBytes(name) && Proper(name) && Inert(d) && Inert(sig)
  }

  ghost function MintedUrl(base: string, path: string, name: string, exp: int, d: string, sig: string): string
    requires Mintable(path, name, d, sig)
  {
    Build(base, Base64Url.Encode(path), name, exp, d, sig)
  }

  /** The server reads what was signed, from the URL itself or after the redirect. */
  ghost predicate ReadsBack(r: Option<Request>, path: string, exp: int, d: string, sig: string)
    requires IsBytes(path)
  {
    && r.Some? && r.value.pathB64 == Base64Url.Encode(path)
    && r.value.exp == FormatInt(exp) && r.value.d == d && r.value.sig == sig
  }

  lemma {:induction false} CutPrefix(a: string, b: string, sep: char)
    requires sep in a
    ensures Cut(a + b, sep).Some? && Cut(a, sep).Some? && Cut(a + b, sep).value.0 == Cut(a, sep).value.0
  {
    if a[0] != sep {
      assert (a + b)[1..] == a[1..] + b;
      CutPrefix(a[1..], b, sep);
    }
  }

  /** Behind a query or a fragment the minted text cannot reach the path any more. */
  lemma PathIsFixed(suffix: string, target: string)
    requires '?' in suffix || '#' in suffix
    ensures SplitQuery(suffix + target).0 == SplitQuery(suffix).0
  {
    BeforeSeparator(suffix, target, '#');
    if '#' !in suffix {
      BeforeWhole(suffix, '#');
      CutPrefix(suffix, Before(target, '#'), '?');
    }
  }

  lemma SamePathSameFile(path: string, q: string, q': string)
    ensures MatchRoute(path, q).Some? && MatchRoute(path, q').Some? ==>
              MatchRoute(path, q).value.pathB64 == MatchRoute(path, q').value.pathB64
  {}

  /** So not both of two minted URLs are read back. */
  lemma FixedPathConfuses(suffix: string, t: string, t': string)
    requires '?' in suffix || '#' in suffix
    ensures FollowTarget(suffix + t).Some? && FollowTarget(suffix + t').Some? ==>
              FollowTarget(suffix + t).value.pathB64 == FollowTarget(suffix + t').value.pathB64
  {
    PathIsFixed(suffix, t);
    PathIsFixed(suffix, t');
    var path := SplitQuery(suffix).0;
    var read := if MuxClean(path) == path then path else EscapePercents(MuxClean(path));
    SamePathSameFile(read, SplitQuery(suffix + t).1, SplitQuery(suffix + t').1);
  }

  lemma CompsAppend(a: string, cs: seq<string>)
    requires IsAbs(a) && AllProper(cs) && cs != []
    ensures IsAbs(a + Flat(cs)) && Comps(a + Flat(cs)) == Comps(a) + cs
  {
    var inner := Flat(cs)[1..];
    assert Flat(cs) == "" + ['/'] + inner && a + Flat(cs) == a + ['/'] + inner;
    SplitAtSeparator(a, inner, '/');
    SplitAtSeparator("", inner, '/');
    SplitFlat(cs);
    assert [""] + Split(inner, '/') == [""] + cs;
    assert Split(inner, '/') == ([""] + Split(inner, '/'))[1..] == cs;
    SimplifyAppend(true, Split(a, '/'), cs, 0, []);
    SplitSlashFree(a);
    SimplifyProper(true, Split(a, '/'), 0, []);
    var (ups, names) := Simplify(true, Split(a, '/'), 0, []);
    SimplifyNames(true, cs, ups, names);
  }

  lemma {:induction false} EscapePercentsAppend(a: string, b: string)
    ensures EscapePercents(a + b) == EscapePercents(a) + EscapePercents(b)
  {
    if a == "" {
      assert a + b == b;
    } else {
      assert (a + b)[1..] == a[1..] + b;
      EscapePercentsAppend(a[1..], b);
    }
  }

  lemma {:induction false} EscapePercentsPlain(s: string)
    requires '%' !in s
    ensures EscapePercents(s) == s
  {
    if s != "" {
      assert s[0] in s && s == [s[0]] + s[1..];
      EscapePercentsPlain(s[1..]);
    }
  }

  lemma {:induction false} UnescapeEscapePercents(s: string)
    ensures Percent.Unescape(EscapePercents(s), false) == Some(s)
  {
    if s != "" {
      UnescapeEscapePercents(s[1..]);
      if s[0] == '%' {
        var t := "%25" + EscapePercents(s[1..]);
        assert t[1] == '2' && t[2] == '5' && t[3..] == EscapePercents(s[1..]);
        assert 37 as char == '%';
      } else {
        assert ([s[0]] + EscapePercents(s[1..]))[1..] == EscapePercents(s[1..]);
      }
      assert s == [s[0]] + s[1..];
    }
  }

  lemma {:induction false} EscapePercentsKeepsSlashes(s: string)
    ensures |Split(EscapePercents(s), '/')| == |Split(s, '/')|
  {
    if s != "" {
      EscapePercentsKeepsSlashes(s[1..]);
      if s[0] == '%' {
        assert '/' !in "%25";
        SplitAppend("%25", EscapePercents(s[1..]), '/');
      }
    }
  }

  /** The clean form of a minted path behind some other path. */
  lemma PathBehindPath(suffix: string, pathB64: string, name: string)
    requires IsAbs(suffix) && pathB64 != "" && Base64Url.IsSymbols(pathB64) && IsBytes(name) && Proper(name)
    ensures var cs := Comps(suffix) + ["media", pathB64, Percent.PathEscape(name)];
            AllProper(cs) && MuxClean(suffix + Path(pathB64, name)) == Abs(cs)
  {
    var last := ["media", pathB64, Percent.PathEscape(name)];
    SegmentsProper(pathB64, name);
    PathIsClean(pathB64, name);
    CompsProper(suffix);
    CompsAppend(suffix, last);
    FlatEnds(last);
    var path := suffix + Flat(last);
    assert path[|path| - 1] == Flat(last)[|Flat(last)| - 1];
  }

  /** Behind components that stay, the route has too many segments, redirected or not. */
  lemma LongPathIsNotFound(suffix: string, pathB64: string, name: string, query: string)
    requires IsAbs(suffix) && pathB64 != "" && Base64Url.IsSymbols(pathB64) && IsBytes(name) && Proper(name)
    requires Comps(suffix) != []
    ensures var path := suffix + Path(pathB64, name);
            var read := if MuxClean(path) == path then path else EscapePercents(MuxClean(path));
            MatchRoute(read, query) == None
  {
    var cs := Comps(suffix) + ["media", pathB64, Percent.PathEscape(name)];
    PathBehindPath(suffix, pathB64, name);
    SplitFlat(cs);
    EscapePercentsKeepsSlashes(Abs(cs));
    assert |Split(Abs(cs), '/')| >= 5;
  }

  /** Behind components that cancel out, the path cleans to the minted one. */
  lemma CancelledPathCleans(suffix: string, pathB64: string, name: string)
    requires IsAbs(suffix) && pathB64 != "" && Base64Url.IsSymbols(pathB64) && IsBytes(name) && Proper(name)
    requires Comps(suffix) == []
    ensures MuxClean(suffix + Path(pathB64, name)) == Path(pathB64, name)
  {
    PathBehindPath(suffix, pathB64, name);
    PathIsClean(pathB64, name);
    var cs := ["media", pathB64, Percent.PathEscape(name)];
    assert [] + cs == cs;
  }

  lemma EscapedSegments(pathB64: string, escaped: string)
    requires Base64Url.IsSymbols(pathB64) && Segment(escaped)
    ensures Split(EscapePercents("/" + "media" + "/" + pathB64 + "/" + escaped), '/')
            == ["", "media", pathB64, EscapePercents(escaped)]
  {
    EscapedPath(pathB64, escaped);
    EscapedSegment(escaped);
    SegmentLacks(pathB64);
    SegmentsOfPath("media", pathB64, EscapePercents(escaped));
  }

  /** And the redirect leads to a route that reads what was signed. */
  lemma RedirectLeadsBack(pathB64: string, name: string, exp: int, d: string, sig: string)
    requires pathB64 != "" && Base64Url.IsSymbols(pathB64) && IsBytes(name) && name != "" && Inert(d) && Inert(sig)
    ensures MatchRoute(EscapePercents(Path(pathB64, name)), Query(exp, d, sig))
            == Some(Request(pathB64, Percent.PathEscape(name), FormatInt(exp), d, sig))
  {
    var escaped := Percent.PathEscape(name);
    EscapedSegments(pathB64, escaped);
    EscapedSegment(escaped);
    UnescapeEscapePercents(escaped);
    Percent.UnescapePlain(pathB64, false);
    QueryParses(exp, d, sig);
    RouteReads(
      EscapePercents(Path(pathB64, name)), Query(exp, d, sig), pathB64, EscapePercents(escaped), pathB64, escaped);
  }

  lemma EscapedPath(pathB64: string, escaped: string)
    requires Base64Url.IsSymbols(pathB64)
    ensures EscapePercents("/" + "media" + "/" + pathB64 + "/" + escaped)
            == "/" + "media" + "/" + pathB64 + "/" + EscapePercents(escaped)
  {
    var before := "/" + "media" + "/" + pathB64 + "/";
    EscapePercentsAppend(before, escaped);
    forall i | 0 <= i < |before| ensures before[i] != '%' {}
    EscapePercentsPlain(before);
  }

  lemma {:induction false} EscapedSegment(s: string)
    requires Segment(s)
    ensures Segment(EscapePercents(s)) && (s != "" ==> EscapePercents(s) != "")
  {
    if s != "" {
      EscapedSegment(s[1..]);
    }
  }

  lemma FollowedTarget(suffix: string, path: string, name: string, exp: int, d: string, sig: string)
    requires IsAbs(suffix) && '?' !in suffix && '#' !in suffix && Mintable(path, name, d, sig)
    ensures ReadsBack(FollowTarget(suffix + Target(Base64Url.Encode(path), name, exp, d, sig)), path, exp, d, sig)
            <==> Comps(suffix) == []
  {
    var pathB64 := Base64Url.Encode(path);
    TargetSplits(suffix, pathB64, name, exp, d, sig);
    if Comps(suffix) == [] {
      CancelledPathCleans(suffix, pathB64, name);
      RedirectLeadsBack(pathB64, name, exp, d, sig);
      RouteMatches(pathB64, name, exp, d, sig);
    } else {
      LongPathIsNotFound(suffix, pathB64, name, Query(exp, d, sig));
    }
  }

  lemma DirectTarget(suffix: string, path: string, name: string, exp: int, d: string, sig: string)
    requires IsAbs(suffix) && '?' !in suffix && '#' !in suffix && Mintable(path, name, d, sig)
    ensures ParseTarget(suffix + Target(Base64Url.Encode(path), name, exp, d, sig)) == None
  {
    var pathB64 := Base64Url.Encode(path);
    TargetSplits(suffix, pathB64, name, exp, d, sig);
    if Comps(suffix) == [] {
      CancelledPathCleans(suffix, pathB64, name);
      assert |suffix + Path(pathB64, name)| > |Path(pathB64, name)|;
    } else {
      LongPathIsNotFound(suffix, pathB64, name, Query(exp, d, sig));
    }
  }

  ghost predicate AllReadDirectly(base: string) {
    forall path, name, exp: int, d, sig | Mintable(path, name, d, sig) ::
      ReadsBack(Parse(MintedUrl(base, path, name, exp, d, sig)), path, exp, d, sig)
  }

  ghost predicate AllReadFollowing(base: string) {
    forall path, name, exp: int, d, sig | Mintable(path, name, d, sig) ::
      ReadsBack(Follow(MintedUrl(base, path, name, exp, d, sig)), path, exp, d, sig)
  }

  lemma Regroup(a: string, b: string, c: string)
    ensures a + b + c == a + (b + c)
  {}

  lemma StartsTarget(suffix: string, target: string)
    requires IsSuffix(suffix) && target != "" && EndsHost(target[0])
    ensures suffix + target != "" && EndsHost((suffix + target)[0])
  {}

  /** What the server reads of a URL minted on a base with a suffix. */
  lemma BehindSuffix(base: string, suffix: string, path: string, name: string, exp: int, d: string, sig: string)
    requires Bare(base) && IsSuffix(suffix) && Mintable(path, name, d, sig)
    ensures var target := suffix + Target(Base64Url.Encode(path), name, exp, d, sig);
            && Parse(MintedUrl(base + suffix, path, name, exp, d, sig)) == ParseTarget(target)
            && Follow(MintedUrl(base + suffix, path, name, exp, d, sig)) == FollowTarget(target)
  {
    var target := Target(Base64Url.Encode(path), name, exp, d, sig);
    Regroup(base, suffix, target);
    StartsTarget(suffix, target);
    ParseBehindBase(base, suffix + target);
  }

  lemma FollowedIsRead(target: string)
    ensures ParseTarget(target).Some? ==> FollowTarget(target) == ParseTarget(target)
  {}

  /** Of two minted URLs for different files not both are read back. */
  lemma NotBothReadBack(base: string, suffix: string, p: string, q: string, name: string, d: string, sig: string)
    requires Bare(base) && IsSuffix(suffix) && ('?' in suffix || '#' in suffix)
    requires Mintable(p, name, d, sig) && Mintable(q, name, d, sig) && p != q
    ensures !ReadsBack(Follow(MintedUrl(base + suffix, p, name, 0, d, sig)), p, 0, d, sig)
            || !ReadsBack(Follow(MintedUrl(base + suffix, q, name, 0, d, sig)), q, 0, d, sig)
    ensures !ReadsBack(Parse(MintedUrl(base + suffix, p, name, 0, d, sig)), p, 0, d, sig)
            || !ReadsBack(Parse(MintedUrl(base + suffix, q, name, 0, d, sig)), q, 0, d, sig)
  {
    var (t, t') := (Target(Base64Url.Encode(p), name, 0, d, sig), Target(Base64Url.Encode(q), name, 0, d, sig));
    BehindSuffix(base, suffix, p, name, 0, d, sig);
    BehindSuffix(base, suffix, q, name, 0, d, sig);
    FixedPathConfuses(suffix, t, t');
    FollowedIsRead(suffix + t);
    FollowedIsRead(suffix + t');
    Base64Url.DecodeEncode(p);
    Base64Url.DecodeEncode(q);
  }

  lemma SomethingIsMintable()
    ensures Mintable("/a", "f", "inline", "0") && Mintable("/b", "f", "inline", "0") && "/a" != "/b"
  {
    assert "/a"[1] != "/b"[1];
  }

  lemma NoneReadBehindQuery(base: string, suffix: string)
    requires Bare(base) && IsSuffix(suffix) && ('?' in suffix || '#' in suffix)
    ensures !AllReadDirectly(base + suffix) && !AllReadFollowing(base + suffix)
  {
    SomethingIsMintable();
    NotBothReadBack(base, suffix, "/a", "/b", "f", "inline", "0");
  }

  lemma NoneReadDirectlyBehindPath(base: string, suffix: string, p: string, name: string, d: string, sig: string)
    requires Bare(base) && IsAbs(suffix) && '?' !in suffix && '#' !in suffix && Mintable(p, name, d, sig)
    ensures !AllReadDirectly(base + suffix)
  {
    BehindSuffix(base, suffix, p, name, 0, d, sig);
    DirectTarget(suffix, p, name, 0, d, sig);
    assert !ReadsBack(Parse(MintedUrl(base + suffix, p, name, 0, d, sig)), p, 0, d, sig);
  }

  lemma BareReadsDirectly(base: string)
    requires Bare(base)
    ensures AllReadDirectly(base)
  {
    forall path, name, exp: int, d, sig | Mintable(path, name, d, sig)
      ensures ReadsBack(Parse(MintedUrl(base, path, name, exp, d, sig)), path, exp, d, sig)
    {
      ParseBuild(base, Base64Url.Encode(path), name, exp, d, sig);
    }
  }

  /** The exact condition on the base, over everything that can be minted: the handler reads
      every minted URL as it stands iff nothing stands behind the host of the base. */
  lemma BaseMustBeBare(base: string, suffix: string)
    requires Bare(base) && IsSuffix(suffix)
    ensures AllReadDirectly(base + suffix) <==> suffix == ""
  {
    if suffix == "" {
      BareReadsDirectly(base);
      assert base + suffix == base;
    } else if '?' in suffix || '#' in suffix {
      NoneReadBehindQuery(base, suffix);
    } else {
      SomethingIsMintable();
      NoneReadDirectlyBehindPath(base, suffix, "/a", "f", "inline", "0");
    }
  }

  lemma BareReadsFollowing(base: string)
    requires Bare(base)
    ensures AllReadFollowing(base)
  {
    forall path, name, exp: int, d, sig | Mintable(path, name, d, sig)
      ensures ReadsBack(Follow(MintedUrl(base, path, name, exp, d, sig)), path, exp, d, sig)
    {
      ParseBuild(base, Base64Url.Encode(path), name, exp, d, sig);
      FollowedIsRead(ParseUrl(MintedUrl(base, path, name, exp, d, sig)).value.target);
    }
  }

  lemma PathReadsFollowing(base: string, suffix: string)
    requires Bare(base) && IsAbs(suffix) && '?' !in suffix && '#' !in suffix
    ensures AllReadFollowing(base + suffix) <==> Comps(suffix) == []
  {
    forall path, name, exp: int, d, sig | Mintable(path, name, d, sig)
      ensures ReadsBack(Follow(MintedUrl(base + suffix, path, name, exp, d, sig)), path, exp, d, sig)
              <==> Comps(suffix) == []
    {
      BehindSuffix(base, suffix, path, name, exp, d, sig);
      FollowedTarget(suffix, path, name, exp, d, sig);
    }
    var (p, name, d, sig) := ("/a", "f", "inline", "0");
    assert Mintable(p, name, d, sig);
    assert ReadsBack(Follow(MintedUrl(base + suffix, p, name, 0, d, sig)), p, 0, d, sig) <==> Comps(suffix) == [];
  }

  /** A client that follows the redirect to the clean path reads every minted URL back iff the
      base has no query and no fragment, and a path, if any, that comes down to the root. */
  lemma BaseMustComeDownToRoot(base: string, suffix: string)
    requires Bare(base) && IsSuffix(suffix)
    ensures AllReadFollowing(base + suffix)
            <==> '?' !in suffix && '#' !in suffix && (suffix == "" || Comps(suffix) == [])
  {
    if '?' in suffix || '#' in suffix {
      NoneReadBehindQuery(base, suffix);
    } else if suffix == "" {
      BareReadsFollowing(base);
      assert base + suffix == base;
    } else {
      PathReadsFollowing(base, suffix);
    }
  }
}
