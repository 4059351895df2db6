/** The public file server (internal/serve/handler.go), and its agreement with the mint handler. */
module Serving {
  import opened Core
  import opened Text
  import opened Decimal
  import opened Paths
  import opened FileSystem
  import opened Resolver
  import opened Signing
  import Base64Url
  import MediaUrl
  import Minting

  datatype Reply = Served(path: string, disposition: string, filename: string) | Refused(status: nat)

  /** GET /media/{pathB64}/{filename}: parse, authenticate, resolve, and only then open. */
  method ServeHTTP(mac: Mac, secret: string, fs: Node, roots: seq<string>, now: int, req: MediaUrl.Request)
    returns (reply: Reply)
    requires ValidTree(fs) && ValidRoots(roots)
    ensures reply == ServeReply(mac, secret, fs, roots, now, req)
  {
    var exp := ParseInt(req.exp);
    if req.exp == "" || exp.None? {
      return Refused(400);
    }
    if req.sig == "" {
      return Refused(400);
    }
    var disposition := req.d;
    if disposition == "" {
      disposition := "attachment";
    }
    if disposition != "inline" && disposition != "attachment" {
      return Refused(400);
    }
    var raw := Base64Url.Decode(req.pathB64);
    if raw.None? {
      return Refused(400);
    }
    var path := raw.value;
    if Verify(mac, secret, req.pathB64, exp.value, disposition, req.sig, now) != Valid {
      return Refused(403);
    }
    var resolved := Resolve(fs, roots, path);
    if resolved.Err? {
      return Refused(Minting.StatusOf(resolved.error));
    }
    ResolvedIsReal(fs, roots, path);
    var node := Lookup(fs, Comps(resolved.value)).value;
    if node.Dir? {
      return Refused(404);
    }
    var filename := req.filename;
    if filename == "" {
      filename := Minting.BaseName(resolved.value);
    }
    reply := Served(resolved.value, disposition, filename);
  }

  lemma ResolvedIsReal(fs: Node, roots: seq<string>, p: string)
    requires ValidTree(fs) && ValidRoots(roots) && Resolved(fs, roots, p).Ok?
    ensures IsAbs(Resolved(fs, roots, p).value) && IsReal(fs, Comps(Resolved(fs, roots, p).value))
  {
    var path := if IsAbs(p) then Comps(p) else Climb(Comps(roots[0]), RelComps(p).0) + RelComps(p).1;
    LocateIsIdempotent(fs, path);
    CompsAbs(Locate(fs, path).value);
  }

  ghost predicate WellFormed(req: MediaUrl.Request) {
    && ParseInt(req.exp).Some? && req.sig != ""
    && req.d in {"", "inline", "attachment"}
    && Base64Url.Decode(req.pathB64).Some?
  }

  ghost function ServeReply(mac: Mac, secret: string, fs: Node, roots: seq<string>, now: int, req: MediaUrl.Request)
    : Reply
    requires ValidTree(fs) && ValidRoots(roots)
  {
    if !WellFormed(req) then Refused(400)
    else
      var (exp, d) := (ParseInt(req.exp).value, Minting.OrAttachment(req.d));
      if Verify(mac, secret, req.pathB64, exp, d, req.sig, now) != Valid then Refused(403)
      else
        match Resolved(fs, roots, Base64Url.Decode(req.pathB64).value)
        case Err(e) => Refused(Minting.StatusOf(e))
        case Ok(q) =>
          ResolvedIsReal(fs, roots, Base64Url.Decode(req.pathB64).value);
          if IsDirectory(fs, Comps(q)) then Refused(404)
          else Served(q, d, if req.filename == "" then Minting.BaseName(q) else req.filename)
  }

  /** Whatever is served carries the one genuine signature of its path, expiry and
      disposition, has not expired, and is a link-free file inside a located root. */
  lemma ServedIsAuthentic(mac: Mac, secret: string, fs: Node, roots: seq<string>, now: int, req: MediaUrl.Request)
    requires ValidTree(fs) && ValidRoots(roots) && now >= 0
    requires ServeReply(mac, secret, fs, roots, now, req).Served?
    ensures WellFormed(req)
    ensures var reply := ServeReply(mac, secret, fs, roots, now, req);
            var exp := ParseInt(req.exp).value;
            && req.sig == Sign(mac, secret, req.pathB64, exp, reply.disposition)
            && now <= exp * NANOS_PER_SECOND
            && reply.disposition in {"inline", "attachment"}
            && IsAbs(reply.path)
            && Lookup(fs, Comps(reply.path)).Some? && Lookup(fs, Comps(reply.path)).value.File?
            && Located(fs, RootComps(roots), Comps(reply.path))
  {
    var exp := ParseInt(req.exp).value;
    var d := Minting.OrAttachment(req.d);
    VerifyExact(mac, secret, req.pathB64, exp, d, req.sig, now);
    var p := Base64Url.Decode(req.pathB64).value;
    ResolvedIsReal(fs, roots, p);
    var path := if IsAbs(p) then Comps(p) else Climb(Comps(roots[0]), RelComps(p).0) + RelComps(p).1;
    LocateIsIdempotent(fs, path);
    CompsAbs(Locate(fs, path).value);
    if !IsAbs(p) {
      RelativeStaysInFirstRoot(fs, roots, p);
      assert RootComps(roots)[0] == Comps(roots[0]);
    }
  }

  lemma SignatureIsInert(sig: string)
    requires Hex.IsLower(sig)
    ensures MediaUrl.Inert(sig)
  {}

  lemma SignedPartsParse(base: string, path: string, name: string, exp: int, d: string, sig: string)
    requires MediaUrl.Bare(base) && IsBytes(path) && path != "" && IsBytes(name) && Proper(name)
    requires d in {"inline", "attachment"} && Hex.IsLower(sig)
    ensures MediaUrl.Parse(MediaUrl.Build(base, Base64Url.Encode(path), name, exp, d, sig))
            == Some(MediaUrl.Request(Base64Url.Encode(path), name, FormatInt(exp), d, sig))
  {
    SignatureIsInert(sig);
    assert MediaUrl.Inert("inline") && MediaUrl.Inert("attachment");
    MediaUrl.ParseBuild(base, Base64Url.Encode(path), name, exp, d, sig);
  }

  /** The minted URL parses back into exactly the tuple that was signed. */
  lemma MintedUrlParses(mac: Mac, cfg: Minting.Config, q: string, exp: int, d: string)
    requires MediaUrl.Bare(cfg.base) && d in {"inline", "attachment"}
    requires IsAbs(q) && IsBytes(q) && AllProper(Comps(q)) && q == Abs(Comps(q)) && Comps(q) != []
    requires IsBytes(Minting.BaseName(q))
    ensures var pathB64 := Base64Url.Encode(q);
            MediaUrl.Parse(Minting.SignedUrl(mac, cfg, q, exp, d))
            == Some(MediaUrl.Request(pathB64, Minting.BaseName(q), FormatInt(exp), d,
                                     Sign(mac, cfg.secret, pathB64, exp, d)))
  {
    var sig := Sign(mac, cfg.secret, Base64Url.Encode(q), exp, d);
    Minting.BaseNameOfLocation(Comps(q));
    SignedPartsParse(cfg.base, q, Minting.BaseName(q), exp, d, sig);
  }

  /** The request is accepted and gets this reply; the base is a bare scheme and host. */
  ghost predicate MintedAs(
    mac: Mac, cfg: Minting.Config, fs: Node, now: int, req: Minting.Request, minted: Minting.Reply)
  {
    && ValidTree(fs) && Minting.ByteTree(fs) && cfg.Valid() && MediaUrl.Bare(cfg.base)
    && 0 <= now && req.ttlSeconds <= MAX_INT64
    && Minting.MintReply(mac, cfg, fs, now, req) == minted && minted.Minted? && IsInt64(minted.exp)
  }

  lemma MintedParts(mac: Mac, cfg: Minting.Config, fs: Node, now: int, req: Minting.Request, minted: Minting.Reply)
    requires MintedAs(mac, cfg, fs, now, req, minted)
    ensures Resolved(fs, cfg.roots, req.path).Ok?
    ensures var (q, d) := (Resolved(fs, cfg.roots, req.path).value, Minting.OrAttachment(req.disposition));
            && IsAbs(q) && IsBytes(q) && Lookup(fs, Comps(q)).Some? && Lookup(fs, Comps(q)).value.File?
            && d in {"inline", "attachment"} && Minting.BaseName(q) != ""
            && minted.size == |Lookup(fs, Comps(q)).value.content|
            && MediaUrl.Parse(minted.url)
               == Some(MediaUrl.Request(Base64Url.Encode(q), Minting.BaseName(q), FormatInt(minted.exp), d,
                                        Sign(mac, cfg.secret, Base64Url.Encode(q), minted.exp, d)))
  {
    var q := Resolved(fs, cfg.roots, req.path).value;
    Minting.ResolvedFacts(fs, cfg.roots, req.path);
    assert Comps(q) != [];
    Minting.BaseNameOfLocation(Comps(q));
    MintedUrlParses(mac, cfg, q, minted.exp, Minting.OrAttachment(req.disposition));
  }

  /** What the server does with a genuine tuple for a path. */
  lemma GenuineIsServed(
    mac: Mac, secret: string, fs: Node, roots: seq<string>, q: string, name: string, exp: int, d: string, now: int)
    requires ValidTree(fs) && ValidRoots(roots) && IsAbs(q) && IsBytes(q) && IsInt64(exp) && now >= 0
    requires d in {"inline", "attachment"} && name != ""
    requires Resolved(fs, roots, q) in {Ok(q), Err(Escape)} && IsReal(fs, Comps(q)) && !IsDirectory(fs, Comps(q))
    ensures var pathB64 := Base64Url.Encode(q);
            var request := MediaUrl.Request(pathB64, name, FormatInt(exp), d, Sign(mac, secret, pathB64, exp, d));
            ServeReply(mac, secret, fs, roots, now, request)
            == if now <= exp * NANOS_PER_SECOND && exp <= MAX_UNIX && Resolved(fs, roots, q).Ok?
               then Served(q, d, name) else Refused(403)
  {
    var pathB64 := Base64Url.Encode(q);
    FormatIntRoundTrip(exp);
    Base64Url.DecodeEncode(q);
    VerifyExact(mac, secret, pathB64, exp, d, Sign(mac, secret, pathB64, exp, d), now);
  }

  /** Mint, then serve on the same files: up to the expiry second the server recovers the
      signed tuple, and it serves the very file that was minted if and only if the resolved
      path lies lexically under some cleaned root. Otherwise, and after the expiry, it
      answers 403. An exchanged base makes no difference. */
  lemma MintThenServe(
    mac: Mac, cfg: Minting.Config, fs: Node, mintNow: int, req: Minting.Request, minted: Minting.Reply,
    base: string, fetched: string, serveNow: int)
    requires MintedAs(mac, cfg, fs, mintNow, req, minted) && 0 <= serveNow
    requires MediaUrl.SwapBase(minted.url, base) == Ok(fetched)
    ensures Resolved(fs, cfg.roots, req.path).Ok? && MediaUrl.Parse(fetched).Some?
    ensures var q := Resolved(fs, cfg.roots, req.path).value;
            var live := serveNow <= minted.exp * NANOS_PER_SECOND && minted.exp <= MAX_UNIX;
            IsAbs(q)
            && ServeReply(mac, cfg.secret, fs, cfg.roots, serveNow, MediaUrl.Parse(fetched).value)
               == if live && Lexical(RootComps(cfg.roots), Comps(q))
                  then Served(q, Minting.OrAttachment(req.disposition), Minting.BaseName(q))
                  else Refused(403)
  {
    var (q, d) := (Resolved(fs, cfg.roots, req.path).value, Minting.OrAttachment(req.disposition));
    MintedParts(mac, cfg, fs, mintNow, req, minted);
    MediaUrl.SwapBaseKeepsRequest(minted.url, base, fetched);
    ResolveAgain(fs, cfg.roots, req.path);
    GenuineIsServed(mac, cfg.secret, fs, cfg.roots, q, Minting.BaseName(q), minted.exp, d, serveNow);
  }

  /** With canonical roots every minted URL is served until it expires. */
  lemma CanonicalRootsServe(
    mac: Mac, cfg: Minting.Config, fs: Node, mintNow: int, req: Minting.Request, minted: Minting.Reply, serveNow: int)
    requires MintedAs(mac, cfg, fs, mintNow, req, minted) && 0 <= serveNow
    requires forall i | 0 <= i < |cfg.roots| :: CanonicalRoot(fs, Comps(cfg.roots[i]))
    requires minted.exp <= MAX_UNIX && serveNow <= minted.exp * NANOS_PER_SECOND
    ensures MediaUrl.Parse(minted.url).Some?
    ensures ServeReply(mac, cfg.secret, fs, cfg.roots, serveNow, MediaUrl.Parse(minted.url).value).Served?
  {
    MintThenServe(mac, cfg, fs, mintNow, req, minted, "", minted.url, serveNow);
    CanonicalRootsSuffice(fs, cfg.roots, req.path);
    ResolveAgain(fs, cfg.roots, req.path);
  }

  /** From request to reply, on canonical roots: a URL minted for so many seconds, below the
      maximum, serves the file it was minted for up to that second, in the disposition asked
      for, and is refused after it. */
  lemma ServedForAsLongAsAsked(
    mac: Mac, cfg: Minting.Config, fs: Node, mintNow: int, req: Minting.Request, minted: Minting.Reply, serveNow: int)
    requires MintedAs(mac, cfg, fs, mintNow, req, minted) && 0 <= serveNow
    requires forall i | 0 <= i < |cfg.roots| :: CanonicalRoot(fs, Comps(cfg.roots[i]))
    requires 0 < req.ttlSeconds < cfg.maxTtl / NANOS_PER_SECOND
    requires mintNow / NANOS_PER_SECOND + req.ttlSeconds <= MAX_UNIX
    ensures Resolved(fs, cfg.roots, req.path).Ok? && MediaUrl.Parse(minted.url).Some?
    ensures var q := Resolved(fs, cfg.roots, req.path).value;
            IsAbs(q) && Comps(q) != []
            && ServeReply(mac, cfg.secret, fs, cfg.roots, serveNow, MediaUrl.Parse(minted.url).value)
               == if serveNow <= (mintNow / NANOS_PER_SECOND + req.ttlSeconds) * NANOS_PER_SECOND
                  then Served(q, if req.disposition == "inline" then "inline" else "attachment",
                              Comps(q)[|Comps(q)| - 1])
                  else Refused(403)
  {
    var q := Resolved(fs, cfg.roots, req.path).value;
    Minting.MintedExpiry(mac, cfg, fs, mintNow, req);
    MintThenServe(mac, cfg, fs, mintNow, req, minted, "", minted.url, serveNow);
    CanonicalRootsSuffice(fs, cfg.roots, req.path);
    ResolveAgain(fs, cfg.roots, req.path);
    Minting.ResolvedFacts(fs, cfg.roots, req.path);
    Minting.BaseNameOfLocation(Comps(q));
  }

  /** The text that a request claims to be signed. */
  ghost function Claimed(req: MediaUrl.Request): string
    requires WellFormed(req)
  {
    Canonical(req.pathB64, ParseInt(req.exp).value, if req.d == "inline" then "inline" else "attachment")
  }

  /** Changing path text, expiry or disposition of a minted URL, or serving it with another
      secret, is refused at any time and on any files, unless the MAC confuses the two texts.
      The file name is not signed. */
  lemma TamperedIsRefused(
    mac: Mac, cfg: Minting.Config, fs: Node, mintNow: int, req: Minting.Request, minted: Minting.Reply,
    genuine: MediaUrl.Request, forged: MediaUrl.Request, secret: string, fs': Node, roots: seq<string>, now: int)
    requires MintedAs(mac, cfg, fs, mintNow, req, minted) && MediaUrl.Parse(minted.url) == Some(genuine)
    requires WellFormed(forged) && forged.sig == genuine.sig && ValidTree(fs') && ValidRoots(roots)
    ensures WellFormed(genuine)
    ensures forged.pathB64 != genuine.pathB64 || ParseInt(forged.exp) != ParseInt(genuine.exp)
            || (forged.d == "inline") != (genuine.d == "inline")
            ==> Claimed(forged) != Claimed(genuine)
    ensures mac(secret, Claimed(forged)) != mac(cfg.secret, Claimed(genuine))
            ==> ServeReply(mac, secret, fs', roots, now, forged) == Refused(403)
  {
    var (q, d) := (Resolved(fs, cfg.roots, req.path).value, Minting.OrAttachment(req.disposition));
    MintedParts(mac, cfg, fs, mintNow, req, minted);
    FormatIntRoundTrip(minted.exp);
    Base64Url.DecodeEncode(q);
    var (e', d') := (ParseInt(forged.exp).value, Minting.OrAttachment(forged.d));
    SignatureCarriesOver(
      mac, cfg.secret, genuine.pathB64, minted.exp, d, secret, forged.pathB64, e', d', now);
    if Claimed(forged) == Claimed(genuine) {
      DispositionsArePlain(d, d');
      CanonicalInjectiveOnPlainDispositions(forged.pathB64, e', d', genuine.pathB64, minted.exp, d);
    }
  }

  lemma DispositionsArePlain(d: string, d': string)
    requires d in {"inline", "attachment"} && d' in {"inline", "attachment"}
    ensures '\n' !in d && '\n' !in d'
  {}

  /** The path can be resolved, and to a directory. */
  ghost predicate ResolvesToDirectory(fs: Node, roots: seq<string>, p: string)
    requires ValidTree(fs) && ValidRoots(roots)
  {
    Resolved(fs, roots, p).Ok?
    && (ResolvedIsReal(fs, roots, p); IsDirectory(fs, Comps(Resolved(fs, roots, p).value)))
  }

  /** The genuine signature of path text, expiry and disposition, and not expired. */
  ghost predicate Authentic(mac: Mac, secret: string, now: int, pathB64: string, exp: int, d: string, sig: string) {
    sig == Sign(mac, secret, pathB64, exp, d) && exp <= MAX_UNIX && now <= exp * NANOS_PER_SECOND
  }

  /** All parts of the request can be read. */
  ghost predicate Readable(req: MediaUrl.Request) {
    && ParseInt(req.exp).Some? && req.sig != "" && req.d in {"", "inline", "attachment"}
    && Base64Url.Decode(req.pathB64).Some?
  }

  /** The reply to a readable request, by what its signature and path turn out to be. */
  predicate Answered(
    reply: Reply, authentic: bool, place: Result<string, Failure>, directory: bool, d: string, filename: string)
  {
    if !authentic then reply == Refused(403)
    else
      match place
      case Err(e) => reply == Refused(Minting.StatusOf(e))
      case Ok(q) =>
        if directory then reply == Refused(404)
        else reply.Served? && reply.path == q && reply.disposition == d && (filename != "" ==> reply.filename == filename)
  }

  lemma AnsweredStatus(
    reply: Reply, authentic: bool, place: Result<string, Failure>, directory: bool, d: string, filename: string)
    requires Answered(reply, authentic, place, directory, d, filename) && (directory ==> place.Ok?)
    ensures reply.Refused? ==> reply.status in {403, 404, 500}
    ensures reply == Refused(403) <==> !authentic || place == Err(Escape)
    ensures authentic ==> (reply == Refused(404) <==> place == Err(Disk(NotExist)) || directory)
    ensures authentic ==> (reply == Refused(500) <==> place in {Err(Disk(NotDirectory)), Err(Disk(TooManyLinks))})
  {}

  lemma VerifiedReply(mac: Mac, secret: string, fs: Node, roots: seq<string>, now: int, req: MediaUrl.Request)
    requires ValidTree(fs) && ValidRoots(roots) && now >= 0 && Readable(req)
    ensures var p := Base64Url.Decode(req.pathB64).value;
            var d := if req.d == "inline" then "inline" else "attachment";
            var authentic := Authentic(mac, secret, now, req.pathB64, ParseInt(req.exp).value, d, req.sig);
            Answered(ServeReply(mac, secret, fs, roots, now, req), authentic, Resolved(fs, roots, p),
                     ResolvesToDirectory(fs, roots, p), d, req.filename)
  {
    VerifyExact(mac, secret, req.pathB64, ParseInt(req.exp).value, Minting.OrAttachment(req.d), req.sig, now);
  }

  lemma Unreadable(mac: Mac, secret: string, fs: Node, roots: seq<string>, now: int, req: MediaUrl.Request)
    requires ValidTree(fs) && ValidRoots(roots) && !Readable(req)
    ensures ServeReply(mac, secret, fs, roots, now, req) == Refused(400)
  {}

  /** Which answer a request gets: 400 if a part of it cannot be read, 403 if the signature is not
      the genuine unexpired one or the path leaves the roots, 404 if there is no file there, and
      500 for other errors of the disk. */
  lemma ServeAnswers(
    mac: Mac, secret: string, fs: Node, roots: seq<string>, now: int, req: MediaUrl.Request, reply: Reply)
    requires ValidTree(fs) && ValidRoots(roots) && now >= 0
    requires reply == ServeReply(mac, secret, fs, roots, now, req)
    ensures reply == Refused(400) <==> !Readable(req)
    ensures Readable(req) ==>
              var p := Base64Url.Decode(req.pathB64).value;
              var d := if req.d == "inline" then "inline" else "attachment";
              var authentic := Authentic(mac, secret, now, req.pathB64, ParseInt(req.exp).value, d, req.sig);
              var place := Resolved(fs, roots, p);
              && (reply == Refused(403) <==> !authentic || place == Err(Escape))
              && (authentic ==>
                    && (reply == Refused(404) <==> place == Err(Disk(NotExist)) || ResolvesToDirectory(fs, roots, p))
                    && (reply == Refused(500) <==> place in {Err(Disk(NotDirectory)), Err(Disk(TooManyLinks))}))
  {
    if Readable(req) {
      var p := Base64Url.Decode(req.pathB64).value;
      var d := if req.d == "inline" then "inline" else "attachment";
      VerifiedReply(mac, secret, fs, roots, now, req);
      AnsweredStatus(
        reply, Authentic(mac, secret, now, req.pathB64, ParseInt(req.exp).value, d, req.sig),
        Resolved(fs, roots, p), ResolvesToDirectory(fs, roots, p), d, req.filename);
    } else {
      Unreadable(mac, secret, fs, roots, now, req);
    }
  }

  /** And otherwise the resolved file, in the signed disposition and under the requested name. */
  lemma ServesResolved(
    mac: Mac, secret: string, fs: Node, roots: seq<string>, now: int, req: MediaUrl.Request, reply: Reply)
    requires ValidTree(fs) && ValidRoots(roots) && now >= 0
    requires reply == ServeReply(mac, secret, fs, roots, now, req)
    ensures reply.Refused? ==> reply.status in {400, 403, 404, 500}
    ensures reply.Served? ==>
              && Readable(req) && Resolved(fs, roots, Base64Url.Decode(req.pathB64).value) == Ok(reply.path)
              && reply.disposition == (if req.d == "inline" then "inline" else "attachment")
              && (req.filename != "" ==> reply.filename == req.filename)
  {
    if Readable(req) {
      VerifiedReply(mac, secret, fs, roots, now, req);
    } else {
      Unreadable(mac, secret, fs, roots, now, req);
    }
  }

  /** Behind a root that is a link, every file mints and no minted URL is ever served. */
  lemma LinkedRootNeverServes(
    mac: Mac, cfg: Minting.Config, fs: Node, a: string, b: string, rest: seq<string>, now: int)
    requires ValidTree(fs) && Minting.ByteTree(fs) && cfg.Valid() && MediaUrl.Bare(cfg.base) && now >= 0
    requires LinkedRoot(fs, a, b, rest) && cfg.roots == [Abs([a])]
    requires Lookup(fs, [b] + rest).value.File?
    requires Minting.Expiry(now, cfg.defaultTtl) <= MAX_UNIX
    ensures var reply := Minting.MintReply(mac, cfg, fs, now, Minting.Request(Abs([a] + rest), "", 0));
            && reply.Minted?
            && MediaUrl.Parse(reply.url).Some?
            && ServeReply(mac, cfg.secret, fs, cfg.roots, now, MediaUrl.Parse(reply.url).value) == Refused(403)
  {
    var req := Minting.Request(Abs([a] + rest), "", 0);
    LinkedRootRefusesItsOwnAnswers(fs, a, b, rest);
    CompsAbs([b] + rest);
    var reply := Minting.MintReply(mac, cfg, fs, now, req);
    MintThenServe(mac, cfg, fs, now, req, reply, "", reply.url, now);
    ResolveAgain(fs, cfg.roots, req.path);
  }

  lemma LinkedTreeIsBytes()
    ensures Minting.ByteTree(LinkedTree())
  {
    forall path | Lookup(LinkedTree(), path).Some? ensures forall i | 0 <= i < |path| :: IsBytes(path[i]) {
      LinkedTreePaths(path);
    }
  }

  /** So a file server that never serves what it mints exists, for every secret and MAC. */
  lemma LinkedServerExists(mac: Mac, secret: string)
    ensures var (fs, root) := (LinkedTree(), Abs(["link"]));
            var cfg := Minting.Config(secret, "http://h", [root], 300 * NANOS_PER_SECOND, 900 * NANOS_PER_SECOND);
            && ValidTree(fs) && Minting.ByteTree(fs) && cfg.Valid()
            && var reply := Minting.MintReply(mac, cfg, fs, 0, Minting.Request(Abs(["link"] + ["f"]), "", 0));
               && reply.Minted? && MediaUrl.Parse(reply.url).Some?
               && ServeReply(mac, secret, fs, cfg.roots, 0, MediaUrl.Parse(reply.url).value) == Refused(403)
  {
    LinkedRootExists();
    LinkedTreeNodes();
    LinkedTreeIsBytes();
    var cfg := Minting.Config(secret, "http://h", [Abs(["link"])], 300 * NANOS_PER_SECOND, 900 * NANOS_PER_SECOND);
    HostIsBare();
    LinkedRootNeverServes(mac, cfg, LinkedTree(), "link", "real", ["f"], 0);
  }

  lemma HostIsBare()
    ensures MediaUrl.Bare("http://h")
  {
    MediaUrl.ParseUrlExact(MediaUrl.Url("http", "", "h", ""));
    assert "http" + "://" + "" + "h" + "" == "http://h";
  }
}
