/** Lifetimes of signed URLs, and the mint handler (internal/mint). */
module Minting {
  import opened Core
  import opened Text
  import opened Paths
  import opened FileSystem
  import opened Resolver
  import opened Signing
  import Base64Url
  import MediaUrl

  /** Configuration after mint.NewHandler's checks; durations count nanoseconds. */
  datatype Config = Config(secret: string, base: string, roots: seq<string>, defaultTtl: int, maxTtl: int) {
    ghost predicate Valid() {
      && ValidRoots(roots) && roots != []
      && 0 < defaultTtl <= maxTtl <= MAX_INT64
    }
  }

  datatype Request = Request(path: string, disposition: string, ttlSeconds: int)

  datatype Reply = Minted(url: string, exp: int, size: nat) | Rejected(status: nat)

  /** The TTL in nanoseconds: a positive request is clamped in whole seconds before it is
      converted, so that Go's int64 multiplication cannot wrap. */
  function EffectiveTtl(ttlSeconds: int, defaultTtl: int, maxTtl: int): int
    requires maxTtl > 0
  {
    if ttlSeconds <= 0 then defaultTtl
    else if ttlSeconds >= maxTtl / NANOS_PER_SECOND then maxTtl
    else Wrap64(ttlSeconds * NANOS_PER_SECOND)
  }

  /** time.Now().Add(ttl).Unix(). */
  function Expiry(now: int, ttl: int): int {
    (now + ttl) / NANOS_PER_SECOND
  }

  /** The clamp for every int64 request: positive, at most the maximum, without overflow;
      above the request, and then by less than a second, only when the request names the
      last whole second of a maximum that is not whole seconds. */
  lemma EffectiveTtlExact(ttlSeconds: int, defaultTtl: int, maxTtl: int)
    requires 0 < defaultTtl <= maxTtl <= MAX_INT64 && 0 <= ttlSeconds <= MAX_INT64
    ensures var ttl := EffectiveTtl(ttlSeconds, defaultTtl, maxTtl);
            var asked := ttlSeconds * NANOS_PER_SECOND;
            && 0 < ttl <= maxTtl
            && (ttlSeconds == 0 ==> ttl == defaultTtl)
            && (0 < ttlSeconds && asked <= maxTtl - maxTtl % NANOS_PER_SECOND - NANOS_PER_SECOND ==> ttl == asked)
            && (0 < ttlSeconds ==>
                  (ttl > asked <==> ttlSeconds == maxTtl / NANOS_PER_SECOND && maxTtl % NANOS_PER_SECOND != 0))
            && (0 < ttlSeconds ==> ttl < asked + NANOS_PER_SECOND)
  {}

  lemma EffectiveTtlMonotone(t: int, u: int, defaultTtl: int, maxTtl: int)
    requires 0 < defaultTtl <= maxTtl <= MAX_INT64 && 0 < t <= u <= MAX_INT64
    ensures EffectiveTtl(t, defaultTtl, maxTtl) <= EffectiveTtl(u, defaultTtl, maxTtl)
  {}

  /** There is no lower clamp to the default: exactly the short positive requests go below it. */
  lemma BelowDefault(ttlSeconds: int, defaultTtl: int, maxTtl: int)
    requires 0 < defaultTtl <= maxTtl <= MAX_INT64 && 0 <= ttlSeconds <= MAX_INT64
    ensures EffectiveTtl(ttlSeconds, defaultTtl, maxTtl) < defaultTtl
            <==> 0 < ttlSeconds < maxTtl / NANOS_PER_SECOND && ttlSeconds * NANOS_PER_SECOND < defaultTtl
  {}

  /** A URL stays valid for more than the TTL less one second and at most the TTL, so a TTL
      of a second or more is never born expired. */
  lemma LifeSpan(now: int, ttl: int)
    requires now >= 0 && ttl > 0 && Expiry(now, ttl) <= MAX_UNIX
    ensures var span := Expiry(now, ttl) * NANOS_PER_SECOND - now;
            ttl - NANOS_PER_SECOND < span <= ttl
    ensures ttl >= NANOS_PER_SECOND ==> !After(now, Expiry(now, ttl))
  {}

  /** path.Base of an absolute path that is not the root. */
  function BaseName(p: string): string {
    var parts := Split(p, '/');
    parts[|parts| - 1]
  }

  lemma BaseNameOfLocation(there: seq<string>)
    requires AllProper(there) && there != []
    ensures BaseName(Abs(there)) == there[|there| - 1]
  {
    SplitFlat(there);
  }

  /** Path and file names are byte strings. */
  ghost predicate ByteTree(fs: Node) {
    forall path, i | Lookup(fs, path).Some? && 0 <= i < |path| :: IsBytes(path[i])
  }

  lemma {:induction false} FlatIsBytes(cs: seq<string>)
    requires forall i | 0 <= i < |cs| :: IsBytes(cs[i])
    ensures IsBytes(Flat(cs))
  {
    if cs != [] {
      assert forall i | 0 <= i < |cs[1..]| :: IsBytes(cs[1..][i]);
      FlatIsBytes(cs[1..]);
    }
  }

  lemma ResolvedFacts(fs: Node, roots: seq<string>, p: string)
    requires ValidTree(fs) && ByteTree(fs) && ValidRoots(roots) && Resolved(fs, roots, p).Ok?
    ensures var q := Resolved(fs, roots, p).value;
            && IsAbs(q) && IsBytes(q) && AllProper(Comps(q)) && q == Abs(Comps(q)) && IsReal(fs, Comps(q))
            && (forall i | 0 <= i < |Comps(q)| :: IsBytes(Comps(q)[i]))
  {
    var path := if IsAbs(p) then Comps(p) else Climb(Comps(roots[0]), RelComps(p).0) + RelComps(p).1;
    LocateIsIdempotent(fs, path);
    var there := Locate(fs, path).value;
    CompsAbs(there);
    assert forall i | 0 <= i < |there| :: IsBytes(there[i]);
    FlatIsBytes(there);
  }

  /** The signed URL for a resolved file. */
  ghost function SignedUrl(mac: Mac, cfg: Config, resolved: string, exp: int, disposition: string): string
    requires IsBytes(resolved) && IsBytes(BaseName(resolved))
  {
    var pathB64 := Base64Url.Encode(resolved);
    var sig := Sign(mac, cfg.secret, pathB64, exp, disposition);
    MediaUrl.Build(cfg.base, pathB64, BaseName(resolved), exp, disposition, sig)
  }

  ghost predicate Malformed(req: Request) {
    req.disposition !in {"", "inline", "attachment"} || req.path == "" || req.ttlSeconds < 0
  }

  function OrAttachment(disposition: string): string {
    if disposition == "" then "attachment" else disposition
  }

  function StatusOf(e: Failure): nat {
    match e
    case Escape => 403
    case Disk(NotExist) => 404
    case Disk(_) => 500
  }

  /** The decoded POST /mint request, answered in the order of the handler's checks. */
  method Mint(mac: Mac, cfg: Config, fs: Node, now: int, req: Request) returns (reply: Reply)
    requires ValidTree(fs) && ByteTree(fs) && cfg.Valid() && now >= 0 && req.ttlSeconds <= MAX_INT64
    ensures reply == MintReply(mac, cfg, fs, now, req)
  {
    var disposition := req.disposition;
    if disposition == "" {
      disposition := "attachment";
    }
    if disposition != "inline" && disposition != "attachment" {
      return Rejected(400);
    }
    if req.path == "" || req.ttlSeconds < 0 {
      return Rejected(400);
    }
    var ttl := cfg.defaultTtl;
    if req.ttlSeconds > 0 {
      var maxSeconds := cfg.maxTtl / NANOS_PER_SECOND;
      if req.ttlSeconds >= maxSeconds {
        ttl := cfg.maxTtl;
      } else {
        ttl := Wrap64(req.ttlSeconds * NANOS_PER_SECOND);
      }
    }
    var resolved := Resolve(fs, cfg.roots, req.path);
    if resolved.Err? {
      return Rejected(StatusOf(resolved.error));
    }
    ResolvedFacts(fs, cfg.roots, req.path);
    var q := resolved.value;
    var node := Lookup(fs, Comps(q)).value;
    if node.Dir? {
      return Rejected(400);
    }
    assert Comps(q) != [];
    BaseNameOfLocation(Comps(q));
    var exp := Expiry(now, ttl);
    var pathB64 := Base64Url.Encode(q);
    var sig := Sign(mac, cfg.secret, pathB64, exp, disposition);
    var url := MediaUrl.Build(cfg.base, pathB64, BaseName(q), exp, disposition, sig);
    reply := Minted(url, exp, |node.content|);
  }

  ghost function MintReply(mac: Mac, cfg: Config, fs: Node, now: int, req: Request): Reply
    requires ValidTree(fs) && ByteTree(fs) && cfg.Valid() && now >= 0 && req.ttlSeconds <= MAX_INT64
  {
    if Malformed(req) then Rejected(400)
    else
      var resolved := Resolved(fs, cfg.roots, req.path);
      if resolved.Err? then Rejected(StatusOf(resolved.error))
      else
        ResolvedFacts(fs, cfg.roots, req.path);
        var q := resolved.value;
        var node := Lookup(fs, Comps(q)).value;
        if node.Dir? then Rejected(400)
        else
          BaseNameOfLocation(Comps(q));
          var exp := Expiry(now, EffectiveTtl(req.ttlSeconds, cfg.defaultTtl, cfg.maxTtl));
          Minted(SignedUrl(mac, cfg, q, exp, OrAttachment(req.disposition)), exp, |node.content|)
  }

  lemma BelowMaximum(ttlSeconds: int, defaultTtl: int, maxTtl: int)
    requires 0 < defaultTtl <= maxTtl <= MAX_INT64 && 0 < ttlSeconds < maxTtl / NANOS_PER_SECOND
    ensures EffectiveTtl(ttlSeconds, defaultTtl, maxTtl) == ttlSeconds * NANOS_PER_SECOND
  {
    EffectiveTtlExact(ttlSeconds, defaultTtl, maxTtl);
  }

  lemma WholeSeconds(now: int, seconds: int)
    ensures Expiry(now, seconds * NANOS_PER_SECOND) == now / NANOS_PER_SECOND + seconds
  {}

  lemma MintedPlan(mac: Mac, cfg: Config, fs: Node, now: int, req: Request)
    requires ValidTree(fs) && ByteTree(fs) && cfg.Valid() && now >= 0 && req.ttlSeconds <= MAX_INT64
    requires MintReply(mac, cfg, fs, now, req).Minted?
    ensures 0 <= req.ttlSeconds
    ensures MintReply(mac, cfg, fs, now, req).exp
            == Expiry(now, EffectiveTtl(req.ttlSeconds, cfg.defaultTtl, cfg.maxTtl))
  {}

  /** Which expiry an accepted request gets, in whole Unix seconds: the default when it asks for
      none, the very second it asks for below the last whole second of the maximum, and the
      maximum from there on. */
  lemma MintedExpiry(mac: Mac, cfg: Config, fs: Node, now: int, req: Request)
    requires ValidTree(fs) && ByteTree(fs) && cfg.Valid() && now >= 0 && req.ttlSeconds <= MAX_INT64
    requires MintReply(mac, cfg, fs, now, req).Minted?
    ensures 0 <= req.ttlSeconds
    ensures MintReply(mac, cfg, fs, now, req).exp
            == if req.ttlSeconds == 0 then (now + cfg.defaultTtl) / NANOS_PER_SECOND
               else if req.ttlSeconds < cfg.maxTtl / NANOS_PER_SECOND then now / NANOS_PER_SECOND + req.ttlSeconds
               else (now + cfg.maxTtl) / NANOS_PER_SECOND
  {
    MintedPlan(mac, cfg, fs, now, req);
    if 0 < req.ttlSeconds < cfg.maxTtl / NANOS_PER_SECOND {
      BelowMaximum(req.ttlSeconds, cfg.defaultTtl, cfg.maxTtl);
      WholeSeconds(now, req.ttlSeconds);
    }
  }

  /** Which answer a request gets: 400 for what cannot be asked and for directories, 403 outside
      the roots, 404 for what does not exist, 500 for other errors of the disk, and otherwise a
      URL on the configured base, with the size of the file. */
  lemma MintAnswers(mac: Mac, cfg: Config, fs: Node, now: int, req: Request)
    requires ValidTree(fs) && ByteTree(fs) && cfg.Valid() && now >= 0 && req.ttlSeconds <= MAX_INT64
    ensures Resolved(fs, cfg.roots, req.path).Ok? ==> IsAbs(Resolved(fs, cfg.roots, req.path).value)
    ensures var (reply, place) := (MintReply(mac, cfg, fs, now, req), Resolved(fs, cfg.roots, req.path));
            var asked := req.disposition in {"", "inline", "attachment"} && req.path != "" && req.ttlSeconds >= 0;
            && (reply == Rejected(400) <==> !asked || (place.Ok? && IsDirectory(fs, Comps(place.value))))
            && (reply == Rejected(403) <==> asked && place == Err(Escape))
            && (reply == Rejected(404) <==> asked && place == Err(Disk(NotExist)))
            && (reply == Rejected(500) <==> asked && place in {Err(Disk(NotDirectory)), Err(Disk(TooManyLinks))})
            && (reply.Rejected? ==> reply.status in {400, 403, 404, 500})
            && (reply.Minted? ==>
                  && cfg.base <= reply.url && place.Ok? && Lookup(fs, Comps(place.value)).Some?
                  && Lookup(fs, Comps(place.value)).value.File?
                  && reply.size == |Lookup(fs, Comps(place.value)).value.content|)
  {
    if Resolved(fs, cfg.roots, req.path).Ok? {
      ResolvedFacts(fs, cfg.roots, req.path);
    }
  }
}
