/** The media tools of the proxy (internal/proxy/tools.go): mint, then attach the file itself
    when it is small enough. Sizes and limits are int64. */
module Inline {
  import opened Core
  import opened Text
  import opened Paths
  import opened FileSystem
  import opened Resolver
  import opened Signing
  import MediaUrl
  import Minting
  import Serving

  /** A response body: what arrives, and whether the stream breaks off after it. */
  datatype Body = Body(bytes: string, broken: bool)

  datatype Response = NoAnswer | Answer(status: nat, body: Body)

  type Client = string -> Response

  datatype FetchError = BadBase | Unanswered | BadStatus(status: nat) | ReadFailed | BodyTooLarge

  datatype Reason = NotEligible | FileTooLarge | FetchFailed(error: FetchError)

  datatype Content =
    | Url(text: string)
    | Note(reason: Reason)
    | Image(data: string, mime: string)
    | Audio(data: string, mime: string)

  predicate IsMedia(c: Content) {
    c.Image? || c.Audio?
  }

  /** What the tools need of a mint response. */
  datatype Minted = Minted(url: string, mime: string, size: int)

  /** io.ReadAll(io.LimitReader(body, n)): nothing at all is read for n <= 0. */
  function ReadLimited(body: Body, n: int): Result<string, ()> {
    if n <= 0 then Ok("")
    else if |body.bytes| >= n then Ok(body.bytes[..n])
    else if body.broken then Err(()) else Ok(body.bytes)
  }

  /** fetchInline. The limit plus one is an int64, so the largest limit wraps around. */
  function FetchInline(url: string, base: string, limit: int, client: Client): Result<string, FetchError> {
    match MediaUrl.SwapBase(url, base)
    case Err(_) => Err(BadBase)
    case Ok(target) =>
      match client(target)
      case NoAnswer => Err(Unanswered)
      case Answer(status, body) =>
        if status != 200 then Err(BadStatus(status))
        else
          match ReadLimited(body, Wrap64(limit + 1))
          case Err(_) => Err(ReadFailed)
          case Ok(data) => if |data| > limit then Err(BodyTooLarge) else Ok(data)
  }

  predicate IsImage(mime: string) {
    HasPrefix(mime, "image/")
  }

  predicate Eligible(mime: string) {
    IsImage(mime) || HasPrefix(mime, "audio/")
  }

  /** The one item that an inline attempt adds to the result. */
  function Attempt(mr: Minted, base: string, limit: int, client: Client): Content {
    if !Eligible(mr.mime) then Note(NotEligible)
    else if mr.size > limit then Note(FileTooLarge)
    else
      match FetchInline(mr.url, base, limit, client)
      case Err(e) => Note(FetchFailed(e))
      case Ok(data) => if IsImage(mr.mime) then Image(data, mr.mime) else Audio(data, mr.mime)
  }

  /** The tool result under construction: its content items and the inline_included entry. */
  class ToolResult {
    var contents: seq<Content>
    var inlineIncluded: bool

    constructor (url: string)
      ensures contents == [Url(url)] && !inlineIncluded
    {
      contents := [Url(url)];
      inlineIncluded := false;
    }

    method AddNote(reason: Reason)
      modifies this`contents
      ensures contents == old(contents) + [Note(reason)]
    {
      contents := contents + [Note(reason)];
    }

    /** includeInline: exactly one item is added, and the entry says whether it is media. */
    method IncludeInline(mr: Minted, base: string, limit: int, client: Client)
      modifies this
      ensures contents == old(contents) + [Attempt(mr, base, limit, client)]
      ensures inlineIncluded == IsMedia(Attempt(mr, base, limit, client))
    {
      if !HasPrefix(mr.mime, "image/") && !HasPrefix(mr.mime, "audio/") {
        inlineIncluded := false;
        AddNote(NotEligible);
        return;
      }
      if mr.size > limit {
        inlineIncluded := false;
        AddNote(FileTooLarge);
        return;
      }
      var fetched := FetchInline(mr.url, base, limit, client);
      if fetched.Err? {
        inlineIncluded := false;
        AddNote(FetchFailed(fetched.error));
        return;
      }
      if HasPrefix(mr.mime, "image/") {
        contents := contents + [Image(fetched.value, mr.mime)];
      } else {
        contents := contents + [Audio(fetched.value, mr.mime)];
      }
      inlineIncluded := true;
    }
  }

  datatype Called = Failed | Done(contents: seq<Content>, inlineIncluded: bool)

  /** A media tool call, with the mint response or its failure: an unknown mode or a failed
      mint is an error and fetches nothing; mode url stops at the URL. */
  method CallTool(mode: string, defaultMode: string, minted: Option<Minted>, base: string, limit: int, client: Client)
    returns (r: Called)
    requires defaultMode in {"url", "inline"}
    ensures r.Failed? <==> mode !in {"", "url", "inline", "both"} || minted.None?
    ensures r.Done? && (mode in {"inline", "both"} || (mode == "" && defaultMode == "inline")) ==>
              var item := Attempt(minted.value, base, limit, client);
              r.contents == [Url(minted.value.url), item] && r.inlineIncluded == IsMedia(item)
    ensures r.Done? && !(mode in {"inline", "both"} || (mode == "" && defaultMode == "inline")) ==>
              r.contents == [Url(minted.value.url)] && !r.inlineIncluded
  {
    var chosen := if mode == "" then defaultMode else mode;
    if chosen !in {"url", "inline", "both"} {
      return Failed;
    }
    if minted.None? {
      return Failed;
    }
    var result := new ToolResult(minted.value.url);
    if chosen == "inline" || chosen == "both" {
      result.IncludeInline(minted.value, base, limit, client);
    }
    r := Done(result.contents, result.inlineIncluded);
  }

  // ------------------------------------------------------------------ whole or error

  /** Below the largest int64 a fetch gives the whole body, within the limit, or an error:
      never a part of it, whether the body is too long or breaks off. */
  lemma WholeOrError(url: string, base: string, limit: int, client: Client, data: string)
    requires 0 < limit < MAX_INT64
    ensures FetchInline(url, base, limit, client) == Ok(data)
            <==> (MediaUrl.SwapBase(url, base).Ok?
                  && client(MediaUrl.SwapBase(url, base).value) == Answer(200, Body(data, false))
                  && |data| <= limit)
  {
    assert Wrap64(limit + 1) == limit + 1;
  }

  /** Which error: one byte beyond the limit is enough to refuse a body, before it is known
      whether the stream would have broken off; a body that breaks off earlier is a failed read. */
  lemma FetchErrorExact(url: string, base: string, limit: int, client: Client, target: string, body: Body)
    requires 0 < limit < MAX_INT64
    requires MediaUrl.SwapBase(url, base) == Ok(target) && client(target) == Answer(200, body)
    ensures var r := FetchInline(url, base, limit, client);
            && (r == Err(BodyTooLarge) <==> |body.bytes| > limit)
            && (r == Err(ReadFailed) <==> |body.bytes| <= limit && body.broken)
  {
    assert Wrap64(limit + 1) == limit + 1;
  }

  /** And the errors before any body is read. */
  lemma FetchRefusals(url: string, base: string, limit: int, client: Client, status: nat)
    ensures var (target, r) := (MediaUrl.SwapBase(url, base), FetchInline(url, base, limit, client));
            && (r == Err(BadBase) <==> target.Err?)
            && (r == Err(Unanswered) <==> target.Ok? && client(target.value) == NoAnswer)
            && (r == Err(BadStatus(status)) <==>
                  && target.Ok? && client(target.value).Answer?
                  && client(target.value).status == status && status != 200)
  {}

  /** At the largest limit the addition wraps, nothing is read, and any 200 answer counts as
      empty: the fetch is right only for an empty body. */
  lemma LargestLimitReadsNothing(url: string, base: string, client: Client, target: string, body: Body)
    requires MediaUrl.SwapBase(url, base) == Ok(target) && client(target) == Answer(200, body)
    ensures FetchInline(url, base, MAX_INT64, client) == Ok("")
  {}

  /** When a complete body within the limit comes back whole. */
  lemma WholeExactly(url: string, base: string, limit: int, client: Client, target: string, data: string)
    requires 0 < limit <= MAX_INT64 && |data| <= limit
    requires MediaUrl.SwapBase(url, base) == Ok(target) && client(target) == Answer(200, Body(data, false))
    ensures FetchInline(url, base, limit, client) == Ok(data) <==> limit < MAX_INT64 || data == ""
  {}

  lemma ImageOrAudio(mime: string)
    ensures !(HasPrefix(mime, "image/") && HasPrefix(mime, "audio/"))
  {
    assert "image/"[0] != "audio/"[0];
  }

  /** Why a file is not included: it is neither image nor audio, or the mint response says it is
      too large, and nothing is fetched; or else the fetch failed. */
  lemma NoteExact(mr: Minted, base: string, limit: int, client: Client)
    ensures var item := Attempt(mr, base, limit, client);
            var eligible := HasPrefix(mr.mime, "image/") || HasPrefix(mr.mime, "audio/");
            && (item == Note(NotEligible) <==> !eligible)
            && (item == Note(FileTooLarge) <==> eligible && mr.size > limit)
            && (item.Note? && item.reason.FetchFailed? <==>
                  eligible && mr.size <= limit && FetchInline(mr.url, base, limit, client).Err?)
            && (item.Note? && item.reason.FetchFailed? ==>
                  FetchInline(mr.url, base, limit, client) == Err(item.reason.error))
  {}

  /** inline_included says that the one added item holds the whole body the server sent, as an
      image or as audio, whichever its type says. */
  lemma IncludedIsWhole(mr: Minted, base: string, limit: int, client: Client)
    requires 0 < limit < MAX_INT64
    ensures var item := Attempt(mr, base, limit, client);
            && (IsMedia(item) || item.Note?)
            && (IsMedia(item) <==>
                  && Eligible(mr.mime) && mr.size <= limit
                  && MediaUrl.SwapBase(mr.url, base).Ok?
                  && var answer := client(MediaUrl.SwapBase(mr.url, base).value);
                     answer.Answer? && answer.status == 200 && !answer.body.broken && |answer.body.bytes| <= limit)
            && (IsMedia(item) ==>
                  && client(MediaUrl.SwapBase(mr.url, base).value) == Answer(200, Body(item.data, false))
                  && item.mime == mr.mime
                  && (item.Image? <==> HasPrefix(mr.mime, "image/"))
                  && (item.Audio? <==> HasPrefix(mr.mime, "audio/")))
  {
    ImageOrAudio(mr.mime);
    var fetched := FetchInline(mr.url, base, limit, client);
    if fetched.Ok? {
      WholeOrError(mr.url, base, limit, client, fetched.value);
    } else if MediaUrl.SwapBase(mr.url, base).Ok? {
      var answer := client(MediaUrl.SwapBase(mr.url, base).value);
      if answer.Answer? {
        WholeOrError(mr.url, base, limit, client, answer.body.bytes);
      }
    }
  }

  // ------------------------------------------------------------------ against the file server

  /** The file server as an HTTP client sees it. */
  ghost function ServerAnswer(mac: Mac, secret: string, fs: Node, roots: seq<string>, now: int, url: string): Response
    requires ValidTree(fs) && ValidRoots(roots) && now >= 0
  {
    match MediaUrl.Parse(url)
    case None => Answer(404, Body("", false))
    case Some(req) =>
      match Serving.ServeReply(mac, secret, fs, roots, now, req)
      case Refused(status) => Answer(status, Body("", false))
      case Served(_, _, _) =>
        Serving.ServedIsAuthentic(mac, secret, fs, roots, now, req);
        var path := Serving.ServeReply(mac, secret, fs, roots, now, req).path;
        Answer(200, Body(Lookup(fs, Comps(path)).value.content, false))
  }

  ghost function ServerClient(mac: Mac, secret: string, fs: Node, roots: seq<string>, now: int): Client
    requires ValidTree(fs) && ValidRoots(roots) && now >= 0
  {
    url => ServerAnswer(mac, secret, fs, roots, now, url)
  }

  /** From path to bytes: minting a file and fetching it through the file server gives its
      whole content while the URL lives, exactly if the resolved path lies lexically under a
      root; otherwise the fetch fails. */
  lemma MintedFileIsFetched(
    mac: Mac, cfg: Minting.Config, fs: Node, mintNow: int, req: Minting.Request, minted: Minting.Reply, base: string,
    fetched: string, serveNow: int, limit: int)
    requires Serving.MintedAs(mac, cfg, fs, mintNow, req, minted) && 0 <= serveNow
    requires MediaUrl.SwapBase(minted.url, base) == Ok(fetched)
    requires 0 < limit < MAX_INT64 && minted.size <= limit
    ensures Resolved(fs, cfg.roots, req.path).Ok?
    ensures var q := Resolved(fs, cfg.roots, req.path).value;
            var live := serveNow <= minted.exp * NANOS_PER_SECOND && minted.exp <= MAX_UNIX;
            && IsAbs(q) && Lookup(fs, Comps(q)).Some? && Lookup(fs, Comps(q)).value.File?
            && FetchInline(minted.url, base, limit, ServerClient(mac, cfg.secret, fs, cfg.roots, serveNow))
               == if live && Lexical(RootComps(cfg.roots), Comps(q)) then Ok(Lookup(fs, Comps(q)).value.content)
                  else Err(BadStatus(403))
  {
    var q := Resolved(fs, cfg.roots, req.path).value;
    Serving.MintedParts(mac, cfg, fs, mintNow, req, minted);
    Serving.MintThenServe(mac, cfg, fs, mintNow, req, minted, base, fetched, serveNow);
    var client := ServerClient(mac, cfg.secret, fs, cfg.roots, serveNow);
    assert client(fetched) == ServerAnswer(mac, cfg.secret, fs, cfg.roots, serveNow, fetched);
    WholeOrError(minted.url, base, limit, client, Lookup(fs, Comps(q)).value.content);
  }
}
