/** Reading the injection request from a pod's annotations (internal/webhook/v1/annotations.go). */
module Annotations {
  import opened Core
  import opened Decimal
  import opened Webhook

  datatype Malformed = BadClaimName | BadUpstreamPort | BadAuthSecret

  predicate IsLabelChar(c: char) {
    'a' <= c <= 'z' || '0' <= c <= '9' || c == '-'
  }

  /** A DNS label of RFC 1123: 1 to 63 lower-case letters, digits and inner dashes. */
  predicate IsLabel(s: string) {
    && 1 <= |s| <= 63
    && (forall i | 0 <= i < |s| :: IsLabelChar(s[i]))
    && s[0] != '-' && s[|s| - 1] != '-'
  }

  method IsRfc1123Label(s: string) returns (valid: bool)
    ensures valid == IsLabel(s)
  {
    if s == "" || |s| > 63 {
      return false;
    }
    for i := 0 to |s|
      invariant forall j | 0 <= j < i :: IsLabelChar(s[j]) && (s[j] == '-' ==> 0 < j < |s| - 1)
    {
      var c := s[i];
      if 'a' <= c <= 'z' || '0' <= c <= '9' {
      } else if c == '-' {
        if i == 0 || i == |s| - 1 {
          return false;
        }
      } else {
        return false;
      }
    }
    return true;
  }

  /** What the annotations say, before validation; a missing annotation reads as empty. */
  function Requested(annotations: map<string, string>): Request {
    Request(
      Get(annotations, "media.media/inject-sidecar") == "true",
      Get(annotations, "media.media/inject-proxy") == "true",
      Get(annotations, "media.media/volume-name"),
      Get(annotations, "media.media/volume-path"),
      Get(annotations, "media.media/upstream-port"),
      Get(annotations, "media.media/proxy-mode"),
      Get(annotations, "media.media/tool-match"),
      Get(annotations, "media.media/mint-url"),
      Get(annotations, "media.media/public-url"),
      Get(annotations, "media.media/inline-max-bytes"),
      Get(annotations, "media.media/group"),
      Get(annotations, "media.media/auth-token-secret"))
  }

  /** A value that the request would use and that cannot be what it stands for. */
  predicate Wrong(req: Request, why: Malformed) {
    match why
    case BadClaimName => req.sidecar && req.volumeName !in {"", "empty"} && !IsLabel(req.volumeName)
    case BadUpstreamPort => req.proxy && req.upstreamPort != "" && ParseInt(req.upstreamPort).None?
    case BadAuthSecret => req.proxy && req.authSecret != "" && !IsLabel(req.authSecret)
  }

  predicate Accepted(req: Request) {
    !Wrong(req, BadClaimName) && !Wrong(req, BadUpstreamPort) && !Wrong(req, BadAuthSecret)
  }

  /** parseAnnotations; absent annotations read as the empty map. */
  method Parse(annotations: map<string, string>) returns (r: Result<Request, Malformed>)
    ensures r.Ok? <==> Accepted(Requested(annotations))
    ensures r.Ok? ==> r.value == Requested(annotations)
    ensures r.Err? ==> Wrong(Requested(annotations), r.error)
  {
    var req := Requested(annotations);
    if req.sidecar && req.volumeName != "" && req.volumeName != "empty" {
      var valid := IsRfc1123Label(req.volumeName);
      if !valid {
        return Err(BadClaimName);
      }
    }
    if req.proxy && req.upstreamPort != "" {
      if ParseInt(req.upstreamPort).None? {
        return Err(BadUpstreamPort);
      }
    }
    if req.proxy && req.authSecret != "" {
      var valid := IsRfc1123Label(req.authSecret);
      if !valid {
        return Err(BadAuthSecret);
      }
    }
    return Ok(req);
  }
}
