/** The admission webhook's view of a pod, and what injection does to it
    (internal/webhook/v1/inject.go). A nil label map is the empty map. */
module Webhook {
  import opened Core
  import opened Text
  import opened Decimal

  /** A literal, or the "value" key of a secret. */
  datatype EnvValue = Literal(text: string) | FromSecret(secret: string)

  datatype EnvVar = EnvVar(name: string, value: EnvValue)

  datatype ContainerPort = ContainerPort(name: string, number: int)

  datatype Mount = Mount(volume: string, path: string, readOnly: bool)

  /** An empty pull policy leaves the choice to the cluster. */
  datatype Container = Container(
    name: string, image: string, pullPolicy: string, ports: seq<ContainerPort>, env: seq<EnvVar>, mounts: seq<Mount>)

  datatype VolumeSource = ReadOnlyClaim(claim: string) | EmptyDir | OtherSource(id: string)

  datatype Volume = Volume(name: string, source: VolumeSource)

  datatype Pod = Pod(
    name: string, namespace: string, labels: map<string, string>,
    inits: seq<Container>, containers: seq<Container>, volumes: seq<Volume>)

  /** Webhook configuration: images and secret names. */
  datatype Settings = Settings(sidecarImage: string, proxyImage: string, signingSecret: string, tokenSecret: string)

  /** What the annotations of a pod ask for. */
  datatype Request = Request(
    sidecar: bool, proxy: bool, volumeName: string, volumePath: string, upstreamPort: string, mode: string,
    toolMatch: string, mintUrl: string, publicUrl: string, inlineMaxBytes: string, group: string, authSecret: string)

  const SIDECAR: string := "media-sidecar"
  const PROXY: string := "mcp-media-proxy"
  const VOLUME: string := "media-volume"
  const INJECTED_LABEL: string := "media.media/injected"
  const SERVE_PORT: int := 8090
  const MINT_PORT: int := 8091
  const LISTEN_PORT: int := 5780

  // ------------------------------------------------------------------ what is added

  function MediaPath(req: Request): string {
    if req.volumePath == "" then "/data" else req.volumePath
  }

  function TargetName(p: Pod): string {
    var instance := Get(p.labels, "app.kubernetes.io/instance");
    var name := Get(p.labels, "app.kubernetes.io/name");
    var app := Get(p.labels, "app");
    if instance != "" then instance else if name != "" then name else if app != "" then app else p.name
  }

  function PublicUrl(p: Pod, req: Request): string {
    if req.publicUrl != "" then req.publicUrl
    else "http://" + TargetName(p) + "-media." + p.namespace + ".svc:" + FormatInt(SERVE_PORT)
  }

  function PullPolicy(image: string): string {
    if HasSuffix(image, ":latest") || ':' !in image then "" else "IfNotPresent"
  }

  function SidecarEnv(cfg: Settings, p: Pod, req: Request): seq<EnvVar> {
    [EnvVar("MEDIA_PUBLIC_BASE_URL", Literal(PublicUrl(p, req))),
     EnvVar("MEDIA_INTERNAL_TOKEN", FromSecret(cfg.tokenSecret)),
     EnvVar("MEDIA_SIGNING_SECRET", FromSecret(cfg.signingSecret)),
     EnvVar("MEDIA_ROOTS", Literal(MediaPath(req)))]
  }

  function Sidecar(cfg: Settings, p: Pod, req: Request): Container {
    Container(
      SIDECAR, cfg.sidecarImage, PullPolicy(cfg.sidecarImage),
      [ContainerPort("serve", SERVE_PORT), ContainerPort("mint", MINT_PORT)],
      SidecarEnv(cfg, p, req), [Mount(VOLUME, MediaPath(req), true)])
  }

  /** An explicit override, then the group's sidecar service, then the sidecar in the pod. */
  function MintUrl(req: Request): string {
    if req.mintUrl != "" then req.mintUrl
    else if req.group != "" then "http://" + req.group + "-sidecar-service:" + FormatInt(MINT_PORT)
    else if req.sidecar then "http://localhost:" + FormatInt(MINT_PORT)
    else ""
  }

  function Mode(req: Request): string {
    if req.mode == "" then "full" else req.mode
  }

  function When<T>(condition: bool, item: T): seq<T> {
    if condition then [item] else []
  }

  const PORT_IGNORED: string := "upstream-port annotation ignored in standalone mode"

  function BaseEnv(cfg: Settings, mode: string): seq<EnvVar> {
    [EnvVar("PROXY_MODE", Literal(mode)),
     EnvVar("PROXY_LISTEN_ADDR", Literal(":" + FormatInt(LISTEN_PORT))),
     EnvVar("MEDIA_INTERNAL_TOKEN", FromSecret(cfg.tokenSecret))]
  }

  function UpstreamEnv(req: Request): seq<EnvVar> {
    When(req.upstreamPort != "",
         if Mode(req) == "standalone" then EnvVar("MEDIA_INJECTION_NOTE", Literal(PORT_IGNORED))
         else EnvVar("UPSTREAM_MCP_URL", Literal("http://localhost:" + req.upstreamPort)))
  }

  function ToolEnv(req: Request): seq<EnvVar> {
    When(req.toolMatch != "" && Mode(req) == "full", EnvVar("TOOL_MATCH", Literal(req.toolMatch)))
    + When(req.inlineMaxBytes != "", EnvVar("INLINE_MAX_BYTES", Literal(req.inlineMaxBytes)))
  }

  function MintEnv(req: Request): seq<EnvVar> {
    When(MintUrl(req) != "", EnvVar("MINT_URL", Literal(MintUrl(req))))
    + When(req.authSecret != "", EnvVar("MEDIA_AUTH_TOKEN", FromSecret(req.authSecret)))
  }

  function ProxyEnv(cfg: Settings, req: Request): seq<EnvVar> {
    BaseEnv(cfg, Mode(req)) + UpstreamEnv(req) + ToolEnv(req) + MintEnv(req)
  }

  function Proxy(cfg: Settings, req: Request): Container {
    Container(PROXY, cfg.proxyImage, "", [ContainerPort("mcp", LISTEN_PORT)], ProxyEnv(cfg, req), [])
  }

  function MediaVolume(req: Request): Volume {
    Volume(VOLUME, if req.volumeName != "" && req.volumeName != "empty" then ReadOnlyClaim(req.volumeName) else EmptyDir)
  }

  // ------------------------------------------------------------------ injection

  predicate HasContainer(p: Pod, name: string) {
    exists i | 0 <= i < |p.containers| :: p.containers[i].name == name
  }

  predicate HasVolume(p: Pod, name: string) {
    exists i | 0 <= i < |p.volumes| :: p.volumes[i].name == name
  }

  predicate Injectable(name: string) {
    name == SIDECAR || name == PROXY
  }

  /** The container already mounts the volume, or something at the path. */
  predicate Occupied(c: Container, volume: string, path: string) {
    exists i | 0 <= i < |c.mounts| :: c.mounts[i].volume == volume || c.mounts[i].path == path
  }

  function MountIfAbsent(c: Container, volume: string, path: string): Container {
    if Occupied(c, volume, path) then c else c.(mounts := c.mounts + [Mount(volume, path, false)])
  }

  function MountOwn(c: Container, path: string): Container {
    if Injectable(c.name) then c else MountIfAbsent(c, VOLUME, path)
  }

  function MountAll(cs: seq<Container>, path: string): (r: seq<Container>)
    ensures |r| == |cs|
    ensures forall i | 0 <= i < |cs| :: r[i] == MountOwn(cs[i], path)
  {
    if cs == [] then [] else MountAll(cs[..|cs| - 1], path) + [MountOwn(cs[|cs| - 1], path)]
  }

  function WithVolume(p: Pod, req: Request): Pod {
    if HasVolume(p, VOLUME) then p else p.(volumes := p.volumes + [MediaVolume(req)])
  }

  function WithSidecar(p: Pod, sidecar: Container, req: Request): Pod {
    if HasContainer(p, SIDECAR) then p
    else
      WithVolume(p, req).(
        inits := MountAll(p.inits, MediaPath(req)),
        containers := MountAll(p.containers + [sidecar], MediaPath(req)))
  }

  function WithProxy(p: Pod, proxy: Container): Pod {
    if HasContainer(p, PROXY) then p else p.(containers := p.containers + [proxy])
  }

  function InjectedWith(p: Pod, req: Request, sidecar: Container, proxy: Container): Pod {
    var p1 := if req.sidecar then WithSidecar(p, sidecar, req) else p;
    var p2 := if req.proxy then WithProxy(p1, proxy) else p1;
    if req.sidecar || req.proxy then p2.(labels := p2.labels[INJECTED_LABEL := "true"]) else p2
  }

  /** injectPod. */
  function Injected(cfg: Settings, p: Pod, req: Request): Pod {
    InjectedWith(p, req, Sidecar(cfg, p, req), Proxy(cfg, req))
  }

  // ------------------------------------------------------------------ the code, in place

  /** mountIfAbsent, on one container. */
  method MountContainer(c: Container, volume: string, path: string) returns (mounted: Container)
    ensures mounted == MountIfAbsent(c, volume, path)
  {
    for i := 0 to |c.mounts|
      invariant forall j | 0 <= j < i :: c.mounts[j].volume != volume && c.mounts[j].path != path
    {
      if c.mounts[i].volume == volume || c.mounts[i].path == path {
        return c;
      }
    }
    return c.(mounts := c.mounts + [Mount(volume, path, false)]);
  }

  /** addProxy: the variables that do not depend on the mode. */
  method AppendMintEnv(before: seq<EnvVar>, req: Request) returns (env: seq<EnvVar>)
    ensures env == before + MintEnv(req)
  {
    env := before;
    var mint := MintUrl(req);
    if mint != "" {
      env := env + [EnvVar("MINT_URL", Literal(mint))];
    }
    if req.authSecret != "" {
      env := env + [EnvVar("MEDIA_AUTH_TOKEN", FromSecret(req.authSecret))];
    }
  }

  method AppendToolEnv(before: seq<EnvVar>, req: Request, mode: string) returns (env: seq<EnvVar>)
    requires mode == Mode(req)
    ensures env == before + ToolEnv(req)
  {
    env := before;
    if req.toolMatch != "" && mode == "full" {
      env := env + [EnvVar("TOOL_MATCH", Literal(req.toolMatch))];
    }
    if req.inlineMaxBytes != "" {
      env := env + [EnvVar("INLINE_MAX_BYTES", Literal(req.inlineMaxBytes))];
    }
  }

  /** The environment part of addProxy. */
  method BuildProxyEnv(cfg: Settings, req: Request) returns (env: seq<EnvVar>)
    ensures env == ProxyEnv(cfg, req)
  {
    var mode := req.mode;
    if mode == "" {
      mode := "full";
    }
    env := BaseEnv(cfg, mode);
    if mode == "standalone" {
      if req.upstreamPort != "" {
        env := env + [EnvVar("MEDIA_INJECTION_NOTE", Literal(PORT_IGNORED))];
      }
    } else if req.upstreamPort != "" {
      env := env + [EnvVar("UPSTREAM_MCP_URL", Literal("http://localhost:" + req.upstreamPort))];
    }
    assert env == BaseEnv(cfg, mode) + UpstreamEnv(req);
    env := AppendToolEnv(env, req, mode);
    env := AppendMintEnv(env, req);
  }

  /** The pod object the webhook mutates. */
  class PodObject {
    const name: string
    const namespace: string
    var labels: map<string, string>
    var inits: seq<Container>
    var containers: seq<Container>
    var volumes: seq<Volume>

    constructor (p: Pod)
      ensures Value() == p
    {
      name, namespace, labels := p.name, p.namespace, p.labels;
      inits, containers, volumes := p.inits, p.containers, p.volumes;
    }

    function Value(): Pod
      reads this
    {
      Pod(name, namespace, labels, inits, containers, volumes)
    }

    method HasContainerNamed(wanted: string) returns (found: bool)
      ensures found == HasContainer(Value(), wanted)
    {
      for i := 0 to |containers|
        invariant forall j | 0 <= j < i :: containers[j].name != wanted
      {
        if containers[i].name == wanted {
          return true;
        }
      }
      return false;
    }

    method AddMediaVolume(req: Request)
      modifies this
      ensures Value() == WithVolume(old(Value()), req)
    {
      for i := 0 to |volumes|
        invariant Value() == old(Value())
        invariant forall j | 0 <= j < i :: volumes[j].name != VOLUME
      {
        if volumes[i].name == VOLUME {
          return;
        }
      }
      var source := EmptyDir;
      if req.volumeName != "" && req.volumeName != "empty" {
        source := ReadOnlyClaim(req.volumeName);
      }
      volumes := volumes + [Volume(VOLUME, source)];
    }

    method MountWorkloadContainers(path: string)
      modifies this
      ensures var before := old(Value());
              Value() == before.(inits := MountAll(before.inits, path), containers := MountAll(before.containers, path))
    {
      ghost var before := Value();
      for i := 0 to |inits|
        invariant |inits| == |before.inits| && Value() == before.(inits := inits)
        invariant forall j | 0 <= j < |inits| ::
                    inits[j] == if j < i then MountOwn(before.inits[j], path) else before.inits[j]
      {
        if !Injectable(inits[i].name) {
          var mounted := MountContainer(inits[i], VOLUME, path);
          inits := inits[i := mounted];
        }
      }
      assert inits == MountAll(before.inits, path);
      for i := 0 to |containers|
        invariant |containers| == |before.containers|
        invariant Value() == before.(inits := MountAll(before.inits, path), containers := containers)
        invariant forall j | 0 <= j < |containers| ::
                    containers[j] == if j < i then MountOwn(before.containers[j], path) else before.containers[j]
      {
        if !Injectable(containers[i].name) {
          var mounted := MountContainer(containers[i], VOLUME, path);
          containers := containers[i := mounted];
        }
      }
      assert containers == MountAll(before.containers, path);
    }

    method AddSidecar(cfg: Settings, req: Request)
      modifies this
      ensures Value() == WithSidecar(old(Value()), Sidecar(cfg, old(Value()), req), req)
    {
      var present := HasContainerNamed(SIDECAR);
      if present {
        return;
      }
      var path := req.volumePath;
      if path == "" {
        path := "/data";
      }
      var sidecar := Sidecar(cfg, Value(), req);
      containers := containers + [sidecar];
      AddMediaVolume(req);
      MountWorkloadContainers(path);
    }

    method AddProxy(cfg: Settings, req: Request)
      modifies this
      ensures Value() == WithProxy(old(Value()), Proxy(cfg, req))
    {
      var present := HasContainerNamed(PROXY);
      if present {
        return;
      }
      var env := BuildProxyEnv(cfg, req);
      containers := containers + [Container(PROXY, cfg.proxyImage, "", [ContainerPort("mcp", LISTEN_PORT)], env, [])];
    }

    /** injectPod. */
    method Inject(cfg: Settings, req: Request)
      modifies this
      ensures Value() == Injected(cfg, old(Value()), req)
    {
      var changed := false;
      if req.sidecar {
        AddSidecar(cfg, req);
        changed := true;
      }
      if req.proxy {
        AddProxy(cfg, req);
        changed := true;
      }
      if !changed {
        return;
      }
      labels := labels[INJECTED_LABEL := "true"];
    }
  }

  // ------------------------------------------------------------------ what injection keeps

  function Names(cs: seq<Container>): (r: seq<string>)
    ensures |r| == |cs|
    ensures forall i | 0 <= i < |cs| :: r[i] == cs[i].name
  {
    seq(|cs|, i requires 0 <= i < |cs| => cs[i].name)
  }

  ghost predicate Distinct(names: seq<string>) {
    forall i, j | 0 <= i < j < |names| :: names[i] != names[j]
  }

  ghost predicate DistinctVolumes(p: Pod) {
    forall i, j | 0 <= i < j < |p.volumes| :: p.volumes[i].name != p.volumes[j].name
  }

  /** Mount paths are distinct and every mount names a declared volume. */
  ghost predicate GoodMounts(c: Container, p: Pod) {
    && (forall i, j | 0 <= i < j < |c.mounts| :: c.mounts[i].path != c.mounts[j].path)
    && (forall i | 0 <= i < |c.mounts| :: HasVolume(p, c.mounts[i].volume))
  }

  ghost predicate AllGoodMounts(cs: seq<Container>, p: Pod) {
    forall i | 0 <= i < |cs| :: GoodMounts(cs[i], p)
  }

  /** What the API server demands of the parts that injection touches. */
  ghost predicate WellFormed(p: Pod) {
    && Distinct(Names(p.inits + p.containers))
    && DistinctVolumes(p)
    && AllGoodMounts(p.inits, p)
    && AllGoodMounts(p.containers, p)
  }

  predicate AddsSidecar(p: Pod, req: Request) {
    req.sidecar && !HasContainer(p, SIDECAR)
  }

  predicate AddsProxy(p: Pod, req: Request) {
    req.proxy && !HasContainer(p, PROXY)
  }

  /** The names of the containers that injection appends. */
  function Appended(p: Pod, req: Request): seq<string> {
    When(AddsSidecar(p, req), SIDECAR) + When(AddsProxy(p, req), PROXY)
  }

  /** An init container has the name of a container that injection is about to append:
      only the main containers are searched for it. */
  predicate Collides(p: Pod, req: Request) {
    exists i | 0 <= i < |p.inits| :: p.inits[i].name in Appended(p, req)
  }

  /** All that matters of the two containers here. */
  ghost predicate Fit(sidecar: Container, proxy: Container, req: Request) {
    && sidecar.name == SIDECAR && sidecar.mounts == [Mount(VOLUME, MediaPath(req), true)]
    && proxy.name == PROXY && proxy.mounts == []
  }

  lemma ContainersFit(cfg: Settings, p: Pod, req: Request)
    ensures Fit(Sidecar(cfg, p, req), Proxy(cfg, req), req)
  {}

  function Extra(p: Pod, req: Request, sidecar: Container, proxy: Container): seq<Container> {
    When(AddsSidecar(p, req), sidecar) + When(AddsProxy(p, req), proxy)
  }

  lemma MountAllNames(cs: seq<Container>, path: string)
    ensures Names(MountAll(cs, path)) == Names(cs)
  {}

  lemma MountAllKeepsLast(cs: seq<Container>, c: Container, path: string)
    requires Injectable(c.name)
    ensures MountAll(cs + [c], path) == MountAll(cs, path) + [c]
  {}

  lemma SameNamesSameContainers(p: Pod, q: Pod, extra: seq<string>, name: string)
    requires Names(q.containers) == Names(p.containers) + extra
    ensures HasContainer(q, name) <==> HasContainer(p, name) || name in extra
  {
    var (before, now) := (Names(p.containers), Names(q.containers));
    if HasContainer(p, name) {
      var i :| 0 <= i < |p.containers| && p.containers[i].name == name;
      assert now[i] == name && q.containers[i].name == name;
    } else if name in extra {
      var i :| 0 <= i < |extra| && extra[i] == name;
      assert now[|before| + i] == name && q.containers[|before| + i].name == name;
    }
    if HasContainer(q, name) {
      var i :| 0 <= i < |q.containers| && q.containers[i].name == name;
      assert now[i] == name;
      assert i < |before| ==> before[i] == name && p.containers[i].name == name;
    }
  }

  lemma SidecarContainers(p: Pod, sidecar: Container, req: Request)
    requires sidecar.name == SIDECAR && !HasContainer(p, SIDECAR)
    ensures var q := WithSidecar(p, sidecar, req);
            && q.containers == MountAll(p.containers, MediaPath(req)) + [sidecar]
            && q.inits == MountAll(p.inits, MediaPath(req))
            && Names(q.containers) == Names(p.containers) + [SIDECAR]
            && p.volumes <= q.volumes && HasVolume(q, VOLUME)
  {
    MountAllKeepsLast(p.containers, sidecar, MediaPath(req));
    MountAllNames(p.containers, MediaPath(req));
    var q := WithSidecar(p, sidecar, req);
    if !HasVolume(p, VOLUME) {
      assert q.volumes[|p.volumes|].name == VOLUME;
    }
  }

  lemma StepNames(p: Pod, req: Request, sidecar: Container, proxy: Container)
    requires Fit(sidecar, proxy, req)
    ensures var p1 := if req.sidecar then WithSidecar(p, sidecar, req) else p;
            && Names(p1.containers) == Names(p.containers) + When(AddsSidecar(p, req), SIDECAR)
            && (HasContainer(p1, PROXY) <==> HasContainer(p, PROXY))
  {}

  lemma InjectedNames(p: Pod, req: Request, sidecar: Container, proxy: Container)
    requires Fit(sidecar, proxy, req)
    ensures Names(InjectedWith(p, req, sidecar, proxy).containers) == Names(p.containers) + Appended(p, req)
  {
    StepNames(p, req, sidecar, proxy);
  }

  lemma InjectedLabels(p: Pod, req: Request, sidecar: Container, proxy: Container)
    ensures InjectedWith(p, req, sidecar, proxy).labels
            == if req.sidecar || req.proxy then p.labels[INJECTED_LABEL := "true"] else p.labels
  {}

  lemma RequestIsMetWith(p: Pod, req: Request, sidecar: Container, proxy: Container, q: Pod)
    requires Fit(sidecar, proxy, req) && q == InjectedWith(p, req, sidecar, proxy)
    ensures (req.sidecar ==> HasContainer(q, SIDECAR)) && (req.proxy ==> HasContainer(q, PROXY))
  {
    InjectedNames(p, req, sidecar, proxy);
    NamesMeetRequest(p, q, req);
  }

  lemma NamesMeetRequest(p: Pod, q: Pod, req: Request)
    requires Names(q.containers) == Names(p.containers) + Appended(p, req)
    ensures (req.sidecar ==> HasContainer(q, SIDECAR)) && (req.proxy ==> HasContainer(q, PROXY))
  {
    SameNamesSameContainers(p, q, Appended(p, req), SIDECAR);
    SameNamesSameContainers(p, q, Appended(p, req), PROXY);
  }

  /** A request for neither container leaves the pod as it is; any other request labels it,
      and afterwards the pod has what was asked for. */
  lemma RequestIsMet(cfg: Settings, p: Pod, req: Request)
    ensures var q := Injected(cfg, p, req);
            && (req.sidecar ==> HasContainer(q, SIDECAR))
            && (req.proxy ==> HasContainer(q, PROXY))
            && q.labels == if req.sidecar || req.proxy then p.labels[INJECTED_LABEL := "true"] else p.labels
  {
    ContainersFit(cfg, p, req);
    InjectedLabels(p, req, Sidecar(cfg, p, req), Proxy(cfg, req));
    RequestIsMetWith(p, req, Sidecar(cfg, p, req), Proxy(cfg, req), Injected(cfg, p, req));
  }

  lemma NothingLeftToInject(q: Pod, req: Request, sidecar: Container, proxy: Container)
    requires req.sidecar ==> HasContainer(q, SIDECAR)
    requires req.proxy ==> HasContainer(q, PROXY)
    requires req.sidecar || req.proxy ==> q.labels[INJECTED_LABEL := "true"] == q.labels
    ensures InjectedWith(q, req, sidecar, proxy) == q
  {}

  /** Injecting twice is injecting once. */
  lemma InjectIdempotent(cfg: Settings, p: Pod, req: Request)
    ensures Injected(cfg, Injected(cfg, p, req), req) == Injected(cfg, p, req)
  {
    var q := Injected(cfg, p, req);
    RequestIsMet(cfg, p, req);
    NothingLeftToInject(q, req, Sidecar(cfg, q, req), Proxy(cfg, req));
  }

  /** The pod with the media volume mounted into its own containers or not, and some
      containers appended. */
  ghost predicate Extends(p: Pod, q: Pod, path: string, mounted: bool, extra: seq<Container>) {
    && q.inits == (if mounted then MountAll(p.inits, path) else p.inits)
    && q.containers == (if mounted then MountAll(p.containers, path) else p.containers) + extra
    && p.volumes <= q.volumes
    && (mounted ==> HasVolume(q, VOLUME))
  }

  lemma ExtraNames(p: Pod, req: Request, sidecar: Container, proxy: Container)
    requires Fit(sidecar, proxy, req)
    ensures Names(Extra(p, req, sidecar, proxy)) == Appended(p, req)
  {}

  lemma InjectedContainers(p: Pod, req: Request, sidecar: Container, proxy: Container)
    requires Fit(sidecar, proxy, req)
    ensures InjectedWith(p, req, sidecar, proxy).containers
            == (if AddsSidecar(p, req) then MountAll(p.containers, MediaPath(req)) else p.containers)
               + Extra(p, req, sidecar, proxy)
  {
    StepNames(p, req, sidecar, proxy);
    if AddsSidecar(p, req) {
      SidecarContainers(p, sidecar, req);
    }
  }

  lemma InjectedExtends(p: Pod, req: Request, sidecar: Container, proxy: Container)
    requires Fit(sidecar, proxy, req)
    ensures var q := InjectedWith(p, req, sidecar, proxy);
            && Extends(p, q, MediaPath(req), AddsSidecar(p, req), Extra(p, req, sidecar, proxy))
            && q.volumes == (if AddsSidecar(p, req) then WithVolume(p, req).volumes else p.volumes)
  {
    InjectedContainers(p, req, sidecar, proxy);
    if AddsSidecar(p, req) {
      SidecarContainers(p, sidecar, req);
    }
  }

  lemma ExtendedContainer(p: Pod, q: Pod, path: string, mounted: bool, extra: seq<Container>, i: nat)
    requires Extends(p, q, path, mounted, extra) && i < |p.containers|
    ensures |q.containers| == |p.containers| + |extra| && q.containers[|p.containers|..] == extra
    ensures q.containers[i] == if mounted then MountOwn(p.containers[i], path) else p.containers[i]
  {}

  /** An existing container after injection: it keeps its place and everything it has, and
      gains at most one mount. */
  ghost predicate Stays(p: Pod, q: Pod, req: Request, i: nat)
    requires i < |p.containers|
  {
    var c := p.containers[i];
    var gains := AddsSidecar(p, req) && !Injectable(c.name) && !Occupied(c, VOLUME, MediaPath(req));
    && |q.containers| == |p.containers| + |Appended(p, req)|
    && q.containers[i] == c.(mounts := c.mounts + When(gains, Mount(VOLUME, MediaPath(req), false)))
    && Names(q.containers[|p.containers|..]) == Appended(p, req)
    && p.volumes <= q.volumes && |q.volumes| <= |p.volumes| + 1
  }

  lemma StaysWith(p: Pod, req: Request, sidecar: Container, proxy: Container, i: nat)
    requires Fit(sidecar, proxy, req) && i < |p.containers|
    ensures Stays(p, InjectedWith(p, req, sidecar, proxy), req, i)
  {
    var (q, c) := (InjectedWith(p, req, sidecar, proxy), p.containers[i]);
    InjectedExtends(p, req, sidecar, proxy);
    ExtraNames(p, req, sidecar, proxy);
    ExtendedContainer(p, q, MediaPath(req), AddsSidecar(p, req), Extra(p, req, sidecar, proxy), i);
    assert c.mounts + [] == c.mounts;
  }

  /** Nothing is reordered, renamed or removed: an existing container keeps its place and gains
      at most one mount, exactly when a sidecar is added, it is the workload's own, and it
      uses neither the media volume nor the media path yet. The new containers come last. */
  lemma ExistingContainersStay(cfg: Settings, p: Pod, req: Request, i: nat)
    requires i < |p.containers|
    ensures Stays(p, Injected(cfg, p, req), req, i)
  {
    ContainersFit(cfg, p, req);
    StaysWith(p, req, Sidecar(cfg, p, req), Proxy(cfg, req), i);
  }

  /** And so do init containers, to which none is added. */
  lemma InitContainersStay(cfg: Settings, p: Pod, req: Request, i: nat)
    requires i < |p.inits|
    ensures var (q, c) := (Injected(cfg, p, req), p.inits[i]);
            var gains := AddsSidecar(p, req) && !Injectable(c.name) && !Occupied(c, VOLUME, MediaPath(req));
            && |q.inits| == |p.inits|
            && q.inits[i] == c.(mounts := c.mounts + When(gains, Mount(VOLUME, MediaPath(req), false)))
  {
    ContainersFit(cfg, p, req);
    InjectedExtends(p, req, Sidecar(cfg, p, req), Proxy(cfg, req));
    assert p.inits[i].mounts + [] == p.inits[i].mounts;
  }

  lemma ExtendedNames(p: Pod, q: Pod, path: string, mounted: bool, extra: seq<Container>)
    requires Extends(p, q, path, mounted, extra)
    ensures Names(q.inits + q.containers) == Names(p.inits + p.containers) + Names(extra)
  {}

  /** Appending to distinct names keeps them distinct exactly when none is used already. */
  lemma DistinctAppend(names: seq<string>, more: seq<string>)
    requires Distinct(names) && Distinct(more)
    ensures Distinct(names + more) <==> forall i | 0 <= i < |names| :: names[i] !in more
  {
    if i :| 0 <= i < |names| && names[i] in more {
      var j :| 0 <= j < |more| && more[j] == names[i];
      assert (names + more)[i] == (names + more)[|names| + j];
    }
  }

  lemma GoodMountsAfter(cs: seq<Container>, p: Pod, q: Pod, path: string, mounted: bool)
    requires AllGoodMounts(cs, p) && p.volumes <= q.volumes && (mounted ==> HasVolume(q, VOLUME))
    ensures AllGoodMounts(if mounted then MountAll(cs, path) else cs, q)
  {}

  lemma ExtraMounts(p: Pod, req: Request, sidecar: Container, proxy: Container, q: Pod)
    requires Fit(sidecar, proxy, req) && (AddsSidecar(p, req) ==> HasVolume(q, VOLUME))
    ensures AllGoodMounts(Extra(p, req, sidecar, proxy), q)
  {}

  lemma MountsAppend(a: seq<Container>, b: seq<Container>, p: Pod)
    requires AllGoodMounts(a, p) && AllGoodMounts(b, p)
    ensures AllGoodMounts(a + b, p)
  {
    forall i | 0 <= i < |a + b| ensures GoodMounts((a + b)[i], p) {
      assert (a + b)[i] == if i < |a| then a[i] else b[i - |a|];
    }
  }

  lemma ExtendedMounts(p: Pod, q: Pod, path: string, mounted: bool, extra: seq<Container>)
    requires Extends(p, q, path, mounted, extra)
    requires AllGoodMounts(p.inits, p) && AllGoodMounts(p.containers, p) && AllGoodMounts(extra, q)
    ensures AllGoodMounts(q.inits, q) && AllGoodMounts(q.containers, q)
  {
    GoodMountsAfter(p.inits, p, q, path, mounted);
    GoodMountsAfter(p.containers, p, q, path, mounted);
    MountsAppend(if mounted then MountAll(p.containers, path) else p.containers, extra, q);
  }

  lemma ContainerUsesNoAppendedName(p: Pod, req: Request, i: nat)
    requires i < |p.containers|
    ensures p.containers[i].name !in Appended(p, req)
  {}

  lemma NamesCollide(p: Pod, req: Request)
    requires Distinct(Names(p.inits + p.containers))
    ensures Distinct(Names(p.inits + p.containers) + Appended(p, req)) <==> !Collides(p, req)
  {
    var (names, more) := (Names(p.inits + p.containers), Appended(p, req));
    DistinctAppend(names, more);
    if Collides(p, req) {
      var i :| 0 <= i < |p.inits| && p.inits[i].name in more;
      assert names[i] in more;
    } else {
      forall k | 0 <= k < |names| ensures names[k] !in more {
        if k < |p.inits| {
          assert names[k] == p.inits[k].name;
        } else {
          ContainerUsesNoAppendedName(p, req, k - |p.inits|);
        }
      }
    }
  }

  /** Injection keeps a well-formed pod well-formed, unless an init container already has
      the name of a container it appends; then, and only then, it breaks the pod. */
  lemma InjectKeepsWellFormed(cfg: Settings, p: Pod, req: Request)
    requires WellFormed(p)
    ensures WellFormed(Injected(cfg, p, req)) <==> !Collides(p, req)
  {
    ContainersFit(cfg, p, req);
    KeepsWellFormed(p, req, Sidecar(cfg, p, req), Proxy(cfg, req));
  }

  lemma KeepsWellFormed(p: Pod, req: Request, sidecar: Container, proxy: Container)
    requires WellFormed(p) && Fit(sidecar, proxy, req)
    ensures WellFormed(InjectedWith(p, req, sidecar, proxy)) <==> !Collides(p, req)
  {
    var (q, extra) := (InjectedWith(p, req, sidecar, proxy), Extra(p, req, sidecar, proxy));
    InjectedExtends(p, req, sidecar, proxy);
    ExtraNames(p, req, sidecar, proxy);
    ExtraMounts(p, req, sidecar, proxy, q);
    ExtendedMounts(p, q, MediaPath(req), AddsSidecar(p, req), extra);
    ExtendedNames(p, q, MediaPath(req), AddsSidecar(p, req), extra);
    NamesCollide(p, req);
    VolumesStayDistinct(p, req);
  }

  lemma VolumesStayDistinct(p: Pod, req: Request)
    requires DistinctVolumes(p)
    ensures DistinctVolumes(WithVolume(p, req))
  {}
}
