/** Webhook, controller and the two programs are separate; here the ports, addresses, tokens and
    URLs that one of them chooses are those that the others rely on. */
module Agreement {
  import opened Core
  import opened Text
  import opened Decimal
  import Annotations
  import Cluster
  import Effects
  import Environment
  import ProxyConfig
  import Reconciling
  import SidecarConfig
  import opened Webhook

  // ------------------------------------------------------------------ what injection appends

  /** The appended sidecar has the configured image, the two ports, the media volume read-only at
      the media path, and the environment that its configuration is read from. */
  ghost predicate IsSidecar(c: Container, cfg: Settings, p: Pod, req: Request) {
    && c.name == "media-sidecar" && c.image == cfg.sidecarImage
    && c.pullPolicy == (if ':' in c.image && !HasSuffix(c.image, ":latest") then "IfNotPresent" else "")
    && c.ports == [ContainerPort("serve", 8090), ContainerPort("mint", 8091)]
    && c.mounts == [Mount("media-volume", MediaPath(req), true)]
    && forall secrets: string -> string, name ::
         Environment.Lookup(c.env, secrets, name) == SidecarConfig.InjectedEnv(cfg, p, req, secrets)(name)
  }

  ghost predicate IsProxy(c: Container, cfg: Settings, req: Request) {
    && c.name == "mcp-media-proxy" && c.image == cfg.proxyImage
    && c.ports == [ContainerPort("mcp", 5780)] && c.mounts == []
    && forall secrets: string -> string, name ::
         Environment.Lookup(c.env, secrets, name) == ProxyConfig.InjectedEnv(cfg, req, secrets)(name)
  }

  lemma SidecarIsSidecar(cfg: Settings, p: Pod, req: Request)
    ensures IsSidecar(Sidecar(cfg, p, req), cfg, p, req)
  {}

  lemma ProxyIsProxy(cfg: Settings, req: Request)
    ensures IsProxy(Proxy(cfg, req), cfg, req)
  {}

  /** What injection appends to the containers, sidecar first. */
  lemma InjectedPod(cfg: Settings, p: Pod, req: Request)
    ensures var (q, n) := (Injected(cfg, p, req), |p.containers|);
            var (first, second) := (AddsSidecar(p, req), AddsProxy(p, req));
            && |q.containers| == n + (if first then 1 else 0) + (if second then 1 else 0)
            && (first ==> IsSidecar(q.containers[n], cfg, p, req))
            && (second ==> IsProxy(q.containers[|q.containers| - 1], cfg, req))
  {
    var (q, sidecar, proxy) := (Injected(cfg, p, req), Sidecar(cfg, p, req), Proxy(cfg, req));
    ContainersFit(cfg, p, req);
    SidecarIsSidecar(cfg, p, req);
    ProxyIsProxy(cfg, req);
    InjectedExtends(p, req, sidecar, proxy);
    AppendedAt(p, q, MediaPath(req), req, sidecar, proxy);
  }

  lemma AppendedAt(p: Pod, q: Pod, path: string, req: Request, sidecar: Container, proxy: Container)
    requires Extends(p, q, path, AddsSidecar(p, req), Extra(p, req, sidecar, proxy))
    ensures |q.containers| == |p.containers| + |Extra(p, req, sidecar, proxy)|
    ensures AddsSidecar(p, req) ==> q.containers[|p.containers|] == sidecar
    ensures AddsProxy(p, req) ==> q.containers[|q.containers| - 1] == proxy
  {
    var (mounted, extra) := (if AddsSidecar(p, req) then MountAll(p.containers, path) else p.containers,
                             Extra(p, req, sidecar, proxy));
    assert extra != [] ==> q.containers[|mounted|] == extra[0];
    assert extra != [] ==> q.containers[|q.containers| - 1] == extra[|extra| - 1];
  }

  /** And to the volumes: the claim that was asked for, read-only, or an empty directory, unless a
      media volume is there. */
  lemma InjectedVolumes(cfg: Settings, p: Pod, req: Request)
    ensures var q := Injected(cfg, p, req);
            q.volumes
            == if !AddsSidecar(p, req) || HasVolume(p, "media-volume") then p.volumes
               else p.volumes + [Volume("media-volume",
                 if req.volumeName in {"", "empty"} then EmptyDir else ReadOnlyClaim(req.volumeName))]
  {
    ContainersFit(cfg, p, req);
    InjectedExtends(p, req, Sidecar(cfg, p, req), Proxy(cfg, req));
  }

  /** And what that means for annotations: who is injected, and which claim is mounted. A claim or
      secret named in accepted annotations can be one. */
  lemma AnnotatedPod(cfg: Settings, p: Pod, annotations: map<string, string>)
    requires Annotations.Accepted(Annotations.Requested(annotations))
    ensures var (req, q) := (Annotations.Requested(annotations), Injected(cfg, p, Annotations.Requested(annotations)));
            var (claim, secret) :=
              (Annotated(annotations, "media.media/volume-name", "empty"),
               Annotated(annotations, "media.media/auth-token-secret", ""));
            && (AddsSidecar(p, req) <==>
                  && !HasContainer(p, "media-sidecar")
                  && Annotated(annotations, "media.media/inject-sidecar", "") == "true")
            && (AddsProxy(p, req) <==>
                  && !HasContainer(p, "mcp-media-proxy")
                  && Annotated(annotations, "media.media/inject-proxy", "") == "true")
            && (AddsSidecar(p, req) && !HasVolume(p, "media-volume") ==>
                  && q.volumes
                     == p.volumes + [Volume("media-volume", if claim == "empty" then EmptyDir else ReadOnlyClaim(claim))]
                  && (claim != "empty" ==> Annotations.IsLabel(claim)))
            && (AddsProxy(p, req) && secret != "" ==> Annotations.IsLabel(secret))
  {
    InjectedVolumes(cfg, p, Annotations.Requested(annotations));
  }

  // ------------------------------------------------------------------ annotations to programs

  /** The sidecar injected for the request starts, with this configuration. */
  ghost predicate SidecarRuns(
    cfg: Settings, p: Pod, req: Request, secrets: string -> string, urlOk: string -> bool,
    parse: string -> Option<int>, c: SidecarConfig.Config)
  {
    var v := SidecarConfig.Read(SidecarConfig.InjectedEnv(cfg, p, req, secrets));
    SidecarConfig.Sound(v, urlOk, parse) && c == SidecarConfig.Described(v, parse)
  }

  /** The proxy injected for the request starts, with this configuration. */
  ghost predicate ProxyRuns(
    cfg: Settings, req: Request, secrets: string -> string, urlOk: string -> bool, regexOk: string -> bool,
    c: ProxyConfig.Config)
  {
    var v := ProxyConfig.Read(ProxyConfig.InjectedEnv(cfg, req, secrets));
    && Annotations.Accepted(req) && req.proxy && ProxyConfig.LocalhostUrls(urlOk)
    && ProxyConfig.Sound(v, urlOk, regexOk) && c == ProxyConfig.Described(v)
  }

  lemma PortDigits()
    ensures FormatInt(MINT_PORT) == "8091" && FormatInt(SERVE_PORT) == "8090" && FormatInt(LISTEN_PORT) == "5780"
  {}

  lemma SidecarListens(
    cfg: Settings, p: Pod, req: Request, secrets: string -> string, urlOk: string -> bool,
    parse: string -> Option<int>, c: SidecarConfig.Config)
    requires SidecarRuns(cfg, p, req, secrets, urlOk, parse, c)
    ensures c.serveAddr == ":8090" && c.mintAddr == ":8091" && c.token == secrets(cfg.tokenSecret)
  {
    SidecarConfig.InjectedSidecarStarts(cfg, p, req, secrets, urlOk, parse);
    SidecarConfig.DefaultAddresses();
  }

  function Annotated(annotations: map<string, string>, key: string, otherwise: string): string {
    if key in annotations && annotations[key] != "" then annotations[key] else otherwise
  }

  /** From annotations to the sidecar's configuration: its roots are the volume path, or /data, its
      public URL is the annotated one, and its secrets are the configured ones. */
  lemma AnnotatedSidecar(
    cfg: Settings, p: Pod, annotations: map<string, string>, secrets: string -> string, urlOk: string -> bool,
    parse: string -> Option<int>, c: SidecarConfig.Config)
    requires SidecarRuns(cfg, p, Annotations.Requested(annotations), secrets, urlOk, parse, c)
    ensures c.roots == SidecarConfig.RootsOf(Annotated(annotations, "media.media/volume-path", "/data"))
    ensures Annotated(annotations, "media.media/public-url", "") != "" ==>
              c.publicBaseUrl == annotations["media.media/public-url"]
    ensures c.secret == secrets(cfg.signingSecret) && c.token == secrets(cfg.tokenSecret)
  {
    SidecarConfig.InjectedSidecarStarts(cfg, p, Annotations.Requested(annotations), secrets, urlOk, parse);
  }

  /** From annotations to what the proxy connects to. The group counts when no mint URL is
      annotated, and the sidecar in the pod when there is no group either. */
  lemma AnnotatedProxyUrls(
    cfg: Settings, annotations: map<string, string>, secrets: string -> string, urlOk: string -> bool,
    regexOk: string -> bool, c: ProxyConfig.Config)
    requires ProxyRuns(cfg, Annotations.Requested(annotations), secrets, urlOk, regexOk, c)
    ensures var (group, mint) := (Annotated(annotations, "media.media/group", ""),
                              Annotated(annotations, "media.media/mint-url", ""));
            c.mintUrl == if mint != "" then mint
                         else if group != "" then "http://" + group + "-sidecar-service:" + "8091"
                         else "http://localhost:" + "8091"
    ensures c.mode.Full? ==>
              c.upstreamUrl == "http://localhost:" + Annotated(annotations, "media.media/upstream-port", "")
    ensures c.fetchBaseUrl == ""
  {
    PortDigits();
    ProxyConfig.InjectedProxyStarts(cfg, Annotations.Requested(annotations), secrets, urlOk, regexOk);
  }

  /** And to the rest of its configuration. */
  lemma AnnotatedProxySettings(
    cfg: Settings, annotations: map<string, string>, secrets: string -> string, urlOk: string -> bool,
    regexOk: string -> bool, c: ProxyConfig.Config)
    requires ProxyRuns(cfg, Annotations.Requested(annotations), secrets, urlOk, regexOk, c)
    ensures c.mode.Standalone? <==> Annotated(annotations, "media.media/proxy-mode", "full") == "standalone"
    ensures c.mode.Full? ==> c.toolMatch == Annotated(annotations, "media.media/tool-match", "")
    ensures c.token == secrets(cfg.tokenSecret)
    ensures var auth := Annotated(annotations, "media.media/auth-token-secret", "");
            c.authToken == if auth == "" then "" else secrets(auth)
    ensures var limit := Annotated(annotations, "media.media/inline-max-bytes", "");
            if limit == "" then c.inlineMaxBytes == 102400 else ParseInt(limit) == Some(c.inlineMaxBytes)
  {
    ProxyConfig.InjectedProxyStarts(cfg, Annotations.Requested(annotations), secrets, urlOk, regexOk);
  }

  // ------------------------------------------------------------------ within one pod

  /** Sidecar and proxy of one pod agree: the proxy mints where the sidecar listens for minting,
      unless told otherwise, and sends the token the sidecar expects. */
  lemma ProxyMintsAtSidecar(
    cfg: Settings, p: Pod, req: Request, secrets: string -> string, urlOk: string -> bool, regexOk: string -> bool,
    parse: string -> Option<int>, proxy: ProxyConfig.Config, sidecar: SidecarConfig.Config)
    requires req.sidecar && req.mintUrl == "" && req.group == ""
    requires SidecarRuns(cfg, p, req, secrets, urlOk, parse, sidecar)
    requires ProxyRuns(cfg, req, secrets, urlOk, regexOk, proxy)
    ensures proxy.mintUrl == "http://localhost" + sidecar.mintAddr && proxy.token == sidecar.token
  {
    SidecarListens(cfg, p, req, secrets, urlOk, parse, sidecar);
    ProxyMintsLocally(cfg, req, secrets, urlOk, regexOk, proxy);
    LocalhostAddress(sidecar.mintAddr);
  }

  lemma ProxyMintsLocally(
    cfg: Settings, req: Request, secrets: string -> string, urlOk: string -> bool, regexOk: string -> bool,
    proxy: ProxyConfig.Config)
    requires req.sidecar && req.mintUrl == "" && req.group == ""
    requires ProxyRuns(cfg, req, secrets, urlOk, regexOk, proxy)
    ensures proxy.mintUrl == "http://localhost:" + "8091" && proxy.token == secrets(cfg.tokenSecret)
  {
    PortDigits();
    ProxyConfig.InjectedProxyStarts(cfg, req, secrets, urlOk, regexOk);
  }

  lemma LocalhostAddress(address: string)
    requires address == ":8091"
    ensures "http://localhost:" + "8091" == "http://localhost" + address
  {
    assert address == ":" + "8091";
    assert "http://localhost:" == "http://localhost" + ":";
  }

  // ------------------------------------------------------------------ controller and pods

  /** Whoever comes in through the media ingress of a workload reaches the address on which its
      injected sidecar serves files, and never the one on which it mints. */
  lemma IngressReachesFileServer(
    order: seq<string>, s: Cluster.State, name: string, cfg: Settings, p: Pod, req: Request,
    secrets: string -> string, urlOk: string -> bool, parse: string -> Option<int>, sidecar: SidecarConfig.Config)
    requires name in s.workloads && Reconciling.Owned(s, name) && Cluster.WantsSidecar(s.workloads[name])
    requires SidecarRuns(cfg, p, req, secrets, urlOk, parse, sidecar)
    ensures var (s', m) := (Cluster.Reconcile(order, s, name).0, Cluster.MediaName(name));
            && m in s'.ingresses && m in s'.services
            && var (ing, svc) := (s'.ingresses[m], s'.services[m]);
               && |ing.rules| == 1 && |ing.rules[0].backends| == 1 && ing.rules[0].backends[0].service == m
               && svc.selector == s.workloads[name].selector
               && Reaches(svc, ing.rules[0].backends[0].port, sidecar.serveAddr)
               && !Reaches(svc, ing.rules[0].backends[0].port, sidecar.mintAddr)
  {
    Effects.MediaIngressRoutes(order, s, name);
    Effects.SidecarObjects(order, s, name);
    SidecarListens(cfg, p, req, secrets, urlOk, parse, sidecar);
    MediaPortsReach(Cluster.Reconcile(order, s, name).0.services[Cluster.MediaName(name)]);
  }

  /** Some port of the service with this number leads to the address. */
  ghost predicate Reaches(svc: Cluster.Service, port: int, address: string) {
    exists i | 0 <= i < |svc.ports| :: svc.ports[i].port == port && ":" + FormatInt(svc.ports[i].target) == address
  }

  lemma MediaPortsReach(svc: Cluster.Service)
    requires svc.ports == [Cluster.Port("serve", 8090, 8090), Cluster.Port("mint", 8091, 8091)]
    ensures Reaches(svc, 8090, ":8090") && !Reaches(svc, 8090, ":8091")
  {
    PortDigits();
    assert ":" + FormatInt(svc.ports[0].target) == ":8090";
    assert ":8090"[4] != ":8091"[4];
  }

  /** Whoever comes in through the service of a proxied workload, by its upstream port, reaches the
      address on which the injected proxy listens. */
  lemma ServiceReachesProxy(
    order: seq<string>, s: Cluster.State, name: string, i: nat, cfg: Settings, req: Request,
    secrets: string -> string, urlOk: string -> bool, regexOk: string -> bool, proxy: ProxyConfig.Config)
    requires name in s.workloads && Reconciling.Owned(s, name) && Cluster.WantsProxy(s.workloads[name])
    requires Cluster.UpstreamPort(s.workloads[name]).Some? && name in s.services && i < |s.services[name].ports|
    requires s.services[name].ports[i].port == Wrap32(Cluster.UpstreamPort(s.workloads[name]).value)
    requires ProxyRuns(cfg, req, secrets, urlOk, regexOk, proxy)
    ensures var s' := Cluster.Reconcile(order, s, name).0;
            name in s'.services && Reaches(s'.services[name], s.services[name].ports[i].port, proxy.listenAddr)
  {
    Effects.UpstreamTurned(order, s, name);
    ProxyConfig.InjectedProxyStarts(cfg, req, secrets, urlOk, regexOk);
    var svc := Cluster.Reconcile(order, s, name).0.services[name];
    assert svc.ports[i].port == s.services[name].ports[i].port;
    assert ":" + FormatInt(svc.ports[i].target) == proxy.listenAddr;
  }

  /** The pod's name for itself when no public URL is given: that of its instance, else name, else
      app label, else the pod's own. */
  predicate CalledBy(p: Pod, name: string) {
    var (instance, title, app) :=
      (Get(p.labels, "app.kubernetes.io/instance"), Get(p.labels, "app.kubernetes.io/name"), Get(p.labels, "app"));
    && (instance != "" ==> name == instance)
    && (instance == "" && title != "" ==> name == title)
    && (instance == "" && title == "" && app != "" ==> name == app)
    && (instance == "" && title == "" && app == "" ==> name == p.name)
  }

  /** The default public URL of a pod called like its workload names the media service that the
      controller keeps, by the port for files. */
  lemma DefaultUrlNamesMediaService(
    order: seq<string>, s: Cluster.State, name: string, p: Pod, req: Request)
    requires name in s.workloads && Reconciling.Owned(s, name) && Cluster.WantsSidecar(s.workloads[name])
    requires CalledBy(p, name) && req.publicUrl == ""
    ensures var (s', m) := (Cluster.Reconcile(order, s, name).0, Cluster.MediaName(name));
            && m in s'.services
            && exists i | 0 <= i < |s'.services[m].ports| ::
                 && s'.services[m].ports[i].name == "serve"
                 && PublicUrl(p, req)
                    == "http://" + m + "." + p.namespace + ".svc:" + FormatInt(s'.services[m].ports[i].port)
  {
    Effects.SidecarObjects(order, s, name);
    var svc := Cluster.Reconcile(order, s, name).0.services[Cluster.MediaName(name)];
    assert svc.ports[0] == Cluster.Port("serve", 8090, 8090);
    assert "http://" + name + "-media." + p.namespace == "http://" + (name + "-media") + "." + p.namespace;
  }
}
