/** The objects the controller reads and writes, in one namespace, and one reconcile of a
    workload (internal/controller). */
module Cluster {
  import opened Core
  import opened Text
  import opened Decimal

  datatype Port = Port(name: string, port: int, target: int)

  datatype Service = Service(
    selector: map<string, string>, ports: seq<Port>, labels: map<string, string>, owner: Option<string>)

  /** A backend: the service routed to for a path prefix. */
  datatype Backend = Backend(path: string, service: string, port: int)

  /** A rule without an HTTP part has no backends. */
  datatype Rule = Rule(host: string, backends: seq<Backend>)

  datatype Tls = Tls(hosts: seq<string>, secret: string)

  datatype Ingress = Ingress(
    className: Option<string>, rules: seq<Rule>, tls: seq<Tls>, annotations: map<string, string>, owner: Option<string>)

  datatype EnvVar = EnvVar(name: string, value: string)

  datatype Container = Container(name: string, ports: seq<int>, env: seq<EnvVar>)

  datatype Kind = Deployment | StatefulSet

  /** Annotations and containers are those of the pod template. */
  datatype Workload = Workload(
    kind: Kind, annotations: map<string, string>, selector: map<string, string>, containers: seq<Container>)

  datatype State = State(
    workloads: map<string, Workload>, services: map<string, Service>, ingresses: map<string, Ingress>)

  datatype Outcome = Done | Failed | Requeue

  const SUFFIX: string := "-media"
  const SERVE_PORT: int := 8090
  const MINT_PORT: int := 8091
  const PROXY_PORT: int := 5780
  const SIDECAR: string := "media-sidecar"
  const PUBLIC_URL: string := "MEDIA_PUBLIC_BASE_URL"
  const ISSUER: string := "cert-manager.io/cluster-issuer"
  const GROUP: string := "media.media/group"

  predicate WantsSidecar(w: Workload) {
    Get(w.annotations, "media.media/inject-sidecar") == "true"
  }

  predicate WantsProxy(w: Workload) {
    Get(w.annotations, "media.media/inject-proxy") == "true"
  }

  function MediaName(name: string): string {
    name + SUFFIX
  }

  /** SetControllerReference: an object controlled by another owner is refused. */
  predicate Ownable(owner: Option<string>, name: string) {
    owner.None? || owner == Some(name)
  }

  // ------------------------------------------------------------------ media service

  const MEDIA_PORTS: seq<Port> :=
    [Port("serve", SERVE_PORT, SERVE_PORT), Port("mint", MINT_PORT, MINT_PORT)]

  function MediaService(previous: Option<Service>, name: string, w: Workload): Service {
    var labels := if previous.Some? then previous.value.labels else map[];
    var group := Get(w.annotations, GROUP);
    Service(w.selector, MEDIA_PORTS, if group != "" then labels[GROUP := group] else labels, Some(name))
  }

  // ------------------------------------------------------------------ source ingress

  function Services(ing: Ingress): set<string> {
    set i, j | 0 <= i < |ing.rules| && 0 <= j < |ing.rules[i].backends| :: ing.rules[i].backends[j].service
  }

  /** The backend names the workload's own service or one with the workload's selector. */
  predicate RoutesTo(s: State, name: string, w: Workload, service: string) {
    && service != MediaName(name)
    && (service == name || (service in s.services && s.services[service].selector == w.selector))
  }

  /** The ingress is a candidate: not the own media ingress, and some backend routes to the workload. */
  predicate IsSource(s: State, name: string, w: Workload, ingress: string) {
    && ingress in s.ingresses && ingress != MediaName(name)
    && exists b | b in Services(s.ingresses[ingress]) :: RoutesTo(s, name, w, b)
  }

  /** The first candidate in list order. */
  function FindSource(order: seq<string>, s: State, name: string, w: Workload): (r: Option<string>)
    ensures r.None? <==> forall i | 0 <= i < |order| :: !IsSource(s, name, w, order[i])
    ensures r.Some? ==>
              exists i | 0 <= i < |order| ::
                && order[i] == r.value && IsSource(s, name, w, order[i])
                && forall j | 0 <= j < i :: !IsSource(s, name, w, order[j])
  {
    if order == [] then None
    else if IsSource(s, name, w, order[0]) then Some(order[0])
    else
      var r := FindSource(order[1..], s, name, w);
      assert order == [order[0]] + order[1..];
      assert r.Some? ==>
          forall i | 0 <= i < |order[1..]| && order[1..][i] == r.value :: order[i + 1] == r.value;
      r
  }

  // ------------------------------------------------------------------ media ingress

  /** The media suffix goes on the first label of the host. */
  function InheritedHost(host: string, name: string): string {
    if host == "" then name + SUFFIX
    else
      match Cut(host, '.')
      case Some((first, rest)) => first + SUFFIX + "." + rest
      case None => host + SUFFIX
  }

  function Deref(s: Option<string>): string {
    if s.Some? then s.value else ""
  }

  function OrElse(s: string, fallback: string): string {
    if s == "" then fallback else s
  }

  datatype Shape = Shape(className: string, host: string, issuer: string, tlsSecret: string)

  /** Annotations first, then the source ingress, then the defaults. The source is looked at
      only when class, host or issuer is not annotated. */
  function ShapeOf(name: string, w: Workload, source: Option<Ingress>): Shape {
    var a := w.annotations;
    var (cls, host, issuer, tls) :=
      (Get(a, "media.media/ingress-class"), Get(a, "media.media/ingress-host"),
       Get(a, "media.media/cert-issuer"), Get(a, "media.media/ingress-tls-secret"));
    var (cls1, host1, issuer1, tls1) :=
      if source.Some? && (cls == "" || host == "" || issuer == "") then
        var src := source.value;
        (OrElse(cls, Deref(src.className)),
         if host == "" && src.rules != [] then InheritedHost(src.rules[0].host, name) else host,
         OrElse(issuer, Get(src.annotations, ISSUER)),
         OrElse(tls, if src.tls == [] then "" else src.tls[0].secret))
      else (cls, host, issuer, tls);
    Shape(OrElse(cls1, "tailscale"), OrElse(host1, name + SUFFIX), issuer1, tls1)
  }

  function MediaIngress(previous: Option<Ingress>, name: string, shape: Shape): Ingress {
    var annotations := if previous.Some? then previous.value.annotations else map[];
    Ingress(
      Some(shape.className),
      [Rule(shape.host, [Backend("/", MediaName(name), SERVE_PORT)])],
      if shape.tlsSecret != "" then [Tls([shape.host], shape.tlsSecret)]
      else if shape.className == "tailscale" then [Tls([shape.host], "")]
      else [],
      if shape.issuer != "" then annotations[ISSUER := shape.issuer] else annotations,
      Some(name))
  }

  // ------------------------------------------------------------------ sidecar environment

  predicate HasPublicUrl(c: Container, url: string) {
    c.name == SIDECAR && EnvVar(PUBLIC_URL, url) in c.env
  }

  /** One container of the template with the sidecar's public URL set. */
  function WithPublicUrl(c: Container, url: string): Container {
    if c.name != SIDECAR then c
    else if exists e | e in c.env :: e.name == PUBLIC_URL then
      c.(env := seq(|c.env|, i requires 0 <= i < |c.env| =>
                      if c.env[i].name == PUBLIC_URL then c.env[i].(value := url) else c.env[i]))
    else c.(env := c.env + [EnvVar(PUBLIC_URL, url)])
  }

  /** The template patch: nothing when some sidecar already has the value. */
  function PatchedContainers(containers: seq<Container>, url: string): seq<Container> {
    if exists i | 0 <= i < |containers| :: HasPublicUrl(containers[i], url) then containers
    else seq(|containers|, i requires 0 <= i < |containers| => WithPublicUrl(containers[i], url))
  }

  // ------------------------------------------------------------------ upstream service

  function FirstPort(containers: seq<Container>): string {
    if containers == [] then ""
    else if containers[0].ports != [] then FormatInt(containers[0].ports[0])
    else FirstPort(containers[1..])
  }

  /** The upstream port: annotated, or the first container port. None when missing or not a number. */
  function UpstreamPort(w: Workload): Option<int> {
    var annotated := Get(w.annotations, "media.media/upstream-port");
    ParseInt(OrElse(annotated, FirstPort(w.containers)))
  }

  function Retarget(ports: seq<Port>, up: int): seq<Port> {
    seq(|ports|, i requires 0 <= i < |ports| =>
          if ports[i].port == Wrap32(up) then ports[i].(target := PROXY_PORT) else ports[i])
  }

  // ------------------------------------------------------------------ reconcile

  function Lookup<T>(m: map<string, T>, key: string): Option<T> {
    if key in m then Some(m[key]) else None
  }

  function EnsureService(s: State, name: string, w: Workload): State {
    s.(services := s.services[MediaName(name) := MediaService(Lookup(s.services, MediaName(name)), name, w)])
  }

  function Source(order: seq<string>, s: State, name: string, w: Workload): Option<Ingress> {
    match FindSource(order, s, name, w)
    case Some(n) => Some(s.ingresses[n])
    case None => None
  }

  function DesiredIngress(order: seq<string>, s: State, name: string, w: Workload): Ingress {
    MediaIngress(Lookup(s.ingresses, MediaName(name)), name, ShapeOf(name, w, Source(order, s, name, w)))
  }

  /** Only Deployments without an explicit public URL get the host of their media ingress. */
  function DesiredContainers(w: Workload, ing: Ingress): seq<Container> {
    if Get(w.annotations, "media.media/public-url") != "" || w.kind != Deployment
       || ing.rules == [] || ing.rules[0].host == "" then w.containers
    else PatchedContainers(w.containers, "https://" + ing.rules[0].host)
  }

  function EnsureIngress(order: seq<string>, s: State, name: string, w: Workload): State
    requires name in s.workloads
  {
    var ing := DesiredIngress(order, s, name, w);
    s.(ingresses := s.ingresses[MediaName(name) := ing],
       workloads := s.workloads[name := w.(containers := DesiredContainers(w, ing))])
  }

  /** Retargets the upstream ports of the service named like the workload. */
  function PatchUpstream(s: State, name: string, w: Workload): (State, Outcome) {
    match UpstreamPort(w)
    case None => (s, Requeue)
    case Some(up) =>
      if name !in s.services then (s, Requeue)
      else
        var svc := s.services[name];
        (s.(services := s.services[name := svc.(ports := Retarget(svc.ports, up))]), Done)
  }

  /** One reconcile of the workload called `name`. A media object owned by someone else stops
      it: before anything when it is the service, after the service when it is the ingress. */
  function Reconcile(order: seq<string>, s: State, name: string): (State, Outcome) {
    if name !in s.workloads then (s, Done)
    else
      var w := s.workloads[name];
      var svc := Lookup(s.services, MediaName(name));
      var ing := Lookup(s.ingresses, MediaName(name));
      if WantsSidecar(w) && svc.Some? && !Ownable(svc.value.owner, name) then (s, Failed)
      else
        var s1 := if WantsSidecar(w) then EnsureService(s, name, w) else s;
        if WantsSidecar(w) && ing.Some? && !Ownable(ing.value.owner, name) then (s1, Failed)
        else
          var s2 := if WantsSidecar(w) then EnsureIngress(order, s1, name, w) else s1;
          if WantsProxy(w) then PatchUpstream(s2, name, w) else (s2, Done)
  }
}
