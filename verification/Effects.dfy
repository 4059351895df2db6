/** What a reconcile achieves, in terms of the annotations and objects it starts from. */
module Effects {
  import opened Core
  import opened Text
  import opened Decimal
  import opened Cluster
  import opened Reconciling

  // ------------------------------------------------------------------ outcome

  /** A reconcile fails exactly when someone else owns a media object, and asks to be called
      again exactly when an upstream port cannot be patched yet. */
  lemma OutcomeExact(order: seq<string>, s: State, name: string)
    ensures var outcome := Reconcile(order, s, name).1;
            && (outcome == Failed <==>
                  && name in s.workloads && WantsSidecar(s.workloads[name])
                  && ((MediaName(name) in s.services && s.services[MediaName(name)].owner !in {None, Some(name)})
                      || (MediaName(name) in s.ingresses && s.ingresses[MediaName(name)].owner !in {None, Some(name)})))
            && (outcome == Requeue <==>
                  && name in s.workloads && Owned(s, name) && WantsProxy(s.workloads[name])
                  && (UpstreamPort(s.workloads[name]).None? || name !in s.services))
  {
    if name in s.workloads && Owned(s, name) {
      ReconcileOwned(order, s, name);
      AfterSidecarFrame(order, s, name);
    }
  }

  // ------------------------------------------------------------------ media service

  /** The media service exists, selects the workload's pods, belongs to the workload, and has its
      group, if it has one, as a label beside the labels it had before. */
  lemma MediaServiceSelects(order: seq<string>, s: State, name: string)
    requires name in s.workloads && Owned(s, name) && WantsSidecar(s.workloads[name])
    ensures var (s', m, w) := (Reconcile(order, s, name).0, MediaName(name), s.workloads[name]);
            var group := Get(w.annotations, "media.media/group");
            && m in s'.services && s'.services[m].selector == w.selector && s'.services[m].owner == Some(name)
            && (group != "" ==>
                  "media.media/group" in s'.services[m].labels && s'.services[m].labels["media.media/group"] == group)
            && forall k | k != "media.media/group" || group == "" ::
                 Lookup(s'.services[m].labels, k)
                 == if m in s.services then Lookup(s.services[m].labels, k) else None
  {
    SidecarObjects(order, s, name);
  }

  /** The media objects a reconcile leaves, as computed from the state it found. */
  lemma SidecarObjects(order: seq<string>, s: State, name: string)
    requires name in s.workloads && Owned(s, name) && WantsSidecar(s.workloads[name])
    ensures var (s', m, w) := (Reconcile(order, s, name).0, MediaName(name), s.workloads[name]);
            var s1 := EnsureService(s, name, w);
            && Lookup(s'.services, m) == Some(MediaService(Lookup(s.services, m), name, w))
            && Lookup(s'.ingresses, m) == Some(DesiredIngress(order, s1, name, w))
            && name in s'.workloads
            && s'.workloads[name].containers == DesiredContainers(w, DesiredIngress(order, s1, name, w))
  {
    SidecarParts(order, s, name);
    ReconcileOwned(order, s, name);
    PatchedStateParts(AfterSidecar(order, s, name), name, s.workloads[name]);
  }

  // ------------------------------------------------------------------ media ingress

  /** The media ingress has one rule with one backend for all paths: the media service of the
      workload, by the one of its ports that is called serve. All TLS hosts are the rule's. */
  lemma MediaIngressRoutes(order: seq<string>, s: State, name: string)
    requires name in s.workloads && Owned(s, name) && WantsSidecar(s.workloads[name])
    ensures var (s', m) := (Reconcile(order, s, name).0, MediaName(name));
            && m in s'.ingresses && m in s'.services
            && var (ing, ports) := (s'.ingresses[m], s'.services[m].ports);
               && |ing.rules| == 1 && |ing.rules[0].backends| == 1 && ing.owner == Some(name)
               && ing.rules[0].backends[0].path == "/" && ing.rules[0].backends[0].service == m
               && (exists i | 0 <= i < |ports| :: ports[i].port == ing.rules[0].backends[0].port)
               && (forall i | 0 <= i < |ports| ::
                     ports[i].port == ing.rules[0].backends[0].port <==> ports[i].name == "serve")
               && forall i | 0 <= i < |ing.tls| :: ing.tls[i].hosts == [ing.rules[0].host]
  {
    SidecarObjects(order, s, name);
    var svc := Reconcile(order, s, name).0.services[MediaName(name)];
    assert svc.ports == MEDIA_PORTS && svc.ports[0].port == SERVE_PORT;
  }

  /** The first label of the host gets the media suffix, all others stay. */
  lemma InheritedHostLabels(host: string, name: string)
    ensures host == "" ==> InheritedHost(host, name) == name + "-media"
    ensures host != "" ==>
              Split(InheritedHost(host, name), '.') == [Split(host, '.')[0] + "-media"] + Split(host, '.')[1..]
  {
    if host != "" {
      match Cut(host, '.')
      case Some((first, rest)) =>
        SplitAtSeparator(first, rest, '.');
        SplitAtSeparator(first + SUFFIX, rest, '.');
        SplitWhole(first, '.');
        SplitWhole(first + SUFFIX, '.');
        assert host == first + ['.'] + rest;
        assert first + SUFFIX + "." + rest == (first + SUFFIX) + ['.'] + rest;
      case None =>
        SplitWhole(host, '.');
        SplitWhole(host + SUFFIX, '.');
    }
  }

  /** Where one parameter of the ingress comes from: the annotation if there is one, else the
      source ingress if there is one that says something, else the default. */
  predicate Chosen(value: string, annotated: string, inherited: string, fallback: string) {
    value == if annotated != "" then annotated else if inherited != "" then inherited else fallback
  }

  function SourceHost(source: Option<Ingress>, name: string): string {
    if source.Some? && source.value.rules != [] then InheritedHost(source.value.rules[0].host, name) else ""
  }

  function SourceClass(source: Option<Ingress>): string {
    if source.Some? && source.value.className.Some? then source.value.className.value else ""
  }

  function SourceIssuer(source: Option<Ingress>): string {
    if source.Some? then Get(source.value.annotations, "cert-manager.io/cluster-issuer") else ""
  }

  function SourceSecret(source: Option<Ingress>): string {
    if source.Some? && source.value.tls != [] then source.value.tls[0].secret else ""
  }

  /** The four parameters, each from its own annotation and its own part of the source ingress.
      The source's secret counts only if one of the other three is not annotated. */
  lemma ShapeExact(name: string, w: Workload, source: Option<Ingress>)
    ensures var (a, shape) := (w.annotations, ShapeOf(name, w, source));
            var (cls, host, issuer) :=
              (Get(a, "media.media/ingress-class"), Get(a, "media.media/ingress-host"),
               Get(a, "media.media/cert-issuer"));
            var looked := cls == "" || host == "" || issuer == "";
            && Chosen(shape.className, cls, SourceClass(source), "tailscale")
            && Chosen(shape.host, host, SourceHost(source, name), name + "-media")
            && Chosen(shape.issuer, issuer, SourceIssuer(source), "")
            && Chosen(shape.tlsSecret, Get(a, "media.media/ingress-tls-secret"),
                      if looked then SourceSecret(source) else "", "")
  {}

  /** And where they end up: class, host, issuer annotation and TLS secret of the media ingress.
      Without a secret only tailscale gets a TLS entry. Other annotations stay as they were. */
  lemma MediaIngressShaped(order: seq<string>, s: State, name: string)
    requires name in s.workloads && Owned(s, name) && WantsSidecar(s.workloads[name])
    ensures var (s', m, w) := (Reconcile(order, s, name).0, MediaName(name), s.workloads[name]);
            var shape := ShapeOf(name, w, Source(order, EnsureService(s, name, w), name, w));
            && m in s'.ingresses
            && var ing := s'.ingresses[m];
               && ing.className == Some(shape.className) && ing.rules != [] && ing.rules[0].host == shape.host
               && (shape.tlsSecret != "" ==> |ing.tls| == 1 && ing.tls[0].secret == shape.tlsSecret)
               && (shape.tlsSecret == "" ==>
                     if shape.className == "tailscale" then |ing.tls| == 1 && ing.tls[0].secret == "" else ing.tls == [])
               && forall k :: Lookup(ing.annotations, k)
                    == if k == "cert-manager.io/cluster-issuer" && shape.issuer != "" then Some(shape.issuer)
                       else if m in s.ingresses then Lookup(s.ingresses[m].annotations, k) else None
  {
    SidecarObjects(order, s, name);
  }

  // ------------------------------------------------------------------ public URL

  /** The sidecar has a public URL, and no other one. */
  predicate ShowsUrl(c: Container, url: string) {
    EnvVar("MEDIA_PUBLIC_BASE_URL", url) in c.env
    && forall i | 0 <= i < |c.env| && c.env[i].name == "MEDIA_PUBLIC_BASE_URL" :: c.env[i].value == url
  }

  lemma PatchShows(c: Container, url: string)
    requires c.name == SIDECAR
    ensures ShowsUrl(WithPublicUrl(c, url), url)
  {
    var env := WithPublicUrl(c, url).env;
    if j :| 0 <= j < |c.env| && c.env[j].name == PUBLIC_URL {
      assert env[j] == EnvVar(PUBLIC_URL, url);
    } else {
      assert env == c.env + [EnvVar(PUBLIC_URL, url)] && env[|c.env|] == EnvVar(PUBLIC_URL, url);
    }
  }

  /** A Deployment without an explicit public URL gets the https URL of its media ingress into
      every sidecar container of its template, unless one of them has it already. Nothing else
      changes, and other workloads are left alone. */
  lemma TemplateShowsHost(order: seq<string>, s: State, name: string)
    requires name in s.workloads && Owned(s, name) && WantsSidecar(s.workloads[name])
    ensures var (s', m, w) := (Reconcile(order, s, name).0, MediaName(name), s.workloads[name]);
            && m in s'.ingresses && s'.ingresses[m].rules != [] && name in s'.workloads
            && var (before, after) := (w.containers, s'.workloads[name].containers);
               var url := "https://" + s'.ingresses[m].rules[0].host;
               var present := exists i | 0 <= i < |before| :: HasPublicUrl(before[i], url);
               if w.kind != Deployment || Get(w.annotations, "media.media/public-url") != ""
                  || s'.ingresses[m].rules[0].host == "" || present
               then after == before
               else |after| == |before|
                    && forall i | 0 <= i < |before| ::
                         if before[i].name == "media-sidecar" then ShowsUrl(after[i], url) else after[i] == before[i]
  {
    SidecarObjects(order, s, name);
    var w := s.workloads[name];
    var url := "https://" + Reconcile(order, s, name).0.ingresses[MediaName(name)].rules[0].host;
    forall i | 0 <= i < |w.containers| && w.containers[i].name == SIDECAR
      ensures ShowsUrl(WithPublicUrl(w.containers[i], url), url)
    {
      PatchShows(w.containers[i], url);
    }
  }

  // ------------------------------------------------------------------ upstream service

  predicate Portless(containers: seq<Container>, n: nat)
    requires n <= |containers|
  {
    forall j | 0 <= j < n :: containers[j].ports == []
  }

  lemma {:induction false} FirstPortAt(containers: seq<Container>, i: nat)
    requires i <= |containers| && Portless(containers, i) && (i < |containers| ==> containers[i].ports != [])
    ensures FirstPort(containers) == if i < |containers| then FormatInt(containers[i].ports[0]) else ""
  {
    if i > 0 {
      FirstPortAt(containers[1..], i - 1);
    }
  }

  /** The upstream port is the annotated one, or else the first port of the first container that
      has any. */
  lemma UpstreamPortExact(w: Workload, i: nat)
    requires i <= |w.containers| && Portless(w.containers, i) && (i < |w.containers| ==> w.containers[i].ports != [])
    requires i < |w.containers| ==> IsInt64(w.containers[i].ports[0])
    ensures var annotated := Get(w.annotations, "media.media/upstream-port");
            UpstreamPort(w)
            == if annotated != "" then ParseInt(annotated)
               else if i < |w.containers| then Some(w.containers[i].ports[0]) else None
  {
    FirstPortAt(w.containers, i);
    if i < |w.containers| {
      FormatIntRoundTrip(w.containers[i].ports[0]);
    }
  }

  /** Of the service called like a proxied workload exactly the ports with the upstream number,
      read as an int32, are turned to the proxy; all else stays. */
  lemma UpstreamTurned(order: seq<string>, s: State, name: string)
    requires name in s.workloads && Owned(s, name) && WantsProxy(s.workloads[name])
    requires UpstreamPort(s.workloads[name]).Some? && name in s.services
    ensures var (s', up) := (Reconcile(order, s, name).0, UpstreamPort(s.workloads[name]).value);
            && name in s'.services
            && var (before, after) := (s.services[name], s'.services[name]);
               && after == before.(ports := after.ports) && |after.ports| == |before.ports|
               && forall i | 0 <= i < |before.ports| ::
                    && after.ports[i].name == before.ports[i].name && after.ports[i].port == before.ports[i].port
                    && after.ports[i].target
                       == if before.ports[i].port == Wrap32(up) then 5780 else before.ports[i].target
  {
    ReconcileOwned(order, s, name);
    AfterSidecarFrame(order, s, name);
    ReconcileFrame(order, s, name);
    var s2 := AfterSidecar(order, s, name);
    assert Lookup(s2.services, name) == Lookup(s.services, name);
    PatchedStateParts(s2, name, s.workloads[name]);
  }
}
