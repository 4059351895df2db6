/** Laws of a single reconcile: what it may change, that a second one changes nothing, and
    the controller's loops. */
module Reconciling {
  import opened Core
  import opened Cluster

  // ------------------------------------------------------------------ loops

  /** findSourceIngress: the nested loops find the first candidate in list order. */
  method FindSourceIngress(order: seq<string>, s: State, name: string, w: Workload) returns (r: Option<string>)
    ensures r == FindSource(order, s, name, w)
  {
    var i := 0;
    while i < |order|
      invariant 0 <= i <= |order|
      invariant FindSource(order, s, name, w) == FindSource(order[i..], s, name, w)
    {
      assert order[i..][0] == order[i] && order[i..][1..] == order[i + 1..];
      if order[i] in s.ingresses && order[i] != MediaName(name) {
        var ing := s.ingresses[order[i]];
        var routed := AnyBackendRoutes(ing, s, name, w);
        if routed {
          return Some(order[i]);
        }
      }
      i := i + 1;
    }
    return None;
  }

  method AnyBackendRoutes(ing: Ingress, s: State, name: string, w: Workload) returns (routed: bool)
    ensures routed <==> exists b | b in Services(ing) :: RoutesTo(s, name, w, b)
  {
    var i := 0;
    while i < |ing.rules|
      invariant 0 <= i <= |ing.rules|
      invariant forall k, j | 0 <= k < i && 0 <= j < |ing.rules[k].backends| ::
                  !RoutesTo(s, name, w, ing.rules[k].backends[j].service)
    {
      var backends := ing.rules[i].backends;
      var j := 0;
      while j < |backends|
        invariant 0 <= j <= |backends|
        invariant forall k | 0 <= k < j :: !RoutesTo(s, name, w, backends[k].service)
      {
        if RoutesTo(s, name, w, backends[j].service) {
          assert backends[j].service in Services(ing);
          return true;
        }
        j := j + 1;
      }
      i := i + 1;
    }
    return false;
  }

  /** patchUpstreamService rewrites the ports in place. */
  method RetargetPorts(ports: array<Port>, up: int)
    modifies ports
    ensures ports[..] == Retarget(old(ports[..]), up)
  {
    var i := 0;
    while i < ports.Length
      invariant 0 <= i <= ports.Length
      invariant ports[..i] == Retarget(old(ports[..]), up)[..i]
      invariant forall k | i <= k < ports.Length :: ports[k] == old(ports[k])
    {
      if ports[i].port == Wrap32(up) {
        ports[i] := ports[i].(target := PROXY_PORT);
      }
      i := i + 1;
    }
  }

  /** ensureSidecarPublicURL: a first pass looks for the value, a second one sets it. */
  method SetPublicUrl(containers: array<Container>, url: string)
    modifies containers
    ensures containers[..] == PatchedContainers(old(containers[..]), url)
  {
    var i := 0;
    while i < containers.Length
      invariant 0 <= i <= containers.Length
      invariant forall k | 0 <= k < i :: !HasPublicUrl(containers[k], url)
    {
      if HasPublicUrl(containers[i], url) {
        assert HasPublicUrl(containers[..][i], url);
        return;
      }
      i := i + 1;
    }
    i := 0;
    while i < containers.Length
      invariant 0 <= i <= containers.Length
      invariant forall k | 0 <= k < i :: containers[k] == WithPublicUrl(old(containers[k]), url)
      invariant forall k | i <= k < containers.Length :: containers[k] == old(containers[k])
    {
      var c := containers[i];
      if c.name == SIDECAR {
        var env, replaced := SetVariable(c.env, url);
        containers[i] := c.(env := if replaced then env else env + [EnvVar(PUBLIC_URL, url)]);
      }
      i := i + 1;
    }
  }

  method SetVariable(env: seq<EnvVar>, url: string) returns (r: seq<EnvVar>, replaced: bool)
    ensures replaced <==> exists e | e in env :: e.name == PUBLIC_URL
    ensures |r| == |env|
    ensures forall k | 0 <= k < |env| ::
              r[k] == if env[k].name == PUBLIC_URL then env[k].(value := url) else env[k]
  {
    r, replaced := env, false;
    var j := 0;
    while j < |env|
      invariant 0 <= j <= |env| == |r|
      invariant replaced <==> exists k | 0 <= k < j :: env[k].name == PUBLIC_URL
      invariant forall k | 0 <= k < j ::
                  r[k] == if env[k].name == PUBLIC_URL then env[k].(value := url) else env[k]
      invariant forall k | j <= k < |env| :: r[k] == env[k]
    {
      if r[j].name == PUBLIC_URL {
        r := r[j := r[j].(value := url)];
        replaced := true;
      }
      j := j + 1;
    }
  }

  // ------------------------------------------------------------------ template patch

  /** Same containers up to the value of the sidecar's public URL. */
  ghost predicate SameButPublicUrl(before: seq<Container>, after: seq<Container>) {
    && |before| == |after|
    && forall i | 0 <= i < |before| ::
         && after[i].name == before[i].name && after[i].ports == before[i].ports
         && (before[i].name != SIDECAR ==> after[i] == before[i])
         && (after[i].env == before[i].env
             || (|after[i].env| == |before[i].env| + 1
                 && after[i].env[..|before[i].env|] == before[i].env
                 && after[i].env[|before[i].env|].name == PUBLIC_URL)
             || (|after[i].env| == |before[i].env|
                 && forall j | 0 <= j < |before[i].env| ::
                      && after[i].env[j].name == before[i].env[j].name
                      && (before[i].env[j].name != PUBLIC_URL ==> after[i].env[j] == before[i].env[j])))
  }

  lemma PatchIsLocal(containers: seq<Container>, url: string)
    ensures SameButPublicUrl(containers, PatchedContainers(containers, url))
  {}

  lemma PatchIdempotent(containers: seq<Container>, url: string)
    ensures var once := PatchedContainers(containers, url);
            PatchedContainers(once, url) == once
  {
    var once := PatchedContainers(containers, url);
    if i :| 0 <= i < |containers| && containers[i].name == SIDECAR {
      if once != containers {
        var c := containers[i];
        if j :| 0 <= j < |c.env| && c.env[j].name == PUBLIC_URL {
          assert WithPublicUrl(c, url).env[j] == EnvVar(PUBLIC_URL, url);
        } else {
          assert WithPublicUrl(c, url).env == c.env + [EnvVar(PUBLIC_URL, url)];
          assert WithPublicUrl(c, url).env[|c.env|] == EnvVar(PUBLIC_URL, url);
        }
        assert HasPublicUrl(once[i], url);
      }
    } else {
      assert once == containers;
    }
  }

  lemma {:induction false} FirstPortSame(a: seq<Container>, b: seq<Container>)
    requires SameButPublicUrl(a, b)
    ensures FirstPort(a) == FirstPort(b)
  {
    if a != [] {
      FirstPortSame(a[1..], b[1..]);
    }
  }

  // ------------------------------------------------------------------ frame and idempotence

  /** The shape of a template that reconciling leaves alone. */
  ghost predicate SameTemplate(before: Workload, after: Workload) {
    after == before.(containers := after.containers) && SameButPublicUrl(before.containers, after.containers)
  }

  lemma DesiredContainersLocal(w: Workload, ing: Ingress)
    ensures SameTemplate(w, w.(containers := DesiredContainers(w, ing)))
    ensures UpstreamPort(w.(containers := DesiredContainers(w, ing))) == UpstreamPort(w)
  {
    PatchIsLocal(w.containers, "https://" + if ing.rules == [] then "" else ing.rules[0].host);
    FirstPortSame(w.containers, DesiredContainers(w, ing));
  }

  lemma RetargetTwice(ports: seq<Port>, up: int)
    ensures Retarget(Retarget(ports, up), up) == Retarget(ports, up)
  {}

  ghost predicate TemplatesFrame(s: State, s': State, name: string) {
    && s'.workloads.Keys == s.workloads.Keys
    && forall n | n in s.workloads ::
         if n == name then SameTemplate(s.workloads[n], s'.workloads[n])
                           && UpstreamPort(s'.workloads[n]) == UpstreamPort(s.workloads[n])
         else s'.workloads[n] == s.workloads[n]
  }

  ghost predicate ObjectsFrame(s: State, s': State, name: string) {
    forall k | k != MediaName(name) ::
      && Lookup(s'.ingresses, k) == Lookup(s.ingresses, k)
      && (k != name ==> Lookup(s'.services, k) == Lookup(s.services, k))
  }

  /** Of the upstream service only targets change, and only to the proxy's port. */
  ghost predicate UpstreamFrame(s: State, s': State, name: string) {
    && (name in s.services <==> name in s'.services)
    && (name in s.services ==>
          var (before, after) := (s.services[name], s'.services[name]);
          && after == before.(ports := after.ports) && |after.ports| == |before.ports|
          && forall i | 0 <= i < |before.ports| ::
               || after.ports[i] == before.ports[i]
               || (name in s.workloads && UpstreamPort(s.workloads[name]).Some?
                   && before.ports[i].port == Wrap32(UpstreamPort(s.workloads[name]).value)
                   && after.ports[i] == before.ports[i].(target := PROXY_PORT)))
  }

  lemma EnsureIngressFrame(order: seq<string>, s: State, name: string)
    requires name in s.workloads
    ensures var s' := EnsureIngress(order, s, name, s.workloads[name]);
            TemplatesFrame(s, s', name) && ObjectsFrame(s, s', name) && s'.services == s.services
  {
    DesiredContainersLocal(s.workloads[name], DesiredIngress(order, s, name, s.workloads[name]));
  }

  lemma EnsureServiceFrame(s: State, name: string, w: Workload)
    ensures var s' := EnsureService(s, name, w);
            && ObjectsFrame(s, s', name) && s'.workloads == s.workloads && s'.ingresses == s.ingresses
            && Lookup(s'.services, name) == Lookup(s.services, name)
  {}

  lemma PatchUpstreamFrame(s: State, name: string, w: Workload)
    requires name in s.workloads && UpstreamPort(w) == UpstreamPort(s.workloads[name])
    ensures var s' := PatchUpstream(s, name, w).0;
            && UpstreamFrame(s, s', name) && ObjectsFrame(s, s', name)
            && s'.workloads == s.workloads && s'.ingresses == s.ingresses
  {}

  /** The state after the sidecar part of a reconcile. */
  function AfterSidecar(order: seq<string>, s: State, name: string): State
    requires name in s.workloads
  {
    var w := s.workloads[name];
    if WantsSidecar(w) then EnsureIngress(order, EnsureService(s, name, w), name, w) else s
  }

  /** No one else owns the media objects of `name`, if it wants any. */
  ghost predicate Owned(s: State, name: string)
    requires name in s.workloads
  {
    WantsSidecar(s.workloads[name]) ==>
    && (MediaName(name) in s.services ==> Ownable(s.services[MediaName(name)].owner, name))
    && (MediaName(name) in s.ingresses ==> Ownable(s.ingresses[MediaName(name)].owner, name))
  }

  lemma AfterSidecarFrame(order: seq<string>, s: State, name: string)
    requires name in s.workloads
    ensures var s' := AfterSidecar(order, s, name);
            && TemplatesFrame(s, s', name) && ObjectsFrame(s, s', name)
            && Lookup(s'.services, name) == Lookup(s.services, name)
  {
    var w := s.workloads[name];
    PatchIsLocal(w.containers, "");
    assert SameTemplate(w, w);
    if WantsSidecar(w) {
      EnsureServiceFrame(s, name, w);
      EnsureIngressFrame(order, EnsureService(s, name, w), name);
    }
  }

  lemma ReconcileOwned(order: seq<string>, s: State, name: string)
    requires name in s.workloads && Owned(s, name)
    ensures var w := s.workloads[name];
            var s2 := AfterSidecar(order, s, name);
            Reconcile(order, s, name) == if WantsProxy(w) then PatchUpstream(s2, name, w) else (s2, Done)
  {}

  lemma ReconcileRefused(order: seq<string>, s: State, name: string)
    requires name in s.workloads && !Owned(s, name)
    ensures var s' := Reconcile(order, s, name).0;
            s' == s || s' == EnsureService(s, name, s.workloads[name])
  {}

  /** Everything a reconcile may change: the objects called `<name>-media`, the targets of the
      upstream ports of the service called `<name>`, and the sidecar's public URL in the
      template of `<name>`. */
  lemma ReconcileFrame(order: seq<string>, s: State, name: string)
    ensures var s' := Reconcile(order, s, name).0;
            TemplatesFrame(s, s', name) && ObjectsFrame(s, s', name) && UpstreamFrame(s, s', name)
  {
    if name in s.workloads {
      var w := s.workloads[name];
      PatchIsLocal(w.containers, "");
      assert SameTemplate(w, w);
      if Owned(s, name) {
        ReconcileOwned(order, s, name);
        AfterSidecarFrame(order, s, name);
        var s2 := AfterSidecar(order, s, name);
        PatchUpstreamFrame(s2, name, w);
        FramesCompose(s, s2, PatchUpstream(s2, name, w).0, name);
      } else {
        ReconcileRefused(order, s, name);
        EnsureServiceFrame(s, name, w);
      }
    }
  }

  lemma FramesCompose(s: State, s2: State, s': State, name: string)
    requires name in s.workloads && TemplatesFrame(s, s2, name) && ObjectsFrame(s, s2, name)
    requires Lookup(s2.services, name) == Lookup(s.services, name)
    requires UpstreamFrame(s2, s', name) && ObjectsFrame(s2, s', name)
    requires s'.workloads == s2.workloads && s'.ingresses == s2.ingresses
    ensures TemplatesFrame(s, s', name) && ObjectsFrame(s, s', name) && UpstreamFrame(s, s', name)
    ensures UpstreamFrame(s, s2, name)
  {}

  // ------------------------------------------------------------------ fixed points

  /** Reconciling `name` has nothing left to do. */
  ghost predicate Settled(order: seq<string>, s: State, name: string)
    requires name in s.workloads
  {
    var w := s.workloads[name];
    && (WantsSidecar(w) ==>
          && Lookup(s.services, MediaName(name)) == Some(MediaService(Lookup(s.services, MediaName(name)), name, w))
          && Lookup(s.ingresses, MediaName(name)) == Some(DesiredIngress(order, s, name, w))
          && w.containers == DesiredContainers(w, DesiredIngress(order, s, name, w)))
    && (WantsProxy(w) && UpstreamPort(w).Some? && name in s.services ==>
          s.services[name].ports == Retarget(s.services[name].ports, UpstreamPort(w).value))
  }

  lemma SettledStaysFixed(order: seq<string>, s: State, name: string)
    requires name in s.workloads && Owned(s, name) && Settled(order, s, name)
    ensures Reconcile(order, s, name).0 == s
  {
    var w := s.workloads[name];
    var m := MediaName(name);
    ReconcileOwned(order, s, name);
    if WantsSidecar(w) {
      assert s.services[m := s.services[m]] == s.services;
      assert EnsureService(s, name, w) == s;
      assert s.ingresses[m := s.ingresses[m]] == s.ingresses;
      assert s.workloads[name := w] == s.workloads;
    }
    assert AfterSidecar(order, s, name) == s;
    if name in s.services {
      assert s.services[name := s.services[name]] == s.services;
    }
  }

  lemma PatchedStateParts(s: State, name: string, w: Workload)
    ensures var s' := PatchUpstream(s, name, w).0;
            && s'.workloads == s.workloads && s'.ingresses == s.ingresses
            && Lookup(s'.services, MediaName(name)) == Lookup(s.services, MediaName(name))
            && (UpstreamPort(w).Some? && name in s.services ==>
                  name in s'.services && s'.services[name].ports == Retarget(s.services[name].ports, UpstreamPort(w).value))
  {}

  /** The parts of the state after the sidecar part, in terms of what it aimed for. */
  lemma SidecarParts(order: seq<string>, s: State, name: string)
    requires name in s.workloads && WantsSidecar(s.workloads[name])
    ensures var w := s.workloads[name];
            var s1 := EnsureService(s, name, w);
            var ing := DesiredIngress(order, s1, name, w);
            var s2 := AfterSidecar(order, s, name);
            && s2.services == s1.services
            && s1.services[MediaName(name)] == MediaService(Lookup(s.services, MediaName(name)), name, w)
            && Lookup(s2.ingresses, MediaName(name)) == Some(ing)
            && s2.workloads[name] == w.(containers := DesiredContainers(w, ing))
  {}

  lemma FixedIsSettled(order: seq<string>, s: State, name: string)
    requires name in s.workloads && Owned(s, name) && Reconcile(order, s, name).0 == s
    ensures Settled(order, s, name)
  {
    var w := s.workloads[name];
    ReconcileOwned(order, s, name);
    var s2 := AfterSidecar(order, s, name);
    PatchedStateParts(s2, name, w);
    if WantsSidecar(w) {
      SidecarParts(order, s, name);
      var s1 := EnsureService(s, name, w);
      assert s1.services[MediaName(name)] == s.services[MediaName(name)];
      assert s1.services == s.services;
      assert s1 == s;
    }
    if WantsProxy(w) && UpstreamPort(w).Some? && name in s.services {
      AfterSidecarFrame(order, s, name);
      assert Lookup(s2.services, name) == Lookup(s.services, name);
    }
  }

  /** States that look the same to the source search of `name`. */
  ghost predicate SameView(s: State, s': State, name: string) {
    && (forall k | k != MediaName(name) ::
          && (k in s.ingresses <==> k in s'.ingresses)
          && (k in s.ingresses ==> Services(s'.ingresses[k]) == Services(s.ingresses[k])))
    && (forall k | k != MediaName(name) ::
          && (k in s.services <==> k in s'.services)
          && (k in s.services ==> s'.services[k].selector == s.services[k].selector))
  }

  lemma {:induction false} FindSourceSame(order: seq<string>, s: State, s': State, name: string, w: Workload, w': Workload)
    requires SameView(s, s', name) && w'.selector == w.selector
    ensures FindSource(order, s', name, w') == FindSource(order, s, name, w)
  {
    if order != [] {
      FindSourceSame(order[1..], s, s', name, w, w');
      var k := order[0];
      if k in s.ingresses && k != MediaName(name) {
        assert forall b :: RoutesTo(s', name, w', b) <==> RoutesTo(s, name, w, b);
        assert Services(s'.ingresses[k]) == Services(s.ingresses[k]);
      }
      assert IsSource(s', name, w', k) <==> IsSource(s, name, w, k);
    }
  }

  lemma MediaServiceAgain(previous: Option<Service>, name: string, w: Workload, w': Workload)
    requires w'.selector == w.selector && w'.annotations == w.annotations
    ensures var svc := MediaService(previous, name, w);
            MediaService(Some(svc), name, w') == svc
  {}

  lemma MediaIngressAgain(previous: Option<Ingress>, name: string, shape: Shape)
    ensures var ing := MediaIngress(previous, name, shape);
            MediaIngress(Some(ing), name, shape) == ing
  {}

  lemma ShapeSame(name: string, w: Workload, w': Workload, source: Option<Ingress>)
    requires w'.annotations == w.annotations
    ensures ShapeOf(name, w', source) == ShapeOf(name, w, source)
  {}

  /** The media ingress is its own target: aiming again from it changes nothing. */
  lemma DesiredAgain(
    order: seq<string>, s: State, s': State, name: string, w: Workload, w': Workload)
    requires w'.annotations == w.annotations
    requires Source(order, s', name, w') == Source(order, s, name, w)
    requires Lookup(s'.ingresses, MediaName(name)) == Some(DesiredIngress(order, s, name, w))
    ensures DesiredIngress(order, s', name, w') == DesiredIngress(order, s, name, w)
  {
    var source := Source(order, s, name, w);
    ShapeSame(name, w, w', source);
    MediaIngressAgain(Lookup(s.ingresses, MediaName(name)), name, ShapeOf(name, w, source));
  }

  lemma DesiredContainersAgain(w: Workload, ing: Ingress)
    ensures var w' := w.(containers := DesiredContainers(w, ing));
            DesiredContainers(w', ing) == w'.containers
  {
    if ing.rules != [] {
      PatchIdempotent(w.containers, "https://" + ing.rules[0].host);
    }
  }

  /** The sidecar part and the patch of the own upstream ports leave the view alone. */
  lemma ViewAfterSidecar(order: seq<string>, s: State, s': State, name: string)
    requires name in s.workloads && WantsSidecar(s.workloads[name])
    requires var s2 := AfterSidecar(order, s, name);
             && s'.ingresses == s2.ingresses && UpstreamFrame(s2, s', name)
             && forall k | k != name :: Lookup(s'.services, k) == Lookup(s2.services, k)
    ensures SameView(EnsureService(s, name, s.workloads[name]), s', name)
  {
    var s1 := EnsureService(s, name, s.workloads[name]);
    var s2 := AfterSidecar(order, s, name);
    SidecarParts(order, s, name);
    EnsureIngressFrame(order, s1, name);
    forall k | k != MediaName(name)
      ensures Lookup(s'.ingresses, k) == Lookup(s1.ingresses, k)
      ensures k in s1.services <==> k in s'.services
      ensures k in s1.services ==> s'.services[k].selector == s1.services[k].selector
    {
      assert Lookup(s2.ingresses, k) == Lookup(s1.ingresses, k);
      assert k != name ==> Lookup(s'.services, k) == Lookup(s2.services, k);
    }
    forall k | k != MediaName(name)
      ensures k in s1.ingresses <==> k in s'.ingresses
      ensures k in s1.ingresses ==> s'.ingresses[k] == s1.ingresses[k]
    {
      assert Lookup(s'.ingresses, k) == Lookup(s1.ingresses, k);
    }
  }

  lemma SidecarSettles(order: seq<string>, s: State, s': State, name: string)
    requires name in s.workloads && WantsSidecar(s.workloads[name])
    requires var s2 := AfterSidecar(order, s, name);
             && s'.workloads == s2.workloads && s'.ingresses == s2.ingresses
             && UpstreamFrame(s2, s', name)
             && forall k | k != name :: Lookup(s'.services, k) == Lookup(s2.services, k)
    ensures name in s'.workloads
    ensures var w' := s'.workloads[name];
            && Lookup(s'.services, MediaName(name)) == Some(MediaService(Lookup(s'.services, MediaName(name)), name, w'))
            && Lookup(s'.ingresses, MediaName(name)) == Some(DesiredIngress(order, s', name, w'))
            && w'.containers == DesiredContainers(w', DesiredIngress(order, s', name, w'))
  {
    var w := s.workloads[name];
    var m := MediaName(name);
    var s1 := EnsureService(s, name, w);
    var s2 := AfterSidecar(order, s, name);
    SidecarParts(order, s, name);
    var ing := DesiredIngress(order, s1, name, w);
    var w' := s'.workloads[name];
    assert name != m;
    assert Lookup(s'.services, m) == Lookup(s2.services, m) == Some(s1.services[m]);
    MediaServiceAgain(Lookup(s.services, m), name, w, w');
    ViewAfterSidecar(order, s, s', name);
    FindSourceSame(order, s1, s', name, w, w');
    assert Source(order, s', name, w') == Source(order, s1, name, w);
    DesiredAgain(order, s1, s', name, w, w');
    DesiredContainersAgain(w, ing);
  }

  /** After a reconcile of an owned workload nothing is left to do for it. */
  lemma ReconcileSettles(order: seq<string>, s: State, name: string)
    requires name in s.workloads && Owned(s, name)
    ensures var s' := Reconcile(order, s, name).0;
            name in s'.workloads && Owned(s', name) && Settled(order, s', name)
  {
    var w := s.workloads[name];
    var s2 := AfterSidecar(order, s, name);
    var s' := Reconcile(order, s, name).0;
    ReconcileOwned(order, s, name);
    ReconcileFrame(order, s, name);
    AfterSidecarFrame(order, s, name);
    PatchUpstreamFrame(s2, name, w);
    PatchedStateParts(s2, name, w);
    if WantsSidecar(w) {
      SidecarParts(order, s, name);
      SidecarSettles(order, s, s', name);
    }
    if WantsProxy(w) && UpstreamPort(w).Some? && name in s'.services {
      RetargetTwice(s2.services[name].ports, UpstreamPort(w).value);
    }
  }

  /** A second reconcile changes nothing, whatever the first one did. */
  lemma ReconcileIdempotent(order: seq<string>, s: State, name: string)
    ensures var s' := Reconcile(order, s, name).0;
            Reconcile(order, s', name).0 == s'
  {
    if name in s.workloads && Owned(s, name) {
      ReconcileSettles(order, s, name);
      SettledStaysFixed(order, Reconcile(order, s, name).0, name);
    } else if name in s.workloads {
      RefusedIdempotent(order, s, name);
    }
  }

  lemma RefusedIdempotent(order: seq<string>, s: State, name: string)
    requires name in s.workloads && !Owned(s, name)
    ensures var s' := Reconcile(order, s, name).0;
            Reconcile(order, s', name).0 == s'
  {
    var w := s.workloads[name];
    var m := MediaName(name);
    var s' := Reconcile(order, s, name).0;
    if m !in s.services || Ownable(s.services[m].owner, name) {
      assert s' == EnsureService(s, name, w);
      MediaServiceAgain(Lookup(s.services, m), name, w, w);
      assert EnsureService(s', name, w) == s' by {
        assert s'.services[m := s'.services[m]] == s'.services;
      }
    }
  }
}
