/** The controller's reconcile as it runs: objects are fetched, changed in place and written
    back (internal/controller/workload_reconciler.go, ingress.go). */
module Controller {
  import opened Core
  import opened Decimal
  import opened Cluster
  import opened Reconciling

  /** The cluster through the controller's client. */
  class WorkloadReconciler {
    var workloads: map<string, Workload>
    var services: map<string, Service>
    var ingresses: map<string, Ingress>

    constructor (s: State)
      ensures Value() == s
    {
      workloads, services, ingresses := s.workloads, s.services, s.ingresses;
    }

    function Value(): State
      reads this
    {
      State(workloads, services, ingresses)
    }

    /** ensureMediaService: creates or updates <name>-media unless someone else owns it. */
    method EnsureMediaService(name: string, w: Workload) returns (ok: bool)
      modifies this`services
      ensures var previous := Lookup(old(services), MediaName(name));
              ok == (previous.None? || Ownable(previous.value.owner, name))
      ensures Value() == if ok then EnsureService(old(Value()), name, w) else old(Value())
    {
      var media := name + SUFFIX;
      var svc := Service(map[], [], map[], None);
      if media in services {
        svc := services[media];
      }
      if !Ownable(svc.owner, name) {
        return false;
      }
      svc := svc.(owner := Some(name), selector := w.selector, ports := MEDIA_PORTS);
      var group := Get(w.annotations, GROUP);
      if group != "" {
        svc := svc.(labels := svc.labels[GROUP := group]);
      }
      services := services[media := svc];
      return true;
    }

    /** The four ingress parameters: annotations, then the source ingress, then defaults. */
    method ChooseShape(order: seq<string>, name: string, w: Workload) returns (shape: Shape)
      ensures shape == ShapeOf(name, w, Source(order, Value(), name, w))
    {
      var className := Get(w.annotations, "media.media/ingress-class");
      var host := Get(w.annotations, "media.media/ingress-host");
      var issuer := Get(w.annotations, "media.media/cert-issuer");
      var tlsSecret := Get(w.annotations, "media.media/ingress-tls-secret");
      var found := FindSourceIngress(order, Value(), name, w);
      if className == "" || host == "" || issuer == "" {
        if found.Some? {
          var src := ingresses[found.value];
          if className == "" {
            className := Deref(src.className);
          }
          if issuer == "" {
            issuer := Get(src.annotations, ISSUER);
          }
          if host == "" && |src.rules| > 0 {
            host := InheritedHost(src.rules[0].host, name);
          }
          if tlsSecret == "" {
            tlsSecret := if src.tls == [] then "" else src.tls[0].secret;
          }
        }
      }
      if className == "" {
        className := "tailscale";
      }
      if host == "" {
        host := name + SUFFIX;
      }
      return Shape(className, host, issuer, tlsSecret);
    }

    /** ensureSidecarPublicURL, on a copy of the live Deployment that is then written back. */
    method EnsureSidecarPublicUrl(name: string, w: Workload, ing: Ingress)
      requires name in workloads && workloads[name] == w
      modifies this`workloads
      ensures workloads == old(workloads)[name := w.(containers := DesiredContainers(w, ing))]
    {
      if Get(w.annotations, "media.media/public-url") != "" || w.kind != Deployment {
        return;
      }
      if |ing.rules| == 0 || ing.rules[0].host == "" {
        return;
      }
      var external := "https://" + ing.rules[0].host;
      var patched := new Container[|w.containers|](i requires 0 <= i < |w.containers| => w.containers[i]);
      assert patched[..] == w.containers;
      SetPublicUrl(patched, external);
      workloads := workloads[name := w.(containers := patched[..])];
    }

    /** ensureMediaIngress. */
    method EnsureMediaIngress(order: seq<string>, name: string, w: Workload) returns (ok: bool)
      requires name in workloads && workloads[name] == w
      modifies this`ingresses, this`workloads
      ensures var previous := Lookup(old(ingresses), MediaName(name));
              ok == (previous.None? || Ownable(previous.value.owner, name))
      ensures Value() == if ok then EnsureIngress(order, old(Value()), name, w) else old(Value())
    {
      var media := name + SUFFIX;
      var ing := Ingress(None, [], [], map[], None);
      if media in ingresses {
        ing := ingresses[media];
      }
      if !Ownable(ing.owner, name) {
        return false;
      }
      var shape := ChooseShape(order, name, w);
      ing := ing.(
        owner := Some(name), className := Some(shape.className),
        rules := [Rule(shape.host, [Backend("/", media, SERVE_PORT)])], tls := []);
      if shape.tlsSecret != "" {
        ing := ing.(tls := [Tls([shape.host], shape.tlsSecret)]);
      } else if shape.className == "tailscale" {
        ing := ing.(tls := [Tls([shape.host], "")]);
      }
      if shape.issuer != "" {
        ing := ing.(annotations := ing.annotations[ISSUER := shape.issuer]);
      }
      assert ing == DesiredIngress(order, old(Value()), name, w);
      ingresses := ingresses[media := ing];
      EnsureSidecarPublicUrl(name, w, ing);
      return true;
    }

    /** patchUpstreamService, on a copy of the live Service that is then written back. */
    method PatchUpstreamService(name: string, w: Workload) returns (ok: bool)
      modifies this`services
      ensures (Value(), if ok then Done else Requeue) == PatchUpstream(old(Value()), name, w)
    {
      var upstream := Get(w.annotations, "media.media/upstream-port");
      if upstream == "" {
        upstream := FirstPort(w.containers);
      }
      if upstream == "" {
        return false;
      }
      var up := ParseInt(upstream);
      if up.None? {
        return false;
      }
      if name !in services {
        return false;
      }
      var svc := services[name];
      var patched := new Port[|svc.ports|](i requires 0 <= i < |svc.ports| => svc.ports[i]);
      assert patched[..] == svc.ports;
      RetargetPorts(patched, up.value);
      services := services[name := svc.(ports := patched[..])];
      return true;
    }

    /** reconcileWorkload. */
    method ReconcileWorkload(order: seq<string>, name: string) returns (outcome: Outcome)
      modifies this
      ensures (Value(), outcome) == Reconcile(order, old(Value()), name)
    {
      if name !in workloads {
        return Done;
      }
      var w := workloads[name];
      if !WantsSidecar(w) && !WantsProxy(w) {
        return Done;
      }
      if WantsSidecar(w) {
        var serviceEnsured := EnsureMediaService(name, w);
        if !serviceEnsured {
          return Failed;
        }
        var ingressEnsured := EnsureMediaIngress(order, name, w);
        if !ingressEnsured {
          return Failed;
        }
      }
      if WantsProxy(w) {
        var patched := PatchUpstreamService(name, w);
        if !patched {
          return Requeue;
        }
      }
      return Done;
    }
  }
}
