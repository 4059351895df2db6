/** Which media ingress inherits from which, and what one reconcile keeps of it. Media ingresses
    and services are themselves candidates for inheritance, also before they exist. */
module Inheritance {
  import opened Core
  import opened Text
  import opened Cluster
  import opened Reconciling

  function Sidecars(s: State): set<string> {
    set n | n in s.workloads && WantsSidecar(s.workloads[n])
  }

  /** The media service of `name` may be written. Its ingress may still be someone else's,
      and then each reconcile stops after the service. */
  ghost predicate Serving(s: State, name: string)
    requires name in s.workloads
  {
    WantsSidecar(s.workloads[name])
    && (MediaName(name) in s.services ==> Ownable(s.services[MediaName(name)].owner, name))
  }

  /** A workload called like the media service of `name` rewrites that service's ports. */
  ghost predicate Clash(s: State, name: string) {
    var m := MediaName(name);
    && name in s.workloads && Serving(s, name)
    && m in s.workloads && Owned(s, m) && WantsProxy(s.workloads[m])
    && UpstreamPort(s.workloads[m]).Some? && Wrap32(UpstreamPort(s.workloads[m]).value) in {SERVE_PORT, MINT_PORT}
  }

  ghost predicate NoClash(s: State) {
    forall n :: !Clash(s, n)
  }

  function AnnotatedClass(w: Workload): string {
    Get(w.annotations, "media.media/ingress-class")
  }

  function AnnotatedHost(w: Workload): string {
    Get(w.annotations, "media.media/ingress-host")
  }

  function AnnotatedIssuer(w: Workload): string {
    Get(w.annotations, "media.media/cert-issuer")
  }

  function AnnotatedSecret(w: Workload): string {
    Get(w.annotations, "media.media/ingress-tls-secret")
  }

  function TlsSecret(ing: Ingress): string {
    if ing.tls == [] then "" else ing.tls[0].secret
  }

  /** A media ingress as some reconcile leaves it: complete, with what is annotated in place. */
  predicate Tidy(w: Workload, ing: Ingress) {
    && Deref(ing.className) != "" && ing.rules != [] && ing.rules[0].host != ""
    && (AnnotatedClass(w) != "" ==> ing.className == Some(AnnotatedClass(w)))
    && (AnnotatedHost(w) != "" ==> ing.rules[0].host == AnnotatedHost(w))
    && (AnnotatedIssuer(w) != "" ==> Get(ing.annotations, ISSUER) == AnnotatedIssuer(w))
    && (AnnotatedSecret(w) != "" ==> TlsSecret(ing) == AnnotatedSecret(w))
  }

  /** As far as they are its own, the media service is final, and the media ingress is tidy and
      routes to it. */
  ghost predicate Ready(s: State, name: string)
    requires name in s.workloads
  {
    var m := MediaName(name);
    && (Serving(s, name) ==>
          Lookup(s.services, m) == Some(MediaService(Lookup(s.services, m), name, s.workloads[name])))
    && (WantsSidecar(s.workloads[name]) && Owned(s, name) ==>
          && m in s.ingresses && Services(s.ingresses[m]) == {m} && s.ingresses[m].owner == Some(name)
          && Tidy(s.workloads[name], s.ingresses[m]))
  }

  ghost predicate AllReady(s: State) {
    forall n | n in Sidecars(s) :: Ready(s, n)
  }

  // ------------------------------------------------------------------ names and ownership

  lemma MediaNameInjective(a: string, b: string)
    requires MediaName(a) == MediaName(b)
    ensures a == b
  {
    assert MediaName(a)[..|a|] == a && MediaName(b)[..|b|] == b;
  }

  function Stem(k: string): string
    requires HasSuffix(k, SUFFIX)
  {
    k[..|k| - |SUFFIX|]
  }

  lemma StemOfMediaName(v: string)
    ensures HasSuffix(MediaName(v), SUFFIX) && Stem(MediaName(v)) == v
  {}

  lemma MediaNameOfStem(k: string)
    requires HasSuffix(k, SUFFIX)
    ensures MediaName(Stem(k)) == k
  {}

  lemma StepKeepsSidecars(order: seq<string>, s: State, u: string)
    ensures var s' := Reconcile(order, s, u).0;
            s'.workloads.Keys == s.workloads.Keys && Sidecars(s') == Sidecars(s)
  {
    ReconcileFrame(order, s, u);
    var s' := Reconcile(order, s, u).0;
    forall n ensures n in Sidecars(s') <==> n in Sidecars(s) {
      if n in s.workloads {
        assert s'.workloads[n].annotations == s.workloads[n].annotations;
      }
    }
  }

  /** What becomes of the media objects of `n` when `u` is reconciled. */
  lemma MediaObjectsStay(order: seq<string>, s: State, u: string, n: string)
    requires u != n
    ensures var s' := Reconcile(order, s, u).0;
            var m := MediaName(n);
            && Lookup(s'.ingresses, m) == Lookup(s.ingresses, m)
            && (m in s'.services <==> m in s.services)
            && (m in s.services ==> s'.services[m] == s.services[m].(ports := s'.services[m].ports))
            && (m != u ==> Lookup(s'.services, m) == Lookup(s.services, m))
  {
    ReconcileFrame(order, s, u);
    if MediaName(u) == MediaName(n) {
      MediaNameInjective(u, n);
    }
    var s' := Reconcile(order, s, u).0;
    var m := MediaName(n);
    assert m != u ==> Lookup(s'.services, m) == Lookup(s.services, m);
  }

  /** Who owns the media objects never changes. */
  lemma OwnershipStays(order: seq<string>, s: State, u: string, n: string)
    requires u in s.workloads && n in s.workloads
    ensures var s' := Reconcile(order, s, u).0;
            n in s'.workloads && (Owned(s', n) <==> Owned(s, n)) && (Serving(s', n) <==> Serving(s, n))
  {
    StepKeepsSidecars(order, s, u);
    ReconcileFrame(order, s, u);
    if u != n {
      MediaObjectsStay(order, s, u, n);
    } else if Owned(s, n) {
      ReconcileSettles(order, s, n);
    }
  }

  lemma ClashStays(order: seq<string>, s: State, u: string, n: string)
    requires u in s.workloads
    ensures Clash(Reconcile(order, s, u).0, n) <==> Clash(s, n)
  {
    StepKeepsSidecars(order, s, u);
    ReconcileFrame(order, s, u);
    if n in s.workloads && MediaName(n) in s.workloads {
      OwnershipStays(order, s, u, n);
      OwnershipStays(order, s, u, MediaName(n));
    }
  }

  lemma StepKeepsNoClash(order: seq<string>, s: State, u: string)
    requires NoClash(s) && u in s.workloads
    ensures NoClash(Reconcile(order, s, u).0)
  {
    forall n ensures !Clash(Reconcile(order, s, u).0, n) {
      ClashStays(order, s, u, n);
    }
  }

  // ------------------------------------------------------------------ getting and staying ready

  lemma MediaIngressServices(previous: Option<Ingress>, name: string, shape: Shape)
    ensures Services(MediaIngress(previous, name, shape)) == {MediaName(name)}
  {
    var ing := MediaIngress(previous, name, shape);
    assert ing.rules[0].backends[0].service == MediaName(name);
  }

  lemma MediaIngressTidy(previous: Option<Ingress>, name: string, w: Workload, source: Option<Ingress>)
    ensures Tidy(w, MediaIngress(previous, name, ShapeOf(name, w, source)))
  {}

  lemma SettledIsReady(order: seq<string>, s: State, n: string)
    requires n in s.workloads && Settled(order, s, n)
    ensures Ready(s, n)
  {
    if WantsSidecar(s.workloads[n]) {
      var (m, source) := (MediaName(n), Source(order, s, n, s.workloads[n]));
      var shape := ShapeOf(n, s.workloads[n], source);
      MediaIngressServices(Lookup(s.ingresses, m), n, shape);
      MediaIngressTidy(Lookup(s.ingresses, m), n, s.workloads[n], source);
      assert s.ingresses[m] == MediaIngress(Lookup(s.ingresses, m), n, shape);
    }
  }

  lemma RefusedMakesReady(order: seq<string>, s: State, n: string)
    requires n in Sidecars(s) && !Owned(s, n) && Serving(s, n)
    ensures Reconcile(order, s, n).0 == EnsureService(s, n, s.workloads[n])
    ensures var s' := Reconcile(order, s, n).0;
            Lookup(s'.services, MediaName(n))
            == Some(MediaService(Lookup(s'.services, MediaName(n)), n, s.workloads[n]))
  {
    MediaServiceAgain(Lookup(s.services, MediaName(n)), n, s.workloads[n], s.workloads[n]);
  }

  lemma StepMakesReady(order: seq<string>, s: State, n: string)
    requires n in Sidecars(s)
    ensures n in Reconcile(order, s, n).0.workloads && Ready(Reconcile(order, s, n).0, n)
  {
    StepKeepsSidecars(order, s, n);
    OwnershipStays(order, s, n, n);
    if Owned(s, n) {
      ReconcileSettles(order, s, n);
      SettledIsReady(order, Reconcile(order, s, n).0, n);
    } else if Serving(s, n) {
      RefusedMakesReady(order, s, n);
    }
  }

  /** A ready workload whose objects are not all its own has nothing left to do. */
  lemma InertStep(order: seq<string>, s: State, u: string)
    requires u in Sidecars(s) && Ready(s, u) && !Owned(s, u)
    ensures Reconcile(order, s, u).0 == s
  {
    if Serving(s, u) {
      RefusedMakesReady(order, s, u);
      assert s.services[MediaName(u) := s.services[MediaName(u)]] == s.services;
    }
  }

  lemma MediaServiceIsFinal(s: State, n: string)
    requires n in s.workloads && Ready(s, n) && Serving(s, n)
    ensures EnsureService(s, n, s.workloads[n]) == s
  {
    assert s.services[MediaName(n) := s.services[MediaName(n)]] == s.services;
  }

  /** Without a clash the patch of another workload leaves the media ports alone. */
  lemma NoClashNoRetarget(s: State, n: string, up: int)
    requires Wrap32(up) !in {SERVE_PORT, MINT_PORT}
    ensures Retarget(MEDIA_PORTS, up) == MEDIA_PORTS
  {}

  lemma MediaPortsStay(order: seq<string>, s: State, n: string)
    requires NoClash(s) && n in Sidecars(s) && MediaName(n) in s.workloads && Ready(s, n) && Serving(s, n)
    ensures MediaName(n) in Reconcile(order, s, MediaName(n)).0.services
    ensures Reconcile(order, s, MediaName(n)).0.services[MediaName(n)].ports == MEDIA_PORTS
  {
    var m := MediaName(n);
    var w := s.workloads[m];
    AfterSidecarFrame(order, s, m);
    var s2 := AfterSidecar(order, s, m);
    EnsureServiceFrame(s, m, w);
    assert Lookup(s2.services, m) == Lookup(s.services, m);
    assert !Clash(s, n);
    if Owned(s, m) && WantsProxy(w) && UpstreamPort(w).Some? {
      NoClashNoRetarget(s, n, UpstreamPort(w).value);
    }
  }

  lemma StepKeepsReady(order: seq<string>, s: State, u: string, n: string)
    requires NoClash(s) && u in s.workloads && n in Sidecars(s) && Ready(s, n)
    ensures n in Reconcile(order, s, u).0.workloads && Ready(Reconcile(order, s, u).0, n)
  {
    StepKeepsSidecars(order, s, u);
    if u == n {
      StepMakesReady(order, s, n);
    } else {
      MediaObjectsStay(order, s, u, n);
      ReconcileFrame(order, s, u);
      var s' := Reconcile(order, s, u).0;
      var m := MediaName(n);
      assert s'.workloads[n] == s.workloads[n];
      OwnershipStays(order, s, u, n);
      if u == m && Serving(s, n) {
        MediaPortsStay(order, s, n);
        assert s'.services[m] == s.services[m];
      } else if u != m {
        assert Lookup(s'.services, m) == Lookup(s.services, m);
      }
    }
  }

  lemma StepKeepsAllReady(order: seq<string>, s: State, u: string)
    requires NoClash(s) && AllReady(s) && u in s.workloads
    ensures AllReady(Reconcile(order, s, u).0)
  {
    StepKeepsSidecars(order, s, u);
    forall n | n in Sidecars(s) ensures Ready(Reconcile(order, s, u).0, n) {
      StepKeepsReady(order, s, u, n);
    }
  }

  // ------------------------------------------------------------------ inheritance

  /** The name is that of a media ingress, or service, its workload may write. */
  ghost predicate OwnIngress(s: State, k: string) {
    HasSuffix(k, SUFFIX) && Stem(k) in Sidecars(s) && Owned(s, Stem(k))
  }

  ghost predicate OwnService(s: State, k: string) {
    HasSuffix(k, SUFFIX) && Stem(k) in s.workloads && Serving(s, Stem(k))
  }

  /** Selector of the service, and services behind the ingress, once all media objects exist. */
  ghost function FinalSelector(s: State, b: string): Option<map<string, string>> {
    if OwnService(s, b) then Some(s.workloads[Stem(b)].selector)
    else if b in s.services then Some(s.services[b].selector)
    else None
  }

  ghost function FinalServices(s: State, k: string): set<string> {
    if OwnIngress(s, k) then {k} else if k in s.ingresses then Services(s.ingresses[k]) else {}
  }

  ghost predicate WillRoute(s: State, n: string, b: string)
    requires n in s.workloads
  {
    b != MediaName(n) && (b == n || FinalSelector(s, b) == Some(s.workloads[n].selector))
  }

  ghost predicate WillBeSource(s: State, n: string, k: string)
    requires n in s.workloads
  {
    k != MediaName(n) && exists b | b in FinalServices(s, k) :: WillRoute(s, n, b)
  }

  /** The ingress that `n` finds as its source once all media objects exist. */
  ghost function Chosen(order: seq<string>, s: State, n: string): Option<string>
    requires n in s.workloads
  {
    if order == [] then None
    else if WillBeSource(s, n, order[0]) then Some(order[0])
    else Chosen(order[1..], s, n)
  }

  /** The source is looked at unless class, host and issuer are all annotated. */
  predicate Looks(w: Workload) {
    AnnotatedClass(w) == "" || AnnotatedHost(w) == "" || AnnotatedIssuer(w) == ""
  }

  /** The workload whose media ingress `n` inherits from, if it inherits from one. This is known
      before anything is reconciled and never changes. */
  ghost function Origin(order: seq<string>, s: State, n: string): Option<string> {
    if n in Sidecars(s) && Owned(s, n) && Looks(s.workloads[n]) && Chosen(order, s, n).Some?
       && OwnIngress(s, Chosen(order, s, n).value)
    then Some(Stem(Chosen(order, s, n).value)) else None
  }

  ghost function Origins(order: seq<string>, s: State): map<string, string> {
    map n | n in s.workloads && Origin(order, s, n).Some? :: Origin(order, s, n).value
  }

  lemma {:induction false} ChosenSame(order: seq<string>, s: State, s': State, n: string)
    requires n in s.workloads && n in s'.workloads
    requires forall k :: WillBeSource(s', n, k) <==> WillBeSource(s, n, k)
    ensures Chosen(order, s', n) == Chosen(order, s, n)
  {
    if order != [] {
      ChosenSame(order[1..], s, s', n);
    }
  }

  lemma {:induction false} ChosenIsFound(order: seq<string>, s: State, n: string)
    requires n in s.workloads
    requires forall k :: IsSource(s, n, s.workloads[n], k) <==> WillBeSource(s, n, k)
    ensures FindSource(order, s, n, s.workloads[n]) == Chosen(order, s, n)
  {
    if order != [] {
      ChosenIsFound(order[1..], s, n);
    }
  }

  lemma ReadySelectors(s: State, n: string, b: string)
    requires AllReady(s) && n in s.workloads
    ensures WillRoute(s, n, b) <==> RoutesTo(s, n, s.workloads[n], b)
  {
    if OwnService(s, b) {
      MediaNameOfStem(b);
      assert Ready(s, Stem(b));
    }
  }

  /** Once all is ready the search finds the source that was determined beforehand. */
  lemma ReadyFindsChosen(order: seq<string>, s: State, n: string)
    requires AllReady(s) && n in s.workloads
    ensures FindSource(order, s, n, s.workloads[n]) == Chosen(order, s, n)
  {
    forall b ensures WillRoute(s, n, b) <==> RoutesTo(s, n, s.workloads[n], b) {
      ReadySelectors(s, n, b);
    }
    forall k ensures IsSource(s, n, s.workloads[n], k) <==> WillBeSource(s, n, k) {
      if OwnIngress(s, k) {
        MediaNameOfStem(k);
        assert Ready(s, Stem(k));
      }
      assert k in s.ingresses ==> FinalServices(s, k) == Services(s.ingresses[k]);
    }
    ChosenIsFound(order, s, n);
  }

  lemma SelectorStays(order: seq<string>, s: State, u: string, b: string)
    requires u in s.workloads
    ensures FinalSelector(Reconcile(order, s, u).0, b) == FinalSelector(s, b)
  {
    var s' := Reconcile(order, s, u).0;
    StepKeepsSidecars(order, s, u);
    ReconcileFrame(order, s, u);
    StemOfMediaName(u);
    if HasSuffix(b, SUFFIX) && Stem(b) in s.workloads {
      OwnershipStays(order, s, u, Stem(b));
      MediaNameOfStem(b);
    }
    if !OwnService(s, b) {
      if b == MediaName(u) {
        UnservedStays(order, s, u);
      } else if b != u {
        assert Lookup(s'.services, b) == Lookup(s.services, b);
      }
    }
  }

  lemma UnservedStays(order: seq<string>, s: State, u: string)
    requires u in s.workloads && !Serving(s, u)
    ensures Lookup(Reconcile(order, s, u).0.services, MediaName(u)) == Lookup(s.services, MediaName(u))
  {}

  lemma OwnIngressStays(order: seq<string>, s: State, u: string, k: string)
    requires u in s.workloads
    ensures OwnIngress(Reconcile(order, s, u).0, k) <==> OwnIngress(s, k)
  {
    StepKeepsSidecars(order, s, u);
    if HasSuffix(k, SUFFIX) && Stem(k) in s.workloads {
      OwnershipStays(order, s, u, Stem(k));
    }
  }

  lemma IngressStays(order: seq<string>, s: State, u: string, k: string)
    requires u in s.workloads && !OwnIngress(s, k)
    ensures Lookup(Reconcile(order, s, u).0.ingresses, k) == Lookup(s.ingresses, k)
  {
    ReconcileFrame(order, s, u);
    StemOfMediaName(u);
    if k == MediaName(u) {
      ForeignIngressStays(order, s, u);
    }
  }

  lemma ServicesStay(order: seq<string>, s: State, u: string, k: string)
    requires u in s.workloads
    ensures FinalServices(Reconcile(order, s, u).0, k) == FinalServices(s, k)
  {
    OwnIngressStays(order, s, u, k);
    if !OwnIngress(s, k) {
      IngressStays(order, s, u, k);
      SameLookup(Reconcile(order, s, u).0.ingresses, s.ingresses, k);
    }
  }

  lemma SameLookup<T>(m: map<string, T>, m': map<string, T>, k: string)
    requires Lookup(m, k) == Lookup(m', k)
    ensures (k in m <==> k in m') && (k in m ==> m[k] == m'[k])
  {}

  lemma ForeignIngressStays(order: seq<string>, s: State, u: string)
    requires u in s.workloads && (u !in Sidecars(s) || !Owned(s, u))
    ensures Lookup(Reconcile(order, s, u).0.ingresses, MediaName(u)) == Lookup(s.ingresses, MediaName(u))
  {}

  lemma ChosenStays(order: seq<string>, s: State, u: string, n: string)
    requires u in s.workloads && n in s.workloads
    ensures n in Reconcile(order, s, u).0.workloads
    ensures Chosen(order, Reconcile(order, s, u).0, n) == Chosen(order, s, n)
  {
    StepKeepsSidecars(order, s, u);
    forall k ensures WillBeSource(Reconcile(order, s, u).0, n, k) <==> WillBeSource(s, n, k) {
      WillBeSourceStays(order, s, u, n, k);
    }
    ChosenSame(order, s, Reconcile(order, s, u).0, n);
  }

  lemma OwnSidecarStays(order: seq<string>, s: State, u: string, n: string)
    requires u in s.workloads && n in Sidecars(s)
    ensures var s' := Reconcile(order, s, u).0;
            n in Sidecars(s') && (Owned(s', n) <==> Owned(s, n)) && (Looks(s'.workloads[n]) <==> Looks(s.workloads[n]))
  {
    StepKeepsSidecars(order, s, u);
    ReconcileFrame(order, s, u);
    OwnershipStays(order, s, u, n);
    assert Reconcile(order, s, u).0.workloads[n].annotations == s.workloads[n].annotations;
  }

  /** No reconcile changes where a workload inherits from. */
  lemma OriginStays(order: seq<string>, s: State, u: string, n: string)
    requires u in s.workloads
    ensures Origin(order, Reconcile(order, s, u).0, n) == Origin(order, s, n)
  {
    StepKeepsSidecars(order, s, u);
    if n in Sidecars(s) {
      OwnSidecarStays(order, s, u, n);
      ChosenStays(order, s, u, n);
      if Chosen(order, s, n).Some? {
        OwnIngressStays(order, s, u, Chosen(order, s, n).value);
      }
    }
  }

  lemma WillBeSourceStays(order: seq<string>, s: State, u: string, n: string, k: string)
    requires u in s.workloads && n in s.workloads
    ensures n in Reconcile(order, s, u).0.workloads
    ensures WillBeSource(Reconcile(order, s, u).0, n, k) <==> WillBeSource(s, n, k)
  {
    var s' := Reconcile(order, s, u).0;
    ReconcileFrame(order, s, u);
    ServicesStay(order, s, u, k);
    forall b ensures WillRoute(s', n, b) <==> WillRoute(s, n, b) {
      SelectorStays(order, s, u, b);
    }
  }

  lemma OriginsStay(order: seq<string>, s: State, u: string)
    requires u in s.workloads
    ensures Origins(order, Reconcile(order, s, u).0) == Origins(order, s)
  {
    StepKeepsSidecars(order, s, u);
    forall n ensures Origin(order, Reconcile(order, s, u).0, n) == Origin(order, s, n) {
      OriginStays(order, s, u, n);
    }
  }

  // ------------------------------------------------------------------ what a step keeps settled

  /** Once all is ready, what `n` inherits from is the media ingress of its origin. */
  lemma OriginIsSource(order: seq<string>, s: State, n: string)
    requires AllReady(s) && Origin(order, s, n).Some?
    ensures var v := Origin(order, s, n).value;
            && n in Sidecars(s) && Owned(s, n) && v in Sidecars(s) && Owned(s, v) && v != n
            && MediaName(v) in s.ingresses
            && Source(order, s, n, s.workloads[n]) == Some(s.ingresses[MediaName(v)])
  {
    var k := Chosen(order, s, n).value;
    ReadyFindsChosen(order, s, n);
    MediaNameOfStem(k);
  }

  lemma UnlookedSource(name: string, w: Workload, one: Option<Ingress>, other: Option<Ingress>)
    requires !Looks(w)
    ensures ShapeOf(name, w, one) == ShapeOf(name, w, other)
  {}

  /** Reconciling `u` leaves what the search of `n` finds, unless it finds u's media ingress. */
  lemma SourceStays(order: seq<string>, s: State, u: string, n: string)
    requires NoClash(s) && AllReady(s) && u in s.workloads && Owned(s, u) && n in Sidecars(s) && Owned(s, n)
    requires Looks(s.workloads[n]) && Origin(order, s, n) != Some(u)
    ensures n in Reconcile(order, s, u).0.workloads
    ensures Source(order, Reconcile(order, s, u).0, n, Reconcile(order, s, u).0.workloads[n])
            == Source(order, s, n, s.workloads[n])
  {
    var s' := Reconcile(order, s, u).0;
    StepKeepsAllReady(order, s, u);
    ReadyFindsChosen(order, s, n);
    ChosenStays(order, s, u, n);
    ReadyFindsChosen(order, s', n);
    if Chosen(order, s, n).Some? {
      var k := Chosen(order, s, n).value;
      ReconcileFrame(order, s, u);
      StemOfMediaName(u);
      if k != MediaName(u) {
        assert Lookup(s'.ingresses, k) == Lookup(s.ingresses, k);
      } else {
        ForeignIngressStays(order, s, u);
      }
    }
  }

  lemma DesiredStays(order: seq<string>, s: State, u: string, n: string)
    requires NoClash(s) && AllReady(s) && u in s.workloads && Owned(s, u) && n in Sidecars(s) && Owned(s, n)
    requires u != n && Origin(order, s, n) != Some(u)
    ensures n in Reconcile(order, s, u).0.workloads
    ensures DesiredIngress(order, Reconcile(order, s, u).0, n, s.workloads[n])
            == DesiredIngress(order, s, n, s.workloads[n])
  {
    var s' := Reconcile(order, s, u).0;
    var w := s.workloads[n];
    ReconcileFrame(order, s, u);
    MediaObjectsStay(order, s, u, n);
    assert s'.workloads[n] == w;
    if Looks(w) {
      SourceStays(order, s, u, n);
    } else {
      UnlookedSource(n, w, Source(order, s', n, w), Source(order, s, n, w));
    }
  }

  /** What `b` shows after inheriting from `a`, as far as `a` looks at it. */
  lemma PairShows(a: string, wa: Workload, ia: Ingress, b: string, wb: Workload, ib: Ingress)
    requires Tidy(wa, ia) && Tidy(wb, ib) && Looks(wa) && Looks(wb)
    requires AnnotatedHost(wa) != "" || AnnotatedHost(wb) != ""
    requires ia == MediaIngress(Some(ia), a, ShapeOf(a, wa, Some(ib)))
    ensures var ib' := MediaIngress(Some(ib), b, ShapeOf(b, wb, Some(ia)));
            && ib'.rules != []
            && (AnnotatedClass(wa) == "" ==> ib'.className == ib.className)
            && (AnnotatedHost(wa) == "" ==> ib'.rules[0].host == ib.rules[0].host)
            && (AnnotatedSecret(wa) == "" ==> TlsSecret(ib') == TlsSecret(ib))
            && (AnnotatedIssuer(wa) == "" ==>
                  || Get(ib'.annotations, ISSUER) == Get(ib.annotations, ISSUER)
                  || Get(ib'.annotations, ISSUER) == Get(ia.annotations, ISSUER))
  {}

  /** The heart of a settled pair: `a` is what it inherits from `b`, `b` is tidy, and a host is
      annotated. Then writing `b` as it inherits from `a` leaves `a` what it should be. */
  lemma PairAgrees(a: string, wa: Workload, ia: Ingress, b: string, wb: Workload, ib: Ingress)
    requires Tidy(wa, ia) && Tidy(wb, ib) && Looks(wa) && Looks(wb)
    requires AnnotatedHost(wa) != "" || AnnotatedHost(wb) != ""
    requires ia == MediaIngress(Some(ia), a, ShapeOf(a, wa, Some(ib)))
    ensures var ib' := MediaIngress(Some(ib), b, ShapeOf(b, wb, Some(ia)));
            MediaIngress(Some(ia), a, ShapeOf(a, wa, Some(ib'))) == ia
  {
    PairShows(a, wa, ia, b, wb, ib);
    SameLooks(a, wa, ia, ib, MediaIngress(Some(ib), b, ShapeOf(b, wb, Some(ia))));
  }

  lemma SameLooks(a: string, wa: Workload, ia: Ingress, ib: Ingress, ib': Ingress)
    requires Tidy(wa, ia) && ib.rules != [] && ib'.rules != []
    requires ia == MediaIngress(Some(ia), a, ShapeOf(a, wa, Some(ib)))
    requires AnnotatedClass(wa) == "" ==> ib'.className == ib.className
    requires AnnotatedHost(wa) == "" ==> ib'.rules[0].host == ib.rules[0].host
    requires AnnotatedSecret(wa) == "" ==> TlsSecret(ib') == TlsSecret(ib)
    requires AnnotatedIssuer(wa) == "" ==>
               || Get(ib'.annotations, ISSUER) == Get(ib.annotations, ISSUER)
               || Get(ib'.annotations, ISSUER) == Get(ia.annotations, ISSUER)
    ensures MediaIngress(Some(ia), a, ShapeOf(a, wa, Some(ib'))) == ia
  {
    var (before, after) := (ShapeOf(a, wa, Some(ib)), ShapeOf(a, wa, Some(ib')));
    assert after.className == before.className && after.host == before.host && after.tlsSecret == before.tlsSecret;
    assert after.issuer == before.issuer || after.issuer == Get(ia.annotations, ISSUER);
    assert after.issuer != "" ==> ia.annotations[ISSUER := after.issuer] == ia.annotations;
  }

  /** What `b` writes when it inherits from `a` and all is ready. */
  lemma HeirWrites(order: seq<string>, s: State, b: string)
    requires AllReady(s) && Origin(order, s, b).Some?
    ensures var (s', m, a) := (Reconcile(order, s, b).0, MediaName(b), Origin(order, s, b).value);
            && MediaName(a) in s.ingresses && m in s.ingresses && b in s.workloads
            && Lookup(s'.ingresses, m)
               == Some(MediaIngress(Some(s.ingresses[m]), b, ShapeOf(b, s.workloads[b], Some(s.ingresses[MediaName(a)]))))
  {
    OriginIsSource(order, s, b);
    assert Ready(s, b);
    MediaServiceIsFinal(s, b);
    SidecarParts(order, s, b);
    ReconcileOwned(order, s, b);
    PatchedStateParts(AfterSidecar(order, s, b), b, s.workloads[b]);
  }

  /** Reconciling one of a pair leaves the other one settled. */
  lemma PairDesiredStays(order: seq<string>, s: State, b: string, a: string)
    requires AllReady(s) && NoClash(s)
    requires Origin(order, s, a) == Some(b) && Origin(order, s, b) == Some(a)
    requires AnnotatedHost(s.workloads[a]) != "" || AnnotatedHost(s.workloads[b]) != ""
    requires Settled(order, s, a)
    ensures DesiredIngress(order, Reconcile(order, s, b).0, a, s.workloads[a])
            == DesiredIngress(order, s, a, s.workloads[a])
  {
    var s' := Reconcile(order, s, b).0;
    OriginIsSource(order, s, a);
    OriginIsSource(order, s, b);
    assert Ready(s, a) && Ready(s, b);
    HeirWrites(order, s, b);
    PairAgrees(a, s.workloads[a], s.ingresses[MediaName(a)], b, s.workloads[b], s.ingresses[MediaName(b)]);
    ReconcileFrame(order, s, b);
    MediaObjectsStay(order, s, b, a);
    StepKeepsAllReady(order, s, b);
    OriginStays(order, s, b, a);
    OriginIsSource(order, s', a);
    assert s'.workloads[a] == s.workloads[a];
  }

  lemma StepKeepsUpstream(order: seq<string>, s: State, u: string, n: string)
    requires NoClash(s) && AllReady(s) && u in s.workloads && Owned(s, u) && u != n
    ensures var s' := Reconcile(order, s, u).0;
            (n in s'.services <==> n in s.services)
            && (n in s.services ==> s'.services[n].ports == s.services[n].ports)
  {
    var s' := Reconcile(order, s, u).0;
    ReconcileFrame(order, s, u);
    StepKeepsSidecars(order, s, u);
    if n != MediaName(u) {
      assert Lookup(s'.services, n) == Lookup(s.services, n);
    } else if u in Sidecars(s) {
      assert Ready(s, u);
      OwnershipStays(order, s, u, u);
      StepKeepsReady(order, s, u, u);
    } else {
      UnservedStays(order, s, u);
    }
  }

  lemma SettledStays(order: seq<string>, s: State, u: string, n: string)
    requires NoClash(s) && AllReady(s) && u in s.workloads && Owned(s, u) && u != n
    requires n in s.workloads && Owned(s, n) && Settled(order, s, n)
    requires n in Sidecars(s) ==>
               DesiredIngress(order, Reconcile(order, s, u).0, n, s.workloads[n])
               == DesiredIngress(order, s, n, s.workloads[n])
    ensures n in Reconcile(order, s, u).0.workloads && Settled(order, Reconcile(order, s, u).0, n)
  {
    var s' := Reconcile(order, s, u).0;
    ReconcileFrame(order, s, u);
    assert s'.workloads[n] == s.workloads[n];
    StepKeepsUpstream(order, s, u, n);
    if n in Sidecars(s) {
      assert Ready(s, n);
      StepKeepsReady(order, s, u, n);
      OwnershipStays(order, s, u, n);
      MediaObjectsStay(order, s, u, n);
    }
  }

  /** Reconciling `u` leaves a settled `n` settled, unless `n` inherits from `u`, `u` is itself
      not settled yet, and it does not inherit back with a host annotated on either. */
  lemma StepKeepsSettled(order: seq<string>, s: State, u: string, n: string)
    requires NoClash(s) && AllReady(s) && u in s.workloads && Owned(s, u)
    requires n in s.workloads && Owned(s, n) && Settled(order, s, n)
    requires Origin(order, s, n) == Some(u) ==>
               || Settled(order, s, u)
               || (Origin(order, s, u) == Some(n)
                   && (AnnotatedHost(s.workloads[n]) != "" || AnnotatedHost(s.workloads[u]) != ""))
    ensures n in Reconcile(order, s, u).0.workloads && Settled(order, Reconcile(order, s, u).0, n)
  {
    if u == n {
      ReconcileSettles(order, s, u);
    } else if Origin(order, s, n) == Some(u) {
      if Settled(order, s, u) {
        SettledStaysFixed(order, s, u);
      } else {
        PairDesiredStays(order, s, u, n);
        SettledStays(order, s, u, n);
      }
    } else {
      if n in Sidecars(s) {
        DesiredStays(order, s, u, n);
      }
      SettledStays(order, s, u, n);
    }
  }
}
