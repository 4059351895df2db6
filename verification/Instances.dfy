/** Concrete clusters: the conditions that keep a cluster from settling do occur. */
module Instances {
  import opened Core
  import opened Decimal
  import opened Cluster
  import opened Reconciling
  import opened Inheritance
  import opened Convergence
  import opened Divergence

  const SIDECAR_ON: map<string, string> := map["media.media/inject-sidecar" := "true"]

  /** A workload that asks for a sidecar and annotates nothing else. */
  function Plain(selector: string): Workload {
    Workload(Deployment, SIDECAR_ON, map["app" := selector], [])
  }

  /** Two such workloads with one selector, before anything is reconciled. */
  function Twins(a: string, b: string): State {
    State(map[a := Plain("app"), b := Plain("app")], map[], map[])
  }

  lemma TwinInheritsFromTwin(order: seq<string>, a: string, b: string)
    requires a != b && MediaName(b) in order
    ensures Origin(order, Twins(a, b), a) == Some(b)
  {
    var s := Twins(a, b);
    StemOfMediaName(b);
    if MediaName(a) == MediaName(b) {
      MediaNameInjective(a, b);
    }
    assert a in Sidecars(s) && b in Sidecars(s) && Owned(s, a) && Owned(s, b);
    assert OwnIngress(s, MediaName(b)) && WillRoute(s, a, MediaName(b));
    assert MediaName(b) in FinalServices(s, MediaName(b)) && WillBeSource(s, a, MediaName(b));
    forall k | WillBeSource(s, a, k) ensures k == MediaName(b) {
      MediaNameOfStem(k);
    }
    OnlyCandidateIsChosen(order, s, a, MediaName(b));
  }

  lemma {:induction false} OnlyCandidateIsChosen(order: seq<string>, s: State, n: string, k: string)
    requires n in s.workloads && k in order && forall j :: WillBeSource(s, n, j) <==> j == k
    ensures Chosen(order, s, n) == Some(k)
  {
    if order[0] != k {
      OnlyCandidateIsChosen(order[1..], s, n, k);
    }
  }

  /** Any two fresh workloads with one selector and nothing annotated are a loop. */
  lemma TwinsLoop(order: seq<string>, a: string, b: string)
    requires a != b && MediaName(a) in order && MediaName(b) in order
    ensures Loop(PlanOf(order, Twins(a, b)), {a, b}) && NoClash(Twins(a, b))
  {
    TwinInheritsFromTwin(order, a, b);
    assert Twins(a, b) == Twins(b, a);
    TwinInheritsFromTwin(order, b, a);
    assert AnnotatedHost(Plain("app")) == "";
    var plan := PlanOf(order, Twins(a, b));
    assert Inside(plan, {a, b}, a) && Inside(plan, {a, b}, b);
  }

  // ------------------------------------------------------------------ a clash

  /** A sidecar workload, and a proxied one called like its media service. */
  function Clashing(): State {
    var proxied := Workload(
      Deployment, map["media.media/inject-proxy" := "true", "media.media/upstream-port" := "8090"],
      map["app" := "b"], []);
    State(map["a" := Plain("a"), "a-media" := proxied], map[], map[])
  }

  lemma PortText()
    ensures ParseInt("8090") == Some(8090)
  {
    assert FormatNat(80) == "80" && FormatInt(8090) == "8090";
    FormatIntRoundTrip(8090);
  }

  lemma ClashExists()
    ensures Clash(Clashing(), "a")
  {
    PortText();
    var s := Clashing();
    assert MediaName("a") == "a-media" && "a" != "a-media";
    assert Get(s.workloads["a-media"].annotations, "media.media/upstream-port") == "8090";
    assert UpstreamPort(s.workloads["a-media"]) == Some(8090);
  }

  // ------------------------------------------------------------------ a ring

  /** A sidecar workload with its host annotated. */
  function Hosted(selector: string): Workload {
    Workload(
      Deployment, SIDECAR_ON["media.media/ingress-host" := "host"], map["app" := selector], [])
  }

  function OwnServiceOf(n: string, w: Workload): Service {
    MediaService(None, n, w)
  }

  function OwnIngressOf(n: string, className: string): Ingress {
    MediaIngress(None, n, Shape(className, "host", "", ""))
  }

  /** A workload, one called like its media service, and one called like that one's; the first
      and the last have one selector. Their media ingresses exist, of two classes. */
  function RingOf(v: string): State {
    var n := MediaName(v);
    var x := MediaName(n);
    State(
      map[v := Hosted("s"), n := Hosted("t"), x := Hosted("s")],
      map[n := OwnServiceOf(v, Hosted("s")), x := OwnServiceOf(n, Hosted("t")),
          MediaName(x) := OwnServiceOf(x, Hosted("s"))],
      map[n := OwnIngressOf(v, "p"), x := OwnIngressOf(n, "q"), MediaName(x) := OwnIngressOf(x, "q")])
  }

  /** A listing that is not sorted by name. */
  function RingOrder(v: string): seq<string> {
    var n := MediaName(v);
    [MediaName(n), n, MediaName(MediaName(n))]
  }

  /** What the ring consists of, seen from outside. */
  lemma RingFacts(v: string)
    ensures var (s, n, x) := (RingOf(v), MediaName(v), MediaName(MediaName(v)));
            && s.workloads.Keys == Sidecars(s) == {v, n, x}
            && |v| < |n| < |x| < |MediaName(x)|
            && Owned(s, v) && Owned(s, n) && Owned(s, x)
  {}

  lemma RingReady(v: string, k: string)
    requires k in Sidecars(RingOf(v))
    ensures Ready(RingOf(v), k)
  {
    RingFacts(v);
    var (n, x) := (MediaName(v), MediaName(MediaName(v)));
    MediaIngressServices(None, k, Shape(if k == v then "p" else "q", "host", "", ""));
  }

  lemma RingHasNoClash(v: string)
    ensures NoClash(RingOf(v))
  {
    forall k ensures !Clash(RingOf(v), k) {
      RingFacts(v);
    }
  }

  lemma RingOwns(v: string, k: string)
    requires k in {v, MediaName(v), MediaName(MediaName(v))}
    ensures OwnIngress(RingOf(v), MediaName(k)) && FinalServices(RingOf(v), MediaName(k)) == {MediaName(k)}
    ensures FinalSelector(RingOf(v), MediaName(k)) == Some(RingOf(v).workloads[k].selector)
  {
    RingFacts(v);
    StemOfMediaName(k);
  }

  lemma SelectorsDiffer()
    ensures Hosted("s").selector != Hosted("t").selector
  {
    assert Hosted("s").selector["app"] != Hosted("t").selector["app"];
  }

  lemma RingOrigins(v: string)
    ensures var (s, n, x) := (RingOf(v), MediaName(v), MediaName(MediaName(v)));
            && Origin(RingOrder(v), s, v) == Some(x)
            && Origin(RingOrder(v), s, n) == Some(v)
            && Origin(RingOrder(v), s, x) == Some(n)
  {
    var (s, order, n, x) := (RingOf(v), RingOrder(v), MediaName(v), MediaName(MediaName(v)));
    RingFacts(v);
    SelectorsDiffer();
    RingOwns(v, v);
    RingOwns(v, n);
    RingOwns(v, x);
    StemOfMediaName(v);
    StemOfMediaName(n);
    StemOfMediaName(x);
    assert order[1..] == [n, MediaName(x)] && order[1..][1..] == [MediaName(x)];
    assert !WillRoute(s, v, x) && !WillBeSource(s, v, x) && !WillBeSource(s, v, n);
    assert WillRoute(s, v, MediaName(x)) && WillBeSource(s, v, MediaName(x));
    assert !WillBeSource(s, n, x) && WillRoute(s, n, n) && WillBeSource(s, n, n);
    assert WillRoute(s, x, x) && WillBeSource(s, x, x);
    assert Chosen(order, s, v) == Chosen(order[1..], s, v) == Chosen([MediaName(x)], s, v);
    assert Chosen(order, s, n) == Chosen(order[1..], s, n);
  }

  lemma RingAllReady(v: string)
    ensures AllReady(RingOf(v))
  {
    forall k | k in Sidecars(RingOf(v)) ensures Ready(RingOf(v), k) {
      RingReady(v, k);
    }
  }

  lemma RingAnnotations(v: string)
    ensures forall k | k in RingOf(v).workloads ::
              AnnotatedHost(RingOf(v).workloads[k]) == "host" && AnnotatedClass(RingOf(v).workloads[k]) == ""
  {}

  lemma RingClasses(v: string)
    ensures ClassOf(RingOf(v), v) == "p" && ClassOf(RingOf(v), MediaName(MediaName(v))) == "q"
  {
    RingFacts(v);
  }

  lemma RingIsRing(v: string)
    ensures var (s, n, x) := (RingOf(v), MediaName(v), MediaName(MediaName(v)));
            Ring(s, PlanOf(RingOrder(v), s), n, v, x)
  {
    RingFacts(v);
    RingOrigins(v);
    RingAnnotations(v);
  }

  lemma RingHostsAnnotated(v: string)
    ensures Unhosted(RingOf(v)) == {}
  {
    RingAnnotations(v);
  }

  /** A schedule that covers the ring never settles it, although there is no clash and every
      host is annotated: convergence needs chains that end. */
  lemma RingExists(v: string, k: nat)
    ensures var (s, order, round) := (RingOf(v), RingOrder(v), [MediaName(v), v, MediaName(MediaName(v))]);
            && NoClash(s) && PairsAnnotated(PlanOf(order, s)) && Covering(s.workloads.Keys, round)
            && !Fixpoint(order, RunRounds(order, s, Repeat(round, k)))
  {
    var (s, order, n, x) := (RingOf(v), RingOrder(v), MediaName(v), MediaName(MediaName(v)));
    var plan := PlanOf(order, s);
    RingFacts(v);
    RingHasNoClash(v);
    RingAllReady(v);
    RingIsRing(v);
    RingClasses(v);
    RingHostsAnnotated(v);
    RingNeverSettles(order, s, plan, n, v, x, k);
  }
}
