/** What keeps a cluster from settling, and with it the exact condition for convergence. */
module Divergence {
  import opened Core
  import opened Cluster
  import opened Reconciling
  import opened Inheritance
  import opened Convergence

  // ------------------------------------------------------------------ loops

  function HostOf(s: State, name: string): string {
    if MediaName(name) in s.ingresses && s.ingresses[MediaName(name)].rules != []
    then s.ingresses[MediaName(name)].rules[0].host else ""
  }

  lemma InheritedHostGrows(host: string, name: string)
    requires host != ""
    ensures |InheritedHost(host, name)| == |host| + 6
  {}

  /** A host that is inherited is six characters longer than the one it comes from. */
  lemma HeirHost(order: seq<string>, s: State, n: string)
    requires AllReady(s) && Origin(order, s, n).Some? && AnnotatedHost(s.workloads[n]) == ""
    ensures |HostOf(Reconcile(order, s, n).0, n)| == |HostOf(s, Origin(order, s, n).value)| + 6
  {
    var v := Origin(order, s, n).value;
    OriginIsSource(order, s, n);
    assert Ready(s, v);
    HeirWrites(order, s, n);
    InheritedHostGrows(HostOf(s, v), n);
  }

  lemma FixpointIsReady(order: seq<string>, s: State)
    requires Fixpoint(order, s)
    ensures AllReady(s)
  {
    forall n | n in Sidecars(s) ensures Ready(s, n) {
      assert Reconcile(order, s, n).0 == s;
      if Owned(s, n) {
        FixedIsSettled(order, s, n);
        SettledIsReady(order, s, n);
      } else if Serving(s, n) {
        RefusedMakesReady(order, s, n);
      }
    }
  }

  lemma {:induction false} LoopHostsExceed(order: seq<string>, s: State, c: set<string>, n: string, h: nat)
    requires Fixpoint(order, s) && Loop(PlanOf(order, s), c) && n in c
    ensures |HostOf(s, n)| >= 6 * h
    decreases h
  {
    if h > 0 {
      FixpointIsReady(order, s);
      assert Reconcile(order, s, n).0 == s && Inside(PlanOf(order, s), c, n);
      HeirHost(order, s, n);
      LoopHostsExceed(order, s, c, Origin(order, s, n).value, h - 1);
    }
  }

  /** Whatever the length of the loop, and whatever else there is, no state is a fixed point. */
  lemma LoopNeverSettles(order: seq<string>, s: State, c: set<string>)
    requires Loop(PlanOf(order, s), c)
    ensures !Fixpoint(order, s)
  {
    var n :| n in c;
    if Fixpoint(order, s) {
      LoopHostsExceed(order, s, c, n, |HostOf(s, n)| + 1);
    }
  }

  /** The hosts of a set have at least h characters, and six more where reconciled. */
  ghost predicate HostsReach(s: State, c: set<string>, h: nat, done: set<string>) {
    forall n | n in c :: |HostOf(s, n)| >= if n in done then h + 6 else h
  }

  lemma HostStays(order: seq<string>, s: State, u: string, n: string)
    requires u != n
    ensures HostOf(Reconcile(order, s, u).0, n) == HostOf(s, n)
  {
    MediaObjectsStay(order, s, u, n);
  }

  lemma StepGrows(order: seq<string>, s: State, plan: Plan, c: set<string>, h: nat, done: set<string>, u: string)
    requires plan == PlanOf(order, s) && Loop(plan, c) && AllReady(s) && HostsReach(s, c, h, done)
    ensures HostsReach(Reconcile(order, s, u).0, c, h, done + {u})
  {
    var s' := Reconcile(order, s, u).0;
    forall n | n in c ensures |HostOf(s', n)| >= if n in done + {u} then h + 6 else h {
      if n == u {
        assert Inside(plan, c, n);
        HeirHost(order, s, n);
      } else {
        HostStays(order, s, u, n);
      }
    }
  }

  lemma {:induction false} RoundGrows(
    order: seq<string>, s: State, plan: Plan, c: set<string>, h: nat, done: set<string>, acts: seq<string>)
    requires Steady(order, s, plan) && AllReady(s) && Loop(plan, c) && HostsReach(s, c, h, done)
    requires forall n | n in acts :: n in plan.all
    ensures Steady(order, Run(order, s, acts), plan) && AllReady(Run(order, s, acts))
    ensures HostsReach(Run(order, s, acts), c, h, done + Names(acts))
    decreases |acts|
  {
    if acts == [] {
      assert done + Names(acts) == done;
    } else {
      StepKeepsSteady(order, s, plan, acts[0]);
      StepKeepsAllReady(order, s, acts[0]);
      StepGrows(order, s, plan, c, h, done, acts[0]);
      NamesStep(acts, done);
      RoundGrows(order, Reconcile(order, s, acts[0]).0, plan, c, h, done + {acts[0]}, acts[1..]);
    }
  }

  lemma AllDone(s: State, plan: Plan, c: set<string>, h: nat, done: set<string>)
    requires HostsReach(s, c, h, done) && c <= done
    ensures HostsReach(s, c, h + 6, {})
  {}

  lemma LoopIsCovered(order: seq<string>, s: State, plan: Plan, c: set<string>)
    requires plan == PlanOf(order, s) && Loop(plan, c)
    ensures c <= plan.all
  {
    assert forall n | n in c :: Inside(plan, c, n);
  }

  lemma CoveringRoundGrows(order: seq<string>, s: State, plan: Plan, c: set<string>, h: nat, acts: seq<string>)
    requires Steady(order, s, plan) && AllReady(s) && Loop(plan, c) && HostsReach(s, c, h, {})
    requires Covering(plan.all, acts)
    ensures Steady(order, Run(order, s, acts), plan) && AllReady(Run(order, s, acts))
    ensures HostsReach(Run(order, s, acts), c, h + 6, {})
  {
    RoundGrows(order, s, plan, c, h, {}, acts);
    LoopIsCovered(order, s, plan, c);
    assert {} + Names(acts) == plan.all;
    AllDone(Run(order, s, acts), plan, c, h, plan.all);
  }

  lemma {:induction false} RoundsGrow(
    order: seq<string>, s: State, plan: Plan, c: set<string>, h: nat, rounds: seq<seq<string>>)
    requires Steady(order, s, plan) && AllReady(s) && Loop(plan, c) && HostsReach(s, c, h, {})
    requires AllCover(plan.all, rounds)
    ensures HostsReach(RunRounds(order, s, rounds), c, h + 6 * |rounds|, {})
    decreases |rounds|
  {
    if rounds != [] {
      CoveringRoundGrows(order, s, plan, c, h, rounds[0]);
      RoundsGrow(order, Run(order, s, rounds[0]), plan, c, h + 6, rounds[1..]);
    }
  }

  /** Without bound: after the first round, every covering round in any order makes every host
      of a loop longer by six characters or more. */
  lemma LoopDiverges(order: seq<string>, s: State, rounds: seq<seq<string>>, c: set<string>, n: string)
    requires NoClash(s) && Loop(PlanOf(order, s), c) && n in c && rounds != [] && AllCover(s.workloads.Keys, rounds)
    ensures |HostOf(RunRounds(order, s, rounds), n)| >= 6 * (|rounds| - 1)
  {
    var s1 := Run(order, s, rounds[0]);
    FirstRoundReadies(order, s, PlanOf(order, s), rounds[0]);
    RoundsGrow(order, s1, PlanOf(order, s), c, 0, rounds[1..]);
  }

  lemma {:induction false} RunKeepsPlan(order: seq<string>, s: State, acts: seq<string>)
    ensures PlanOf(order, Run(order, s, acts)) == PlanOf(order, s)
    decreases |acts|
  {
    if acts != [] {
      if acts[0] in s.workloads {
        PlanStays(order, s, acts[0]);
      }
      RunKeepsPlan(order, Reconcile(order, s, acts[0]).0, acts[1..]);
    }
  }

  lemma {:induction false} RoundsKeepPlan(order: seq<string>, s: State, rounds: seq<seq<string>>)
    ensures PlanOf(order, RunRounds(order, s, rounds)) == PlanOf(order, s)
    decreases |rounds|
  {
    if rounds != [] {
      RunKeepsPlan(order, s, rounds[0]);
      RoundsKeepPlan(order, Run(order, s, rounds[0]), rounds[1..]);
    }
  }

  // ------------------------------------------------------------------ clashes

  lemma ClashRetargets(up: int)
    requires Wrap32(up) in {SERVE_PORT, MINT_PORT}
    ensures Retarget(MEDIA_PORTS, up) != MEDIA_PORTS
  {
    var i := if Wrap32(up) == SERVE_PORT then 0 else 1;
    assert Retarget(MEDIA_PORTS, up)[i] != MEDIA_PORTS[i];
  }

  /** With a clash there is no fixed point at all: the media service's ports are reset by one
      workload and retargeted by the other. */
  lemma ClashNeverSettles(order: seq<string>, s: State, n: string)
    requires Clash(s, n)
    ensures !Fixpoint(order, s)
  {
    var m := MediaName(n);
    ClashRetargets(UpstreamPort(s.workloads[m]).value);
    if Reconcile(order, s, n).0 == s && Reconcile(order, s, m).0 == s {
      FixedIsSettled(order, s, m);
      if Owned(s, n) {
        FixedIsSettled(order, s, n);
      } else {
        RefusedMakesReady(order, s, n);
      }
    }
  }

  lemma {:induction false} RunKeepsClash(order: seq<string>, s: State, acts: seq<string>, n: string)
    requires Clash(s, n)
    ensures Clash(Run(order, s, acts), n)
    decreases |acts|
  {
    if acts != [] {
      if acts[0] in s.workloads {
        ClashStays(order, s, acts[0], n);
      }
      RunKeepsClash(order, Reconcile(order, s, acts[0]).0, acts[1..], n);
    }
  }

  lemma {:induction false} RoundsKeepClash(order: seq<string>, s: State, rounds: seq<seq<string>>, n: string)
    requires Clash(s, n)
    ensures Clash(RunRounds(order, s, rounds), n)
    decreases |rounds|
  {
    if rounds != [] {
      RunKeepsClash(order, s, rounds[0], n);
      RoundsKeepClash(order, Run(order, s, rounds[0]), rounds[1..], n);
    }
  }

  // ------------------------------------------------------------------ the exact condition

  /** Convergence: reconciling every workload in enough rounds reaches a fixed point if and only
      if no proxied workload clashes with a media service and of any two workloads that inherit
      from each other one has its host annotated, whatever the order within the rounds, whatever
      the selectors, whatever media objects existed before and whoever owns them. Enough is two
      rounds and one for each step of the longest chain of origins; a chain ends where nothing
      is inherited, or in such a pair, and only a ring of three or more has no end. */
  lemma Converges(order: seq<string>, s: State, rounds: seq<seq<string>>)
    requires |rounds| >= 2 && AllCover(s.workloads.Keys, rounds)
    requires forall n | n in s.workloads :: Ends(PlanOf(order, s), n, |rounds| - 2)
    ensures Fixpoint(order, RunRounds(order, s, rounds)) <==> NoClash(s) && PairsAnnotated(PlanOf(order, s))
  {
    var plan := PlanOf(order, s);
    if n :| Clash(s, n) {
      RoundsKeepClash(order, s, rounds, n);
      ClashNeverSettles(order, RunRounds(order, s, rounds), n);
    } else if n :| Paired(plan, n) && n in plan.free && plan.origins[n] in plan.free {
      BarePairIsLoop(plan, n);
      RoundsKeepPlan(order, s, rounds);
      LoopNeverSettles(order, RunRounds(order, s, rounds), {n, plan.origins[n]});
    } else {
      PeacefulConverges(order, s, plan, rounds);
    }
  }

  // ------------------------------------------------------------------ chains that end

  /** A workload inherits only from a workload with its selector, or from the one called like
      itself without the media suffix. */
  lemma OriginIsKin(order: seq<string>, s: State, n: string)
    requires Origin(order, s, n).Some?
    ensures var v := Origin(order, s, n).value;
            && n in Sidecars(s) && v in Sidecars(s) && Owned(s, v) && v != n
            && (n == MediaName(v) || s.workloads[v].selector == s.workloads[n].selector)
            && Chosen(order, s, n) == Some(MediaName(v)) && WillBeSource(s, n, MediaName(v))
  {
    var k := Chosen(order, s, n).value;
    MediaNameOfStem(k);
    ChosenIsFirst(order, s, n, k);
  }

  /** Place of a name in the listing; names that are not listed come last. */
  function Place(order: seq<string>, k: string): nat {
    if order == [] || order[0] == k then 0 else 1 + Place(order[1..], k)
  }

  lemma {:induction false} PlaceInjective(order: seq<string>, j: string, k: string)
    requires j != k && (j in order || k in order)
    ensures Place(order, j) != Place(order, k)
  {
    if order[0] != j && order[0] != k {
      PlaceInjective(order[1..], j, k);
    }
  }

  lemma {:induction false} ChosenIsFirst(order: seq<string>, s: State, n: string, k: string)
    requires n in s.workloads
    ensures var chosen := Chosen(order, s, n);
            chosen.Some? ==>
              && chosen.value in order && WillBeSource(s, n, chosen.value)
              && (WillBeSource(s, n, k) ==> Place(order, chosen.value) <= Place(order, k))
  {
    if order != [] {
      ChosenIsFirst(order[1..], s, n, k);
    }
  }

  /** The listing names each ingress before the one called like it with one more media suffix,
      as a listing sorted by name does. */
  ghost predicate Listed(order: seq<string>) {
    forall v: string | MediaName(v) in order :: Place(order, MediaName(v)) < Place(order, MediaName(MediaName(v)))
  }

  lemma SameSelectorIsCandidate(s: State, v: string, n: string)
    requires n in Sidecars(s) && Owned(s, n) && v in s.workloads && v != n
    requires s.workloads[v].selector == s.workloads[n].selector
    ensures WillBeSource(s, v, MediaName(n))
  {
    StemOfMediaName(n);
    if MediaName(v) == MediaName(n) {
      MediaNameInjective(v, n);
    }
    assert WillRoute(s, v, MediaName(n)) && MediaName(n) in FinalServices(s, MediaName(n));
  }

  /** Along a chain the place in the listing falls at every step or at every other one. */
  lemma PlaceFalls(order: seq<string>, s: State, n: string)
    requires Listed(order) && Origin(order, s, n).Some?
    ensures var v := Origin(order, s, n).value;
            || Place(order, MediaName(v)) < Place(order, MediaName(n))
            || Origin(order, s, v) == None
            || Origin(order, s, v) == Some(n)
            || Place(order, MediaName(Origin(order, s, v).value)) < Place(order, MediaName(n))
  {
    var v := Origin(order, s, n).value;
    OriginIsKin(order, s, n);
    ChosenIsFirst(order, s, n, MediaName(v));
    if n != MediaName(v) && Origin(order, s, v).Some? && Origin(order, s, v) != Some(n) {
      var w := Origin(order, s, v).value;
      OriginIsKin(order, s, v);
      SameSelectorIsCandidate(s, v, n);
      ChosenIsFirst(order, s, v, MediaName(n));
      if MediaName(w) == MediaName(n) {
        MediaNameInjective(w, n);
      }
      PlaceInjective(order, MediaName(w), MediaName(n));
    }
  }

  lemma {:induction false} ListedChainsEnd(order: seq<string>, s: State, plan: Plan, n: string, k: nat)
    requires Listed(order) && plan == PlanOf(order, s) && k > 2 * Place(order, MediaName(n))
    ensures Ends(plan, n, k)
    decreases k
  {
    if n in plan.origins && !Paired(plan, n) {
      var v := plan.origins[n];
      PlaceFalls(order, s, n);
      if Place(order, MediaName(v)) < Place(order, MediaName(n)) {
        ListedChainsEnd(order, s, plan, v, k - 1);
      } else if v in plan.origins {
        ListedChainsEnd(order, s, plan, plan.origins[v], k - 2);
      }
    }
  }

  lemma {:induction false} PlaceBound(order: seq<string>, k: string)
    ensures Place(order, k) <= |order|
  {
    if order != [] && order[0] != k {
      PlaceBound(order[1..], k);
    }
  }

  /** With a sorted listing there is nothing else to require. */
  lemma ConvergesWhenListed(order: seq<string>, s: State, rounds: seq<seq<string>>)
    requires Listed(order) && |rounds| >= 2 * |order| + 3 && AllCover(s.workloads.Keys, rounds)
    ensures Fixpoint(order, RunRounds(order, s, rounds)) <==> NoClash(s) && PairsAnnotated(PlanOf(order, s))
  {
    forall n | n in s.workloads ensures Ends(PlanOf(order, s), n, |rounds| - 2) {
      PlaceBound(order, MediaName(n));
      ListedChainsEnd(order, s, PlanOf(order, s), n, |rounds| - 2);
    }
    Converges(order, s, rounds);
  }

  ghost predicate DistinctSelectors(s: State) {
    forall a, b | a in Sidecars(s) && b in Sidecars(s) && a != b :: s.workloads[a].selector != s.workloads[b].selector
  }

  lemma {:induction false} DistinctChainsEnd(order: seq<string>, s: State, n: string, k: nat)
    requires DistinctSelectors(s) && |n| < 6 * (k + 1)
    ensures Ends(PlanOf(order, s), n, k)
    decreases k
  {
    if n in PlanOf(order, s).origins {
      OriginIsKin(order, s, n);
      assert |n| == |PlanOf(order, s).origins[n]| + 6;
      if k > 0 {
        DistinctChainsEnd(order, s, PlanOf(order, s).origins[n], k - 1);
      }
    }
  }

  /** With pairwise different selectors names bound the chains, six characters a step, in any
      listing order, and only a clash is in the way. */
  lemma ConvergesWhenDistinct(order: seq<string>, s: State, rounds: seq<seq<string>>)
    requires DistinctSelectors(s) && |rounds| >= 2 && AllCover(s.workloads.Keys, rounds)
    requires forall n | n in s.workloads :: |n| < 6 * (|rounds| - 1)
    ensures Fixpoint(order, RunRounds(order, s, rounds)) <==> NoClash(s)
  {
    forall n | n in s.workloads ensures Ends(PlanOf(order, s), n, |rounds| - 2) {
      DistinctChainsEnd(order, s, n, |rounds| - 2);
    }
    forall n | Paired(PlanOf(order, s), n) ensures false {
      OriginIsKin(order, s, n);
      OriginIsKin(order, s, PlanOf(order, s).origins[n]);
    }
    Converges(order, s, rounds);
  }

  // ------------------------------------------------------------------ rings

  function ClassOf(s: State, name: string): string {
    if MediaName(name) in s.ingresses then Deref(s.ingresses[MediaName(name)].className) else ""
  }

  lemma HeirClass(order: seq<string>, s: State, n: string)
    requires AllReady(s) && Origin(order, s, n).Some? && AnnotatedClass(s.workloads[n]) == ""
    ensures ClassOf(Reconcile(order, s, n).0, n) == ClassOf(s, Origin(order, s, n).value)
  {
    OriginIsSource(order, s, n);
    assert Ready(s, Origin(order, s, n).value);
    HeirWrites(order, s, n);
  }

  lemma ClassStays(order: seq<string>, s: State, u: string, n: string)
    requires u != n
    ensures ClassOf(Reconcile(order, s, u).0, n) == ClassOf(s, n)
  {
    MediaObjectsStay(order, s, u, n);
  }

  /** Three workloads that inherit from each other in a ring, and none of their classes annotated. */
  ghost predicate Ring(s: State, plan: Plan, a: string, b: string, c: string) {
    && a != b && b != c && c != a && {a, b, c} <= plan.all && {a, b, c} <= plan.origins.Keys
    && plan.origins[a] == b && plan.origins[b] == c && plan.origins[c] == a
    && forall n | n in {a, b, c} && n in s.workloads :: AnnotatedClass(s.workloads[n]) == ""
  }

  lemma RingStep(order: seq<string>, s: State, plan: Plan, a: string, b: string, c: string, u: string)
    requires Steady(order, s, plan) && AllReady(s) && Ring(s, plan, a, b, c) && u in {a, b, c}
    ensures var s' := Reconcile(order, s, u).0;
            && Steady(order, s', plan) && AllReady(s') && Ring(s', plan, a, b, c)
            && ClassOf(s', u) == ClassOf(s, plan.origins[u])
            && forall n | n in {a, b, c} && n != u :: ClassOf(s', n) == ClassOf(s, n)
  {
    StepKeepsSteady(order, s, plan, u);
    StepKeepsAllReady(order, s, u);
    HeirClass(order, s, u);
    ReconcileFrame(order, s, u);
    forall n | n in {a, b, c} && n != u ensures ClassOf(Reconcile(order, s, u).0, n) == ClassOf(s, n) {
      ClassStays(order, s, u, n);
    }
  }

  lemma RunThree(order: seq<string>, s: State, a: string, b: string, c: string)
    ensures Run(order, s, [a, b, c])
            == Reconcile(order, Reconcile(order, Reconcile(order, s, a).0, b).0, c).0
  {
    var (s1, s2) := (Reconcile(order, s, a).0, Reconcile(order, Reconcile(order, s, a).0, b).0);
    assert [a, b, c][1..] == [b, c] && [b, c][1..] == [c] && [c][1..] == [];
    assert Run(order, s2, [c]) == Run(order, Reconcile(order, s2, c).0, []);
    assert Run(order, s1, [b, c]) == Run(order, s2, [c]);
  }

  /** Reconciled in the direction of inheritance, the classes go round. */
  lemma RingTurns(order: seq<string>, s: State, plan: Plan, a: string, b: string, c: string)
    requires Steady(order, s, plan) && AllReady(s) && Ring(s, plan, a, b, c)
    ensures var s' := Run(order, s, [a, b, c]);
            && Steady(order, s', plan) && AllReady(s') && Ring(s', plan, a, b, c)
            && ClassOf(s', b) == ClassOf(s, c) && ClassOf(s', c) == ClassOf(s, b)
  {
    RingStep(order, s, plan, a, b, c, a);
    var s1 := Reconcile(order, s, a).0;
    RingStep(order, s1, plan, a, b, c, b);
    RingStep(order, Reconcile(order, s1, b).0, plan, a, b, c, c);
    RunThree(order, s, a, b, c);
  }

  lemma RingAtRest(order: seq<string>, s: State, plan: Plan, a: string, b: string, c: string)
    requires Steady(order, s, plan) && AllReady(s) && Ring(s, plan, a, b, c) && Fixpoint(order, s)
    ensures ClassOf(s, b) == ClassOf(s, c)
  {
    RingStep(order, s, plan, a, b, c, b);
    assert Reconcile(order, s, b).0 == s;
  }

  function Repeat(acts: seq<string>, n: nat): seq<seq<string>> {
    if n == 0 then [] else [acts] + Repeat(acts, n - 1)
  }

  function Iterate(order: seq<string>, s: State, acts: seq<string>, n: nat): State
    decreases n
  {
    if n == 0 then s else Iterate(order, Run(order, s, acts), acts, n - 1)
  }

  lemma {:induction false} IterateRepeats(order: seq<string>, s: State, acts: seq<string>, n: nat)
    ensures RunRounds(order, s, Repeat(acts, n)) == Iterate(order, s, acts, n)
    decreases n
  {
    if n > 0 {
      assert Repeat(acts, n)[0] == acts && Repeat(acts, n)[1..] == Repeat(acts, n - 1);
      IterateRepeats(order, Run(order, s, acts), acts, n - 1);
    }
  }

  ghost predicate Turning(order: seq<string>, s: State, plan: Plan, a: string, b: string, c: string) {
    Steady(order, s, plan) && AllReady(s) && Ring(s, plan, a, b, c) && ClassOf(s, b) != ClassOf(s, c)
  }

  lemma {:induction false} IterateKeeps(order: seq<string>, s: State, acts: seq<string>, inv: State -> bool, n: nat)
    requires inv(s) && forall t | inv(t) :: inv(Run(order, t, acts))
    ensures inv(Iterate(order, s, acts, n))
    decreases n
  {
    if n > 0 {
      IterateKeeps(order, Run(order, s, acts), acts, inv, n - 1);
    }
  }

  /** Why chains have to end: when two classes of a ring differ, this schedule never settles it,
      however often it is repeated and whatever hosts are annotated. */
  lemma RingNeverSettles(order: seq<string>, s: State, plan: Plan, a: string, b: string, c: string, n: nat)
    requires Turning(order, s, plan, a, b, c)
    ensures !Fixpoint(order, RunRounds(order, s, Repeat([a, b, c], n)))
  {
    var inv := t => Turning(order, t, plan, a, b, c);
    forall t | inv(t) ensures inv(Run(order, t, [a, b, c])) {
      RingTurns(order, t, plan, a, b, c);
    }
    IterateKeeps(order, s, [a, b, c], inv, n);
    IterateRepeats(order, s, [a, b, c], n);
    var last := Iterate(order, s, [a, b, c], n);
    if Fixpoint(order, last) {
      RingAtRest(order, last, plan, a, b, c);
    }
  }
}
