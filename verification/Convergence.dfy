/** Many workloads reconciled in any order. Media ingresses inherit from media ingresses, so
    that convergence needs an argument, and a condition. */
module Convergence {
  import opened Core
  import opened Cluster
  import opened Reconciling
  import opened Inheritance

  function Run(order: seq<string>, s: State, acts: seq<string>): State
    decreases |acts|
  {
    if acts == [] then s else Run(order, Reconcile(order, s, acts[0]).0, acts[1..])
  }

  function RunRounds(order: seq<string>, s: State, rounds: seq<seq<string>>): State
    decreases |rounds|
  {
    if rounds == [] then s else RunRounds(order, Run(order, s, rounds[0]), rounds[1..])
  }

  /** A round covers a set of workloads when it reconciles each at least once, and no others. */
  ghost predicate Covering(all: set<string>, acts: seq<string>) {
    forall n :: n in all <==> n in acts
  }

  ghost predicate AllCover(all: set<string>, rounds: seq<seq<string>>) {
    forall i | 0 <= i < |rounds| :: Covering(all, rounds[i])
  }

  /** Every reconcile leaves the state as it is. */
  ghost predicate Fixpoint(order: seq<string>, s: State) {
    forall n :: Reconcile(order, s, n).0 == s
  }

  /** What never changes: the workloads, who inherits from whom, and whose host is not annotated. */
  datatype Plan = Plan(all: set<string>, origins: map<string, string>, free: set<string>)

  function Unhosted(s: State): set<string> {
    set n | n in s.workloads && AnnotatedHost(s.workloads[n]) == ""
  }

  ghost function PlanOf(order: seq<string>, s: State): Plan {
    Plan(s.workloads.Keys, Origins(order, s), Unhosted(s))
  }

  /** The host of `n` is inherited, from a workload of the set. */
  predicate Inside(plan: Plan, c: set<string>, n: string) {
    n in plan.free && n in plan.origins && plan.origins[n] in c
  }

  /** A set of workloads, each inheriting its host from one of the set. */
  predicate Loop(plan: Plan, c: set<string>) {
    c != {} && forall n {:trigger Inside(plan, c, n)} | n in c :: Inside(plan, c, n)
  }

  // ------------------------------------------------------------------ the first round

  function Names(acts: seq<string>): set<string> {
    set n | n in acts
  }

  lemma NamesStep(acts: seq<string>, names: set<string>)
    requires acts != []
    ensures names + {acts[0]} + Names(acts[1..]) == names + Names(acts)
  {}

  lemma PlanStays(order: seq<string>, s: State, u: string)
    requires u in s.workloads
    ensures PlanOf(order, Reconcile(order, s, u).0) == PlanOf(order, s)
  {
    StepKeepsSidecars(order, s, u);
    OriginsStay(order, s, u);
    UnhostedStays(order, s, u);
  }

  lemma UnhostedStays(order: seq<string>, s: State, u: string)
    ensures Unhosted(Reconcile(order, s, u).0) == Unhosted(s)
  {
    ReconcileFrame(order, s, u);
    var s' := Reconcile(order, s, u).0;
    assert forall n | n in s.workloads :: s'.workloads[n].annotations == s.workloads[n].annotations;
  }

  /** A state with this plan and no clash. */
  ghost predicate Steady(order: seq<string>, s: State, plan: Plan) {
    PlanOf(order, s) == plan && NoClash(s)
  }

  lemma StepKeepsSteady(order: seq<string>, s: State, plan: Plan, u: string)
    requires Steady(order, s, plan) && u in plan.all
    ensures Steady(order, Reconcile(order, s, u).0, plan)
  {
    PlanStays(order, s, u);
    StepKeepsNoClash(order, s, u);
  }

  ghost predicate ReadyOn(s: State, names: set<string>) {
    forall n | n in names && n in Sidecars(s) :: Ready(s, n)
  }

  lemma StepReadies(order: seq<string>, s: State, names: set<string>, u: string)
    requires NoClash(s) && u in s.workloads && ReadyOn(s, names)
    ensures ReadyOn(Reconcile(order, s, u).0, names + {u})
  {
    StepKeepsSidecars(order, s, u);
    forall n | n in names + {u} && n in Sidecars(s) ensures Ready(Reconcile(order, s, u).0, n) {
      if n == u {
        StepMakesReady(order, s, u);
      } else {
        StepKeepsReady(order, s, u, n);
      }
    }
  }

  lemma {:induction false} RoundReadies(order: seq<string>, s: State, plan: Plan, acts: seq<string>, names: set<string>)
    requires Steady(order, s, plan) && ReadyOn(s, names) && forall n | n in acts :: n in plan.all
    ensures Steady(order, Run(order, s, acts), plan) && ReadyOn(Run(order, s, acts), names + Names(acts))
    decreases |acts|
  {
    if acts == [] {
      assert names + Names(acts) == names;
    } else {
      StepKeepsSteady(order, s, plan, acts[0]);
      StepReadies(order, s, names, acts[0]);
      NamesStep(acts, names);
      RoundReadies(order, Reconcile(order, s, acts[0]).0, plan, acts[1..], names + {acts[0]});
    }
  }

  lemma FirstRoundReadies(order: seq<string>, s: State, plan: Plan, acts: seq<string>)
    requires Steady(order, s, plan) && Covering(plan.all, acts)
    ensures Steady(order, Run(order, s, acts), plan) && AllReady(Run(order, s, acts))
  {
    RoundReadies(order, s, plan, acts, {});
    assert {} + Names(acts) == plan.all;
  }

  // ------------------------------------------------------------------ the rounds after it

  /** The chain of origins above `n` ends within k steps, or runs into a pair. */
  predicate Ends(plan: Plan, n: string, k: nat)
    decreases k
  {
    n !in plan.origins || Paired(plan, n) || (k > 0 && Ends(plan, plan.origins[n], k - 1))
  }

  /** Two workloads that inherit from each other. */
  predicate Paired(plan: Plan, n: string) {
    n in plan.origins && plan.origins[n] in plan.origins && plan.origins[plan.origins[n]] == n
  }

  /** In every pair a host is annotated. */
  ghost predicate PairsAnnotated(plan: Plan) {
    forall n | Paired(plan, n) :: n !in plan.free || plan.origins[n] !in plan.free
  }

  /** Two workloads that inherit from each other, and neither host annotated, are a loop. */
  lemma BarePairIsLoop(plan: Plan, n: string)
    requires Paired(plan, n) && n in plan.free && plan.origins[n] in plan.free
    ensures Loop(plan, {n, plan.origins[n]})
  {
    var c := {n, plan.origins[n]};
    assert Inside(plan, c, n) && Inside(plan, c, plan.origins[n]);
  }

  /** What a set of names is settled means: they have nothing left to do, and each one's origin
      is settled with it, or inherits back. */
  ghost predicate SettledOn(order: seq<string>, s: State, plan: Plan, names: set<string>) {
    && AllReady(s) && names <= s.workloads.Keys
    && (forall n | n in names && Owned(s, n) :: Settled(order, s, n))
    && (forall n | n in names :: Closes(plan, names, n))
  }

  /** Whose settling may be added to a settled set. */
  predicate Closes(plan: Plan, names: set<string>, u: string) {
    u in plan.origins ==> plan.origins[u] in names || Paired(plan, u)
  }

  lemma NameStaysSettled(order: seq<string>, s: State, plan: Plan, names: set<string>, u: string, n: string)
    requires Steady(order, s, plan) && PairsAnnotated(plan) && SettledOn(order, s, plan, names)
    requires u in plan.all && Owned(s, u) && n in names && Owned(s, n)
    ensures n in Reconcile(order, s, u).0.workloads && Settled(order, Reconcile(order, s, u).0, n)
  {
    if Origin(order, s, n) == Some(u) {
      assert n in plan.origins && plan.origins[n] == u && Closes(plan, names, n);
      if u !in names {
        assert Paired(plan, n) && Origin(order, s, u) == Some(n);
        assert n !in plan.free || u !in plan.free;
      }
    }
    StepKeepsSettled(order, s, u, n);
  }

  lemma NamesStaySettled(order: seq<string>, s: State, plan: Plan, names: set<string>, u: string)
    requires Steady(order, s, plan) && PairsAnnotated(plan) && SettledOn(order, s, plan, names)
    requires u in plan.all && Owned(s, u)
    ensures SettledOn(order, Reconcile(order, s, u).0, plan, names)
  {
    var s' := Reconcile(order, s, u).0;
    StepKeepsSidecars(order, s, u);
    StepKeepsAllReady(order, s, u);
    forall n | n in names && Owned(s', n) ensures Settled(order, s', n) {
      OwnershipStays(order, s, u, n);
      NameStaysSettled(order, s, plan, names, u, n);
    }
  }

  lemma OneMore(order: seq<string>, s: State, plan: Plan, names: set<string>, u: string)
    requires SettledOn(order, s, plan, names) && Closes(plan, names, u)
    requires u in s.workloads && (Owned(s, u) ==> Settled(order, s, u))
    ensures SettledOn(order, s, plan, names + {u})
  {}

  lemma OwnedStepExtends(order: seq<string>, s: State, plan: Plan, names: set<string>, u: string)
    requires Steady(order, s, plan) && PairsAnnotated(plan) && SettledOn(order, s, plan, names)
    requires u in plan.all && Owned(s, u)
    ensures var s' := Reconcile(order, s, u).0;
            && SettledOn(order, s', plan, names)
            && (Closes(plan, names, u) ==> SettledOn(order, s', plan, names + {u}))
  {
    NamesStaySettled(order, s, plan, names, u);
    ReconcileSettles(order, s, u);
    if Closes(plan, names, u) {
      OneMore(order, Reconcile(order, s, u).0, plan, names, u);
    }
  }

  lemma StepExtends(order: seq<string>, s: State, plan: Plan, names: set<string>, u: string)
    requires Steady(order, s, plan) && PairsAnnotated(plan) && SettledOn(order, s, plan, names) && u in plan.all
    ensures var s' := Reconcile(order, s, u).0;
            && SettledOn(order, s', plan, names)
            && (Closes(plan, names, u) ==> SettledOn(order, s', plan, names + {u}))
  {
    if Owned(s, u) {
      OwnedStepExtends(order, s, plan, names, u);
    } else {
      InertStep(order, s, u);
    }
  }

  /** Workloads whose chain ends in fewer than k steps. */
  function Layer(plan: Plan, k: nat): set<string> {
    set n | n in plan.all && k > 0 && Ends(plan, n, k - 1)
  }

  /** Names in a schedule whose chain ends within k steps. */
  function Reached(plan: Plan, acts: seq<string>, k: nat): set<string> {
    set n | n in acts && Ends(plan, n, k)
  }

  function Gain(plan: Plan, u: string, k: nat): set<string> {
    if Ends(plan, u, k) then {u} else {}
  }

  lemma ReachedStep(plan: Plan, acts: seq<string>, k: nat, names: set<string>)
    requires acts != []
    ensures names + Gain(plan, acts[0], k) + Reached(plan, acts[1..], k) == names + Reached(plan, acts, k)
  {
    assert acts == [acts[0]] + acts[1..];
  }

  ghost predicate Progress(order: seq<string>, s: State, plan: Plan, names: set<string>) {
    Steady(order, s, plan) && PairsAnnotated(plan) && SettledOn(order, s, plan, names)
  }

  lemma OriginsAreWorkloads(order: seq<string>, s: State, n: string)
    requires n in Origins(order, s)
    ensures n in s.workloads && Origins(order, s)[n] in s.workloads
  {}

  lemma EndingCloses(order: seq<string>, s: State, plan: Plan, names: set<string>, u: string, k: nat)
    requires plan == PlanOf(order, s) && Layer(plan, k) <= names && Ends(plan, u, k)
    ensures Closes(plan, names, u)
  {
    if u in plan.origins && !Paired(plan, u) {
      OriginsAreWorkloads(order, s, u);
      assert plan.origins[u] in Layer(plan, k);
    }
  }

  lemma GainSettles(order: seq<string>, s: State, plan: Plan, names: set<string>, u: string, k: nat)
    requires SettledOn(order, s, plan, names)
    requires Ends(plan, u, k) ==> SettledOn(order, s, plan, names + {u})
    ensures SettledOn(order, s, plan, names + Gain(plan, u, k))
  {
    if !Ends(plan, u, k) {
      assert names + Gain(plan, u, k) == names;
    }
  }

  /** One step of a round at level k. */
  lemma StepReaches(order: seq<string>, s: State, plan: Plan, names: set<string>, u: string, k: nat)
    requires Progress(order, s, plan, names) && u in plan.all && Layer(plan, k) <= names
    ensures Progress(order, Reconcile(order, s, u).0, plan, names + Gain(plan, u, k))
  {
    StepKeepsSteady(order, s, plan, u);
    StepExtends(order, s, plan, names, u);
    if Ends(plan, u, k) {
      EndingCloses(order, s, plan, names, u, k);
    }
    GainSettles(order, Reconcile(order, s, u).0, plan, names, u, k);
  }

  lemma {:induction false} RoundExtends(
    order: seq<string>, s: State, plan: Plan, acts: seq<string>, names: set<string>, k: nat)
    requires Progress(order, s, plan, names)
    requires Layer(plan, k) <= names && forall n | n in acts :: n in plan.all
    ensures Progress(order, Run(order, s, acts), plan, names + Reached(plan, acts, k))
    decreases |acts|
  {
    if acts == [] {
      assert names + Reached(plan, acts, k) == names;
    } else {
      StepReaches(order, s, plan, names, acts[0], k);
      ReachedStep(plan, acts, k, names);
      RoundExtends(order, Reconcile(order, s, acts[0]).0, plan, acts[1..], names + Gain(plan, acts[0], k), k);
    }
  }

  lemma {:induction false} EndsLater(plan: Plan, n: string, k: nat, l: nat)
    requires Ends(plan, n, k) && k <= l
    ensures Ends(plan, n, l)
    decreases k
  {
    if n in plan.origins && !Paired(plan, n) {
      EndsLater(plan, plan.origins[n], k - 1, l - 1);
    }
  }

  lemma LayerGrows(plan: Plan, acts: seq<string>, k: nat)
    requires Covering(plan.all, acts)
    ensures Layer(plan, k) + Reached(plan, acts, k) == Layer(plan, k + 1)
  {
    forall n | n in Layer(plan, k) ensures n in Layer(plan, k + 1) {
      EndsLater(plan, n, k - 1, k);
    }
  }

  /** A whole round raises the settled level by one. */
  lemma RoundRaises(order: seq<string>, s: State, plan: Plan, acts: seq<string>, k: nat)
    requires Progress(order, s, plan, Layer(plan, k)) && Covering(plan.all, acts)
    ensures Progress(order, Run(order, s, acts), plan, Layer(plan, k + 1))
  {
    RoundExtends(order, s, plan, acts, Layer(plan, k), k);
    LayerGrows(plan, acts, k);
  }

  lemma {:induction false} RoundsSettle(
    order: seq<string>, s: State, plan: Plan, rounds: seq<seq<string>>, k: nat, l: nat)
    requires Progress(order, s, plan, Layer(plan, k)) && AllCover(plan.all, rounds) && l == k + |rounds|
    ensures Progress(order, RunRounds(order, s, rounds), plan, Layer(plan, l))
    decreases |rounds|
  {
    if rounds != [] {
      RoundRaises(order, s, plan, rounds[0], k);
      RoundsSettle(order, Run(order, s, rounds[0]), plan, rounds[1..], k + 1, l);
    }
  }

  lemma SettledEverywhere(order: seq<string>, s: State, plan: Plan)
    requires Progress(order, s, plan, plan.all)
    ensures Fixpoint(order, s)
  {
    forall n ensures Reconcile(order, s, n).0 == s {
      if n in plan.all {
        if Owned(s, n) {
          SettledStaysFixed(order, s, n);
        } else {
          InertStep(order, s, n);
        }
      }
    }
  }

  /** Without a clash, and with a host annotated in every pair, every schedule of enough covering
      rounds reaches a fixed point. */
  lemma PeacefulConverges(order: seq<string>, s: State, plan: Plan, rounds: seq<seq<string>>)
    requires Steady(order, s, plan) && PairsAnnotated(plan) && |rounds| >= 2 && AllCover(plan.all, rounds)
    requires forall n | n in plan.all :: Ends(plan, n, |rounds| - 2)
    ensures Fixpoint(order, RunRounds(order, s, rounds))
  {
    var s1 := Run(order, s, rounds[0]);
    FirstRoundReadies(order, s, plan, rounds[0]);
    assert Layer(plan, 0) == {};
    RoundsSettle(order, s1, plan, rounds[1..], 0, |rounds| - 1);
    assert Layer(plan, |rounds| - 1) == plan.all;
    SettledEverywhere(order, RunRounds(order, s1, rounds[1..]), plan);
  }

  /** From a fixed point no schedule changes anything again, so hosts stay bounded. */
  lemma {:induction false} FixpointIsForever(order: seq<string>, s: State, acts: seq<string>)
    requires Fixpoint(order, s)
    ensures Run(order, s, acts) == s
    decreases |acts|
  {
    if acts != [] {
      assert Reconcile(order, s, acts[0]).0 == s;
      FixpointIsForever(order, s, acts[1..]);
    }
  }
}
