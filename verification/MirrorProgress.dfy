/** The mirror protocol comes to rest: without new calls, upstream changes and further pages
    every run is bounded, no state gets stuck, and at rest the mirror is current. */
module MirrorProgress {
  import opened Core
  import opened Mirror
  import opened MirrorProtocol
  import opened MirrorSafety
  import opened MirrorTheorems

  /** Upper bound on the steps a thread still takes, opened sessions included. */
  function Rank(pc: PC): nat {
    match pc
    case Dialing => 12
    case StoreWait(_) => 10
    case StoreHeld(_) => 9
    case ResyncWait => 10
    case ResyncHeld => 9
    case SyncWait(_) => 8
    case ReadWait(_) => 7
    case ReadHeld(_) => 6
    case Listing(_, _, _) => 5
    case Cleanup(_) => 4
    case ResetWait(_) => 3
    case ResetHeld(_) => 2
    case ApplyWait(_, _, _, _) => 2
    case ApplyHeld(_, _, _, _) => 1
    case CloseWait => 3
    case CloseHeld => 2
    case Closing(_) => 1
    case ForwardWait => 3
    case ForwardHeld => 2
    case Calling(_) => 1
  }

  ghost function Total(threads: map<Tid, PC>): nat
    decreases |threads|
  {
    if threads == map[] then 0
    else
      var t :| t in threads;
      Rank(threads[t]) + Total(threads - {t})
  }

  lemma {:induction false} TotalRemove(threads: map<Tid, PC>, t: Tid)
    requires t in threads
    ensures Total(threads) == Rank(threads[t]) + Total(threads - {t})
    decreases |threads|
  {
    var u :| u in threads && Total(threads) == Rank(threads[u]) + Total(threads - {u});
    if u != t {
      TotalRemove(threads - {u}, t);
      TotalRemove(threads - {t}, u);
      assert threads - {u} - {t} == threads - {t} - {u};
    }
  }

  function RankAt(threads: map<Tid, PC>, t: Tid): nat {
    if t in threads then Rank(threads[t]) else 0
  }

  /** The total changes with one thread as that thread's rank does. */
  lemma TotalSplit(threads: map<Tid, PC>, after: map<Tid, PC>, t: Tid)
    requires after - {t} == threads - {t}
    ensures Total(after) - RankAt(after, t) == Total(threads) - RankAt(threads, t)
  {
    if t in threads {
      TotalRemove(threads, t);
    } else {
      assert threads - {t} == threads;
    }
    if t in after {
      TotalRemove(after, t);
    } else {
      assert after - {t} == after;
    }
  }

  /** Sessions that can still die and notifications that can still start a resync. */
  function Outside(s: State): nat {
    11 * |s.notices| + |s.open|
  }

  ghost function Work(s: State): nat {
    Total(s.threads) + Outside(s)
  }

  /** Everything but new calls, upstream changes and pages with more to follow. */
  predicate Winding(a: Action) {
    !a.Start? && !a.Change? && (a.Page? ==> a.last)
  }

  /** What a step of a thread can add outside it: the session a dial opens. */
  lemma OutsideGrows(c: Setup, s: State, a: Action)
    requires Enabled(c, s, a) && Winding(a) && Actor(a).Some?
    ensures Outside(NextShared(c, s, a)) <= Outside(s) + (if a.Dial? then 1 else 0) - (if a.Deliver? then 11 else 0)
  {
    var s' := NextShared(c, s, a);
    if a.Deliver? {
      assert |s.notices - multiset{a.x}| == |s.notices| - 1;
    } else if a.Local? {
      assert s'.open == s.open && s'.notices == s.notices;
    } else {
      assert |s'.open| <= |s.open| + (if a.Dial? then 1 else 0) && s'.notices == s.notices;
    }
  }

  lemma SectionFalls(s: State, pc: PC)
    requires s.history != []
    ensures WantsMu(pc) ==> Rank(Acquired(pc)) < Rank(pc)
    ensures HoldsMu(pc) && Released(s, pc).Some? ==> Rank(Released(s, pc).value) < Rank(pc)
  {}

  lemma RankFalls(c: Setup, s: State, a: Action, t: Tid)
    requires Enabled(c, s, a) && Winding(a) && Actor(a) == Some(t)
    ensures a.Deliver? ==> t !in s.threads && NextPc(c, s, a) == Some(ResyncWait)
    ensures !a.Deliver? ==>
              && t in s.threads && Rank(s.threads[t]) > (if a.Dial? then 1 else 0)
              && (NextPc(c, s, a).Some? ==>
                    Rank(NextPc(c, s, a).value) + (if a.Dial? then 1 else 0) < Rank(s.threads[t]))
  {
    if a.Local? {
      SectionFalls(s, s.threads[t]);
    }
  }

  lemma ActorShrinks(c: Setup, s: State, a: Action, t: Tid)
    requires Enabled(c, s, a) && Winding(a) && Actor(a) == Some(t)
    ensures RankAt(NextThreads(c, s, a), t) + Outside(NextShared(c, s, a)) < RankAt(s.threads, t) + Outside(s)
  {
    OutsideGrows(c, s, a);
    RankFalls(c, s, a, t);
    assert RankAt(NextThreads(c, s, a), t) == if NextPc(c, s, a).Some? then Rank(NextPc(c, s, a).value) else 0;
  }

  lemma StepShrinks(c: Setup, s: State, a: Action)
    requires Enabled(c, s, a) && Winding(a)
    ensures Work(Next(c, s, a)) < Work(s)
  {
    if Actor(a).Some? {
      ActorShrinks(c, s, a, a.t);
      assert NextThreads(c, s, a) - {a.t} == s.threads - {a.t};
      TotalSplit(s.threads, NextThreads(c, s, a), a.t);
    } else if a.Drop? {
      assert |s.open - {a.x}| < |s.open|;
    } else {
      assert |s.notices - multiset{a.x}| < |s.notices|;
    }
  }

  /** No livelock: a run that only winds down has a bounded number of steps. */
  lemma {:induction false} WindingRunsAreBounded(c: Setup, s: State, acts: seq<Action>)
    requires IsRun(c, s, acts) && forall i | 0 <= i < |acts| :: Winding(acts[i])
    ensures |acts| + Work(After(c, s, acts)) <= Work(s)
    decreases |acts|
  {
    if acts != [] {
      StepShrinks(c, s, acts[0]);
      WindingRunsAreBounded(c, Next(c, s, acts[0]), acts[1..]);
    }
  }

  /** Nothing is left to do but what comes from outside. */
  ghost predicate AtRest(c: Setup, s: State) {
    forall a | Winding(a) && !a.Drop? :: !Enabled(c, s, a)
  }

  /** A reachable state with a thread or a notification left can wind down further. */
  lemma NothingStuck(c: Setup, s: State)
    requires Legal(c, s) && (s.threads != map[] || s.notices != multiset{})
    ensures !AtRest(c, s)
  {
    ReachableInv(c, s);
    if t :| t in s.threads {
      NoDeadlock(c, s, t);
      var u :| u in s.threads && CanStep(c, s, u);
      var a := if Enabled(c, s, Local(u)) then Local(u)
               else if Enabled(c, s, Net(u)) then Net(u)
               else if Enabled(c, s, ListFails(u)) then ListFails(u)
               else Dial(u, false);
      assert Enabled(c, s, a) && Winding(a) && !a.Drop?;
    } else {
      assert s.threads == map[];
      var x :| x in s.notices;
      assert Enabled(c, s, Deliver(0, x)) && Winding(Deliver(0, x));
    }
  }

  lemma {:induction false} ReachableRun(c: Setup, s: State, acts: seq<Action>)
    requires Reachable(c, s) && IsRun(c, s, acts)
    ensures Reachable(c, After(c, s, acts))
    decreases |acts|
  {
    if acts != [] {
      ReachableStep(c, s, acts[0]);
      ReachableRun(c, Next(c, s, acts[0]), acts[1..]);
    }
  }

  /** However the threads, the network and the notifications interleave, once nothing new
      comes in the protocol is at rest within Work(s) steps. Then every call has returned,
      every notification is consumed, both locks are free, and unless the session died or a
      sync failed with none having caught up since the mirror is the current upstream list. */
  lemma ComesToRestCurrent(c: Setup, s: State, acts: seq<Action>)
    requires Legal(c, s) && IsRun(c, s, acts) && forall i | 0 <= i < |acts| :: Winding(acts[i])
    ensures |acts| <= Work(s)
    ensures var s' := After(c, s, acts);
            AtRest(c, s') ==>
              && s'.history != [] && s'.threads == map[] && s'.notices == multiset{}
              && s'.mu == None && s'.listMu == None
              && (!s'.failed && s'.session.Some? && s'.session.value in s'.open ==>
                    Dictated(s'.registry, c.reserved, s'.history[Version(s')]))
  {
    var s' := After(c, s, acts);
    WindingRunsAreBounded(c, s, acts);
    ReachableRun(c, s, acts);
    ReachableInv(c, s');
    if AtRest(c, s') {
      if s'.threads != map[] || s'.notices != multiset{} {
        NothingStuck(c, s');
      }
      if !s'.failed && s'.session.Some? && s'.session.value in s'.open {
        NoLostUpdate(c, s');
      }
    }
  }

  // ------------------------------------------------------------------ such rest is reached

  /** The states of a first Connect that succeeds. */
  function Stage(c: Setup, k: nat): State
    requires k <= 10
  {
    var s := Init(c);
    var me := ByConnect(0);
    if k == 0 then s
    else if k == 1 then s.(threads := map[0 := Dialing])
    else if k <= 3 then
      s.(open := {0}, next := 1, mu := if k == 3 then Some(0) else None,
         threads := map[0 := if k == 3 then StoreHeld(0) else StoreWait(0)])
    else if k <= 9 then
      var connected := s.(open := {0}, next := 1, session := Some(0), hasServer := true);
      connected.(
        mu := if k == 6 || k == 9 then Some(0) else None,
        listMu := if k == 4 then None else Some(0),
        threads := map[0 := match k
                            case 4 => SyncWait(me)
                            case 5 => ReadWait(me)
                            case 6 => ReadHeld(me)
                            case 7 => Listing(me, 0, [])
                            case 8 => ApplyWait(me, 0, 0, c.initial)
                            case _ => ApplyHeld(me, 0, 0, c.initial)])
    else
      s.(open := {0}, next := 1, session := Some(0), hasServer := true,
         mirrored := ApplyMirrored(s.mirrored, c.reserved, c.initial),
         registry := ApplyRegistry(s.registry, s.mirrored, c.reserved, c.initial),
         log := [Applied(0, 0, c.initial)])
  }

  function StageAction(c: Setup, k: nat): Action {
    if k == 0 then Start(0, Dialing)
    else if k == 1 then Dial(0, true)
    else if k == 7 then Page(0, c.initial, true)
    else Local(0)
  }

  lemma ConnectingStep(c: Setup, k: nat)
    requires c.serialised && k < 5
    ensures Enabled(c, Stage(c, k), StageAction(c, k))
    ensures Next(c, Stage(c, k), StageAction(c, k)) == Stage(c, k + 1)
  {}

  lemma ListingStep(c: Setup, k: nat)
    requires c.serialised && 5 <= k < 8
    ensures Enabled(c, Stage(c, k), StageAction(c, k))
    ensures Next(c, Stage(c, k), StageAction(c, k)) == Stage(c, k + 1)
  {
    assert [] + c.initial == c.initial;
  }

  lemma ApplyingStep(c: Setup, k: nat)
    requires c.serialised && 8 <= k < 10
    ensures Enabled(c, Stage(c, k), StageAction(c, k))
    ensures Next(c, Stage(c, k), StageAction(c, k)) == Stage(c, k + 1)
  {}

  lemma {:induction false} StageReachable(c: Setup, k: nat)
    requires c.serialised && k <= 10
    ensures Reachable(c, Stage(c, k))
    decreases k
  {
    if k == 0 {
      ReachableStart(c);
    } else {
      StageReachable(c, k - 1);
      if k <= 5 {
        ConnectingStep(c, k - 1);
      } else if k <= 8 {
        ListingStep(c, k - 1);
      } else {
        ApplyingStep(c, k - 1);
      }
      ReachableStep(c, Stage(c, k - 1), StageAction(c, k - 1));
    }
  }

  /** For every setup a Connect can bring the protocol to rest with a live session and
      nothing failed, so the promises about such states speak of something. */
  lemma HealthyRestIsReachable(c: Setup)
    requires c.serialised && c.own <= c.reserved
    ensures exists s ::
              && Legal(c, s) && AtRest(c, s) && Quiescent(s) && !s.failed
              && s.session.Some? && s.session.value in s.open
  {
    var s := Stage(c, 10);
    StageReachable(c, 10);
    assert Quiescent(s);
    forall a | Winding(a) && !a.Drop? ensures !Enabled(c, s, a) {
      assert s.threads == map[] && s.notices == multiset{};
    }
  }
}
