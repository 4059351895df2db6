/** The promises of the mirror protocol, over every run. */
module MirrorTheorems {
  import opened Core
  import opened Mirror
  import opened MirrorProtocol
  import opened MirrorSafety

  ghost predicate Legal(c: Setup, s: State) {
    c.serialised && c.own <= c.reserved && Reachable(c, s)
  }

  /** No Connect, sync or resync is running and no notification is in flight. */
  ghost predicate Quiescent(s: State) {
    && s.notices == multiset{}
    && forall t | t in s.threads ::
         var pc := s.threads[t];
         pc.ForwardWait? || pc.ForwardHeld? || pc.Calling? || pc.CloseWait? || pc.CloseHeld? || pc.Closing?
  }

  /** No update is lost: with a live session, nothing running or pending and no sync failed
      since the last upstream change without a later one having caught up, the last applied
      listing is the current upstream list and the downstream registry is what it dictates. */
  lemma NoLostUpdate(c: Setup, s: State)
    requires Legal(c, s) && Quiescent(s) && !s.failed && s.session.Some? && s.session.value in s.open
    ensures s.history != [] && s.log != []
    ensures var last := s.log[|s.log| - 1];
            var current := s.history[Version(s)];
            && last == Applied(Version(s), Version(s), current)
            && Dictated(s.registry, c.reserved, current)
            && MirrorInvariant(s.registry, s.mirrored, c.reserved, c.own)
  {
    ReachableInv(c, s);
    var last := s.log[|s.log| - 1];
    assert last.start == last.end == Version(s);
  }

  /** And so each tool of the current upstream list is there, as the upstream describes it. */
  lemma CurrentToolsForwarded(c: Setup, s: State, i: nat)
    requires Legal(c, s) && Quiescent(s) && !s.failed && s.session.Some? && s.session.value in s.open
    requires s.history != [] && i < |s.history[Version(s)]|
    requires var tools := s.history[Version(s)];
             && (forall j | 0 <= j < i :: tools[j].name != tools[i].name)
             && tools[i].name !in c.reserved && !Unmirrorable(tools[i].input)
    ensures var tool := s.history[Version(s)][i];
            && tool.name in s.registry && s.registry[tool.name].Forwarding? && s.registry[tool.name].target == tool.name
            && Describes(s.registry[tool.name].definition, tool)
  {
    NoLostUpdate(c, s);
    DictatedForwards(s.registry, c.reserved, s.history[Version(s)], i);
  }

  /** Some applied listing wanted the tool, and it has been listed ever since. */
  ghost predicate Lingers(reserved: set<string>, log: seq<Applied>, n: string) {
    exists i | 0 <= i < |log| :: LingersFrom(reserved, log, n, i)
  }

  ghost predicate LingersFrom(reserved: set<string>, log: seq<Applied>, n: string, i: nat)
    requires i < |log|
  {
    n in WantedNames(log[i].tools, reserved) && forall j | i <= j < |log| :: n in Names(log[j].tools)
  }

  lemma LingersOneMore(reserved: set<string>, log: seq<Applied>, last: Applied, n: string)
    ensures Lingers(reserved, log + [last], n)
            <==> n in WantedNames(last.tools, reserved) || (Lingers(reserved, log, n) && n in Names(last.tools))
  {
    var longer := log + [last];
    if n in WantedNames(last.tools, reserved) {
      assert LingersFrom(reserved, longer, n, |log|);
    }
    if i :| 0 <= i < |log| && LingersFrom(reserved, log, n, i) && n in Names(last.tools) {
      assert LingersFrom(reserved, longer, n, i);
    }
    if i :| 0 <= i < |log| && LingersFrom(reserved, longer, n, i) {
      assert longer[|log|] == last && n in Names(longer[|log|].tools);
      assert forall j | i <= j < |log| :: longer[j] == log[j];
      assert LingersFrom(reserved, log, n, i);
    }
  }

  /** What is mirrored after any series of listings. */
  lemma {:induction false} ReplayExact(reserved: set<string>, log: seq<Applied>, n: string)
    ensures n in Replay(reserved, log) <==> Lingers(reserved, log, n)
  {
    if log != [] {
      var (before, last) := (log[..|log| - 1], log[|log| - 1]);
      assert log == before + [last];
      ReplayExact(reserved, before, n);
      LingersOneMore(reserved, before, last, n);
    }
  }

  /** The registry is then exactly what the current list calls for, if and only if no tool is
      listed with a schema that cannot be mirrored while it lingers from a listing that could. */
  lemma NoLostUpdateExact(c: Setup, s: State)
    requires Legal(c, s) && Quiescent(s) && !s.failed && s.session.Some? && s.session.value in s.open
    requires s.history != []
    ensures var current := s.history[Version(s)];
            s.registry == Exactly(c.own, c.reserved, current)
            <==> forall n | n in Names(current) && Wanted(current, c.reserved, n).None? :: !Lingers(c.reserved, s.log, n)
  {
    var current := s.history[Version(s)];
    NoLostUpdate(c, s);
    ReachableInv(c, s);
    ExactRegistry(s.registry, s.mirrored, c.reserved, c.own, current);
    forall n ensures n in s.mirrored <==> Lingers(c.reserved, s.log, n) {
      ReplayExact(c.reserved, s.log, n);
    }
    if n :| n in s.mirrored && n !in WantedNames(current, c.reserved) {
      assert Lingers(c.reserved, s.log, n) && Wanted(current, c.reserved, n).None?;
    }
  }

  /** Listings are applied in the order they were taken, and own tools are never replaced,
      removed or shadowed. */
  lemma AppliedInOrder(c: Setup, s: State)
    requires Legal(c, s)
    ensures s.history != []
    ensures forall i, j | 0 <= i < j < |s.log| :: s.log[i].end <= s.log[j].start
    ensures forall i | 0 <= i < |s.log| :: s.log[i].start <= s.log[i].end <= Version(s)
    ensures MirrorInvariant(s.registry, s.mirrored, c.reserved, c.own)
  {
    ReachableInv(c, s);
    forall i | 0 <= i < |s.log| ensures s.log[i].end <= Version(s) {
      if i < |s.log| - 1 {
        assert s.log[i].end <= s.log[|s.log| - 1].start;
      }
    }
  }

  /** mu is never held at a network step, nor while waiting for either lock: the locks are
      taken in the order listMu, mu, each by one thread at a time. */
  lemma LockDiscipline(c: Setup, s: State, t: Tid)
    requires Legal(c, s) && t in s.threads
    ensures var pc := s.threads[t];
            && (AtNetwork(pc) || WantsMu(pc) || pc.SyncWait? ==> s.mu != Some(t))
            && (pc.SyncWait? ==> s.listMu != Some(t))
            && (HoldsMu(pc) <==> s.mu == Some(t))
            && (HoldsListMu(pc) <==> s.listMu == Some(t))
  {
    ReachableInv(c, s);
  }

  predicate CanStep(c: Setup, s: State, t: Tid)
    requires t in s.threads
  {
    var pc := s.threads[t];
    || Enabled(c, s, Local(t)) || Enabled(c, s, Net(t))
    || Enabled(c, s, ListFails(t)) || Enabled(c, s, Dial(t, false))
  }

  /** No deadlock: every thread can step, or the holder of one of the two locks can. */
  lemma NoDeadlock(c: Setup, s: State, t: Tid)
    requires Legal(c, s) && t in s.threads
    ensures exists u | u in s.threads :: CanStep(c, s, u) && (u == t || s.mu == Some(u) || s.listMu == Some(u))
  {
    ReachableInv(c, s);
    var u := if CanStep(c, s, t) then t
             else if s.mu.Some? then s.mu.value
             else s.listMu.value;
    assert CanStep(c, s, u);
  }

  /** The local steps by which a forwarded call gets its session. */
  function CallSteps(s: State, t: Tid): seq<Action> {
    (match s.mu case Some(h) => [Local(h)] case None => []) + [Local(t), Local(t)]
  }

  lemma HolderReleases(c: Setup, s: State, h: Tid, t: Tid)
    requires Inv(c, s) && s.mu == Some(h) && t in s.threads && s.threads[t].ForwardWait?
    ensures Enabled(c, s, Local(h))
    ensures var s' := Next(c, s, Local(h));
            s'.mu == None && s'.history != [] && t in s'.threads && s'.threads[t].ForwardWait?
  {}

  lemma FreeCallProceeds(c: Setup, s: State, t: Tid)
    requires s.history != [] && s.mu == None && t in s.threads && s.threads[t].ForwardWait?
    ensures IsRun(c, s, [Local(t), Local(t)])
    ensures var s' := After(c, s, [Local(t), Local(t)]);
            && s'.session == s.session
            && if s.session.Some? then t in s'.threads && s'.threads[t] == Calling(s.session.value)
               else t !in s'.threads
  {
    var a := Local(t);
    var s1 := Next(c, s, a);
    assert [a, a][1..] == [a] && [a][1..] == [];
    assert s1.threads[t] == ForwardHeld && s1.session == s.session;
    var s2 := Next(c, s1, a);
    assert IsRun(c, s2, []) && IsRun(c, s1, [a]);
    assert After(c, s1, [a]) == After(c, s2, []) == s2;
  }

  lemma HeldCallProceeds(c: Setup, s: State, h: Tid, t: Tid)
    requires Inv(c, s) && s.mu == Some(h) && t in s.threads && s.threads[t].ForwardWait?
    ensures IsRun(c, s, CallSteps(s, t))
    ensures var s' := After(c, s, CallSteps(s, t));
            t in s'.threads ==> s'.threads[t].Calling? && s'.session == Some(s'.threads[t].via)
  {
    HolderReleases(c, s, h, t);
    FreeCallProceeds(c, Next(c, s, Local(h)), t);
    var acts := CallSteps(s, t);
    assert acts[0] == Local(h) && acts[1..] == [Local(t), Local(t)];
  }

  /** A forwarded call takes its session in at most three local steps from any reachable
      state, none of them a network step: a hanging listing cannot hold it up. It then calls
      on the session current at that point, or fails when there is none. */
  lemma CallNeverWaitsForListing(c: Setup, s: State, t: Tid)
    requires Legal(c, s) && t in s.threads && s.threads[t].ForwardWait?
    ensures var acts := CallSteps(s, t);
            && (forall i | 0 <= i < |acts| :: acts[i].Local?)
            && IsRun(c, s, acts)
            && var s' := After(c, s, acts);
               (t in s'.threads ==> s'.threads[t].Calling? && s'.session == Some(s'.threads[t].via))
  {
    ReachableInv(c, s);
    if s.mu.Some? {
      HeldCallProceeds(c, s, s.mu.value, t);
    } else {
      FreeCallProceeds(c, s, t);
      assert CallSteps(s, t) == [Local(t), Local(t)];
    }
  }

  /** A failed Connect clears its own session only, and once no Connect is cleaning up the
      current session is not one this process has closed. */
  lemma FailedConnectClearsOnlyItsOwn(c: Setup, s: State, t: Tid)
    requires Legal(c, s) && t in s.threads && s.threads[t].ResetHeld?
    ensures Enabled(c, s, Local(t))
    ensures var x := s.threads[t].own;
            var s' := Next(c, s, Local(t));
            && t !in s'.threads && s'.session != Some(x)
            && (s.session != Some(x) ==> s'.session == s.session)
            && s'.registry == s.registry && s'.mirrored == s.mirrored
  {
    ReachableInv(c, s);
  }

  lemma ClosedSessionIsNotCurrent(c: Setup, s: State)
    requires Legal(c, s)
    requires forall t | t in s.threads :: !s.threads[t].ResetWait? && !s.threads[t].ResetHeld?
    ensures s.session.Some? ==> s.session.value !in s.closed
  {
    ReachableInv(c, s);
  }

  // ------------------------------------------------------- why listMu covers the listing

  lemma ReachableStart(c: Setup)
    ensures Reachable(c, Init(c))
  {
    assert IsRun(c, Init(c), []) && After(c, Init(c), []) == Init(c);
  }

  lemma {:induction false} RunExtends(c: Setup, s: State, acts: seq<Action>, a: Action)
    requires IsRun(c, s, acts) && Enabled(c, After(c, s, acts), a)
    ensures IsRun(c, s, acts + [a]) && After(c, s, acts + [a]) == Next(c, After(c, s, acts), a)
    decreases |acts|
  {
    if acts == [] {
      assert [] + [a] == [a] && [a][1..] == [];
      var s' := Next(c, s, a);
      assert IsRun(c, s', []) && After(c, s', []) == s';
    } else {
      assert (acts + [a])[1..] == acts[1..] + [a];
      RunExtends(c, Next(c, s, acts[0]), acts[1..], a);
    }
  }

  lemma ReachableStep(c: Setup, s: State, a: Action)
    requires Reachable(c, s) && Enabled(c, s, a)
    ensures Reachable(c, Next(c, s, a))
  {
    var acts :| IsRun(c, Init(c), acts) && s == After(c, Init(c), acts);
    RunExtends(c, Init(c), acts, a);
    assert After(c, Init(c), acts + [a]) == Next(c, s, a);
  }

  function Plain(name: string): Tool {
    Tool(name, "", Absent, Absent)
  }

  /** The effect of one whole critical section, from acquiring mu to releasing it. */
  function AfterSection(c: Setup, s: State, t: Tid): State
    requires s.history != [] && t in s.threads && WantsMu(s.threads[t])
  {
    var held := Acquired(s.threads[t]);
    Critical(c, s, held).(
      threads := match Released(s, held) case Some(pc) => s.threads[t := pc] case None => s.threads - {t})
  }

  lemma SectionAcquires(c: Setup, s: State, t: Tid)
    requires s.history != [] && s.mu == None && t in s.threads && WantsMu(s.threads[t])
    ensures Enabled(c, s, Local(t))
    ensures Next(c, s, Local(t)) == s.(mu := Some(t), threads := s.threads[t := Acquired(s.threads[t])])
  {}

  lemma ApplyFrame(c: Setup, s: State, pc: PC, mu: Option<Tid>, threads: map<Tid, PC>)
    requires s.history != [] && pc.ApplyHeld?
    ensures Critical(c, s.(mu := mu, threads := threads), pc) == Critical(c, s, pc).(mu := mu, threads := threads)
  {}

  lemma OtherFrame(c: Setup, s: State, pc: PC, mu: Option<Tid>, threads: map<Tid, PC>)
    requires s.history != [] && !pc.ApplyHeld?
    ensures Critical(c, s.(mu := mu, threads := threads), pc) == Critical(c, s, pc).(mu := mu, threads := threads)
  {}

  lemma CriticalFrame(c: Setup, s: State, pc: PC, mu: Option<Tid>, threads: map<Tid, PC>)
    requires s.history != []
    ensures Critical(c, s.(mu := mu, threads := threads), pc) == Critical(c, s, pc).(mu := mu, threads := threads)
  {
    if pc.ApplyHeld? {
      ApplyFrame(c, s, pc, mu, threads);
    } else {
      OtherFrame(c, s, pc, mu, threads);
    }
  }

  lemma ReleasedFrame(s: State, pc: PC, mu: Option<Tid>, threads: map<Tid, PC>)
    requires s.history != [] && HoldsMu(pc)
    ensures Released(s.(mu := mu, threads := threads), pc) == Released(s, pc)
  {}

  lemma ReleaseFacts(c: Setup, s: State, t: Tid)
    requires !c.serialised && s.history != [] && s.listMu == None && t in s.threads && HoldsMu(s.threads[t])
    ensures Enabled(c, s, Local(t))
    ensures NextListMu(c, s, Local(t)) == None && NextMu(c, s, Local(t)) == None
    ensures NextShared(c, s, Local(t)) == Critical(c, s, s.threads[t])
    ensures NextPc(c, s, Local(t)) == Released(s, s.threads[t])
  {}

  lemma SectionReleases(c: Setup, s: State, t: Tid, s1: State)
    requires !c.serialised && s.history != [] && s.mu == None && s.listMu == None
    requires t in s.threads && WantsMu(s.threads[t])
    requires s1 == s.(mu := Some(t), threads := s.threads[t := Acquired(s.threads[t])])
    ensures Enabled(c, s1, Local(t)) && Next(c, s1, Local(t)) == AfterSection(c, s, t)
  {
    var held := Acquired(s.threads[t]);
    ReleaseFacts(c, s1, t);
    CriticalFrame(c, s, held, s1.mu, s1.threads);
    ReleasedFrame(s, held, s1.mu, s1.threads);
    assert s1.threads - {t} == s.threads - {t};
  }

  lemma Section(c: Setup, s: State, t: Tid)
    requires !c.serialised && Reachable(c, s) && s.history != [] && s.mu == None && s.listMu == None
    requires t in s.threads && WantsMu(s.threads[t])
    ensures Reachable(c, AfterSection(c, s, t))
  {
    SectionAcquires(c, s, t);
    ReachableStep(c, s, Local(t));
    var s1 := Next(c, s, Local(t));
    SectionReleases(c, s, t, s1);
    ReachableStep(c, s1, Local(t));
  }

  /** Entering SyncTools when there is no listMu to take. */
  lemma EnterUnserialised(c: Setup, s: State, t: Tid)
    requires !c.serialised && Reachable(c, s) && s.history != [] && t in s.threads && s.threads[t].SyncWait?
    ensures Reachable(c, s.(threads := s.threads[t := ReadWait(s.threads[t].who)]))
  {
    EnterFacts(c, s, t);
    ReachableStep(c, s, Local(t));
  }

  lemma EnterFacts(c: Setup, s: State, t: Tid)
    requires !c.serialised && s.history != [] && t in s.threads && s.threads[t].SyncWait?
    ensures Enabled(c, s, Local(t))
    ensures Next(c, s, Local(t)) == s.(threads := s.threads[t := ReadWait(s.threads[t].who)])
  {}

  /** A listing that gets the current list in one page. */
  lemma ListedAtOnce(c: Setup, s: State, t: Tid)
    requires Reachable(c, s) && s.history != [] && t in s.threads
    requires s.threads[t].Listing? && s.threads[t].got == [] && s.threads[t].start == Version(s)
    ensures var got := ApplyWait(s.threads[t].who, Version(s), Version(s), s.history[Version(s)]);
            Reachable(c, s.(threads := s.threads[t := got]))
  {
    PageFacts(c, s, t);
    ReachableStep(c, s, Page(t, s.history[Version(s)], true));
  }

  lemma PageFacts(c: Setup, s: State, t: Tid)
    requires s.history != [] && t in s.threads
    requires s.threads[t].Listing? && s.threads[t].got == [] && s.threads[t].start == Version(s)
    ensures var a := Page(t, s.history[Version(s)], true);
            && Enabled(c, s, a)
            && var got := ApplyWait(s.threads[t].who, Version(s), Version(s), s.history[Version(s)]);
               Next(c, s, a) == s.(threads := s.threads[t := got])
  {}

  const LIST_A: seq<Tool> := [Plain("a")]
  const LIST_B: seq<Tool> := [Plain("b")]
  const UNSERIALISED: Setup := Setup({}, {}, LIST_A, false)

  function Dialled(): State {
    Init(UNSERIALISED).(open := {0}, next := 1, threads := map[0 := StoreWait(0)])
  }

  function Entering(): State {
    Dialled().(session := Some(0), hasServer := true, threads := map[0 := SyncWait(ByConnect(0))])
  }

  function Reading(): State {
    Entering().(threads := map[0 := ReadWait(ByConnect(0))])
  }

  function Listed(): State {
    Reading().(threads := map[0 := ApplyWait(ByConnect(0), 0, 0, LIST_A)])
  }

  function Overtaken(): State {
    Reading().(history := [LIST_A, LIST_B], notices := multiset{0},
               threads := map[0 := ApplyWait(ByConnect(0), 0, 0, LIST_A)])
  }

  function Resyncing(): State {
    Overtaken().(notices := multiset{}, threads := Overtaken().threads[1 := ReadWait(ByResync)])
  }

  function Relisted(): State {
    Resyncing().(threads := Overtaken().threads[1 := ApplyWait(ByResync, 1, 1, LIST_B)])
  }

  lemma DialFacts()
    ensures var (c, s0) := (UNSERIALISED, Init(UNSERIALISED));
            && Enabled(c, s0, Start(0, Dialing))
            && var s1 := Next(c, s0, Start(0, Dialing));
               Enabled(c, s1, Dial(0, true)) && Next(c, s1, Dial(0, true)) == Dialled()
  {}

  lemma DialledReachable()
    ensures Reachable(UNSERIALISED, Dialled())
  {
    var c := UNSERIALISED;
    ReachableStart(c);
    DialFacts();
    ReachableStep(c, Init(c), Start(0, Dialing));
    ReachableStep(c, Next(c, Init(c), Start(0, Dialing)), Dial(0, true));
  }

  lemma ConnectFacts()
    ensures AfterSection(UNSERIALISED, Dialled(), 0) == Entering()
    ensures AfterSection(UNSERIALISED, Reading(), 0) == Reading().(threads := map[0 := Listing(ByConnect(0), 0, [])])
    ensures map[0 := SyncWait(ByConnect(0))][0 := ReadWait(ByConnect(0))] == Reading().threads
    ensures map[0 := Listing(ByConnect(0), 0, [])][0 := ApplyWait(ByConnect(0), 0, 0, LIST_A)] == Listed().threads
  {}

  lemma ReadingReachable()
    ensures Reachable(UNSERIALISED, Reading())
  {
    DialledReachable();
    Section(UNSERIALISED, Dialled(), 0);
    ConnectFacts();
    EnterUnserialised(UNSERIALISED, Entering(), 0);
  }

  lemma ChangeFacts()
    ensures Enabled(UNSERIALISED, Listed(), Change(LIST_B))
    ensures Next(UNSERIALISED, Listed(), Change(LIST_B)) == Overtaken()
  {}

  lemma ListedReachable()
    ensures Reachable(UNSERIALISED, Listed())
  {
    ReadingReachable();
    Section(UNSERIALISED, Reading(), 0);
    ConnectFacts();
    ListedAtOnce(UNSERIALISED, Reading().(threads := map[0 := Listing(ByConnect(0), 0, [])]), 0);
  }

  lemma OvertakenReachable()
    ensures Reachable(UNSERIALISED, Overtaken())
  {
    ListedReachable();
    ChangeFacts();
    ReachableStep(UNSERIALISED, Listed(), Change(LIST_B));
  }

  function Delivered(): State {
    Overtaken().(notices := multiset{}, threads := Overtaken().threads[1 := ResyncWait])
  }

  lemma DeliverFacts()
    ensures Enabled(UNSERIALISED, Overtaken(), Deliver(1, 0))
    ensures Next(UNSERIALISED, Overtaken(), Deliver(1, 0)) == Delivered()
  {}

  lemma ResyncFacts()
    ensures AfterSection(UNSERIALISED, Delivered(), 1)
            == Delivered().(threads := Overtaken().threads[1 := SyncWait(ByResync)])
    ensures AfterSection(UNSERIALISED, Resyncing(), 1)
            == Resyncing().(threads := Overtaken().threads[1 := Listing(ByResync, 1, [])])
  {}

  lemma DeliveredReachable()
    ensures Reachable(UNSERIALISED, Delivered())
  {
    OvertakenReachable();
    DeliverFacts();
    ReachableStep(UNSERIALISED, Overtaken(), Deliver(1, 0));
  }

  lemma ResyncingReachable()
    ensures Reachable(UNSERIALISED, Resyncing())
  {
    var c := UNSERIALISED;
    DeliveredReachable();
    ResyncFacts();
    Section(c, Delivered(), 1);
    EnterUnserialised(c, AfterSection(c, Delivered(), 1), 1);
    assert Overtaken().threads[1 := SyncWait(ByResync)][1 := ReadWait(ByResync)] == Resyncing().threads;
  }

  lemma RelistedReachable()
    ensures Reachable(UNSERIALISED, Relisted())
  {
    var c := UNSERIALISED;
    ResyncingReachable();
    ResyncFacts();
    Section(c, Resyncing(), 1);
    ListedAtOnce(c, AfterSection(c, Resyncing(), 1), 1);
    assert Overtaken().threads[1 := Listing(ByResync, 1, [])][1 := ApplyWait(ByResync, 1, 1, LIST_B)]
           == Relisted().threads;
  }

  /** The two pending listings applied in the wrong order. */
  function Overwritten(): State {
    AfterSection(UNSERIALISED, AfterSection(UNSERIALISED, Relisted(), 1), 0)
  }

  lemma NewerApplied()
    ensures var s := AfterSection(UNSERIALISED, Relisted(), 1);
            && s.threads == Overtaken().threads && s.mu == None && s.listMu == None
            && s.history == [LIST_A, LIST_B]
            && s.mirrored == ApplyMirrored({}, {}, LIST_B)
            && s.registry == ApplyRegistry(map[], {}, {}, LIST_B)
            && s.open == {0} && s.session == Some(0) && s.notices == multiset{} && !s.failed
  {
    assert Relisted().registry == map[];
  }

  lemma OverwrittenFacts()
    ensures var s := Overwritten();
            && Quiescent(s) && !s.failed && s.session == Some(0) && 0 in s.open
            && s.history == [LIST_A, LIST_B]
            && s.registry == ApplyRegistry(ApplyRegistry(map[], {}, {}, LIST_B), ApplyMirrored({}, {}, LIST_B), {}, LIST_A)
  {
    NewerApplied();
    assert Overwritten().threads == map[];
  }

  lemma OverwrittenDictated()
    ensures Dictated(Overwritten().registry, {}, LIST_A)
  {
    OverwrittenFacts();
    ApplyKeepsInvariant(map[], {}, {}, {}, LIST_B);
    ApplyKeepsInvariant(ApplyRegistry(map[], {}, {}, LIST_B), ApplyMirrored({}, {}, LIST_B), {}, {}, LIST_A);
  }

  lemma OverwrittenReachable()
    ensures Reachable(UNSERIALISED, Overwritten())
  {
    RelistedReachable();
    NewerApplied();
    Section(UNSERIALISED, Relisted(), 1);
    Section(UNSERIALISED, AfterSection(UNSERIALISED, Relisted(), 1), 0);
  }

  lemma NamesOfOne(name: string)
    ensures Names([Plain(name)]) == {name} == WantedNames([Plain(name)], {})
  {
    var tools := [Plain(name)];
    assert tools[0].name == name;
    assert First(tools, name) == Some(Plain(name));
  }

  /** Without listMu a stale listing can overwrite a newer one: a state is reachable in which
      everything is quiet, nothing failed and the session lives, yet the registry is what the
      old list dictates: it holds the tool that is gone and not the one that is listed. */
  lemma StaleOverwriteWithoutListMu()
    ensures exists s ::
              && Reachable(UNSERIALISED, s) && Quiescent(s) && !s.failed
              && s.session == Some(0) && 0 in s.open
              && s.history == [LIST_A, LIST_B]
              && "a" in s.registry && !Dictated(s.registry, {}, LIST_B)
  {
    var s := Overwritten();
    OverwrittenReachable();
    OverwrittenFacts();
    OverwrittenDictated();
    NamesOfOne("a");
    NamesOfOne("b");
    assert "a" in WantedNames(LIST_A, {});
    assert s.registry["a"].Forwarding? && "a" !in Names(LIST_B);
  }
}
