/** Sessions are not lost: whatever this process has opened is current or about to be closed,
    unless a Connect stores over a session that is still open. */
module MirrorSessions {
  import opened Core
  import opened MirrorProtocol
  import opened MirrorSafety
  import opened MirrorProgress

  /** The thread stores the session next, or closes it. */
  predicate InHand(pc: PC, x: SessionId) {
    pc in {StoreWait(x), StoreHeld(x), Cleanup(x), Closing(x)}
  }

  /** Current, or in the hand of a thread. */
  ghost predicate Kept(s: State, x: SessionId) {
    s.session == Some(x) || exists t | t in s.threads :: InHand(s.threads[t], x)
  }

  /** Every open session is kept, and none is being cleared. */
  ghost predicate Accounted(s: State) {
    && (forall x | x in s.open :: x < s.next && Kept(s, x))
    && (forall t | t in s.threads && (s.threads[t].ResetWait? || s.threads[t].ResetHeld?) :: s.threads[t].own !in s.open)
  }

  /** The step stores another session over one that is open and in nobody's hand. */
  ghost predicate Overwrites(s: State, a: Action, x: SessionId) {
    && a.Local? && a.t in s.threads && s.threads[a.t].StoreHeld?
    && s.session == Some(x) && x in s.open
    && forall t | t in s.threads :: !InHand(s.threads[t], x)
  }

  lemma NextNeverFalls(c: Setup, s: State, a: Action)
    requires Enabled(c, s, a)
    ensures s.next <= Next(c, s, a).next
  {}

  lemma OpenedBefore(c: Setup, s: State, a: Action, x: SessionId)
    requires Enabled(c, s, a) && x in Next(c, s, a).open
    ensures x in s.open || (a.Dial? && a.ok && x == s.next)
    ensures a.Dial? && a.ok && x == s.next ==> Next(c, s, a).threads[a.t] == StoreWait(x)
  {}

  /** A session in hand stays in that hand until it is stored or closed. */
  lemma HandKeeps(c: Setup, s: State, a: Action, t: Tid, x: SessionId)
    requires Enabled(c, s, a) && t in s.threads && InHand(s.threads[t], x)
    ensures var s' := Next(c, s, a);
            || (t in s'.threads && InHand(s'.threads[t], x)) || s'.session == Some(x) || x !in s'.open
  {
    OthersStay(c, s, a);
  }

  lemma CurrentKeeps(c: Setup, s: State, a: Action, x: SessionId)
    requires Enabled(c, s, a) && Accounted(s) && s.session == Some(x) && x in s.open
    ensures var s' := Next(c, s, a);
            || s'.session == Some(x)
            || (a.Local? && a.t in s'.threads && s'.threads[a.t] == Closing(x))
            || (a.Local? && a.t in s.threads && s.threads[a.t].StoreHeld?)
  {}

  lemma ClearedStaysClosed(c: Setup, s: State, a: Action)
    requires Enabled(c, s, a) && Sessions(s) && Accounted(s)
    ensures var s' := Next(c, s, a);
            forall t | t in s'.threads && (s'.threads[t].ResetWait? || s'.threads[t].ResetHeld?) ::
              s'.threads[t].own !in s'.open
  {
    var s' := Next(c, s, a);
    OthersStay(c, s, a);
    forall t | t in s'.threads && (s'.threads[t].ResetWait? || s'.threads[t].ResetHeld?)
      ensures s'.threads[t].own !in s'.open
    {
      ClearedAt(c, s, a, t);
    }
  }

  lemma NextPcClears(c: Setup, s: State, a: Action)
    requires Enabled(c, s, a) && Actor(a).Some?
    requires NextPc(c, s, a).Some? && (NextPc(c, s, a).value.ResetWait? || NextPc(c, s, a).value.ResetHeld?)
    ensures a.t in s.threads && Connecting(s.threads[a.t]) == Some(NextPc(c, s, a).value.own)
    ensures s.threads[a.t].ResetWait? || (s.threads[a.t].Cleanup? && a.Net?)
  {}

  lemma ClearingBegins(c: Setup, s: State, a: Action, t: Tid)
    requires Enabled(c, s, a)
    requires var s' := Next(c, s, a);
             t in s'.threads && (s'.threads[t].ResetWait? || s'.threads[t].ResetHeld?)
    ensures t in s.threads && Connecting(s.threads[t]) == Some(Next(c, s, a).threads[t].own)
    ensures !s.threads[t].ResetWait? && !s.threads[t].ResetHeld? ==>
              s.threads[t].Cleanup? && Next(c, s, a).threads[t].own !in Next(c, s, a).open
  {
    OthersStay(c, s, a);
    if Actor(a) == Some(t) {
      NextPcClears(c, s, a);
    }
  }

  lemma ClearedAt(c: Setup, s: State, a: Action, t: Tid)
    requires Enabled(c, s, a) && Sessions(s) && Accounted(s)
    requires var s' := Next(c, s, a);
             t in s'.threads && (s'.threads[t].ResetWait? || s'.threads[t].ResetHeld?)
    ensures Next(c, s, a).threads[t].own !in Next(c, s, a).open
  {
    var (s', x) := (Next(c, s, a), Next(c, s, a).threads[t].own);
    OthersStay(c, s, a);
    ClearingBegins(c, s, a, t);
    if x in s'.open && x !in s.open {
      OpenedBefore(c, s, a, x);
      assert false;
    }
  }

  /** A step keeps all sessions accounted for unless, and only unless, it overwrites one. */
  lemma AccountedStep(c: Setup, s: State, a: Action)
    requires Inv(c, s) && Accounted(s) && Enabled(c, s, a)
    ensures Accounted(Next(c, s, a)) <==> forall x :: !Overwrites(s, a, x)
  {
    var s' := Next(c, s, a);
    ClearedStaysClosed(c, s, a);
    if x :| Overwrites(s, a, x) {
      OverwrittenIsLost(c, s, a, x);
    } else {
      forall x | x in s'.open ensures x < s'.next && Kept(s', x) {
        OpenIsKept(c, s, a, x);
      }
    }
  }

  lemma OverwrittenIsLost(c: Setup, s: State, a: Action, x: SessionId)
    requires Inv(c, s) && Enabled(c, s, a) && Overwrites(s, a, x)
    ensures x in Next(c, s, a).open && !Kept(Next(c, s, a), x)
  {
    var s' := Next(c, s, a);
    OthersStay(c, s, a);
    assert Storing(s.threads[a.t], s.threads[a.t].own) && Stored(s, x);
    forall t | t in s'.threads ensures !InHand(s'.threads[t], x) {
      assert t != a.t ==> s'.threads[t] == s.threads[t];
    }
  }

  lemma OpenIsKept(c: Setup, s: State, a: Action, x: SessionId)
    requires Inv(c, s) && Accounted(s) && Enabled(c, s, a) && x in Next(c, s, a).open && !Overwrites(s, a, x)
    ensures x < Next(c, s, a).next && Kept(Next(c, s, a), x)
  {
    NextNeverFalls(c, s, a);
    OpenedBefore(c, s, a, x);
    if x !in s.open {
      DialledIsKept(c, s, a);
    } else if t :| t in s.threads && InHand(s.threads[t], x) {
      assert x < s.next;
      HandKeeps(c, s, a, t, x);
    } else {
      assert x < s.next && Kept(s, x);
      CurrentIsKept(c, s, a, x);
    }
  }

  lemma DialledIsKept(c: Setup, s: State, a: Action)
    requires Enabled(c, s, a) && a.Dial? && a.ok
    ensures s.next < Next(c, s, a).next && Kept(Next(c, s, a), s.next)
  {
    assert InHand(Next(c, s, a).threads[a.t], s.next);
  }

  lemma CurrentIsKept(c: Setup, s: State, a: Action, x: SessionId)
    requires Enabled(c, s, a) && Accounted(s) && s.session == Some(x) && x in s.open && !Overwrites(s, a, x)
    requires forall t | t in s.threads :: !InHand(s.threads[t], x)
    ensures Kept(Next(c, s, a), x)
  {
    var s' := Next(c, s, a);
    CurrentKeeps(c, s, a, x);
    if s'.session != Some(x) {
      assert InHand(s'.threads[a.t], x);
    }
  }

  /** No step of the run overwrites an open session. */
  ghost predicate Careful(c: Setup, s: State, acts: seq<Action>)
    requires IsRun(c, s, acts)
    decreases |acts|
  {
    acts != [] ==>
      (forall x :: !Overwrites(s, acts[0], x)) && Careful(c, Next(c, s, acts[0]), acts[1..])
  }

  lemma {:induction false} CarefulRunsAccount(c: Setup, s: State, acts: seq<Action>)
    requires c.serialised && Inv(c, s) && Accounted(s) && IsRun(c, s, acts) && Careful(c, s, acts)
    ensures Accounted(After(c, s, acts))
    decreases |acts|
  {
    if acts != [] {
      AccountedStep(c, s, acts[0]);
      InvStep(c, s, acts[0]);
      CarefulRunsAccount(c, Next(c, s, acts[0]), acts[1..]);
    }
  }

  /** So when a run that overwrites nothing has come to rest, no session but the current one is
      open, and none at all after a Close. */
  lemma RestLeaksNothing(c: Setup, acts: seq<Action>)
    requires c.serialised && c.own <= c.reserved && IsRun(c, Init(c), acts) && Careful(c, Init(c), acts)
    requires AtRest(c, After(c, Init(c), acts))
    ensures var s := After(c, Init(c), acts);
            s.threads == map[] && forall x | x in s.open :: s.session == Some(x)
  {
    var s := After(c, Init(c), acts);
    InitInv(c);
    CarefulRunsAccount(c, Init(c), acts);
    if s.threads != map[] {
      NothingStuck(c, s);
    }
  }

  lemma {:induction false} NextNeverFallsInRuns(c: Setup, s: State, acts: seq<Action>)
    requires IsRun(c, s, acts)
    ensures s.next <= After(c, s, acts).next
    decreases |acts|
  {
    if acts != [] {
      NextNeverFalls(c, s, acts[0]);
      NextNeverFallsInRuns(c, Next(c, s, acts[0]), acts[1..]);
    }
  }

  /** With no more than one successful dial, as in the proxy's own start and stop, nothing can be
      overwritten. */
  lemma {:induction false} OneDialIsCareful(c: Setup, s: State, acts: seq<Action>)
    requires c.serialised && Inv(c, s) && IsRun(c, s, acts) && After(c, s, acts).next <= 1
    ensures Careful(c, s, acts)
    decreases |acts|
  {
    if acts != [] {
      NextNeverFallsInRuns(c, s, acts);
      forall x ensures !Overwrites(s, acts[0], x) {
        if Overwrites(s, acts[0], x) {
          var own := s.threads[acts[0].t].own;
          assert Connecting(s.threads[acts[0].t]) == Some(own) && Stored(s, x);
          assert false;
        }
      }
      InvStep(c, s, acts[0]);
      OneDialIsCareful(c, Next(c, s, acts[0]), acts[1..]);
    }
  }

  // ------------------------------------------------------------------ what a failed Connect leaves

  /** The thread's listing, or its start, can fail: the step is at hand. */
  predicate SyncCanFail(s: State, t: Tid, who: Caller) {
    t in s.threads
    && ((s.threads[t].Listing? && s.threads[t].who == who)
        || (s.threads[t] == ReadHeld(who) && s.session == None))
  }

  function FailStep(s: State, t: Tid): Action {
    if t in s.threads && s.threads[t].Listing? then ListFails(t) else Local(t)
  }

  /** When the sync of a Connect fails, the Connect closes its own session and clears it, and only
      its own: nothing of it stays behind, and the mirror is as it was. */
  lemma FailedConnectLeavesNothing(c: Setup, s: State, t: Tid, x: SessionId)
    requires Inv(c, s) && SyncCanFail(s, t, ByConnect(x)) && (s.mu == None || s.mu == Some(t))
    ensures var acts := [FailStep(s, t), Net(t), Local(t), Local(t)];
            && IsRun(c, s, acts)
            && var s' := After(c, s, acts);
               && t !in s'.threads && x in s'.closed && x !in s'.open
               && s'.session == (if s.session == Some(x) then None else s.session)
               && s'.registry == s.registry && s'.mirrored == s.mirrored && s'.log == s.log && s'.failed
               && s'.mu == None && s'.listMu == None
  {
    var s1 := Next(c, s, FailStep(s, t));
    SyncFails(c, s, t, x);
    var s2 := Next(c, s1, Net(t));
    var s3 := Next(c, s2, Local(t));
    CleanupCloses(c, s1, t, x);
    CleanupClears(c, s2, t, x);
    RunOfFour(c, s, FailStep(s, t), s1, Net(t), s2, Local(t), s3, Local(t), Next(c, s3, Local(t)));
  }

  /** The mirror, and whether a sync has failed, are the same. */
  predicate SameMirror(s: State, s': State) {
    s'.registry == s.registry && s'.mirrored == s.mirrored && s'.log == s.log && s'.failed == s.failed
  }

  lemma SyncFails(c: Setup, s: State, t: Tid, x: SessionId)
    requires Inv(c, s) && SyncCanFail(s, t, ByConnect(x)) && (s.mu == None || s.mu == Some(t))
    ensures Enabled(c, s, FailStep(s, t))
    ensures var s1 := Next(c, s, FailStep(s, t));
            && t in s1.threads && s1.threads[t] == Cleanup(x) && s1.mu == None && s1.listMu == None
            && s1.history != [] && s1.session == s.session && s1.failed && SameMirror(s.(failed := true), s1)
  {}

  lemma CleanupCloses(c: Setup, s: State, t: Tid, x: SessionId)
    requires s.history != [] && t in s.threads && s.threads[t] == Cleanup(x) && s.mu == None && s.listMu == None
    ensures Enabled(c, s, Net(t))
    ensures var s2 := Next(c, s, Net(t));
            && t in s2.threads && s2.threads[t] == ResetWait(x) && s2.mu == None && s2.listMu == None
            && s2.history != [] && x in s2.closed && x !in s2.open && s2.session == s.session && SameMirror(s, s2)
  {}

  lemma CleanupClears(c: Setup, s: State, t: Tid, x: SessionId)
    requires s.history != [] && t in s.threads && s.threads[t] == ResetWait(x) && s.mu == None && s.listMu == None
    ensures Enabled(c, s, Local(t)) && Enabled(c, Next(c, s, Local(t)), Local(t))
    ensures var s' := Next(c, Next(c, s, Local(t)), Local(t));
            && t !in s'.threads && s'.mu == None && s'.listMu == None
            && s'.open == s.open && s'.closed == s.closed
            && s'.session == (if s.session == Some(x) then None else s.session) && SameMirror(s, s')
  {
    assert Next(c, s, Local(t)).threads[t] == ResetHeld(x);
  }

  // ------------------------------------------------------------------ what a second Connect does

  /** At rest with an open session, another Connect that gets as far as storing its own leaves the
      first one open, and in nobody's hand. */
  lemma SecondConnectLoses(c: Setup, s: State, t: Tid, x: SessionId)
    requires Inv(c, s) && s.threads == map[] && s.session == Some(x) && x in s.open
    ensures var acts := [Start(t, Dialing), Dial(t, true), Local(t), Local(t)];
            && IsRun(c, s, acts)
            && var s' := After(c, s, acts); x in s'.open && !Kept(s', x)
  {
    var s1 := Next(c, s, Start(t, Dialing));
    var s2 := Next(c, s1, Dial(t, true));
    ConnectDials(c, s, t, x);
    var s3 := Next(c, s2, Local(t));
    var s4 := Next(c, s3, Local(t));
    ConnectStores(c, s2, t, x, s.next);
    RunOfFour(c, s, Start(t, Dialing), s1, Dial(t, true), s2, Local(t), s3, Local(t), s4);
    NobodyKeeps(s4, t, s.next, x);
  }

  lemma NobodyKeeps(s: State, t: Tid, y: SessionId, x: SessionId)
    requires s.threads == map[t := SyncWait(ByConnect(y))] && s.session == Some(y) && x != y
    ensures !Kept(s, x)
  {
    assert forall u | u in s.threads :: !InHand(s.threads[u], x);
  }

  lemma ConnectDials(c: Setup, s: State, t: Tid, x: SessionId)
    requires Inv(c, s) && s.threads == map[] && s.session == Some(x) && x in s.open
    ensures x < s.next && Enabled(c, s, Start(t, Dialing))
    ensures var s1 := Next(c, s, Start(t, Dialing));
            && Enabled(c, s1, Dial(t, true))
            && var s2 := Next(c, s1, Dial(t, true));
               && s2.threads == map[t := StoreWait(s.next)] && s2.mu == None && s2.history != [] && x in s2.open
  {
    assert Stored(s, x);
    assert s.mu == None;
    assert map[][t := StoreWait(s.next)] == map[t := StoreWait(s.next)];
  }

  lemma ConnectStores(c: Setup, s: State, t: Tid, x: SessionId, y: SessionId)
    requires s.history != [] && s.threads == map[t := StoreWait(y)] && s.mu == None && x in s.open && x != y
    ensures Enabled(c, s, Local(t)) && Enabled(c, Next(c, s, Local(t)), Local(t))
    ensures var s' := Next(c, Next(c, s, Local(t)), Local(t));
            s'.session == Some(y) && x in s'.open && s'.threads == map[t := SyncWait(ByConnect(y))]
  {
    var s1 := Next(c, s, Local(t));
    assert s1.threads == map[t := StoreHeld(y)];
  }

  /** One enabled action leads from one state to the other. */
  predicate Leads(c: Setup, s: State, a: Action, s': State) {
    Enabled(c, s, a) && Next(c, s, a) == s'
  }

  lemma RunOfFour(
    c: Setup, s: State, a: Action, s1: State, b: Action, s2: State, d: Action, s3: State, e: Action, s4: State)
    requires Leads(c, s, a, s1) && Leads(c, s1, b, s2) && Leads(c, s2, d, s3) && Leads(c, s3, e, s4)
    ensures IsRun(c, s, [a, b, d, e]) && After(c, s, [a, b, d, e]) == s4
  {
    assert [a, b, d, e][1..] == [b, d, e] && [b, d, e][1..] == [d, e];
    RunOfTwo(c, s2, d, s3, e, s4);
    assert IsRun(c, s1, [b, d, e]) && After(c, s1, [b, d, e]) == s4;
  }

  lemma RunOfTwo(c: Setup, s: State, a: Action, s1: State, b: Action, s2: State)
    requires Leads(c, s, a, s1) && Leads(c, s1, b, s2)
    ensures IsRun(c, s, [a, b]) && After(c, s, [a, b]) == s2
  {
    assert [a, b][1..] == [b] && [b][1..] == [];
    assert IsRun(c, s2, []) && IsRun(c, s1, [b]) && After(c, s1, [b]) == After(c, s2, []) == s2;
  }
}
