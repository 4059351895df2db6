/** What every reachable state of the mirror protocol keeps, and what follows from it. */
module MirrorSafety {
  import opened Core
  import opened Mirror
  import opened MirrorProtocol

  // ------------------------------------------------------------------ invariants

  /** A lock is held by exactly the thread whose position says so. */
  ghost predicate Locks(s: State) {
    && (forall t | t in s.threads :: HoldsMu(s.threads[t]) <==> s.mu == Some(t))
    && (forall t | t in s.threads :: HoldsListMu(s.threads[t]) <==> s.listMu == Some(t))
    && (s.mu.Some? ==> s.mu.value in s.threads)
    && (s.listMu.Some? ==> s.listMu.value in s.threads)
  }

  predicate Collecting(pc: PC) {
    pc.Listing? || pc.ApplyWait? || pc.ApplyHeld?
  }

  ghost predicate Chained(log: seq<Applied>) {
    && (forall i | 0 <= i < |log| :: log[i].start <= log[i].end)
    && (forall i, j | 0 <= i < j < |log| :: log[i].end <= log[j].start)
  }

  /** Version of the last applied listing's end, or zero. */
  function LastEnd(s: State): nat {
    if s.log == [] then 0 else s.log[|s.log| - 1].end
  }

  /** A listing in progress started no earlier than `floor`, the end of the last applied one. */
  predicate FreshPc(pc: PC, floor: nat, version: nat) {
    && (Collecting(pc) ==> floor <= pc.start <= version)
    && (pc.ApplyWait? || pc.ApplyHeld? ==> pc.start <= pc.end <= version)
  }

  ghost predicate Fresh(s: State) {
    && s.history != []
    && Chained(s.log) && LastEnd(s) <= Version(s)
    && (forall t | t in s.threads :: FreshPc(s.threads[t], LastEnd(s), Version(s)))
  }

  /** A listing during which nothing changed is the list of its version. */
  predicate FaithfulPc(pc: PC, history: seq<seq<Tool>>) {
    && (pc.Listing? && pc.start == |history| - 1 ==> pc.got <= history[pc.start])
    && ((pc.ApplyWait? || pc.ApplyHeld?) && pc.start == pc.end < |history| ==> pc.got == history[pc.start])
  }

  ghost predicate Faithful(s: State) {
    && s.history != []
    && (forall t | t in s.threads :: FaithfulPc(s.threads[t], s.history))
    && (forall i | 0 <= i < |s.log| && s.log[i].start == s.log[i].end < |s.history| ::
          s.log[i].tools == s.history[s.log[i].start])
  }

  /** The mirrored names that these listings leave when applied one after the other. */
  function Replay(reserved: set<string>, log: seq<Applied>): set<string> {
    if log == [] then {} else ApplyMirrored(Replay(reserved, log[..|log| - 1]), reserved, log[|log| - 1].tools)
  }

  /** The registry is own plus mirrored, and what the last applied listing dictates; the
      mirrored names are what all applied listings leave. */
  ghost predicate Mirroring(c: Setup, s: State) {
    && MirrorInvariant(s.registry, s.mirrored, c.reserved, c.own)
    && (s.log != [] ==> Dictated(s.registry, c.reserved, s.log[|s.log| - 1].tools))
    && s.mirrored == Replay(c.reserved, s.log)
  }

  predicate Storing(pc: PC, x: SessionId) {
    pc == StoreWait(x) || pc == StoreHeld(x)
  }

  /** Until the server is known, the Connect that opened a session has not stored it. */
  ghost predicate ServerComes(s: State) {
    !s.hasServer ==> forall x | x in s.open :: exists t | t in s.threads :: Storing(s.threads[t], x)
  }

  /** Positions from which a listing of the current version, or of a later one, still follows. */
  predicate WillList(pc: PC, version: nat) {
    || pc.StoreWait? || pc.StoreHeld? || pc.SyncWait? || pc.ReadWait? || pc.ReadHeld?
    || pc.ResyncWait? || pc.ResyncHeld?
    || (Collecting(pc) && pc.start == version)
  }

  ghost predicate CaughtUp(s: State)
    requires s.history != []
  {
    s.log != [] && s.log[|s.log| - 1].start == Version(s)
  }

  /** Every change an open session knows of is applied, or announced, or about to be listed,
      or a sync has failed since. */
  ghost predicate Owed(s: State) {
    && s.history != []
    && (CaughtUp(s) || s.failed
        || forall x | x in s.open ::
             || x in s.notices
             || exists t | t in s.threads :: WillList(s.threads[t], Version(s)))
  }

  function Connecting(pc: PC): Option<SessionId> {
    match pc
    case StoreWait(x) => Some(x)
    case StoreHeld(x) => Some(x)
    case Cleanup(x) => Some(x)
    case ResetWait(x) => Some(x)
    case ResetHeld(x) => Some(x)
    case SyncWait(ByConnect(x)) => Some(x)
    case ReadWait(ByConnect(x)) => Some(x)
    case ReadHeld(ByConnect(x)) => Some(x)
    case Listing(ByConnect(x), _, _) => Some(x)
    case ApplyWait(ByConnect(x), _, _, _) => Some(x)
    case ApplyHeld(ByConnect(x), _, _, _) => Some(x)
    case _ => None
  }

  /** Sessions that have been stored once, so that they are never stored again. */
  ghost predicate Stored(s: State, x: SessionId) {
    || s.session == Some(x) || x in s.closed
    || exists t | t in s.threads :: s.threads[t] == Closing(x)
  }

  predicate Resetting(pc: PC, x: SessionId) {
    pc == ResetWait(x) || pc == ResetHeld(x)
  }

  /** Session numbers are below `next`. */
  ghost predicate Numbered(s: State) {
    && (forall t | t in s.threads && Connecting(s.threads[t]).Some? :: Connecting(s.threads[t]).value < s.next)
    && (forall x: SessionId | Stored(s, x) :: x < s.next)
  }

  /** At most one thread is connecting a session. */
  ghost predicate Unique(s: State) {
    forall t, u | t in s.threads && u in s.threads && t != u && Connecting(s.threads[t]).Some? ::
      Connecting(s.threads[t]) != Connecting(s.threads[u])
  }

  ghost predicate StoredOnce(s: State) {
    forall t, x: SessionId | t in s.threads && Storing(s.threads[t], x) :: !Stored(s, x)
  }

  ghost predicate ClosingIsNotCurrent(s: State) {
    forall t, x: SessionId | t in s.threads && s.threads[t] == Closing(x) :: s.session != Some(x)
  }

  /** A closed session is current only while the Connect that closed it is about to clear it. */
  ghost predicate ClosedIsCleared(s: State) {
    forall x: SessionId | s.session == Some(x) && x in s.closed ::
      exists t | t in s.threads :: Resetting(s.threads[t], x)
  }

  ghost predicate Sessions(s: State) {
    Numbered(s) && Unique(s) && StoredOnce(s) && ClosingIsNotCurrent(s) && ClosedIsCleared(s)
  }

  ghost predicate Inv(c: Setup, s: State) {
    Locks(s) && Fresh(s) && Faithful(s) && Mirroring(c, s) && ServerComes(s) && Owed(s) && Sessions(s)
  }

  // ------------------------------------------------------- each step keeps each of them

  /** A step moves no thread but its own. */
  lemma OthersStay(c: Setup, s: State, a: Action)
    requires Enabled(c, s, a)
    ensures forall u | Some(u) != Actor(a) ::
              (u in Next(c, s, a).threads <==> u in s.threads)
              && (u in s.threads ==> Next(c, s, a).threads[u] == s.threads[u])
  {}

  ghost predicate LocksOf(s: State, t: Tid) {
    t in s.threads ==>
      (HoldsMu(s.threads[t]) <==> s.mu == Some(t)) && (HoldsListMu(s.threads[t]) <==> s.listMu == Some(t))
  }

  /** A step takes a free lock for its own thread, releases its own, or leaves it alone. */
  predicate Handed(before: Option<Tid>, after: Option<Tid>, t: Tid) {
    after == before || (before == None && after == Some(t)) || (before == Some(t) && after == None)
  }

  lemma NextPcMu(c: Setup, s: State, a: Action)
    requires Enabled(c, s, a) && Actor(a).Some?
    requires a.t in s.threads ==> (HoldsMu(s.threads[a.t]) <==> s.mu == Some(a.t))
    requires a.t !in s.threads ==> s.mu != Some(a.t)
    ensures Handed(s.mu, NextMu(c, s, a), a.t)
    ensures NextPc(c, s, a).Some? && HoldsMu(NextPc(c, s, a).value) <==> NextMu(c, s, a) == Some(a.t)
  {}

  lemma ActorMu(c: Setup, s: State, a: Action, t: Tid)
    requires Enabled(c, s, a) && Actor(a) == Some(t)
    requires t in s.threads ==> (HoldsMu(s.threads[t]) <==> s.mu == Some(t))
    requires t !in s.threads ==> s.mu != Some(t)
    ensures var s' := Next(c, s, a);
            && Handed(s.mu, s'.mu, t)
            && (if t in s'.threads then HoldsMu(s'.threads[t]) <==> s'.mu == Some(t) else s'.mu != Some(t))
  {
    NextPcMu(c, s, a);
  }

  lemma NextPcListMu(c: Setup, s: State, a: Action)
    requires c.serialised && Enabled(c, s, a) && Actor(a).Some?
    requires a.t in s.threads ==> (HoldsListMu(s.threads[a.t]) <==> s.listMu == Some(a.t))
    requires a.t !in s.threads ==> s.listMu != Some(a.t)
    ensures Handed(s.listMu, NextListMu(c, s, a), a.t)
    ensures NextPc(c, s, a).Some? && HoldsListMu(NextPc(c, s, a).value) <==> NextListMu(c, s, a) == Some(a.t)
  {}

  lemma ActorListMu(c: Setup, s: State, a: Action, t: Tid)
    requires c.serialised && Enabled(c, s, a) && Actor(a) == Some(t)
    requires t in s.threads ==> (HoldsListMu(s.threads[t]) <==> s.listMu == Some(t))
    requires t !in s.threads ==> s.listMu != Some(t)
    ensures var s' := Next(c, s, a);
            && Handed(s.listMu, s'.listMu, t)
            && (if t in s'.threads then HoldsListMu(s'.threads[t]) <==> s'.listMu == Some(t) else s'.listMu != Some(t))
  {
    NextPcListMu(c, s, a);
  }

  lemma LocksStep(c: Setup, s: State, a: Action)
    requires c.serialised && Locks(s) && Enabled(c, s, a)
    ensures Locks(Next(c, s, a))
  {
    var s' := Next(c, s, a);
    OthersStay(c, s, a);
    if Actor(a).Some? {
      ActorMu(c, s, a, a.t);
      ActorListMu(c, s, a, a.t);
    } else {
      assert s'.mu == s.mu && s'.listMu == s.listMu;
    }
    forall u | u in s'.threads ensures LocksOf(s', u) {
      assert Some(u) != Actor(a) ==> LocksOf(s, u);
    }
  }

  /** Only an apply extends the log. */
  lemma LogGrowsByApply(c: Setup, s: State, a: Action)
    requires Enabled(c, s, a)
    ensures var s' := Next(c, s, a);
            if a.Local? && s.threads[a.t].ApplyHeld?
            then var pc := s.threads[a.t];
                 s'.log == s.log + [Applied(pc.start, pc.end, pc.got)] && a.t !in s'.threads && s'.history == s.history
            else s'.log == s.log
                 && s'.history == if a.Change? then s.history + [a.tools] else s.history
  {}

  lemma ActorFresh(c: Setup, s: State, a: Action, t: Tid)
    requires Enabled(c, s, a) && Actor(a) == Some(t) && LastEnd(s) <= Version(s)
    requires t in s.threads ==> FreshPc(s.threads[t], LastEnd(s), Version(s))
    ensures var s' := Next(c, s, a);
            t in s'.threads ==> FreshPc(s'.threads[t], LastEnd(s'), Version(s'))
  {
    LogGrowsByApply(c, s, a);
  }

  lemma FreshApply(c: Setup, s: State, a: Action)
    requires Locks(s) && Fresh(s) && Enabled(c, s, a) && a.Local? && s.threads[a.t].ApplyHeld?
    ensures Fresh(Next(c, s, a))
  {
    var s' := Next(c, s, a);
    OthersStay(c, s, a);
    LogGrowsByApply(c, s, a);
    assert FreshPc(s.threads[a.t], LastEnd(s), Version(s));
    assert s'.log[..|s.log|] == s.log && |s'.log| == |s.log| + 1;
    forall u | u in s'.threads ensures FreshPc(s'.threads[u], LastEnd(s'), Version(s')) {
      assert !HoldsListMu(s.threads[u]);
    }
  }

  lemma FreshStep(c: Setup, s: State, a: Action)
    requires c.serialised && Locks(s) && Fresh(s) && Enabled(c, s, a)
    ensures Fresh(Next(c, s, a))
  {
    if a.Local? && s.threads[a.t].ApplyHeld? {
      FreshApply(c, s, a);
    } else {
      var s' := Next(c, s, a);
      OthersStay(c, s, a);
      LogGrowsByApply(c, s, a);
      forall u | u in s'.threads ensures FreshPc(s'.threads[u], LastEnd(s'), Version(s')) {
        if Some(u) != Actor(a) {
          assert FreshPc(s.threads[u], LastEnd(s), Version(s));
        } else {
          ActorFresh(c, s, a, u);
        }
      }
    }
  }

  lemma NextPcFaithful(c: Setup, s: State, a: Action)
    requires Enabled(c, s, a) && Actor(a).Some?
    requires a.t in s.threads ==> FaithfulPc(s.threads[a.t], s.history) && FreshPc(s.threads[a.t], 0, Version(s))
    ensures NextPc(c, s, a).Some? ==> FaithfulPc(NextPc(c, s, a).value, s.history)
  {}

  lemma ActorFaithful(c: Setup, s: State, a: Action, t: Tid)
    requires Enabled(c, s, a) && Actor(a) == Some(t)
    requires t in s.threads ==> FaithfulPc(s.threads[t], s.history) && FreshPc(s.threads[t], 0, Version(s))
    ensures var s' := Next(c, s, a);
            t in s'.threads ==> FaithfulPc(s'.threads[t], s'.history)
  {
    NextPcFaithful(c, s, a);
    LogGrowsByApply(c, s, a);
  }

  lemma FaithfulStep(c: Setup, s: State, a: Action)
    requires Fresh(s) && Faithful(s) && Enabled(c, s, a)
    ensures Faithful(Next(c, s, a))
  {
    var s' := Next(c, s, a);
    OthersStay(c, s, a);
    LogGrowsByApply(c, s, a);
    if Actor(a).Some? {
      ActorFaithful(c, s, a, a.t);
    }
    forall u | u in s'.threads ensures FaithfulPc(s'.threads[u], s'.history) {
      if Some(u) != Actor(a) {
        assert FaithfulPc(s.threads[u], s.history) && FreshPc(s.threads[u], LastEnd(s), Version(s));
      }
    }
  }

  /** Only an apply touches the registry and the mirrored names. */
  lemma CriticalKeepsRegistry(c: Setup, s: State, pc: PC)
    requires !pc.ApplyHeld?
    ensures var s' := Critical(c, s, pc);
            s'.registry == s.registry && s'.mirrored == s.mirrored && s'.log == s.log
  {}

  lemma RegistryChangesByApply(c: Setup, s: State, a: Action)
    requires Enabled(c, s, a) && !(a.Local? && s.threads[a.t].ApplyHeld?)
    ensures var s' := Next(c, s, a);
            s'.registry == s.registry && s'.mirrored == s.mirrored && s'.log == s.log
  {
    if a.Local? {
      CriticalKeepsRegistry(c, s, s.threads[a.t]);
    }
  }

  lemma MirroringStep(c: Setup, s: State, a: Action)
    requires Mirroring(c, s) && Enabled(c, s, a)
    ensures Mirroring(c, Next(c, s, a))
  {
    if a.Local? && s.threads[a.t].ApplyHeld? {
      var got := s.threads[a.t].got;
      ApplyKeepsInvariant(s.registry, s.mirrored, c.reserved, c.own, got);
      LogGrowsByApply(c, s, a);
      assert Next(c, s, a).log[..|s.log|] == s.log;
    } else {
      RegistryChangesByApply(c, s, a);
    }
  }

  /** A session still to be stored stays to be stored, or the server becomes known. */
  lemma StoringStays(c: Setup, s: State, a: Action, t: Tid, x: SessionId)
    requires Enabled(c, s, a) && t in s.threads && Storing(s.threads[t], x)
    ensures var s' := Next(c, s, a);
            s'.hasServer || (t in s'.threads && Storing(s'.threads[t], x))
  {
    OthersStay(c, s, a);
  }

  /** A new session is to be stored by the thread that dialled it; the server stays known. */
  lemma OpenedBy(c: Setup, s: State, a: Action)
    requires Enabled(c, s, a)
    ensures var s' := Next(c, s, a);
            && (s.hasServer ==> s'.hasServer)
            && forall x | x in s'.open && x !in s.open ::
                 a.Dial? && a.t in s'.threads && Storing(s'.threads[a.t], x)
  {}

  lemma ServerComesStep(c: Setup, s: State, a: Action)
    requires ServerComes(s) && Enabled(c, s, a)
    ensures ServerComes(Next(c, s, a))
  {
    var s' := Next(c, s, a);
    OpenedBy(c, s, a);
    if !s'.hasServer {
      forall x | x in s'.open ensures exists t | t in s'.threads :: Storing(s'.threads[t], x) {
        if x in s.open {
          var t :| t in s.threads && Storing(s.threads[t], x);
          StoringStays(c, s, a, t, x);
        }
      }
    }
  }

  /** A thread that owes a listing pays, passes the debt on, or is the resync that came
      before any server was known. */
  lemma ActorOwed(c: Setup, s: State, a: Action, t: Tid)
    requires Enabled(c, s, a) && Actor(a) == Some(t) && t in s.threads
    requires WillList(s.threads[t], Version(s))
    ensures var s' := Next(c, s, a);
            || s'.failed || CaughtUp(s')
            || (t in s'.threads && WillList(s'.threads[t], Version(s')))
            || (s.threads[t].ResyncHeld? && !s.hasServer)
  {
    LogGrowsByApply(c, s, a);
  }

  lemma CaughtUpStays(c: Setup, s: State, a: Action)
    requires Fresh(s) && CaughtUp(s) && Enabled(c, s, a) && !a.Change?
    ensures CaughtUp(Next(c, s, a))
  {
    LogGrowsByApply(c, s, a);
    if a.Local? && s.threads[a.t].ApplyHeld? {
      assert FreshPc(s.threads[a.t], LastEnd(s), Version(s));
    }
  }

  /** What an open session is owed after a step. */
  lemma SessionOwed(c: Setup, s: State, a: Action, x: SessionId)
    requires ServerComes(s) && Enabled(c, s, a) && !a.Change? && x in Next(c, s, a).open
    requires x in s.open ==> x in s.notices || exists t | t in s.threads :: WillList(s.threads[t], Version(s))
    ensures var s' := Next(c, s, a);
            || s'.failed || CaughtUp(s') || x in s'.notices
            || exists t | t in s'.threads :: WillList(s'.threads[t], Version(s'))
  {
    var s' := Next(c, s, a);
    OthersStay(c, s, a);
    LogGrowsByApply(c, s, a);
    if x !in s.open || (a.Deliver? && a.x == x) {
      assert WillList(s'.threads[a.t], Version(s'));
    } else if x !in s.notices {
      var t :| t in s.threads && WillList(s.threads[t], Version(s));
      if Actor(a) != Some(t) {
        assert WillList(s'.threads[t], Version(s'));
      } else {
        ActorOwed(c, s, a, t);
        if s.threads[t].ResyncHeld? && !s.hasServer {
          var u :| u in s.threads && Storing(s.threads[u], x);
          assert WillList(s'.threads[u], Version(s'));
        }
      }
    }
  }

  lemma OwedStep(c: Setup, s: State, a: Action)
    requires Fresh(s) && ServerComes(s) && Owed(s) && Enabled(c, s, a)
    ensures Owed(Next(c, s, a))
  {
    var s' := Next(c, s, a);
    if a.Change? {
    } else if CaughtUp(s) {
      CaughtUpStays(c, s, a);
    } else if !s'.failed && !CaughtUp(s') {
      assert !s.failed;
      forall x | x in s'.open
        ensures x in s'.notices || exists t | t in s'.threads :: WillList(s'.threads[t], Version(s'))
      {
        SessionOwed(c, s, a, x);
      }
    }
  }

  lemma NextPcContinues(c: Setup, s: State, a: Action)
    requires Enabled(c, s, a) && Actor(a).Some?
    ensures NextPc(c, s, a).Some? && Connecting(NextPc(c, s, a).value).Some? ==>
              || (a.t in s.threads && Connecting(s.threads[a.t]) == Connecting(NextPc(c, s, a).value))
              || (a.Dial? && NextPc(c, s, a) == Some(StoreWait(s.next)))
  {}

  lemma ActorConnecting(c: Setup, s: State, a: Action, t: Tid)
    requires Enabled(c, s, a) && Actor(a) == Some(t)
    ensures var s' := Next(c, s, a);
            && s'.next == (if a.Dial? && a.ok then s.next + 1 else s.next)
            && (t in s'.threads && Connecting(s'.threads[t]).Some? ==>
                  || (t in s.threads && Connecting(s.threads[t]) == Connecting(s'.threads[t]))
                  || (a.Dial? && a.ok && s'.threads[t] == StoreWait(s.next)))
  {
    NextPcContinues(c, s, a);
  }

  lemma ActorStores(c: Setup, s: State, a: Action, t: Tid, x: SessionId)
    requires Enabled(c, s, a) && Actor(a) == Some(t) && t in Next(c, s, a).threads
    requires Storing(Next(c, s, a).threads[t], x)
    ensures (t in s.threads && Storing(s.threads[t], x)) || (a.Dial? && x == s.next)
  {}

  /** How a step changes the current session. */
  lemma CurrentSession(c: Setup, s: State, a: Action)
    requires Enabled(c, s, a)
    ensures var s' := Next(c, s, a);
            || s'.session == s.session
            || (a.Local? && s.threads[a.t].CloseHeld? && s'.session == None)
            || (a.Local? && s.threads[a.t].ResetHeld? && s'.session == None)
            || (a.Local? && s.threads[a.t].StoreHeld? && s'.session == Some(s.threads[a.t].own) && s'.closed == s.closed)
  {}

  /** A session closed in this step was being cleaned up or closed by the acting thread. */
  lemma NewlyClosed(c: Setup, s: State, a: Action, x: SessionId)
    requires Enabled(c, s, a) && x in Next(c, s, a).closed && x !in s.closed
    ensures a.Net? && (s.threads[a.t] == Closing(x) || s.threads[a.t] == Cleanup(x))
    ensures Next(c, s, a).session == s.session
  {}

  /** A session becomes stored only by the Connect that opened it. */
  lemma StoredBy(c: Setup, s: State, a: Action, x: SessionId)
    requires Enabled(c, s, a) && Stored(Next(c, s, a), x)
    ensures || Stored(s, x)
            || (Actor(a).Some? && a.t in s.threads && (s.threads[a.t] == StoreHeld(x) || s.threads[a.t] == Cleanup(x)))
  {
    OthersStay(c, s, a);
    CurrentSession(c, s, a);
    if x in Next(c, s, a).closed && x !in s.closed {
      NewlyClosed(c, s, a, x);
    }
  }

  lemma UniqueStep(c: Setup, s: State, a: Action)
    requires Numbered(s) && Unique(s) && Enabled(c, s, a)
    ensures Unique(Next(c, s, a))
  {
    OthersStay(c, s, a);
    if Actor(a).Some? {
      ActorConnecting(c, s, a, a.t);
    }
  }

  lemma NumberedStep(c: Setup, s: State, a: Action)
    requires Numbered(s) && Enabled(c, s, a)
    ensures Numbered(Next(c, s, a))
  {
    var s' := Next(c, s, a);
    OthersStay(c, s, a);
    if Actor(a).Some? {
      ActorConnecting(c, s, a, a.t);
    }
    forall x: SessionId | Stored(s', x) ensures x < s'.next {
      StoredBy(c, s, a, x);
    }
  }

  lemma StoredOnceStep(c: Setup, s: State, a: Action)
    requires Numbered(s) && Unique(s) && StoredOnce(s) && Enabled(c, s, a)
    ensures StoredOnce(Next(c, s, a))
  {
    var s' := Next(c, s, a);
    OthersStay(c, s, a);
    forall u, x: SessionId | u in s'.threads && Storing(s'.threads[u], x) ensures !Stored(s', x) {
      if Actor(a) == Some(u) {
        ActorStores(c, s, a, u, x);
      }
      if Stored(s', x) {
        StoredBy(c, s, a, x);
        assert false;
      }
    }
  }

  lemma ClosingStep(c: Setup, s: State, a: Action)
    requires StoredOnce(s) && ClosingIsNotCurrent(s) && Enabled(c, s, a)
    ensures ClosingIsNotCurrent(Next(c, s, a))
  {
    var s' := Next(c, s, a);
    OthersStay(c, s, a);
    CurrentSession(c, s, a);
    forall t, x: SessionId | t in s'.threads && s'.threads[t] == Closing(x) ensures s'.session != Some(x) {
      if Actor(a) != Some(t) {
        assert Stored(s, x);
        assert a.Local? && s.threads[a.t].StoreHeld? ==> Storing(s.threads[a.t], s.threads[a.t].own);
      }
    }
  }

  lemma ResettingStays(c: Setup, s: State, a: Action, t: Tid, x: SessionId)
    requires Enabled(c, s, a) && t in s.threads && Resetting(s.threads[t], x)
    ensures var s' := Next(c, s, a);
            s'.session == Some(x) && s.session == Some(x) ==> t in s'.threads && Resetting(s'.threads[t], x)
  {
    OthersStay(c, s, a);
  }

  lemma ClosedStep(c: Setup, s: State, a: Action)
    requires StoredOnce(s) && ClosingIsNotCurrent(s) && ClosedIsCleared(s) && Enabled(c, s, a)
    ensures ClosedIsCleared(Next(c, s, a))
  {
    var s' := Next(c, s, a);
    CurrentSession(c, s, a);
    forall x: SessionId | s'.session == Some(x) && x in s'.closed
      ensures exists t | t in s'.threads :: Resetting(s'.threads[t], x)
    {
      if x !in s.closed {
        NewlyClosed(c, s, a, x);
        assert Resetting(s'.threads[a.t], x);
      } else {
        if s.session != Some(x) {
          assert Storing(s.threads[a.t], x) && Stored(s, x);
          assert false;
        }
        var t :| t in s.threads && Resetting(s.threads[t], x);
        ResettingStays(c, s, a, t, x);
      }
    }
  }

  lemma SessionsStep(c: Setup, s: State, a: Action)
    requires Sessions(s) && Enabled(c, s, a)
    ensures Sessions(Next(c, s, a))
  {
    UniqueStep(c, s, a);
    NumberedStep(c, s, a);
    StoredOnceStep(c, s, a);
    ClosingStep(c, s, a);
    ClosedStep(c, s, a);
  }

  // -------------------------------------------------------------------- every run

  lemma InitInv(c: Setup)
    requires c.own <= c.reserved
    ensures Inv(c, Init(c))
  {}

  lemma InvStep(c: Setup, s: State, a: Action)
    requires c.serialised && Inv(c, s) && Enabled(c, s, a)
    ensures Inv(c, Next(c, s, a))
  {
    LocksStep(c, s, a);
    FreshStep(c, s, a);
    FaithfulStep(c, s, a);
    MirroringStep(c, s, a);
    ServerComesStep(c, s, a);
    OwedStep(c, s, a);
    SessionsStep(c, s, a);
  }

  lemma {:induction false} RunKeepsInv(c: Setup, s: State, acts: seq<Action>)
    requires c.serialised && Inv(c, s) && IsRun(c, s, acts)
    ensures Inv(c, After(c, s, acts))
    decreases |acts|
  {
    if acts != [] {
      InvStep(c, s, acts[0]);
      RunKeepsInv(c, Next(c, s, acts[0]), acts[1..]);
    }
  }

  ghost predicate Reachable(c: Setup, s: State) {
    exists acts :: IsRun(c, Init(c), acts) && s == After(c, Init(c), acts)
  }

  lemma ReachableInv(c: Setup, s: State)
    requires c.serialised && c.own <= c.reserved && Reachable(c, s)
    ensures Inv(c, s)
  {
    var acts :| IsRun(c, Init(c), acts) && s == After(c, Init(c), acts);
    InitInv(c);
    RunKeepsInv(c, Init(c), acts);
  }
}
