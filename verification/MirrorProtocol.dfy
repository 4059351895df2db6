/** The concurrent protocol of internal/proxy/upstream.go as a step machine: any number of
    threads run Connect, Close, SyncTools, notification-driven resync and forwarded calls
    under the locks `listMu` and `mu`, while the upstream list changes.

    The upstream list is an append-only history; its last entry is current. A listing is
    read page by page. Pages read at the version the listing started with spell out that
    version's list; pages read after a change may hold anything (a torn listing). */
module MirrorProtocol {
  import opened Core
  import opened Mirror

  type Tid = nat
  type SessionId = nat

  /** Who runs SyncTools: Connect with the session it dialled, the resync handler, or a caller. */
  datatype Caller = ByConnect(own: SessionId) | ByResync | ByCaller

  datatype PC =
    | Dialing
    | StoreWait(own: SessionId)
    | StoreHeld(own: SessionId)
    | SyncWait(who: Caller)
    | ReadWait(who: Caller)
    | ReadHeld(who: Caller)
    | Listing(who: Caller, start: nat, got: seq<Tool>)
    | ApplyWait(who: Caller, start: nat, end: nat, got: seq<Tool>)
    | ApplyHeld(who: Caller, start: nat, end: nat, got: seq<Tool>)
    | Cleanup(own: SessionId)
    | ResetWait(own: SessionId)
    | ResetHeld(own: SessionId)
    | ResyncWait
    | ResyncHeld
    | CloseWait
    | CloseHeld
    | Closing(own: SessionId)
    | ForwardWait
    | ForwardHeld
    | Calling(via: SessionId)

  /** An applied listing: the versions it began and ended at, and what it said. */
  datatype Applied = Applied(start: nat, end: nat, tools: seq<Tool>)

  /** `serialised` is false in the variant of the protocol that has no listMu. */
  datatype Setup = Setup(reserved: set<string>, own: set<string>, initial: seq<Tool>, serialised: bool)

  datatype State = State(
    history: seq<seq<Tool>>,
    open: set<SessionId>,           // sessions alive at both ends
    closed: set<SessionId>,         // sessions this process has closed
    next: SessionId,
    notices: multiset<SessionId>,   // tool-list-changed notifications in flight
    session: Option<SessionId>,
    hasServer: bool,
    mirrored: set<string>,
    registry: Registry,
    mu: Option<Tid>,
    listMu: Option<Tid>,
    threads: map<Tid, PC>,
    log: seq<Applied>,
    failed: bool                    // a sync has failed since the last change, and none has caught up since
  )

  datatype Action =
    | Start(t: Tid, pc: PC)               // a caller enters Connect, Close, SyncTools or a tool call
    | Change(tools: seq<Tool>)            // the upstream list changes; every open session is notified
    | Drop(x: SessionId)                  // the upstream dies
    | Lose(x: SessionId)                  // a notification of a dead session evaporates
    | Deliver(t: Tid, x: SessionId)       // a notification starts the resync handler
    | Dial(t: Tid, ok: bool)              // network
    | Page(t: Tid, page: seq<Tool>, last: bool) // network
    | ListFails(t: Tid)                   // network: error or timeout
    | Net(t: Tid)                         // network: closing a session, or a forwarded call
    | Local(t: Tid)                       // lock operations and critical sections

  function Version(s: State): nat
    requires s.history != []
  {
    |s.history| - 1
  }

  function Init(c: Setup): State {
    State([c.initial], {}, {}, 0, multiset{}, None, false, {}, map n | n in c.own :: Own, None, None, map[], [], false)
  }

  predicate IsEntry(pc: PC) {
    pc in {Dialing, SyncWait(ByCaller), CloseWait, ForwardWait}
  }

  predicate WantsMu(pc: PC) {
    pc.StoreWait? || pc.ReadWait? || pc.ApplyWait? || pc.ResetWait? || pc.ResyncWait? || pc.CloseWait? || pc.ForwardWait?
  }

  predicate HoldsMu(pc: PC) {
    pc.StoreHeld? || pc.ReadHeld? || pc.ApplyHeld? || pc.ResetHeld? || pc.ResyncHeld? || pc.CloseHeld? || pc.ForwardHeld?
  }

  predicate HoldsListMu(pc: PC) {
    pc.ReadWait? || pc.ReadHeld? || pc.Listing? || pc.ApplyWait? || pc.ApplyHeld?
  }

  predicate AtNetwork(pc: PC) {
    pc.Dialing? || pc.Listing? || pc.Cleanup? || pc.Closing? || pc.Calling?
  }

  /** A page that a listing begun at version `start` can receive next. */
  predicate PagePossible(s: State, start: nat, got: seq<Tool>, page: seq<Tool>, last: bool)
    requires s.history != []
  {
    start == Version(s) ==>
      if last then got + page == s.history[start] else got + page <= s.history[start]
  }

  predicate Enabled(c: Setup, s: State, a: Action) {
    s.history != [] &&
    match a
    case Start(t, pc) => t !in s.threads && IsEntry(pc)
    case Change(_) => true
    case Drop(x) => x in s.open
    case Lose(x) => x in s.notices && x !in s.open
    case Deliver(t, x) => t !in s.threads && x in s.notices
    case Dial(t, _) => t in s.threads && s.threads[t].Dialing?
    case Page(t, page, last) =>
      t in s.threads && s.threads[t].Listing? && PagePossible(s, s.threads[t].start, s.threads[t].got, page, last)
    case ListFails(t) => t in s.threads && s.threads[t].Listing?
    case Net(t) => t in s.threads && (s.threads[t].Cleanup? || s.threads[t].Closing? || s.threads[t].Calling?)
    case Local(t) =>
      t in s.threads &&
      var pc := s.threads[t];
      || HoldsMu(pc)
      || (WantsMu(pc) && s.mu.None?)
      || (pc.SyncWait? && (s.listMu.None? || !c.serialised))
  }

  function Acquired(pc: PC): PC
    requires WantsMu(pc)
  {
    match pc
    case StoreWait(x) => StoreHeld(x)
    case ReadWait(who) => ReadHeld(who)
    case ApplyWait(who, start, end, got) => ApplyHeld(who, start, end, got)
    case ResetWait(x) => ResetHeld(x)
    case ResyncWait => ResyncHeld
    case CloseWait => CloseHeld
    case ForwardWait => ForwardHeld
  }

  /** Where a failing SyncTools returns to: a Connect goes on to clean up. */
  function AfterFailure(who: Caller): Option<PC> {
    if who.ByConnect? then Some(Cleanup(who.own)) else None
  }

  /** Where a critical section under mu leaves its thread; None when the thread is done. */
  function Released(s: State, pc: PC): Option<PC>
    requires HoldsMu(pc) && s.history != []
  {
    match pc
    case StoreHeld(x) => Some(SyncWait(ByConnect(x)))
    case ReadHeld(who) => if s.session.None? then AfterFailure(who) else Some(Listing(who, Version(s), []))
    case ApplyHeld(_, _, _, _) => None
    case ResetHeld(_) => None
    case ResyncHeld => if s.hasServer then Some(SyncWait(ByResync)) else None
    case CloseHeld => if s.session.None? then None else Some(Closing(s.session.value))
    case ForwardHeld => if s.session.None? then None else Some(Calling(s.session.value))
  }

  /** Thread that takes the step, if a thread does. */
  function Actor(a: Action): Option<Tid> {
    if a.Change? || a.Drop? || a.Lose? then None else Some(a.t)
  }

  /** Next position of the acting thread. */
  function NextPc(c: Setup, s: State, a: Action): Option<PC>
    requires Enabled(c, s, a) && Actor(a).Some?
  {
    match a
    case Start(_, pc) => Some(pc)
    case Deliver(_, _) => Some(ResyncWait)
    case Dial(_, ok) => if ok then Some(StoreWait(s.next)) else None
    case Page(t, page, last) =>
      var pc := s.threads[t];
      Some(if last then ApplyWait(pc.who, pc.start, Version(s), pc.got + page)
           else Listing(pc.who, pc.start, pc.got + page))
    case ListFails(t) => AfterFailure(s.threads[t].who)
    case Net(t) => if s.threads[t].Cleanup? then Some(ResetWait(s.threads[t].own)) else None
    case Local(t) =>
      var pc := s.threads[t];
      if HoldsMu(pc) then Released(s, pc) else if WantsMu(pc) then Some(Acquired(pc)) else Some(ReadWait(pc.who))
  }

  function NextThreads(c: Setup, s: State, a: Action): map<Tid, PC>
    requires Enabled(c, s, a)
  {
    if Actor(a).None? then s.threads
    else match NextPc(c, s, a) case Some(pc) => s.threads[a.t := pc] case None => s.threads - {a.t}
  }

  /** mu is taken by a waiting thread and released at the end of its critical section. */
  function NextMu(c: Setup, s: State, a: Action): Option<Tid>
    requires Enabled(c, s, a)
  {
    if !a.Local? then s.mu
    else if HoldsMu(s.threads[a.t]) then None
    else if WantsMu(s.threads[a.t]) then Some(a.t)
    else s.mu
  }

  /** listMu is taken on entry to SyncTools and released when it returns. */
  function NextListMu(c: Setup, s: State, a: Action): Option<Tid>
    requires Enabled(c, s, a)
  {
    if a.ListFails? then None
    else if !a.Local? then s.listMu
    else
      match s.threads[a.t]
      case SyncWait(_) => if c.serialised then Some(a.t) else s.listMu
      case ReadHeld(_) => if s.session.None? then None else s.listMu
      case ApplyHeld(_, _, _, _) => None
      case _ => s.listMu
  }

  /** What a critical section does to the variables mu guards, and to the registry. */
  function Critical(c: Setup, s: State, pc: PC): State {
    match pc
    case StoreHeld(x) => s.(session := Some(x), hasServer := true)
    case ReadHeld(_) => if s.session.None? then s.(failed := true) else s
    case ApplyHeld(_, start, end, got) =>
      s.(mirrored := ApplyMirrored(s.mirrored, c.reserved, got),
         registry := ApplyRegistry(s.registry, s.mirrored, c.reserved, got),
         log := s.log + [Applied(start, end, got)],
         failed := s.failed && start != |s.history| - 1)
    case ResetHeld(x) => if s.session == Some(x) then s.(session := None) else s
    case CloseHeld => s.(session := None)
    case _ => s
  }

  /** Everything but the locks and the positions. */
  function NextShared(c: Setup, s: State, a: Action): State
    requires Enabled(c, s, a)
  {
    match a
    case Change(tools) => s.(history := s.history + [tools], notices := s.notices + multiset(s.open), failed := false)
    case Drop(x) => s.(open := s.open - {x})
    case Lose(x) => s.(notices := s.notices - multiset{x})
    case Deliver(_, x) => s.(notices := s.notices - multiset{x})
    case Dial(_, ok) => if ok then s.(open := s.open + {s.next}, next := s.next + 1) else s
    case ListFails(_) => s.(failed := true)
    case Net(t) =>
      var pc := s.threads[t];
      if pc.Calling? then s else s.(open := s.open - {pc.own}, closed := s.closed + {pc.own})
    case Local(t) => Critical(c, s, s.threads[t])
    case _ => s
  }

  function Next(c: Setup, s: State, a: Action): State
    requires Enabled(c, s, a)
  {
    NextShared(c, s, a).(threads := NextThreads(c, s, a), mu := NextMu(c, s, a), listMu := NextListMu(c, s, a))
  }

  /** A run: every action is enabled when it is taken. */
  ghost predicate IsRun(c: Setup, s: State, acts: seq<Action>)
    decreases |acts|
  {
    acts == [] || (Enabled(c, s, acts[0]) && IsRun(c, Next(c, s, acts[0]), acts[1..]))
  }

  ghost function After(c: Setup, s: State, acts: seq<Action>): State
    requires IsRun(c, s, acts)
    decreases |acts|
  {
    if acts == [] then s else After(c, Next(c, s, acts[0]), acts[1..])
  }
}
