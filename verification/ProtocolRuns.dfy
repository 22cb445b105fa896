/**
 What runs of the server remember: when a connection was last used, and the news of hang-ups.
 */
module ProtocolRuns {
  import opened Words
  import opened Protocol
  import opened ProtocolSteps
  import opened ProtocolInvariant
  import opened ProtocolSafety

  lemma SameThreads(s: State, a: Action)
    requires Enabled(s, a)
    ensures |Do(s, a).pcs| == |s.pcs|
  {
    StepIsByActor(s, a);
  }

  // ---------------------------------------------------------------- steps aside from callbacks

  /** A thread here has no callback to end and no news to tell. */
  predicate Unburdened(pc: Pc) {
    match pc
    case AcceptLocked(_) => false
    case DataLocked(_) => false
    case ErrorLocked(_) => false
    case CallWait(_, _) => false
    case CallRun(_, _) => false
    case CallReturned(_, _) => false
    case Terminating(_) => false
    case _ => true
  }

  /** Thread t alone moves, between such places, and the queue stays. */
  predicate Aside(s: State, s': State, t: Tid) {
    && t < |s.pcs| == |s'.pcs| && s'.pcs == s.pcs[t := s'.pcs[t]] && s'.queue == s.queue
    && Unburdened(s.pcs[t]) && Unburdened(s'.pcs[t])
  }

  /** The dispatcher's steps that are aside. */
  predicate IsAside(a: Action) {
    || a.Accept? || a.AcceptLock? || a.AcceptInsert? || a.AcceptArm? || a.DataEvent? || a.ErrorEvent? || a.DataLock?
    || a.DataMiss? || a.DanglingReadLock?
  }

  lemma DispatchAside(s: State, a: Action)
    requires IsAside(a) && DispatchEnabled(s, a)
    ensures Aside(s, DoDispatch(s, a), MAIN)
  {
  }

  lemma ShutdownAside(s: State, a: Action)
    requires IsShutdownStep(a) && ShutdownEnabled(s, a)
    ensures Aside(s, DoShutdown(s, a), a.tid)
  {
    var c := ShutdownShuts(s, a);
  }

  lemma ReapingAside(s: State, a: Action)
    requires IsReaping(a) && ReapingEnabled(s, a)
    ensures Aside(s, DoReaping(s, a), REAPER)
  {
    if !a.ReapIdle? { SweepGoesOn(s, a); }
  }

  // ---------------------------------------------------------------- the last use

  /** The connection is still there, and was not used earlier than before. */
  predicate UsedSince(s: State, s': State, c: ConnId) {
    c in s.conns ==> c in s'.conns && s'.conns[c].lastUse >= s.conns[c].lastUse
  }

  lemma AcceptUses(s: State, a: Action, c: ConnId)
    requires IsAccepting(a) && DispatchEnabled(s, a)
    ensures UsedSince(s, DoDispatch(s, a), c)
  {
  }

  lemma EventUses(s: State, a: Action, c: ConnId)
    requires IsDispatch(a) && !IsAccepting(a) && DispatchEnabled(s, a)
    ensures UsedSince(s, DoDispatch(s, a), c)
  {
  }

  lemma ShutdownUses(s: State, a: Action, c: ConnId)
    requires IsShutdownStep(a) && ShutdownEnabled(s, a)
    ensures UsedSince(s, DoShutdown(s, a), c)
  {
    var d := ShutdownShuts(s, a);
  }

  lemma HandlerUses(s: State, t: Tid, c: ConnId)
    requires InHandler(s, t) && ConnOk(s, s.pcs[t].conn)
    ensures UsedSince(s, DoHandlerUse(s, t), c)
  {
  }

  lemma TakeUses(s: State, t: Tid, task: Task, c: ConnId)
    requires CanTake(s, t, task)
    ensures UsedSince(s, DoTake(s, t, task), c)
  {
  }

  lemma CallbackUses(s: State, a: Action, c: ConnId)
    requires IsCallback(a) && !a.HandlerUse? && CallbackEnabled(s, a)
    ensures UsedSince(s, DoCallback(s, a), c)
  {
    if a.TakeTask? { TakeUses(s, a.tid, a.task, c); }
  }

  lemma ReapingUses(s: State, a: Action, c: ConnId)
    requires IsReaping(a) && ReapingEnabled(s, a)
    ensures UsedSince(s, DoReaping(s, a), c)
  {
    if !a.ReapIdle? { SweepGoesOn(s, a); }
  }

  lemma StepUses(s: State, a: Action, c: ConnId)
    requires Inv(s) && Enabled(s, a)
    ensures UsedSince(s, Do(s, a), c)
  {
    if IsDispatch(a) {
      if IsAccepting(a) { AcceptUses(s, a, c); } else { EventUses(s, a, c); }
    } else if IsCallback(a) {
      if a.HandlerUse? { HandlerUses(s, a.tid, c); } else { CallbackUses(s, a, c); }
    } else if IsShutdownStep(a) {
      ShutdownUses(s, a, c);
    } else if IsReaping(a) {
      ReapingUses(s, a, c);
    }
  }

  lemma {:induction false} UsedOverRun(s: State, actions: seq<Action>, c: ConnId)
    requires Inv(s) && Run(s, actions).Some? && c in s.conns
    ensures UsedSince(s, Run(s, actions).value, c)
    decreases |actions|
  {
    if actions != [] {
      StepUses(s, actions[0], c);
      EveryStepKeeps(s, actions[0]);
      UsedOverRun(Do(s, actions[0]), actions[1..], c);
    }
  }

  /** The action accepts connection c, or a handler receives or sends on it. */
  predicate Uses(s: State, a: Action, c: ConnId) {
    Enabled(s, a) && ((a.Accept? && a.conn == c) || (a.HandlerUse? && s.pcs[a.tid].conn == c))
  }

  /**
   Idle means idle: when the reaper finds a connection idle, then after whatever run, more seconds
   than the limit lie between its reading of the clock and every use before.
   */
  lemma IdleMeansUnusedSince(s: State, a: Action, c: ConnId, actions: seq<Action>, fd: Fd)
    requires Reachable(s) && Uses(s, a, c) && Run(Do(s, a), actions).Some?
    requires var end := Run(Do(s, a), actions).value; Looking(end, fd) && end.registered[fd] == c && FoundIdle(end, fd)
    ensures var end := Run(Do(s, a), actions).value; end.tm - s.clock > end.maxIdle > 0
  {
    ReachableHolds(s);
    UseIsNow(s, a, c);
    EveryStepKeeps(s, a);
    UsedThen(Do(s, a), c, actions, fd);
  }

  lemma UseIsNow(s: State, a: Action, c: ConnId)
    requires Uses(s, a, c)
    ensures c in Do(s, a).conns && Do(s, a).conns[c].lastUse == s.clock
  {
  }

  lemma UsedThen(s: State, c: ConnId, actions: seq<Action>, fd: Fd)
    requires Inv(s) && c in s.conns && Run(s, actions).Some?
    requires var end := Run(s, actions).value; Looking(end, fd) && end.registered[fd] == c && FoundIdle(end, fd)
    ensures var end := Run(s, actions).value; end.tm - s.conns[c].lastUse > end.maxIdle > 0
  {
    UsedOverRun(s, actions, c);
    RunKeeps(s, actions);
    IdleTestFrom(Run(s, actions).value, fd);
  }

  // ---------------------------------------------------------------- news of hang-ups

  predicate Tells(pc: Pc, c: ConnId) {
    pc.Terminating? && pc.conn == c
  }

  function Telling(pcs: seq<Pc>, c: ConnId): nat {
    if pcs == [] then 0 else One(Tells(pcs[0], c)) + Telling(pcs[1..], c)
  }

  lemma {:induction false} TellingAfterMove(pcs: seq<Pc>, t: Tid, pc: Pc, c: ConnId)
    requires t < |pcs|
    ensures Telling(pcs[t := pc], c) + One(Tells(pcs[t], c)) == Telling(pcs, c) + One(Tells(pc, c))
  {
    if t == 0 {
      assert pcs[t := pc][1..] == pcs[1..];
    } else {
      assert pcs[t := pc][1..] == pcs[1..][t - 1 := pc];
      TellingAfterMove(pcs[1..], t - 1, pc, c);
    }
  }

  /** The calls of ConnectionTerminated for c that are queued or running. */
  function News(s: State, c: ConnId): nat {
    s.queue[Terminated(c)] + Telling(s.pcs, c)
  }

  predicate HangsUp(s: State, a: Action, c: ConnId) {
    Enabled(s, a) && a.Hangup? && s.registered[a.fd] == c
  }

  predicate Told(s: State, a: Action, c: ConnId) {
    Enabled(s, a) && a.TerminatedReturn? && s.pcs[a.tid].conn == c
  }

  function HungUp(s: State, actions: seq<Action>, c: ConnId): nat
    requires Run(s, actions).Some?
    decreases |actions|
  {
    if actions == [] then 0 else One(HangsUp(s, actions[0], c)) + HungUp(Do(s, actions[0]), actions[1..], c)
  }

  function ToldOf(s: State, actions: seq<Action>, c: ConnId): nat
    requires Run(s, actions).Some?
    decreases |actions|
  {
    if actions == [] then 0 else One(Told(s, actions[0], c)) + ToldOf(Do(s, actions[0]), actions[1..], c)
  }

  /** The news changes by what the action does. */
  predicate NewsKept(s: State, a: Action, c: ConnId)
    requires Enabled(s, a)
  {
    News(Do(s, a), c) + One(Told(s, a, c)) == News(s, c) + One(HangsUp(s, a, c))
  }

  lemma AsideNews(s: State, s': State, t: Tid, c: ConnId)
    requires Aside(s, s', t)
    ensures News(s', c) == News(s, c)
  {
    TellingAfterMove(s.pcs, t, s'.pcs[t], c);
  }

  lemma DispatchNews(s: State, a: Action, c: ConnId)
    requires Enabled(s, a) && IsDispatch(a)
    ensures News(DoDispatch(s, a), c) == News(s, c) + One(HangsUp(s, a, c))
  {
    if IsAside(a) {
      DispatchAside(s, a);
      AsideNews(s, DoDispatch(s, a), MAIN, c);
    } else {
      TellingAfterMove(s.pcs, MAIN, DoDispatch(s, a).pcs[MAIN], c);
    }
  }

  lemma TakeNews(s: State, t: Tid, task: Task, c: ConnId)
    requires CanTake(s, t, task)
    ensures News(DoTake(s, t, task), c) == News(s, c)
  {
    TellingAfterMove(s.pcs, t, DoTake(s, t, task).pcs[t], c);
  }

  lemma HandlingNews(s: State, a: Action, c: ConnId)
    requires Enabled(s, a) && IsHandling(a)
    ensures News(DoCallback(s, a), c) + One(Told(s, a, c)) == News(s, c)
  {
    TellingAfterMove(s.pcs, a.tid, DoCallback(s, a).pcs[a.tid], c);
    assert s.pcs == s.pcs[a.tid := s.pcs[a.tid]];
  }

  lemma CallbackNews(s: State, a: Action, c: ConnId)
    requires Enabled(s, a) && IsCallback(a)
    ensures News(DoCallback(s, a), c) + One(Told(s, a, c)) == News(s, c)
  {
    if a.TakeTask? { TakeNews(s, a.tid, a.task, c); } else { HandlingNews(s, a, c); }
  }

  lemma ShutdownNews(s: State, a: Action, c: ConnId)
    requires IsShutdownStep(a) && ShutdownEnabled(s, a)
    ensures News(DoShutdown(s, a), c) == News(s, c)
  {
    ShutdownAside(s, a);
    AsideNews(s, DoShutdown(s, a), a.tid, c);
  }

  lemma ReapingNews(s: State, a: Action, c: ConnId)
    requires IsReaping(a) && ReapingEnabled(s, a)
    ensures News(DoReaping(s, a), c) == News(s, c)
  {
    ReapingAside(s, a);
    AsideNews(s, DoReaping(s, a), REAPER, c);
  }

  lemma StepNews(s: State, a: Action, c: ConnId)
    requires Enabled(s, a)
    ensures NewsKept(s, a, c)
  {
    if IsDispatch(a) {
      DispatchNews(s, a, c);
    } else if IsCallback(a) {
      CallbackNews(s, a, c);
    } else if IsShutdownStep(a) {
      ShutdownNews(s, a, c);
    } else if IsReaping(a) {
      ReapingNews(s, a, c);
    }
  }

  /** Over any run: what was told or is still to be told is what was pending or hung up. */
  lemma {:induction false} NewsOverRun(s: State, actions: seq<Action>, c: ConnId)
    requires Run(s, actions).Some?
    ensures News(Run(s, actions).value, c) + ToldOf(s, actions, c) == News(s, c) + HungUp(s, actions, c)
    decreases |actions|
  {
    if actions != [] {
      StepNews(s, actions[0], c);
      NewsOverRun(Do(s, actions[0]), actions[1..], c);
    }
  }

  // ---------------------------------------------------------------- what a hang-up leaves behind

  /** The dispatcher is shutting c down, or c is deleted. */
  predicate Hung(s: State, c: ConnId) {
    ShuttingDown(s, MAIN, c) || (c in s.conns && s.conns[c].party.Gone?)
  }

  /** What the dispatcher finds in the map when it is Ready is neither. */
  lemma HungUnregistered(s: State, c: ConnId)
    requires Inv(s) && Hung(s, c) && s.pcs[MAIN].Ready?
    ensures forall fd :: fd in s.registered ==> s.registered[fd] != c
  {
    forall fd | fd in s.registered ensures s.registered[fd] != c { assert EntryOk(s, fd); }
  }

  lemma HungAtDispatch(s: State, a: Action, c: ConnId)
    requires IsDispatch(a) && DispatchEnabled(s, a) && Hung(s, c)
    requires s.pcs[MAIN].Ready? ==> forall fd :: fd in s.registered ==> s.registered[fd] != c
    ensures Hung(DoDispatch(s, a), c)
  {
  }

  lemma HungAtSweep(s: State, s': State, c: ConnId)
    requires SweepsOn(s, s') && Hung(s, c)
    ensures Hung(s', c)
  {
  }

  lemma HungAtReaping(s: State, a: Action, c: ConnId)
    requires IsReaping(a) && ReapingEnabled(s, a) && Hung(s, c)
    requires a.ReapIdle? ==> s.registered[a.fd] != c
    ensures Hung(DoReaping(s, a), c)
  {
    if !a.ReapIdle? {
      SweepGoesOn(s, a);
      HungAtSweep(s, DoReaping(s, a), c);
    }
  }

  lemma HungAtHandling(s: State, a: Action, c: ConnId)
    requires IsHandling(a) && CallbackEnabled(s, a) && Hung(s, c)
    ensures Hung(DoCallback(s, a), c)
  {
  }

  lemma HungAtTake(s: State, t: Tid, task: Task, c: ConnId)
    requires CanTake(s, t, task) && Hung(s, c) && task != Deferred(c)
    ensures Hung(DoTake(s, t, task), c)
  {
  }

  lemma HungAtCallback(s: State, a: Action, c: ConnId)
    requires IsCallback(a) && CallbackEnabled(s, a) && Hung(s, c) && s.queue[Deferred(c)] == 0
    ensures Hung(DoCallback(s, a), c)
  {
    if a.TakeTask? { HungAtTake(s, a.tid, a.task, c); } else { HungAtHandling(s, a, c); }
  }

  lemma HungAtShutdown(s: State, a: Action, c: ConnId)
    requires IsShutdownStep(a) && ShutdownEnabled(s, a) && Hung(s, c)
    ensures Hung(DoShutdown(s, a), c)
  {
    var d := ShutdownShuts(s, a);
  }

  /** It is not queued for a deferred shutdown. */
  lemma HungIsNotDeferred(s: State, c: ConnId)
    requires Inv(s) && Hung(s, c)
    ensures c in s.conns && s.queue[Deferred(c)] == 0
    ensures forall fd :: fd in s.registered && s.registered[fd] == c ==> s.pcs[MAIN].Shutting? && s.conns[c].party == At(MAIN)
  {
    assert ThreadOk(s, MAIN) && ConnOk(s, c);
    forall fd | fd in s.registered && s.registered[fd] == c
      ensures s.pcs[MAIN].Shutting? && s.conns[c].party == At(MAIN)
    {
      assert EntryOk(s, fd);
    }
  }

  lemma ReapIdleSpares(s: State, fd: Fd, c: ConnId)
    requires Inv(s) && CanReapIdle(s, fd) && Hung(s, c)
    ensures s.registered[fd] != c
  {
    HungIsNotDeferred(s, c);
  }

  lemma HungStays(s: State, a: Action, c: ConnId)
    requires Inv(s) && Enabled(s, a) && Hung(s, c)
    ensures Hung(Do(s, a), c)
  {
    if IsDispatch(a) {
      if s.pcs[MAIN].Ready? { HungUnregistered(s, c); }
      HungAtDispatch(s, a, c);
    } else if IsCallback(a) {
      HungIsNotDeferred(s, c);
      HungAtCallback(s, a, c);
    } else if IsShutdownStep(a) {
      HungAtShutdown(s, a, c);
    } else if IsReaping(a) {
      if a.ReapIdle? { ReapIdleSpares(s, a.fd, c); }
      HungAtReaping(s, a, c);
    }
  }

  lemma HangsUpOnce(s: State, a: Action, c: ConnId)
    requires Inv(s) && HangsUp(s, a, c)
    ensures !Hung(s, c) && Hung(Do(s, a), c)
  {
    if Hung(s, c) {
      HungUnregistered(s, c);
    }
  }

  lemma {:induction false} HungOverRun(s: State, actions: seq<Action>, c: ConnId)
    requires Inv(s) && Run(s, actions).Some?
    ensures HungUp(s, actions, c) + One(Hung(s, c)) <= One(Hung(Run(s, actions).value, c))
    decreases |actions|
  {
    if actions != [] {
      var a := actions[0];
      if HangsUp(s, a, c) {
        HangsUpOnce(s, a, c);
      } else if Hung(s, c) {
        HungStays(s, a, c);
      }
      EveryStepKeeps(s, a);
      HungOverRun(Do(s, a), actions[1..], c);
    }
  }

  /** Whenever the dispatcher is back to look for events, what it hung up has left the map. */
  lemma HangupLeavesTheMap(workers: nat, maxIdle: int, defers: bool, clock: nat, actions: seq<Action>, c: ConnId)
    requires clock < U64_MODULUS && Run(Start(workers, maxIdle, defers, clock), actions).Some?
    requires HungUp(Start(workers, maxIdle, defers, clock), actions, c) > 0
    ensures var s := Run(Start(workers, maxIdle, defers, clock), actions).value;
      |s.pcs| >= FIRST_WORKER && (s.pcs[MAIN].Ready? ==> forall fd :: fd in s.registered ==> s.registered[fd] != c)
  {
    var start := Start(workers, maxIdle, defers, clock);
    StartHolds(workers, maxIdle, defers, clock);
    RunKeeps(start, actions);
    HungOverRun(start, actions, c);
    if Run(start, actions).value.pcs[MAIN].Ready? {
      HungUnregistered(Run(start, actions).value, c);
    }
  }

  lemma {:induction false} NobodyTells(pcs: seq<Pc>, c: ConnId)
    requires forall t :: 0 <= t < |pcs| ==> pcs[t].Ready?
    ensures Telling(pcs, c) == 0
  {
    if pcs != [] {
      NobodyTells(pcs[1..], c);
    }
  }

  /**
   Over any run from the start a connection hangs up at most once, since its entry is gone before the
   dispatcher looks again; and the one ConnectionTerminated for it was run, is running, or is queued;
   without a hang-up there is none.
   */
  lemma HangupToldOnce(workers: nat, maxIdle: int, defers: bool, clock: nat, actions: seq<Action>, c: ConnId)
    requires clock < U64_MODULUS && Run(Start(workers, maxIdle, defers, clock), actions).Some?
    ensures var start := Start(workers, maxIdle, defers, clock); var s := Run(start, actions).value;
      && HungUp(start, actions, c) <= 1
      && ToldOf(start, actions, c) + News(s, c) == HungUp(start, actions, c)
  {
    var start := Start(workers, maxIdle, defers, clock);
    NobodyTells(start.pcs, c);
    NewsOverRun(start, actions, c);
    StartHolds(workers, maxIdle, defers, clock);
    HungOverRun(start, actions, c);
  }

  // ---------------------------------------------------------------- events and their callbacks

  /** The action dispatches an event that this kind of callback answers. */
  predicate Dispatches(s: State, a: Action, kind: Kind, c: ConnId) {
    && Enabled(s, a)
    && (match kind
        case Established => a.AcceptReadLock?
        case DataReady => a.DataReadLock?
        case Error => a.ErrorReadLock?)
    && s.pcs[MAIN].conn == c
  }

  /** The action ends a callback of this kind. */
  predicate Ends(s: State, a: Action, kind: Kind, c: ConnId) {
    Enabled(s, a) && a.CallUnlock? && s.pcs[a.tid].conn == c && s.pcs[a.tid].kind == kind
  }

  function Dispatched(s: State, actions: seq<Action>, kind: Kind, c: ConnId): nat
    requires Run(s, actions).Some?
    decreases |actions|
  {
    if actions == [] then 0
    else One(Dispatches(s, actions[0], kind, c)) + Dispatched(Do(s, actions[0]), actions[1..], kind, c)
  }

  function Ended(s: State, actions: seq<Action>, kind: Kind, c: ConnId): nat
    requires Run(s, actions).Some?
    decreases |actions|
  {
    if actions == [] then 0 else One(Ends(s, actions[0], kind, c)) + Ended(Do(s, actions[0]), actions[1..], kind, c)
  }

  predicate CallsKept(s: State, a: Action, kind: Kind, c: ConnId)
    requires Enabled(s, a)
  {
    Outstanding(Do(s, a), kind, c) + One(Ends(s, a, kind, c)) == Outstanding(s, kind, c) + One(Dispatches(s, a, kind, c))
  }

  lemma AsideCalls(s: State, s': State, t: Tid, kind: Kind, c: ConnId)
    requires Aside(s, s', t)
    ensures Outstanding(s', kind, c) == Outstanding(s, kind, c)
  {
    OwingAfterMove(s.pcs, t, s'.pcs[t], kind, c);
  }

  /** A thread moves without beginning or ending such a callback. */
  lemma MoveCalls(s: State, s': State, t: Tid, kind: Kind, c: ConnId)
    requires t < |s.pcs| == |s'.pcs| && s'.pcs == s.pcs[t := s'.pcs[t]]
    requires s'.queue[Call(kind, c)] + One(Owes(s'.pcs[t], kind, c)) == s.queue[Call(kind, c)] + One(Owes(s.pcs[t], kind, c))
    ensures Outstanding(s', kind, c) == Outstanding(s, kind, c)
  {
    OwingAfterMove(s.pcs, t, s'.pcs[t], kind, c);
  }

  lemma LockCalls(s: State, a: Action, kind: Kind, c: ConnId)
    requires Enabled(s, a) && (a.AcceptReadLock? || a.DataReadLock? || a.ErrorReadLock?)
    ensures Outstanding(DoDispatch(s, a), kind, c) == Outstanding(s, kind, c) + One(Dispatches(s, a, kind, c))
  {
    OwingAfterMove(s.pcs, MAIN, DoDispatch(s, a).pcs[MAIN], kind, c);
  }

  lemma EnqueueCalls(s: State, a: Action, kind: Kind, c: ConnId)
    requires (a.AcceptEnqueue? || a.DataEnqueue? || a.ErrorEnqueue?) && DispatchEnabled(s, a)
    ensures Outstanding(DoDispatch(s, a), kind, c) == Outstanding(s, kind, c)
  {
    MoveCalls(s, DoDispatch(s, a), MAIN, kind, c);
  }

  lemma HangupCalls(s: State, fd: Fd, kind: Kind, c: ConnId)
    requires CanHangup(s, fd)
    ensures Outstanding(DoHangup(s, fd), kind, c) == Outstanding(s, kind, c)
  {
    MoveCalls(s, DoHangup(s, fd), MAIN, kind, c);
  }

  lemma TakeCalls(s: State, t: Tid, task: Task, kind: Kind, c: ConnId)
    requires CanTake(s, t, task)
    ensures Outstanding(DoTake(s, t, task), kind, c) == Outstanding(s, kind, c)
  {
    MoveCalls(s, DoTake(s, t, task), t, kind, c);
  }

  lemma HandlerCalls(s: State, a: Action, kind: Kind, c: ConnId)
    requires (a.HandlerUse? || a.HandlerDefer? || a.HandlerReturn?) && CallbackEnabled(s, a)
    ensures Outstanding(DoCallback(s, a), kind, c) == Outstanding(s, kind, c)
  {
    assert s.pcs == s.pcs[a.tid := s.pcs[a.tid]];
    MoveCalls(s, DoCallback(s, a), a.tid, kind, c);
  }

  lemma CallingCalls(s: State, a: Action, kind: Kind, c: ConnId)
    requires (a.CallLock? || a.CallRelease? || a.TerminatedReturn?) && CallbackEnabled(s, a)
    ensures Outstanding(DoCallback(s, a), kind, c) == Outstanding(s, kind, c)
  {
    MoveCalls(s, DoCallback(s, a), a.tid, kind, c);
  }

  lemma UnlockCalls(s: State, t: Tid, kind: Kind, c: ConnId)
    requires CanCallUnlock(s, t)
    ensures Outstanding(DoCallUnlock(s, t), kind, c) + One(s.pcs[t].conn == c && s.pcs[t].kind == kind)
         == Outstanding(s, kind, c)
  {
    OwingAfterMove(s.pcs, t, DoCallUnlock(s, t).pcs[t], kind, c);
  }

  lemma CallbackCalls(s: State, a: Action, kind: Kind, c: ConnId)
    requires Enabled(s, a) && IsCallback(a)
    ensures Outstanding(DoCallback(s, a), kind, c) + One(Ends(s, a, kind, c)) == Outstanding(s, kind, c)
  {
    if a.TakeTask? {
      TakeCalls(s, a.tid, a.task, kind, c);
    } else if a.CallUnlock? {
      UnlockCalls(s, a.tid, kind, c);
    } else if a.CallLock? || a.CallRelease? || a.TerminatedReturn? {
      CallingCalls(s, a, kind, c);
    } else {
      HandlerCalls(s, a, kind, c);
    }
  }

  lemma DispatchCalls(s: State, a: Action, kind: Kind, c: ConnId)
    requires Enabled(s, a) && IsDispatch(a)
    ensures Outstanding(DoDispatch(s, a), kind, c) == Outstanding(s, kind, c) + One(Dispatches(s, a, kind, c))
  {
    if a.Hangup? {
      HangupCalls(s, a.fd, kind, c);
    } else if a.AcceptReadLock? || a.DataReadLock? || a.ErrorReadLock? {
      LockCalls(s, a, kind, c);
    } else if IsAside(a) {
      DispatchAside(s, a);
      AsideCalls(s, DoDispatch(s, a), MAIN, kind, c);
    } else {
      EnqueueCalls(s, a, kind, c);
    }
  }

  lemma ShutdownCalls(s: State, a: Action, kind: Kind, c: ConnId)
    requires IsShutdownStep(a) && ShutdownEnabled(s, a)
    ensures Outstanding(DoShutdown(s, a), kind, c) == Outstanding(s, kind, c)
  {
    ShutdownAside(s, a);
    AsideCalls(s, DoShutdown(s, a), a.tid, kind, c);
  }

  lemma ReapingCalls(s: State, a: Action, kind: Kind, c: ConnId)
    requires IsReaping(a) && ReapingEnabled(s, a)
    ensures Outstanding(DoReaping(s, a), kind, c) == Outstanding(s, kind, c)
  {
    ReapingAside(s, a);
    AsideCalls(s, DoReaping(s, a), REAPER, kind, c);
  }

  lemma StepCalls(s: State, a: Action, kind: Kind, c: ConnId)
    requires Enabled(s, a)
    ensures CallsKept(s, a, kind, c)
  {
    if IsDispatch(a) {
      DispatchCalls(s, a, kind, c);
    } else if IsCallback(a) {
      CallbackCalls(s, a, kind, c);
    } else if IsShutdownStep(a) {
      ShutdownCalls(s, a, kind, c);
    } else if IsReaping(a) {
      ReapingCalls(s, a, kind, c);
    }
  }

  lemma OutstandingGrows(s: State, a: Action, c: ConnId)
    requires Enabled(s, a) && !a.CallUnlock?
    ensures AllOutstanding(Do(s, a), c) >= AllOutstanding(s, c)
  {
    StepCalls(s, a, Established, c);
    StepCalls(s, a, DataReady, c);
    StepCalls(s, a, Error, c);
  }

  lemma OutstandingStays(s: State, a: Action, c: ConnId)
    requires Enabled(s, a) && Takes(s, a, c) == 0
    ensures AllOutstanding(Do(s, a), c) <= AllOutstanding(s, c)
  {
    StepCalls(s, a, Established, c);
    StepCalls(s, a, DataReady, c);
    StepCalls(s, a, Error, c);
  }

  lemma {:induction false} CallsOverRun(s: State, actions: seq<Action>, kind: Kind, c: ConnId)
    requires Run(s, actions).Some?
    ensures Outstanding(Run(s, actions).value, kind, c) + Ended(s, actions, kind, c)
         == Outstanding(s, kind, c) + Dispatched(s, actions, kind, c)
    decreases |actions|
  {
    if actions != [] {
      StepCalls(s, actions[0], kind, c);
      CallsOverRun(Do(s, actions[0]), actions[1..], kind, c);
    }
  }

  /**
   Over any run from the start, every event dispatched for a connection had its own kind of callback
   run once, or has it still queued, being queued or running; and no callback was run without an event.
   */
  lemma EveryEventAnsweredOnce(workers: nat, maxIdle: int, defers: bool, clock: nat, actions: seq<Action>, kind: Kind,
                               c: ConnId)
    requires Run(Start(workers, maxIdle, defers, clock), actions).Some?
    ensures var start := Start(workers, maxIdle, defers, clock); var s := Run(start, actions).value;
      Dispatched(start, actions, kind, c) == Ended(start, actions, kind, c) + Outstanding(s, kind, c)
  {
    var start := Start(workers, maxIdle, defers, clock);
    NobodyOwes(start.pcs, kind, c);
    CallsOverRun(start, actions, kind, c);
  }
}
