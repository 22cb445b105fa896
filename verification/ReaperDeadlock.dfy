/**
 Idle reaping and progress: the reaper waits for a connection's callbacks while it holds
 connections_lock_, and callbacks wait for that lock.
 */
module ReaperDeadlock {
  import opened Words
  import opened Protocol
  import opened ProtocolSteps
  import opened ProtocolInvariant
  import opened ProtocolSafety
  import opened ProtocolRuns
  import opened ProtocolProgress
  import opened Scenarios

  /** The reaper is shutting down a connection that a callback, not run yet, has locked for reading. */
  predicate Doomed(s: State) {
    && |s.pcs| >= FIRST_WORKER && s.pcs[REAPER].Shutting? && s.pcs[REAPER].conn in s.conns
    && var k := s.conns[s.pcs[REAPER].conn];
       if s.pcs[REAPER].phase == LockRaw then k.raw.readers > 0
       else s.pcs[REAPER].phase in {Begin, Scan, LockHandle} && k.handle.readers + k.raw.readers > 0
  }

  /** The reaper is stopped on its way to shut down c. */
  predicate DoomedOn(s: State, c: ConnId) {
    Doomed(s) && s.pcs[REAPER].conn == c
  }

  predicate ServesMain(a: Action) {
    a.AcceptLock? || a.AcceptInsert? || a.DataLock? || a.DataMiss? || a.DataReadLock? || a.DataEnqueue?
  }

  predicate ServesCallback(a: Action) {
    IsHandling(a) && !a.TerminatedReturn?
  }

  /** The steps that take connections_lock_ or are made with it held, and those of another sweep. */
  predicate Serves(a: Action) {
    ServesMain(a) || ServesCallback(a) || IsReaping(a) || a.ShutAcquire? || a.ShutErase?
  }

  lemma DoomHoldsLock(s: State)
    requires Inv(s) && Doomed(s)
    ensures s.writer == Some(REAPER) && s.readers == {}
    ensures s.conns[s.pcs[REAPER].conn].party == At(REAPER)
    ensures forall fd :: fd in s.registered ==> s.registered[fd] != s.pcs[REAPER].conn
  {
    assert ThreadOk(s, REAPER) && ConnOk(s, s.pcs[REAPER].conn);
    forall fd | fd in s.registered ensures s.registered[fd] != s.pcs[REAPER].conn { assert EntryOk(s, fd); }
  }

  lemma DispatcherStands(s: State, a: Action)
    requires |s.pcs| >= FIRST_WORKER && ThreadOk(s, MAIN) && s.writer == Some(REAPER) && ServesMain(a)
    ensures !Enabled(s, a)
  {
  }

  lemma WorkerStands(s: State, a: Action)
    requires s.writer == Some(REAPER) && s.readers == {} && ServesCallback(a)
    requires a.tid < |s.pcs| ==> ThreadOk(s, a.tid)
    ensures !Enabled(s, a)
  {
  }

  lemma ReaperStands(s: State, a: Action)
    requires Doomed(s) && IsReaping(a)
    ensures !Enabled(s, a)
  {
  }

  lemma ShutdownStands(s: State, a: Action)
    requires Doomed(s) && s.writer == Some(REAPER)
    requires a.ShutAcquire? || a.ShutErase?
    requires a.tid < |s.pcs| ==> ThreadOk(s, a.tid)
    ensures !Enabled(s, a)
  {
  }

  lemma ThreadStands(s: State, a: Action)
    requires Inv(s) && Doomed(s) && (ServesCallback(a) || a.ShutAcquire? || a.ShutErase?)
    ensures !Enabled(s, a)
  {
    DoomHoldsLock(s);
    assert a.tid < |s.pcs| ==> ThreadOk(s, a.tid);
    if ServesCallback(a) {
      WorkerStands(s, a);
    } else {
      ShutdownStands(s, a);
    }
  }

  /** While the reaper waits like that, no step that serves anybody is possible. */
  lemma DoomStopsService(s: State, a: Action)
    requires Inv(s) && Doomed(s) && Serves(a)
    ensures !Enabled(s, a)
  {
    if ServesMain(a) {
      DoomHoldsLock(s);
      DispatcherStands(s, a);
    } else if IsReaping(a) {
      ReaperStands(s, a);
    } else {
      ThreadStands(s, a);
    }
  }

  // ---------------------------------------------------------------- it lasts

  /** The rest of the steps take no reader away from c, and leave the reaper where it is. */
  predicate Holds(s: State, s': State, c: ConnId)
    requires |s.pcs| >= FIRST_WORKER && c in s.conns
  {
    && |s'.pcs| == |s.pcs| && c in s'.conns
    && s'.pcs[REAPER] == s.pcs[REAPER]
    && s'.conns[c].handle.readers >= s.conns[c].handle.readers
    && s'.conns[c].raw.readers >= s.conns[c].raw.readers
  }

  lemma AcceptingHolds(s: State, a: Action, c: ConnId)
    requires |s.pcs| >= FIRST_WORKER && c in s.conns && IsAccepting(a) && DispatchEnabled(s, a) && !ServesMain(a)
    ensures Holds(s, DoDispatch(s, a), c)
  {
  }

  lemma DispatcherHolds(s: State, a: Action, c: ConnId)
    requires |s.pcs| >= FIRST_WORKER && c in s.conns && IsDispatch(a) && DispatchEnabled(s, a) && !ServesMain(a)
    ensures Holds(s, DoDispatch(s, a), c)
  {
    if IsAccepting(a) { AcceptingHolds(s, a, c); }
  }

  lemma WorkerHolds(s: State, a: Action, c: ConnId)
    requires |s.pcs| >= FIRST_WORKER && c in s.conns && IsCallback(a) && CallbackEnabled(s, a) && !ServesCallback(a)
    ensures Holds(s, DoCallback(s, a), c)
  {
  }

  lemma OtherShutdownHolds(s: State, s': State, t: Tid, d: ConnId, c: ConnId)
    requires |s.pcs| >= FIRST_WORKER && c in s.conns && Shuts(s, s', t, d) && t != REAPER
    ensures Holds(s, s', c)
  {
  }

  /** The reaper has not the locks yet that the callbacks hold. */
  lemma ReaperGoesOn(s: State, a: Action)
    requires Doomed(s) && IsDeregistering(a) && ShutdownEnabled(s, a) && a.tid == REAPER
    requires forall fd :: fd in s.registered ==> s.registered[fd] != s.pcs[REAPER].conn
    ensures DoomedOn(DoShutdown(s, a), s.pcs[REAPER].conn)
  {
  }

  /** If it gets one, it is the handle's, and the callbacks hold the raw connection's. */
  lemma ReaperLocksHandle(s: State, a: Action)
    requires Doomed(s) && IsLocking(a) && ShutdownEnabled(s, a) && a.tid == REAPER
    requires HoldsMatch(s, s.pcs[REAPER].conn)
    ensures DoomedOn(DoShutdown(s, a), s.pcs[REAPER].conn)
  {
  }

  lemma ReaperStays(s: State, a: Action)
    requires Inv(s) && Doomed(s) && IsShutdownStep(a) && ShutdownEnabled(s, a) && a.tid == REAPER
    ensures DoomedOn(DoShutdown(s, a), s.pcs[REAPER].conn)
  {
    DoomHoldsLock(s);
    assert ConnOk(s, s.pcs[REAPER].conn);
    if IsDeregistering(a) {
      ReaperGoesOn(s, a);
    } else {
      ReaperLocksHandle(s, a);
    }
  }

  lemma ShutdownStays(s: State, a: Action)
    requires Inv(s) && Doomed(s) && IsShutdownStep(a) && ShutdownEnabled(s, a)
    ensures DoomedOn(DoShutdown(s, a), s.pcs[REAPER].conn)
  {
    if a.tid == REAPER {
      ReaperStays(s, a);
    } else {
      var d := ShutdownShuts(s, a);
      OtherShutdownHolds(s, DoShutdown(s, a), a.tid, d, s.pcs[REAPER].conn);
      HoldingIsDoom(s, DoShutdown(s, a));
    }
  }

  lemma HoldingIsDoom(s: State, s': State)
    requires Doomed(s) && Holds(s, s', s.pcs[REAPER].conn)
    ensures DoomedOn(s', s.pcs[REAPER].conn)
  {
  }

  lemma TickStays(s: State)
    requires Doomed(s)
    ensures DoomedOn(s.(clock := s.clock + 1), s.pcs[REAPER].conn)
  {
  }

  lemma DoomStays(s: State, a: Action)
    requires Inv(s) && Doomed(s) && Enabled(s, a) && !Serves(a)
    ensures DoomedOn(Do(s, a), s.pcs[REAPER].conn)
  {
    if IsDispatch(a) {
      DispatcherHolds(s, a, s.pcs[REAPER].conn);
      HoldingIsDoom(s, DoDispatch(s, a));
    } else if IsCallback(a) {
      WorkerHolds(s, a, s.pcs[REAPER].conn);
      HoldingIsDoom(s, DoCallback(s, a));
    } else if IsShutdownStep(a) {
      ShutdownStays(s, a);
    } else {
      TickStays(s);
    }
  }

  lemma {:induction false} DoomedRun(s: State, actions: seq<Action>)
    requires Inv(s) && Doomed(s) && Run(s, actions).Some?
    ensures DoomedOn(Run(s, actions).value, s.pcs[REAPER].conn)
    ensures forall k :: 0 <= k < |actions| ==> !Serves(actions[k])
    decreases |actions|
  {
    if actions != [] {
      var a := actions[0];
      if Serves(a) { DoomStopsService(s, a); }
      DoomStays(s, a);
      EveryStepKeeps(s, a);
      DoomedRun(Do(s, a), actions[1..]);
      assert forall k :: 0 < k < |actions| ==> actions[k] == actions[1..][k - 1];
    }
  }

  /** A callback outstanding when the reaper picks the connection stops the server in every later run. */
  lemma ReapingDooms(s: State, fd: Fd, actions: seq<Action>)
    requires Reachable(s) && CanReapIdle(s, fd) && Run(DoReapIdle(s, fd), actions).Some?
    requires AllOutstanding(s, s.registered[fd]) > 0
    ensures DoomedOn(Run(DoReapIdle(s, fd), actions).value, s.registered[fd])
    ensures forall k :: 0 <= k < |actions| ==> !Serves(actions[k])
  {
    ReachableHolds(s);
    ReadersAreOutstanding(s, s.registered[fd]);
    ReapIdleKeeps(s, fd);
    DoomedRun(DoReapIdle(s, fd), actions);
  }

  /** A shutdown by the reaper that is not doomed can go on. */
  lemma ReaperShutdownGoes(s: State)
    requires Reachable(s) && Has(s, REAPER) && s.pcs[REAPER].Shutting? && !Doomed(s)
    ensures exists a :: IsShutdownStep(a) && a.tid == REAPER && ShutdownEnabled(s, a)
  {
    var c := s.pcs[REAPER].conn;
    ThreadHolds(s, REAPER);
    ConnHolds(s, c);
    ReaperNeverRelocks(s);
    match s.pcs[REAPER].phase
    case Begin => Witness(s, ShutBegin(REAPER));
    case Scan =>
      forall fd | fd in s.registered ensures s.registered[fd] != c { assert !CanShutFound(s, REAPER, fd); }
      Witness(s, ShutNotFound(REAPER));
    case LockHandle => Witness(s, ShutLockHandle(REAPER));
    case LockRaw => Witness(s, ShutLockRaw(REAPER));
    case Close => Witness(s, ShutClose(REAPER));
    case Delete => Witness(s, ShutDelete(REAPER));
  }

  lemma Witness(s: State, a: Action)
    requires IsShutdownStep(a) && a.tid == REAPER && ShutdownEnabled(s, a)
    ensures exists b :: IsShutdownStep(b) && b.tid == REAPER && ShutdownEnabled(s, b)
  {
  }

  // ---------------------------------------------------------------- exactly when

  /** The dispatcher has c in hand, between putting it into the map or looking it up and its ReadLock. */
  predicate InHand(s: State, c: ConnId) {
    |s.pcs| >= FIRST_WORKER && s.pcs[MAIN] in {AcceptInserted(c), AcceptArmed(c), ErrorFound(c)}
  }

  predicate AtRisk(s: State, c: ConnId) {
    AllOutstanding(s, c) > 0 || InHand(s, c)
  }

  /** The reaper's own: c has left the map, and no callback for it is outstanding or to come. */
  predicate Safe(s: State, c: ConnId) {
    && c in s.conns && (s.conns[c].party == At(REAPER) || s.conns[c].party.Gone?)
    && (forall fd :: fd in s.registered ==> s.registered[fd] != c)
    && !AtRisk(s, c)
  }

  lemma NobodyLocksIt(s: State, a: Action, c: ConnId)
    requires Inv(s) && Safe(s, c) && Enabled(s, a)
    ensures Takes(s, a, c) == 0
  {
    assert ThreadOk(s, MAIN);
  }

  /** What a step leaves of the promise to c. */
  predicate Left(s: State, s': State, c: ConnId)
    requires c in s.conns
  {
    && c in s'.conns && (s'.conns[c].party == s.conns[c].party || s'.conns[c].party.Gone?)
    && (forall fd :: fd in s'.registered ==> s'.registered[fd] != c)
    && !InHand(s', c)
  }

  lemma LeftByAccepting(s: State, a: Action, c: ConnId)
    requires |s.pcs| >= FIRST_WORKER && ThreadOk(s, MAIN) && Safe(s, c) && IsAccepting(a) && DispatchEnabled(s, a)
    ensures Left(s, DoDispatch(s, a), c)
  {
  }

  lemma LeftByEvents(s: State, a: Action, c: ConnId)
    requires |s.pcs| >= FIRST_WORKER && Safe(s, c) && IsEvent(a) && DispatchEnabled(s, a)
    ensures Left(s, DoDispatch(s, a), c)
  {
  }

  lemma LeftByDispatching(s: State, a: Action, c: ConnId)
    requires |s.pcs| >= FIRST_WORKER && Safe(s, c) && IsDispatching(a) && DispatchEnabled(s, a)
    ensures Left(s, DoDispatch(s, a), c)
  {
  }

  lemma LeftByDangling(s: State, c: ConnId)
    requires |s.pcs| >= FIRST_WORKER && Safe(s, c) && CanDangle(s)
    ensures Left(s, DoDangle(s), c)
  {
  }

  lemma LeftBySweep(s: State, s': State, c: ConnId)
    requires Safe(s, c) && SweepsOn(s, s')
    ensures Left(s, s', c)
  {
  }

  lemma LeftByReapIdle(s: State, fd: Fd, c: ConnId)
    requires |s.pcs| >= FIRST_WORKER && Safe(s, c) && CanReapIdle(s, fd)
    ensures Left(s, DoReapIdle(s, fd), c)
  {
  }

  lemma LeftByReaping(s: State, a: Action, c: ConnId)
    requires |s.pcs| >= FIRST_WORKER && Safe(s, c) && IsReaping(a) && ReapingEnabled(s, a)
    ensures Left(s, DoReaping(s, a), c)
  {
    if a.ReapIdle? {
      LeftByReapIdle(s, a.fd, c);
    } else {
      SweepGoesOn(s, a);
      LeftBySweep(s, DoReaping(s, a), c);
    }
  }

  lemma LeftByHandling(s: State, a: Action, c: ConnId)
    requires Safe(s, c) && IsHandling(a) && CallbackEnabled(s, a)
    ensures Left(s, DoCallback(s, a), c)
  {
  }

  lemma LeftByTaking(s: State, t: Tid, task: Task, c: ConnId)
    requires Safe(s, c) && CanTake(s, t, task) && PartyOk(s, c)
    ensures Left(s, DoTake(s, t, task), c)
  {
    assert task == Deferred(c) ==> s.queue[task] > 0;
  }

  lemma LeftByShutting(s: State, s': State, t: Tid, d: ConnId, c: ConnId)
    requires Safe(s, c) && Shuts(s, s', t, d)
    ensures Left(s, s', c)
  {
  }

  lemma LeftByMain(s: State, a: Action, c: ConnId)
    requires Inv(s) && Safe(s, c) && IsDispatch(a) && DispatchEnabled(s, a)
    ensures Left(s, DoDispatch(s, a), c)
  {
    assert ThreadOk(s, MAIN);
    if IsAccepting(a) {
      LeftByAccepting(s, a, c);
    } else if IsEvent(a) {
      LeftByEvents(s, a, c);
    } else if IsDispatching(a) {
      LeftByDispatching(s, a, c);
    } else {
      LeftByDangling(s, c);
    }
  }

  lemma LeftByCallback(s: State, a: Action, c: ConnId)
    requires Inv(s) && Safe(s, c) && IsCallback(a) && CallbackEnabled(s, a)
    ensures Left(s, DoCallback(s, a), c)
  {
    if a.TakeTask? {
      assert ConnOk(s, c);
      LeftByTaking(s, a.tid, a.task, c);
    } else {
      LeftByHandling(s, a, c);
    }
  }

  lemma LeftByShutdown(s: State, a: Action, c: ConnId)
    requires Safe(s, c) && IsShutdownStep(a) && ShutdownEnabled(s, a)
    ensures Left(s, DoShutdown(s, a), c)
  {
    var d := ShutdownShuts(s, a);
    LeftByShutting(s, DoShutdown(s, a), a.tid, d, c);
  }

  lemma LeftByAny(s: State, a: Action, c: ConnId)
    requires Inv(s) && Safe(s, c) && Enabled(s, a)
    ensures Left(s, Do(s, a), c)
  {
    if IsDispatch(a) {
      LeftByMain(s, a, c);
    } else if IsCallback(a) {
      LeftByCallback(s, a, c);
    } else if IsShutdownStep(a) {
      LeftByShutdown(s, a, c);
    } else if IsReaping(a) {
      LeftByReaping(s, a, c);
    }
  }

  lemma SafeStays(s: State, a: Action, c: ConnId)
    requires Inv(s) && Safe(s, c) && Enabled(s, a)
    ensures Safe(Do(s, a), c)
  {
    LeftByAny(s, a, c);
    NobodyLocksIt(s, a, c);
    OutstandingStays(s, a, c);
  }

  lemma {:induction false} SafeOverRun(s: State, actions: seq<Action>, c: ConnId)
    requires Inv(s) && Safe(s, c) && Run(s, actions).Some?
    ensures Safe(Run(s, actions).value, c)
    decreases |actions|
  {
    if actions != [] {
      SafeStays(s, actions[0], c);
      EveryStepKeeps(s, actions[0]);
      SafeOverRun(Do(s, actions[0]), actions[1..], c);
    }
  }

  lemma SafeIsNotDoomed(s: State, c: ConnId)
    requires Inv(s) && Safe(s, c)
    ensures !DoomedOn(s, c)
  {
    ReadersAreOutstanding(s, c);
  }

  // ---------------------------------------------------------------- the reaper finishes

  predicate ByReaper(a: Action) {
    IsShutdownStep(a) && a.tid == REAPER
  }

  /** Steps of the reaper alone delete the connection. */
  predicate Finishes(s: State, rest: seq<Action>, c: ConnId) {
    && (forall k :: 0 <= k < |rest| ==> ByReaper(rest[k]))
    && Run(s, rest).Some? && c in Run(s, rest).value.conns && Run(s, rest).value.conns[c].party.Gone?
  }

  lemma FinishesLater(s: State, a: Action, rest: seq<Action>, c: ConnId)
    requires Enabled(s, a) && ByReaper(a) && Finishes(Do(s, a), rest, c)
    ensures Finishes(s, [a] + rest, c)
  {
    assert ([a] + rest)[1..] == rest;
  }

  /** One step nearer to the end. */
  predicate Nearer(s: State, s': State, c: ConnId)
    requires |s.pcs| >= FIRST_WORKER
  {
    && |s'.pcs| >= FIRST_WORKER
    && if ShuttingDown(s', REAPER, c) then Weight(s'.pcs[REAPER]) < Weight(s.pcs[REAPER])
       else c in s'.conns && s'.conns[c].party.Gone?
  }

  lemma ShuttingIsNearer(s: State, s': State, c: ConnId)
    requires |s.pcs| >= FIRST_WORKER && Shuts(s, s', REAPER, c)
    ensures Nearer(s, s', c)
  {
  }

  lemma ReaperNearer(s: State, a: Action, c: ConnId)
    requires |s.pcs| >= FIRST_WORKER && ShuttingDown(s, REAPER, c) && ByReaper(a) && ShutdownEnabled(s, a)
    ensures Nearer(s, DoShutdown(s, a), c)
  {
    var d := ShutdownShuts(s, a);
    ShuttingIsNearer(s, DoShutdown(s, a), c);
  }

  lemma ReaperCan(s: State, c: ConnId) returns (a: Action)
    requires Reachable(s) && Safe(s, c) && |s.pcs| >= FIRST_WORKER && ShuttingDown(s, REAPER, c)
    ensures ByReaper(a) && ShutdownEnabled(s, a) && Nearer(s, DoShutdown(s, a), c)
  {
    ReachableHolds(s);
    SafeIsNotDoomed(s, c);
    ReaperShutdownGoes(s);
    a :| IsShutdownStep(a) && a.tid == REAPER && ShutdownEnabled(s, a);
    ReaperNearer(s, a, c);
  }

  /** The next step of the reaper, and what it leaves. */
  lemma ReaperStep(s: State, c: ConnId) returns (a: Action)
    requires Reachable(s) && Safe(s, c) && |s.pcs| >= FIRST_WORKER && ShuttingDown(s, REAPER, c)
    ensures Enabled(s, a) && ByReaper(a)
    ensures Reachable(Do(s, a)) && Safe(Do(s, a), c) && Nearer(s, Do(s, a), c)
  {
    a := ReaperCan(s, c);
    ShutdownIsStep(s, a);
    ReachableHolds(s);
    SafeStays(s, a, c);
    Goes(s, a, Do(s, a));
  }

  lemma {:induction false} ReaperFinishes(s: State, c: ConnId) returns (rest: seq<Action>)
    requires Reachable(s) && Safe(s, c) && |s.pcs| >= FIRST_WORKER && ShuttingDown(s, REAPER, c)
    ensures Finishes(s, rest, c)
    decreases Weight(s.pcs[REAPER])
  {
    var a := ReaperStep(s, c);
    rest := [];
    if ShuttingDown(Do(s, a), REAPER, c) {
      rest := ReaperFinishes(Do(s, a), c);
    }
    FinishesLater(s, a, rest, c);
    rest := [a] + rest;
  }

  // ---------------------------------------------------------------- the exact condition

  lemma ReapIdleIsSafe(s: State, fd: Fd)
    requires Reachable(s) && CanReapIdle(s, fd) && !AtRisk(s, s.registered[fd])
    ensures Inv(DoReapIdle(s, fd)) && Safe(DoReapIdle(s, fd), s.registered[fd])
  {
    ReachableHolds(s);
    ReapIdleKeeps(s, fd);
    PickedIsSafe(s, fd);
  }

  lemma PickedIsSafe(s: State, fd: Fd)
    requires Reachable(s) && CanReapIdle(s, fd) && !AtRisk(s, s.registered[fd])
    ensures Safe(DoReapIdle(s, fd), s.registered[fd])
  {
    var c := s.registered[fd];
    EntryHolds(s, fd);
    OwnEntry(s, c, fd);
    OutstandingStays(s, ReapIdle(fd), c);
  }

  /** The connection the reaper has just picked: its locks are free of writers, and the dispatcher can go on. */
  lemma RiskIsReal(s: State, fd: Fd) returns (actions: seq<Action>)
    requires Reachable(s) && CanReapIdle(s, fd) && AtRisk(s, s.registered[fd])
    ensures Run(DoReapIdle(s, fd), actions).Some?
    ensures DoomedOn(Run(DoReapIdle(s, fd), actions).value, s.registered[fd])
  {
    var c := s.registered[fd];
    if AllOutstanding(s, c) > 0 {
      actions := [];
      ReapingDooms(s, fd, actions);
    } else {
      EntryHolds(s, fd);
      ConnHolds(s, c);
      actions := LocksInHand(DoReapIdle(s, fd), c);
    }
  }

  /** The dispatcher locks what it has in hand, while the reaper has it only just picked. */
  lemma LocksInHand(s: State, c: ConnId) returns (actions: seq<Action>)
    requires InHand(s, c) && c in s.conns && s.conns[c].party == At(REAPER)
    requires !s.conns[c].handle.writer && !s.conns[c].raw.writer && s.pcs[REAPER] == Shutting(c, Begin)
    ensures Run(s, actions).Some? && DoomedOn(Run(s, actions).value, c)
  {
    match s.pcs[MAIN]
    case ErrorFound(_) => actions := [ErrorReadLock]; RunOne(s, ErrorReadLock);
    case AcceptArmed(_) => actions := [AcceptReadLock]; RunOne(s, AcceptReadLock);
    case AcceptInserted(_) => actions := LocksInserted(s, c);
  }

  lemma LocksInserted(s: State, c: ConnId) returns (actions: seq<Action>)
    requires |s.pcs| >= FIRST_WORKER && s.pcs[MAIN] == AcceptInserted(c) && c in s.conns && s.conns[c].party == At(REAPER)
    requires !s.conns[c].handle.writer && !s.conns[c].raw.writer && s.pcs[REAPER] == Shutting(c, Begin)
    ensures Run(s, actions).Some? && DoomedOn(Run(s, actions).value, c)
  {
    RunOne(DoAcceptArm(s), AcceptReadLock);
    actions := [AcceptArm] + [AcceptReadLock];
    assert actions[1..] == [AcceptReadLock];
  }

  lemma RunOne(s: State, a: Action)
    requires Enabled(s, a)
    ensures Run(s, [a]) == Some(Do(s, a))
  {
    assert [a][1..] == [];
  }

  /**
   The reaper has picked an idle connection and goes on to shut it down. There is a run in which that
   stops the server for good if and only if a callback for the connection is outstanding, or the
   dispatcher has the connection in hand without having locked it yet.
   */
  lemma ReapingCanDoomExactly(s: State, fd: Fd)
    requires Reachable(s) && CanReapIdle(s, fd)
    ensures (exists actions :: Run(DoReapIdle(s, fd), actions).Some?
                               && DoomedOn(Run(DoReapIdle(s, fd), actions).value, s.registered[fd]))
       <==> AtRisk(s, s.registered[fd])
  {
    var s1, c := DoReapIdle(s, fd), s.registered[fd];
    if AtRisk(s, c) {
      var actions := RiskIsReal(s, fd);
      assert Run(s1, actions).Some? && DoomedOn(Run(s1, actions).value, c);
    } else {
      forall actions | Run(s1, actions).Some? ensures !DoomedOn(Run(s1, actions).value, c) {
        ReapingFinishes(s, fd, actions);
      }
    }
  }

  /**
   Otherwise that shutdown is never stopped: at any point of any run the connection is deleted, or the
   reaper can delete it by its own steps alone.
   */
  lemma ReapingFinishes(s: State, fd: Fd, actions: seq<Action>)
    requires Reachable(s) && CanReapIdle(s, fd) && !AtRisk(s, s.registered[fd])
    requires Run(DoReapIdle(s, fd), actions).Some?
    ensures var end, c := Run(DoReapIdle(s, fd), actions).value, s.registered[fd];
      !DoomedOn(end, c) && exists rest :: Finishes(end, rest, c)
  {
    var s1, c := DoReapIdle(s, fd), s.registered[fd];
    ReapIdleIsSafe(s, fd);
    SafeOverRun(s1, actions, c);
    Goes(s, ReapIdle(fd), s1);
    ReachableOn(s1, actions);
    SafeEnds(Run(s1, actions).value, c);
  }

  lemma SafeEnds(s: State, c: ConnId)
    requires Reachable(s) && Safe(s, c)
    ensures !DoomedOn(s, c) && exists rest :: Finishes(s, rest, c)
  {
    ReachableHolds(s);
    SafeIsNotDoomed(s, c);
    if s.conns[c].party.Gone? {
      assert Finishes(s, [], c);
    } else {
      ConnHolds(s, c);
      var rest := ReaperFinishes(s, c);
    }
  }

  // ---------------------------------------------------------------- it happens

  /**
   It happens, with any number of workers and any limit: a connection's ConnectionEstablished is called
   so late that the connection is idle by then.
   */
  lemma ReapingCanStopTheServer(workers: nat, maxIdle: int, defers: bool)
    requires 0 < maxIdle < U64_MODULUS - 1
    ensures exists s :: && Reachable(s) && s.maxIdle == maxIdle && s.defers == defers
                        && |s.pcs| == FIRST_WORKER + workers && Doomed(s)
  {
    var start := Start(workers, maxIdle, defers, 0);
    StartIsCalm(workers, maxIdle, defers);
    Announces(start, 0);
    var s1 := With(start, 0, 1, Unclaimed, multiset{Call(Established, 0)});
    Ages(s1, maxIdle + 1);
    var s2 := s1.(clock := maxIdle + 1);
    assert s1.clock + (maxIdle + 1) == maxIdle + 1;
    SweepsAnnounced(s2);
  }

  lemma SweepsAnnounced(s: State)
    requires Reachable(s) && |s.pcs| >= FIRST_WORKER && s.pcs[REAPER].Ready? && RegistryFree(s)
    requires s.registered == map[FdOf(0) := 0] && 0 in s.conns && s.conns[0].handle.readers > 0 && s.conns[0].party.Unclaimed?
    requires !s.conns[0].flagged && s.conns[0].lastUse == 0 && 0 < s.maxIdle < s.clock < U64_MODULUS
    ensures exists e :: Reachable(e) && e.maxIdle == s.maxIdle && e.defers == s.defers && |e.pcs| == |s.pcs| && Doomed(e)
  {
    Sweeps(s);
    PicksIdle(Swept(s));
  }

  lemma PicksIdle(s: State)
    requires Reachable(s) && CanReapIdle(s, FdOf(0)) && s.conns[s.registered[FdOf(0)]].handle.readers > 0
    ensures Reachable(DoReapIdle(s, FdOf(0))) && Doomed(DoReapIdle(s, FdOf(0)))
    ensures var e := DoReapIdle(s, FdOf(0)); e.maxIdle == s.maxIdle && e.defers == s.defers && |e.pcs| == |s.pcs|
  {
    Goes(s, ReapIdle(FdOf(0)), DoReapIdle(s, FdOf(0)));
  }
}
