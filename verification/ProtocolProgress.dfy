/**
 Progress with idle reaping off: the locks and the workers never form a cycle as long as one
 worker is not busy with a deferred shutdown, and work that is not added to comes to an end.
 */
module ProtocolProgress {
  import opened Words
  import opened Protocol
  import opened ProtocolSteps
  import opened ProtocolInvariant
  import opened ProtocolSafety

  // ---------------------------------------------------------------- work

  /** The steps that carry out work, as opposed to those that bring new work or change nothing. */
  predicate IsWork(a: Action) {
    !(a.Accept? || a.Hangup? || a.DataEvent? || a.ErrorEvent? || a.ReapWake? || a.Tick? || a.HandlerUse? || a.HandlerDefer?)
  }

  /** There is work: something is queued, or a thread is in the middle of something. */
  predicate Busy(s: State) {
    s.queue != multiset{} || exists t :: 0 <= t < |s.pcs| && !s.pcs[t].Ready? && !s.pcs[t].Dangling?
  }

  /** The deferred shutdowns being executed, by the workers from position t on. */
  function ShutdownsFrom(pcs: seq<Pc>, t: nat): nat
    requires t <= |pcs|
    decreases |pcs| - t
  {
    if t == |pcs| then 0 else (if pcs[t].Shutting? then 1 else 0) + ShutdownsFrom(pcs, t + 1)
  }

  /** Fewer deferred shutdowns are being executed than there are workers. */
  predicate WorkerToSpare(s: State) {
    |s.pcs| >= FIRST_WORKER && ShutdownsFrom(s.pcs, FIRST_WORKER) < |s.pcs| - FIRST_WORKER
  }

  lemma {:induction false} Pigeonhole(pcs: seq<Pc>, t: nat)
    requires t <= |pcs| && ShutdownsFrom(pcs, t) < |pcs| - t
    ensures exists u :: t <= u < |pcs| && !pcs[u].Shutting?
    decreases |pcs| - t
  {
    if t < |pcs| && pcs[t].Shutting? {
      Pigeonhole(pcs, t + 1);
    }
  }

  // ---------------------------------------------------------------- locks that prefer writers

  /** The thread waits to take connections_lock_ for writing. */
  predicate WantsRegistry(pc: Pc) {
    pc.AcceptWait? || pc.DataWait? || pc.SweepWait? || (pc.Shutting? && pc.phase.Acquire?)
  }

  /** The step is possible also when a lock lets no reader in while a writer waits. */
  predicate PassesWriters(s: State, a: Action)
    requires Enabled(s, a)
  {
    && (a.CallLock? ==> forall t :: 0 <= t < |s.pcs| ==> !WantsRegistry(s.pcs[t]))
    && (a.AcceptReadLock? || a.DataReadLock? || a.ErrorReadLock? ==>
          forall t :: 0 <= t < |s.pcs| && s.pcs[t].Shutting? && s.pcs[t].conn == s.pcs[MAIN].conn
                      ==> s.pcs[t].phase !in {LockHandle, LockRaw})
  }

  ghost predicate CanWork(s: State) {
    exists a :: IsWork(a) && Enabled(s, a) && PassesWriters(s, a)
  }

  lemma Works(s: State, a: Action)
    requires IsWork(a) && Enabled(s, a) && PassesWriters(s, a)
    ensures CanWork(s)
  {
  }

  /** The steps of a shutdown are work, and wait for no lock as a reader. */
  lemma ShutdownIsWork(a: Action)
    requires IsShutdownStep(a)
    ensures IsWork(a) && !a.CallLock? && !a.AcceptReadLock? && !a.DataReadLock? && !a.ErrorReadLock?
    ensures !a.TakeTask? && !a.DataLock? && !a.Tick?
  {
  }

  lemma ShutdownWorks(s: State, a: Action)
    requires IsShutdownStep(a) && ShutdownEnabled(s, a)
    ensures CanWork(s)
  {
    ShutdownIsWork(a);
    ShutdownIsStep(s, a);
    Works(s, a);
  }

  // ---------------------------------------------------------------- who can always go on

  /** A thread here waits for nothing. */
  predicate Running(pc: Pc) {
    match pc
    case Ready => false
    case AcceptWait(_) => false
    case DataWait(_, _) => false
    case ErrorFound(_) => false
    case CallWait(_, _) => false
    case SweepWait => false
    case Dangling(_, _) => false
    case Shutting(_, phase) => !phase.Acquire? && phase != LockHandle && phase != LockRaw
    case _ => true
  }

  lemma MainRuns(s: State)
    requires Reachable(s) && s.maxIdle <= 0 && |s.pcs| >= FIRST_WORKER
    requires Running(s.pcs[MAIN]) && !s.pcs[MAIN].Shutting?
    ensures CanWork(s)
  {
    ThreadHolds(s, MAIN);
    match s.pcs[MAIN]
    case AcceptHeld(_) => Works(s, AcceptInsert);
    case AcceptInserted(_) => Works(s, AcceptArm);
    case AcceptArmed(_) => MainEstablishes(s);
    case AcceptLocked(_) => Works(s, AcceptEnqueue);
    case DataHeld(_, _) => MainDispatches(s);
    case DataLocked(_) => Works(s, DataEnqueue);
    case ErrorLocked(_) => Works(s, ErrorEnqueue);
  }

  lemma MainEstablishes(s: State)
    requires Reachable(s) && s.maxIdle <= 0 && Has(s, MAIN) && s.pcs[MAIN].AcceptArmed?
    ensures CanWork(s)
  {
    EstablishNeverBlocks(s);
    ThreadHolds(s, MAIN);
    NobodyShutsDown(s, s.pcs[MAIN].conn);
    Works(s, AcceptReadLock);
  }

  lemma MainDispatches(s: State)
    requires Reachable(s) && Has(s, MAIN) && s.pcs[MAIN].DataHeld?
    ensures CanWork(s)
  {
    if s.pcs[MAIN].fd in s.registered {
      DispatchNeverBlocks(s);
      Works(s, DataReadLock);
    } else {
      Works(s, DataMiss);
    }
  }

  /** With idle reaping off nobody shuts a connection down before it is established. */
  lemma NobodyShutsDown(s: State, c: ConnId)
    requires Reachable(s) && s.maxIdle <= 0 && |s.pcs| >= FIRST_WORKER && s.pcs[MAIN] == AcceptArmed(c)
    ensures forall t :: 0 <= t < |s.pcs| && s.pcs[t].Shutting? ==> s.pcs[t].conn != c
  {
    ThreadHolds(s, MAIN);
    forall t | 0 <= t < |s.pcs| && s.pcs[t].Shutting? ensures s.pcs[t].conn != c {
      ThreadHolds(s, t);
    }
  }

  lemma WorkerRuns(s: State, t: Tid)
    requires Reachable(s) && FIRST_WORKER <= t < |s.pcs|
    requires Running(s.pcs[t]) && !s.pcs[t].Shutting?
    ensures CanWork(s)
  {
    ThreadHolds(s, t);
    match s.pcs[t]
    case CallRun(_, _) => Works(s, HandlerReturn(t));
    case CallReturned(_, _) => Works(s, CallUnlock(t));
    case CallUnlocked(_) => Works(s, CallRelease(t));
    case Terminating(_) => Works(s, TerminatedReturn(t));
  }

  lemma ReaperRuns(s: State)
    requires Reachable(s) && s.maxIdle <= 0 && |s.pcs| >= FIRST_WORKER && s.pcs[REAPER].Sweeping?
    ensures CanWork(s)
  {
    ThreadHolds(s, REAPER);
    SweepHolds(s);
    if s.todo == {} {
      Works(s, ReapDone);
    } else {
      var fd :| fd in s.todo;
      EntryHolds(s, fd);
      if s.conns[s.registered[fd]].flagged {
        Works(s, ReapErase(fd));
      } else {
        Works(s, ReapSkip(fd));
      }
    }
  }

  lemma ShutdownRuns(s: State, t: Tid)
    requires Reachable(s) && t < |s.pcs| && s.pcs[t].Shutting? && Running(s.pcs[t])
    ensures CanWork(s)
  {
    ThreadHolds(s, t);
    match s.pcs[t].phase
    case Begin => ShutdownWorks(s, ShutBegin(t));
    case Scan =>
      if fd :| fd in s.registered && s.registered[fd] == s.pcs[t].conn {
        ShutdownWorks(s, ShutFound(t, fd));
      } else {
        ShutdownWorks(s, ShutNotFound(t));
      }
    case Erase(fd) => ShutdownWorks(s, ShutErase(t, fd));
    case Close => ShutdownWorks(s, ShutClose(t));
    case Delete => ShutdownWorks(s, ShutDelete(t));
  }

  lemma SomeoneRuns(s: State, t: Tid)
    requires Reachable(s) && s.maxIdle <= 0 && t < |s.pcs| && Running(s.pcs[t])
    ensures CanWork(s)
  {
    ThreadHolds(s, t);
    if s.pcs[t].Shutting? {
      ShutdownRuns(s, t);
    } else if t == MAIN {
      MainRuns(s);
    } else if t == REAPER {
      ReaperRuns(s);
    } else {
      WorkerRuns(s, t);
    }
  }

  // ---------------------------------------------------------------- when everybody waits

  /** Whoever holds connections_lock_ is running; so when nobody runs it is free. */
  lemma WaitingLeavesRegistryFree(s: State)
    requires Reachable(s) && s.maxIdle <= 0
    requires forall t :: 0 <= t < |s.pcs| ==> !Running(s.pcs[t])
    ensures RegistryFree(s)
  {
    LockHolds(s);
    if s.writer.Some? {
      ThreadHolds(s, s.writer.value);
    }
    if t :| t in s.readers {
      ThreadHolds(s, t);
    }
  }

  lemma LockHolds(s: State)
    requires Reachable(s)
    ensures RegistryLockOk(s)
  {
    ReachableHolds(s);
  }

  lemma WaiterForRegistryGoes(s: State, t: Tid)
    requires Reachable(s) && t < |s.pcs| && RegistryFree(s) && WantsRegistry(s.pcs[t])
    ensures CanWork(s)
  {
    ThreadHolds(s, t);
    match s.pcs[t]
    case AcceptWait(_) => Works(s, AcceptLock);
    case DataWait(_, _) => Works(s, DataLock);
    case SweepWait => Works(s, ReapLock);
    case Shutting(_, phase) => ShutdownWorks(s, ShutAcquire(t, phase.fd));
  }

  lemma CallerGoes(s: State, t: Tid)
    requires Reachable(s) && t < |s.pcs| && RegistryFree(s) && s.pcs[t].CallWait?
    requires forall u :: 0 <= u < |s.pcs| ==> !WantsRegistry(s.pcs[u])
    ensures CanWork(s)
  {
    ThreadHolds(s, t);
    Works(s, CallLock(t));
  }

  /** Nobody does anything but wait for a connection's lock. */
  predicate OnlyConnectionLocksAwaited(s: State) {
    forall t :: 0 <= t < |s.pcs| ==>
      || s.pcs[t].Ready? || s.pcs[t].ErrorFound? || s.pcs[t].Dangling?
      || (s.pcs[t].Shutting? && s.pcs[t].phase in {LockHandle, LockRaw})
  }

  lemma WaitersClassified(s: State)
    requires Reachable(s) && s.maxIdle <= 0 && !CanWork(s)
    ensures OnlyConnectionLocksAwaited(s) && RegistryFree(s)
  {
    forall t | 0 <= t < |s.pcs| ensures !Running(s.pcs[t]) {
      if Running(s.pcs[t]) { SomeoneRuns(s, t); }
    }
    WaitingLeavesRegistryFree(s);
    forall t | 0 <= t < |s.pcs| ensures !WantsRegistry(s.pcs[t]) {
      if WantsRegistry(s.pcs[t]) { WaiterForRegistryGoes(s, t); }
    }
    forall t | 0 <= t < |s.pcs| ensures !s.pcs[t].CallWait? {
      if s.pcs[t].CallWait? { CallerGoes(s, t); }
    }
  }

  lemma NobodyReads(s: State, c: ConnId)
    requires OnlyConnectionLocksAwaited(s) && c in s.conns && HoldsMatch(s, c)
    requires forall kind :: Call(kind, c) !in s.queue
    ensures s.conns[c].handle.readers == 0 && s.conns[c].raw.readers == 0
  {
    NobodyOwes(s.pcs, Established, c);
    NobodyOwes(s.pcs, DataReady, c);
    NobodyOwes(s.pcs, Error, c);
  }

  /** With nothing queued, a shutdown that waits for a connection's lock finds it free. */
  lemma LockIsFree(s: State, t: Tid)
    requires Reachable(s) && OnlyConnectionLocksAwaited(s) && t < |s.pcs| && s.pcs[t].Shutting?
    requires forall kind :: Call(kind, s.pcs[t].conn) !in s.queue
    ensures CanWork(s)
  {
    var c := s.pcs[t].conn;
    ThreadHolds(s, t);
    ConnHolds(s, c);
    NobodyReads(s, c);
    if s.pcs[t].phase == LockHandle {
      ShutdownWorks(s, ShutLockHandle(t));
    } else {
      ShutdownWorks(s, ShutLockRaw(t));
    }
  }

  lemma TaskIsTaken(s: State, t: Tid)
    requires Reachable(s) && FIRST_WORKER <= t < |s.pcs| && s.pcs[t].Ready? && s.queue != multiset{}
    ensures CanWork(s)
  {
    ReachableHolds(s);
    var task :| task in s.queue;
    Works(s, TakeTask(t, task));
  }

  lemma ErrorGoes(s: State)
    requires Reachable(s) && OnlyConnectionLocksAwaited(s) && |s.pcs| >= FIRST_WORKER && s.pcs[MAIN].ErrorFound?
    requires forall t :: 0 <= t < |s.pcs| ==> !s.pcs[t].Shutting?
    ensures CanWork(s)
  {
    ThreadHolds(s, MAIN);
    ErrorLocksExactlyWhileUnlocked(s);
    ConnHolds(s, s.pcs[MAIN].conn);
    if CanDangle(s) {
      Works(s, DanglingReadLock);
    } else {
      Works(s, ErrorReadLock);
    }
  }

  /** A worker that executes a deferred shutdown and waits for callbacks that are still in the queue. */
  predicate WaitsForQueue(s: State, t: Tid)
    requires t < |s.pcs|
  {
    && s.pcs[t].Shutting? && s.pcs[t].phase in {LockHandle, LockRaw}
    && exists kind :: Call(kind, s.pcs[t].conn) in s.queue
  }

  /**
   The only way to get stuck: when there is work and none of it can be carried on, every worker
   executes a deferred shutdown, and each of these waits for callbacks that only a worker could run.
   */
  lemma StuckMeansAllWorkersShutDown(s: State)
    requires Reachable(s) && s.maxIdle <= 0 && Busy(s)
    requires !CanWork(s)
    ensures !WorkerToSpare(s)
    ensures forall t :: FIRST_WORKER <= t < |s.pcs| ==> WaitsForQueue(s, t)
  {
    WaitersClassified(s);
    ThreadHolds(s, MAIN);
    ThreadHolds(s, REAPER);
    forall t | 0 <= t < |s.pcs| && s.pcs[t].Shutting? ensures WaitsForQueue(s, t) {
      if !exists kind :: Call(kind, s.pcs[t].conn) in s.queue { LockIsFree(s, t); }
    }
    forall t | FIRST_WORKER <= t < |s.pcs| ensures s.pcs[t].Shutting? {
      ThreadHolds(s, t);
      if !s.pcs[t].Shutting? { SpareWorkerWorks(s, t); }
    }
    if WorkerToSpare(s) {
      Pigeonhole(s.pcs, FIRST_WORKER);
    }
  }

  /** With a worker at rest, work goes on: what is queued can be taken, or a lock that is waited for is free. */
  lemma SpareWorkerWorks(s: State, t: Tid)
    requires Reachable(s) && s.maxIdle <= 0 && Busy(s)
    requires OnlyConnectionLocksAwaited(s) && FIRST_WORKER <= t < |s.pcs| && s.pcs[t].Ready?
    requires forall u :: 0 <= u < |s.pcs| && s.pcs[u].Shutting? ==> WaitsForQueue(s, u)
    ensures CanWork(s)
  {
    if s.queue != multiset{} {
      TaskIsTaken(s, t);
    } else {
      ThreadHolds(s, MAIN);
      var u :| 0 <= u < |s.pcs| && !s.pcs[u].Ready? && !s.pcs[u].Dangling?;
      ThreadHolds(s, u);
      assert s.pcs[u].ErrorFound?;
      ErrorGoes(s);
    }
  }

  /**
   No deadlock: with idle reaping off, and fewer deferred shutdowns executing than there are workers,
   outstanding work can be carried on, even if every lock prefers writers.
   */
  lemma NoDeadlock(s: State)
    requires Reachable(s) && s.maxIdle <= 0 && Busy(s) && WorkerToSpare(s)
    ensures CanWork(s)
  {
    if !CanWork(s) {
      StuckMeansAllWorkersShutDown(s);
    }
  }

  // ---------------------------------------------------------------- work comes to an end

  /** The steps a thread here may still need, those of the closure it is about to queue included. */
  function Weight(pc: Pc): nat {
    match pc
    case Ready => 0
    case AcceptWait(_) => 15
    case AcceptHeld(_) => 14
    case AcceptInserted(_) => 12
    case AcceptArmed(_) => 11
    case AcceptLocked(_) => 10
    case DataWait(_, _) => 12
    case DataHeld(_, _) => 11
    case DataLocked(_) => 10
    case ErrorFound(_) => 11
    case ErrorLocked(_) => 10
    case Dangling(_, _) => 0
    case CallWait(_, _) => 4
    case CallRun(_, _) => 3
    case CallReturned(_, _) => 2
    case CallUnlocked(_) => 1
    case Terminating(_) => 1
    case SweepWait => 2
    case Sweeping => 1
    case Shutting(_, phase) => PhaseWeight(phase)
  }

  function TotalWeight(pcs: seq<Pc>): nat {
    if pcs == [] then 0 else Weight(pcs[0]) + TotalWeight(pcs[1..])
  }

  lemma {:induction false} WeightMoved(pcs: seq<Pc>, t: Tid, pc: Pc)
    requires t < |pcs|
    ensures TotalWeight(pcs[t := pc]) == TotalWeight(pcs) - Weight(pcs[t]) + Weight(pc)
  {
    if t == 0 {
      assert pcs[t := pc][1..] == pcs[1..];
    } else {
      assert pcs[t := pc][1..] == pcs[1..][t - 1 := pc];
      WeightMoved(pcs[1..], t - 1, pc);
    }
  }

  /** The entries the reaper has yet to look at. */
  function SweepWeight(s: State): nat
    requires |s.pcs| >= FIRST_WORKER
  {
    if s.pcs[REAPER].SweepWait? then |s.registered| else if s.pcs[REAPER].Sweeping? then |s.todo| else 0
  }

  /** A bound on the steps of the work there is. */
  function WorkLeft(s: State): nat
    requires |s.pcs| >= FIRST_WORKER
  {
    TotalWeight(s.pcs) + 9 * |s.queue| + SweepWeight(s)
  }

  lemma SmallerMap(small: map<Fd, ConnId>, big: map<Fd, ConnId>)
    requires small.Keys <= big.Keys
    ensures |small| <= |big|
  {
    assert |big.Keys| == |small.Keys| + |big.Keys - small.Keys| by {
      assert big.Keys == small.Keys + (big.Keys - small.Keys);
    }
  }

  /** Only this thread moves, not the reaper, and the reaper's list stays. */
  predicate Moves(s: State, s': State, t: Tid) {
    && FIRST_WORKER <= |s.pcs| == |s'.pcs| && t < |s.pcs| && t != REAPER
    && s'.pcs == s.pcs[t := s'.pcs[t]] && s'.todo == s.todo
  }

  /** Such a step leaves less work if the thread gets further than it adds to the queue and to the map. */
  lemma MoveShrinks(s: State, s': State, t: Tid, added: nat)
    requires Moves(s, s', t) && |s'.registered| <= |s.registered| + added
    requires Weight(s'.pcs[t]) + 9 * |s'.queue| + added < Weight(s.pcs[t]) + 9 * |s.queue|
    ensures |s'.pcs| == |s.pcs| && WorkLeft(s') < WorkLeft(s)
  {
    WeightMoved(s.pcs, t, s'.pcs[t]);
  }

  /** The thread gets further, and the queue and the map stay. */
  predicate Advances(s: State, s': State, t: Tid) {
    && Moves(s, s', t) && s'.queue == s.queue && s'.registered == s.registered
    && Weight(s'.pcs[t]) < Weight(s.pcs[t])
  }

  lemma AcceptAdvances(s: State, a: Action)
    requires |s.pcs| >= FIRST_WORKER && (a.AcceptLock? || a.AcceptArm? || a.AcceptReadLock?) && DispatchEnabled(s, a)
    ensures Advances(s, DoDispatch(s, a), MAIN)
  {
  }

  lemma DispatchAdvances(s: State, a: Action)
    requires a.DataLock? || a.DataMiss? || a.DataReadLock? || a.ErrorReadLock? || a.DanglingReadLock?
    requires |s.pcs| >= FIRST_WORKER && DispatchEnabled(s, a)
    ensures Advances(s, DoDispatch(s, a), MAIN)
  {
  }

  lemma InsertWork(s: State)
    requires |s.pcs| >= FIRST_WORKER && CanAcceptInsert(s)
    ensures |DoAcceptInsert(s).pcs| == |s.pcs| && WorkLeft(DoAcceptInsert(s)) < WorkLeft(s)
  {
    var s', fd := DoAcceptInsert(s), s.conns[s.pcs[MAIN].conn].fd;
    assert s'.registered.Keys == s.registered.Keys + {fd};
    MoveShrinks(s, s', MAIN, 1);
  }

  lemma EnqueueWork(s: State, a: Action)
    requires |s.pcs| >= FIRST_WORKER && (a.AcceptEnqueue? || a.DataEnqueue? || a.ErrorEnqueue?) && DispatchEnabled(s, a)
    ensures |DoDispatch(s, a).pcs| == |s.pcs| && WorkLeft(DoDispatch(s, a)) < WorkLeft(s)
  {
    assert |DoDispatch(s, a).queue| == |s.queue| + 1;
    MoveShrinks(s, DoDispatch(s, a), MAIN, 0);
  }

  lemma DispatcherWork(s: State, a: Action)
    requires |s.pcs| >= FIRST_WORKER && IsDispatch(a) && !a.Accept? && !IsEvent(a) && DispatchEnabled(s, a)
    ensures |DoDispatch(s, a).pcs| == |s.pcs| && WorkLeft(DoDispatch(s, a)) < WorkLeft(s)
  {
    if a.AcceptInsert? {
      InsertWork(s);
    } else if a.AcceptEnqueue? || a.DataEnqueue? || a.ErrorEnqueue? {
      EnqueueWork(s, a);
    } else {
      if IsAccepting(a) { AcceptAdvances(s, a); } else { DispatchAdvances(s, a); }
      AdvanceShrinks(s, DoDispatch(s, a), MAIN);
    }
  }

  lemma HandlingAdvances(s: State, a: Action)
    requires |s.pcs| >= FIRST_WORKER && IsHandling(a) && IsWork(a) && CallbackEnabled(s, a)
    ensures Advances(s, DoCallback(s, a), a.tid)
  {
  }

  lemma TakeWork(s: State, t: Tid, task: Task)
    requires |s.pcs| >= FIRST_WORKER && CanTake(s, t, task)
    ensures |DoTake(s, t, task).pcs| == |s.pcs| && WorkLeft(DoTake(s, t, task)) < WorkLeft(s)
  {
    assert |DoTake(s, t, task).queue| == |s.queue| - 1;
    MoveShrinks(s, DoTake(s, t, task), t, 0);
  }

  /** A step of a worker's or the dispatcher's shutdown. */
  lemma ShutdownShrinks(s: State, s': State, t: Tid, c: ConnId)
    requires |s.pcs| >= FIRST_WORKER && Shuts(s, s', t, c) && t != REAPER
    ensures |s'.pcs| == |s.pcs| && WorkLeft(s') < WorkLeft(s)
  {
    SmallerMap(s'.registered, s.registered);
    MoveShrinks(s, s', t, 0);
  }

  lemma SweepWork(s: State, a: Action)
    requires |s.pcs| >= FIRST_WORKER && (a.ReapLock? || a.ReapDone?) && ReapingEnabled(s, a)
    ensures |DoReaping(s, a).pcs| == |s.pcs| && WorkLeft(DoReaping(s, a)) < WorkLeft(s)
  {
    WeightMoved(s.pcs, REAPER, DoReaping(s, a).pcs[REAPER]);
  }

  lemma LookWork(s: State, a: Action)
    requires |s.pcs| >= FIRST_WORKER && (a.ReapSkip? || a.ReapErase?) && ReapingEnabled(s, a)
    ensures |DoReaping(s, a).pcs| == |s.pcs| && WorkLeft(DoReaping(s, a)) < WorkLeft(s)
  {
    assert DoReaping(s, a).pcs == s.pcs && DoReaping(s, a).queue == s.queue;
    assert a.fd in s.todo && DoReaping(s, a).todo == s.todo - {a.fd};
  }

  lemma ShutdownWork(s: State, a: Action)
    requires |s.pcs| >= FIRST_WORKER && !s.pcs[REAPER].Shutting? && IsShutdownStep(a) && ShutdownEnabled(s, a)
    ensures |DoShutdown(s, a).pcs| == |s.pcs| && WorkLeft(DoShutdown(s, a)) < WorkLeft(s)
  {
    var c := ShutdownShuts(s, a);
    ShutdownShrinks(s, DoShutdown(s, a), a.tid, c);
  }

  lemma AdvanceShrinks(s: State, s': State, t: Tid)
    requires Advances(s, s', t)
    ensures |s'.pcs| == |s.pcs| && WorkLeft(s') < WorkLeft(s)
  {
    MoveShrinks(s, s', t, 0);
  }

  lemma CallbackWork(s: State, a: Action)
    requires |s.pcs| >= FIRST_WORKER && IsCallback(a) && IsWork(a) && CallbackEnabled(s, a)
    ensures |DoCallback(s, a).pcs| == |s.pcs| && WorkLeft(DoCallback(s, a)) < WorkLeft(s)
  {
    if a.TakeTask? {
      TakeWork(s, a.tid, a.task);
    } else {
      HandlingAdvances(s, a);
      AdvanceShrinks(s, DoCallback(s, a), a.tid);
    }
  }

  lemma ReapingWork(s: State, a: Action)
    requires |s.pcs| >= FIRST_WORKER && s.maxIdle <= 0 && IsReaping(a) && IsWork(a) && ReapingEnabled(s, a)
    ensures |DoReaping(s, a).pcs| == |s.pcs| && WorkLeft(DoReaping(s, a)) < WorkLeft(s)
  {
    if a.ReapLock? || a.ReapDone? { SweepWork(s, a); } else { LookWork(s, a); }
  }

  /** Every step of work leaves less of it. */
  lemma WorkShrinks(s: State, a: Action)
    requires Inv(s) && s.maxIdle <= 0 && IsWork(a) && Enabled(s, a)
    ensures |Do(s, a).pcs| == |s.pcs| && WorkLeft(Do(s, a)) < WorkLeft(s)
  {
    ReaperShutsNothingDown(s);
    AnyWork(s, a);
  }

  lemma ReaperShutsNothingDown(s: State)
    requires Inv(s) && s.maxIdle <= 0
    ensures !s.pcs[REAPER].Shutting?
  {
    assert ThreadOk(s, REAPER);
  }

  lemma AnyWork(s: State, a: Action)
    requires |s.pcs| >= FIRST_WORKER && s.maxIdle <= 0 && IsWork(a) && Enabled(s, a)
    requires !s.pcs[REAPER].Shutting?
    ensures |Do(s, a).pcs| == |s.pcs| && WorkLeft(Do(s, a)) < WorkLeft(s)
  {
    if IsDispatch(a) {
      DispatcherWork(s, a);
    } else if IsCallback(a) {
      CallbackWork(s, a);
    } else if IsShutdownStep(a) {
      ShutdownWork(s, a);
    } else {
      ReapingWork(s, a);
    }
  }

  lemma ConfigurationStays(s: State, a: Action)
    requires Enabled(s, a)
    ensures Do(s, a).maxIdle == s.maxIdle && Do(s, a).defers == s.defers
  {
    StepIsByActor(s, a);
  }

  /** Without new events and new requests, no run is longer than the work left at its start. */
  lemma {:induction false} WorkEnds(s: State, actions: seq<Action>)
    requires Inv(s) && s.maxIdle <= 0 && Run(s, actions).Some?
    requires forall k :: 0 <= k < |actions| ==> IsWork(actions[k])
    ensures |actions| <= WorkLeft(s)
    decreases |actions|
  {
    if actions != [] {
      WorkShrinks(s, actions[0]);
      EveryStepKeeps(s, actions[0]);
      ConfigurationStays(s, actions[0]);
      WorkEnds(Do(s, actions[0]), actions[1..]);
    }
  }

  lemma {:induction false} RunAppend(s: State, first: seq<Action>, second: seq<Action>)
    requires Run(s, first).Some?
    ensures Run(s, first + second) == Run(Run(s, first).value, second)
    decreases |first|
  {
    if first == [] {
      assert first + second == second;
    } else {
      assert (first + second)[1..] == first[1..] + second;
      RunAppend(Do(s, first[0]), first[1..], second);
    }
  }

  lemma ReachableOn(s: State, actions: seq<Action>)
    requires Reachable(s) && Run(s, actions).Some?
    ensures Reachable(Run(s, actions).value)
  {
    var workers: nat, maxIdle: int, defers: bool, clock: nat, before: seq<Action> :|
      clock < U64_MODULUS && Run(Start(workers, maxIdle, defers, clock), before) == Some(s);
    RunAppend(Start(workers, maxIdle, defers, clock), before, actions);
  }

  lemma {:induction false} ConfigurationStaysOn(s: State, actions: seq<Action>)
    requires Run(s, actions).Some?
    ensures Run(s, actions).value.maxIdle == s.maxIdle
    decreases |actions|
  {
    if actions != [] {
      ConfigurationStays(s, actions[0]);
      ConfigurationStaysOn(Do(s, actions[0]), actions[1..]);
    }
  }

  /**
   Work drains: a run of work steps is bounded, and where it cannot be continued nothing is left to
   do, unless all workers are then executing deferred shutdowns that wait for the queue.
   */
  lemma WorkDrains(s: State, actions: seq<Action>)
    requires Reachable(s) && s.maxIdle <= 0 && Run(s, actions).Some?
    requires forall k :: 0 <= k < |actions| ==> IsWork(actions[k])
    ensures |s.pcs| >= FIRST_WORKER && |actions| <= WorkLeft(s)
    ensures var end := Run(s, actions).value;
      CanWork(end) || !Busy(end)
      || forall t :: FIRST_WORKER <= t < |end.pcs| ==> WaitsForQueue(end, t)
  {
    ReachableHolds(s);
    WorkEnds(s, actions);
    ReachableOn(s, actions);
    ConfigurationStaysOn(s, actions);
    var end := Run(s, actions).value;
    if !CanWork(end) && Busy(end) {
      StuckMeansAllWorkersShutDown(end);
    }
  }

  /** One step further. */
  lemma Goes(s: State, a: Action, next: State)
    requires Reachable(s) && Enabled(s, a) && next == Do(s, a)
    ensures Reachable(next)
  {
    assert Run(next, []) == Some(next);
    assert [a][1..] == [];
    assert Run(s, [a]) == Some(next);
    ReachableOn(s, [a]);
  }
}
