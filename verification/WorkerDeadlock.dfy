/**
 Deferred shutdowns and progress: a worker that shuts a connection down waits for its callbacks, and
 callbacks wait for a worker.
 */
module WorkerDeadlock {
  import opened Protocol
  import opened ProtocolInvariant
  import opened ProtocolSteps
  import opened ProtocolSafety
  import opened ProtocolRuns
  import opened ProtocolProgress
  import opened Scenarios

  /**
   The worker shuts down a connection with a callback outstanding, or about to be: the dispatcher has
   found the connection in the map and goes on to lock it.
   */
  predicate Lost(s: State, t: Tid)
    requires t < |s.pcs|
  {
    && s.pcs[t].Shutting?
    && (AllOutstanding(s, s.pcs[t].conn) > 0 || (AboutToDispatch(s) && s.pcs[MAIN].conn == s.pcs[t].conn))
  }

  predicate AllLost(s: State) {
    |s.pcs| >= FIRST_WORKER && forall t :: FIRST_WORKER <= t < |s.pcs| ==> Lost(s, t)
  }

  // ---------------------------------------------------------------- it lasts

  /** A shutdown with callbacks outstanding does not get as far as closing. */
  lemma LostIsNotDone(s: State, t: Tid)
    requires Inv(s) && t < |s.pcs| && Lost(s, t)
    ensures s.pcs[t].phase != Close && s.pcs[t].phase != Delete
  {
    var c := s.pcs[t].conn;
    assert ThreadOk(s, t) && ConnOk(s, c);
    ReadersAreOutstanding(s, c);
    if AboutToDispatch(s) && s.pcs[MAIN].conn == c {
      assert ThreadOk(s, MAIN) && EntryOk(s, s.pcs[MAIN].fd);
    }
  }

  predicate StillShutting(s: State, s': State, t: Tid)
    requires t < |s.pcs| && s.pcs[t].Shutting?
  {
    t < |s'.pcs| && s'.pcs[t].Shutting? && s'.pcs[t].conn == s.pcs[t].conn
  }

  lemma ShutdownLeavesShutting(s: State, a: Action, t: Tid)
    requires t < |s.pcs| && s.pcs[t].Shutting? && s.pcs[t].phase != Delete && IsShutdownStep(a) && ShutdownEnabled(s, a)
    ensures StillShutting(s, DoShutdown(s, a), t)
  {
    var d := ShutdownShuts(s, a);
  }

  lemma StaysShutting(s: State, a: Action, t: Tid)
    requires FIRST_WORKER <= t < |s.pcs| && s.pcs[t].Shutting? && s.pcs[t].phase != Delete
    requires Enabled(s, a) && !IsCallback(a)
    ensures StillShutting(s, Do(s, a), t)
  {
    if IsShutdownStep(a) {
      ShutdownLeavesShutting(s, a, t);
    } else {
      WorkersStay(s, a, t);
    }
  }

  /** The dispatcher stands where it stood. */
  predicate StillAbout(s: State, s': State) {
    AboutToDispatch(s) ==> AboutToDispatch(s') && s'.pcs[MAIN] == s.pcs[MAIN]
  }

  lemma OnlyTheReadLock(s: State, a: Action)
    requires AboutToDispatch(s) && !CanDangle(s) && IsDispatch(a) && DispatchEnabled(s, a)
    ensures a.DataReadLock?
  {
  }

  lemma ReapingAndDispatch(s: State, a: Action)
    requires REAPER < |s.pcs| && AboutToDispatch(s) && !s.pcs[REAPER].Sweeping? && IsReaping(a) && ReapingEnabled(s, a)
    ensures StillAbout(s, DoReaping(s, a))
  {
  }

  lemma ShutdownAndDispatch(s: State, a: Action)
    requires AboutToDispatch(s) && IsShutdownStep(a) && ShutdownEnabled(s, a)
    requires forall t :: 0 <= t < |s.pcs| && s.pcs[t].Shutting? ==> !s.pcs[t].phase.Erase?
    ensures StillAbout(s, DoShutdown(s, a))
  {
    var d := ShutdownShuts(s, a);
  }

  /** While the dispatcher holds connections_lock_, nobody else changes the map. */
  lemma OthersWait(s: State)
    requires Inv(s) && AboutToDispatch(s)
    ensures !CanDangle(s) && !s.pcs[REAPER].Sweeping?
    ensures forall t :: 0 <= t < |s.pcs| && s.pcs[t].Shutting? ==> !s.pcs[t].phase.Erase?
  {
    assert ThreadOk(s, MAIN) && EntryOk(s, s.pcs[MAIN].fd) && ThreadOk(s, REAPER);
    forall t | 0 <= t < |s.pcs| && s.pcs[t].Shutting? ensures !s.pcs[t].phase.Erase? { assert ThreadOk(s, t); }
  }

  lemma MainGoesOn(s: State, a: Action)
    requires AboutToDispatch(s) && !CanDangle(s) && Enabled(s, a) && IsDispatch(a)
    ensures AllOutstanding(Do(s, a), s.pcs[MAIN].conn) > 0
  {
    OnlyTheReadLock(s, a);
    StepCalls(s, a, DataReady, s.pcs[MAIN].conn);
  }

  /** Either it goes on standing there, or it locks the connection. */
  lemma AboutGoesOn(s: State, a: Action)
    requires Inv(s) && AboutToDispatch(s) && Enabled(s, a) && !IsCallback(a)
    ensures StillAbout(s, Do(s, a)) || AllOutstanding(Do(s, a), s.pcs[MAIN].conn) > 0
  {
    OthersWait(s);
    if IsDispatch(a) {
      MainGoesOn(s, a);
    } else if IsShutdownStep(a) {
      ShutdownAndDispatch(s, a);
    } else if IsReaping(a) {
      ReapingAndDispatch(s, a);
    }
  }

  lemma LostStays(s: State, a: Action, t: Tid)
    requires Inv(s) && FIRST_WORKER <= t < |s.pcs| && Lost(s, t) && Enabled(s, a) && !IsCallback(a)
    ensures t < |Do(s, a).pcs| && Lost(Do(s, a), t)
  {
    LostIsNotDone(s, t);
    StaysShutting(s, a, t);
    OutstandingGrows(s, a, s.pcs[t].conn);
    if AboutToDispatch(s) { AboutGoesOn(s, a); }
  }

  lemma LostDoNotCall(s: State, a: Action)
    requires AllLost(s) && IsCallback(a)
    ensures !Enabled(s, a)
  {
    if FIRST_WORKER <= a.tid < |s.pcs| {
      assert Lost(s, a.tid);
    }
  }

  lemma AllLostStays(s: State, a: Action)
    requires Inv(s) && AllLost(s) && Enabled(s, a)
    ensures AllLost(Do(s, a)) && !IsCallback(a)
  {
    if IsCallback(a) { LostDoNotCall(s, a); }
    SameThreads(s, a);
    forall t | FIRST_WORKER <= t < |s.pcs| ensures Lost(Do(s, a), t) {
      LostStays(s, a, t);
    }
  }

  /** Once every worker is lost no callback is ever run again, whatever else happens. */
  lemma {:induction false} LostForGood(s: State, actions: seq<Action>)
    requires Inv(s) && AllLost(s) && Run(s, actions).Some?
    ensures AllLost(Run(s, actions).value)
    ensures forall k :: 0 <= k < |actions| ==> !IsCallback(actions[k])
    decreases |actions|
  {
    if actions != [] {
      AllLostStays(s, actions[0]);
      EveryStepKeeps(s, actions[0]);
      LostForGood(Do(s, actions[0]), actions[1..]);
      assert forall k :: 0 < k < |actions| ==> actions[k] == actions[1..][k - 1];
    }
  }

  // ---------------------------------------------------------------- otherwise a task is taken

  /** A step that neither locks c for reading nor brings the dispatcher before doing so. */
  predicate Harmless(s: State, a: Action, c: ConnId)
    requires Enabled(s, a)
  {
    Takes(s, a, c) == 0 && !a.DataLock?
  }

  /** The dispatcher was about to dispatch already, the same. */
  predicate WasAbout(s: State, s': State) {
    AboutToDispatch(s') ==> AboutToDispatch(s) && s'.pcs[MAIN] == s.pcs[MAIN]
  }

  lemma DispatcherNotBrought(s: State, a: Action)
    requires IsDispatch(a) && !a.DataLock? && DispatchEnabled(s, a)
    ensures !AboutToDispatch(DoDispatch(s, a))
  {
  }

  lemma TakingNotBrought(s: State, t: Tid, task: Task)
    requires CanTake(s, t, task)
    ensures WasAbout(s, DoTake(s, t, task))
  {
  }

  lemma CallbackNotBrought(s: State, a: Action)
    requires IsCallback(a) && CallbackEnabled(s, a)
    ensures WasAbout(s, DoCallback(s, a))
  {
    if a.TakeTask? { TakingNotBrought(s, a.tid, a.task); }
  }

  lemma ShutdownNotBrought(s: State, s': State, t: Tid, d: ConnId)
    requires Shuts(s, s', t, d)
    ensures WasAbout(s, s')
  {
  }

  lemma ReapingNotBrought(s: State, a: Action)
    requires IsReaping(a) && ReapingEnabled(s, a)
    ensures WasAbout(s, DoReaping(s, a))
  {
    if !a.ReapIdle? { SweepGoesOn(s, a); }
  }

  lemma NotBroughtThere(s: State, a: Action)
    requires Enabled(s, a) && !a.DataLock?
    ensures WasAbout(s, Do(s, a))
  {
    if IsDispatch(a) {
      DispatcherNotBrought(s, a);
    } else if IsCallback(a) {
      CallbackNotBrought(s, a);
    } else if IsShutdownStep(a) {
      var d := ShutdownShuts(s, a);
      ShutdownNotBrought(s, DoShutdown(s, a), a.tid, d);
    } else if IsReaping(a) {
      ReapingNotBrought(s, a);
    }
  }

  /** A worker that is shutting something down now was at it before. */
  predicate WasShutting(s: State, s': State, t: Tid) {
    t < |s.pcs| == |s'.pcs| && (s'.pcs[t].Shutting? ==> s.pcs[t].Shutting? && s'.pcs[t].conn == s.pcs[t].conn)
  }

  lemma HandlingStartsNoShutdown(s: State, a: Action, t: Tid)
    requires t < |s.pcs| && IsHandling(a) && CallbackEnabled(s, a)
    ensures WasShutting(s, DoCallback(s, a), t)
  {
  }

  lemma ShutdownStartsNoOther(s: State, a: Action, t: Tid)
    requires t < |s.pcs| && IsShutdownStep(a) && ShutdownEnabled(s, a)
    ensures WasShutting(s, DoShutdown(s, a), t)
  {
    var d := ShutdownShuts(s, a);
  }

  lemma StartsNoShutdown(s: State, a: Action, t: Tid)
    requires FIRST_WORKER <= t < |s.pcs| && Enabled(s, a) && !a.TakeTask?
    ensures WasShutting(s, Do(s, a), t)
  {
    if IsCallback(a) {
      HandlingStartsNoShutdown(s, a, t);
    } else if IsShutdownStep(a) {
      ShutdownStartsNoOther(s, a, t);
    } else {
      WorkersStay(s, a, t);
    }
  }

  /** Such a step does not lose a worker. */
  lemma NotLostByThis(s: State, a: Action, t: Tid)
    requires FIRST_WORKER <= t < |s.pcs| && !Lost(s, t) && Enabled(s, a) && !a.TakeTask?
    requires s.pcs[t].Shutting? ==> Harmless(s, a, s.pcs[t].conn)
    ensures t < |Do(s, a).pcs| && !Lost(Do(s, a), t)
  {
    StartsNoShutdown(s, a, t);
    if s.pcs[t].Shutting? && Do(s, a).pcs[t].Shutting? {
      OutstandingStays(s, a, s.pcs[t].conn);
      NotBroughtThere(s, a);
    }
  }

  /** A step of work that a run may take without losing t. */
  predicate Good(s: State, a: Action, t: Tid)
    requires t < |s.pcs|
  {
    && Enabled(s, a) && IsWork(a) && PassesWriters(s, a)
    && (!a.TakeTask? && s.pcs[t].Shutting? ==> Harmless(s, a, s.pcs[t].conn))
  }

  lemma ShutdownIsGood(s: State, a: Action, t: Tid)
    requires t < |s.pcs| && IsShutdownStep(a) && ShutdownEnabled(s, a)
    ensures Good(s, a, t) && !a.TakeTask?
  {
    ShutdownIsWork(a);
    ShutdownIsStep(s, a);
  }

  /** Whoever holds connections_lock_ for writing goes on. */
  lemma HolderGoes(s: State, t: Tid) returns (a: Action)
    requires Reachable(s) && s.maxIdle <= 0 && s.writer.Some? && FIRST_WORKER <= t < |s.pcs| && !Lost(s, t)
    ensures Good(s, a, t) && !a.TakeTask?
  {
    var u := s.writer.value;
    LockHolds(s);
    ThreadHolds(s, u);
    if u == MAIN {
      a := DispatcherGoes(s);
    } else if u == REAPER {
      a := ReaperGoes(s);
    } else {
      a := ShutErase(u, s.pcs[u].phase.fd);
      ShutdownIsGood(s, a, t);
    }
  }

  lemma DispatcherGoes(s: State) returns (a: Action)
    requires Reachable(s) && s.writer == Some(MAIN) && |s.pcs| >= FIRST_WORKER
    ensures Enabled(s, a) && IsWork(a) && PassesWriters(s, a) && !a.TakeTask? && !a.DataLock?
    ensures forall c :: Takes(s, a, c) > 0 ==> AboutToDispatch(s) && s.pcs[MAIN].conn == c
  {
    ThreadHolds(s, MAIN);
    match s.pcs[MAIN]
    case AcceptHeld(_) => a := AcceptInsert;
    case DataLocked(_) => a := DataEnqueue;
    case DataHeld(fd, _) =>
      if fd in s.registered {
        DispatchNeverBlocks(s);
        a := DataReadLock;
      } else {
        a := DataMiss;
      }
    case Shutting(_, phase) => a := ShutErase(MAIN, phase.fd);
  }

  lemma ReaperGoes(s: State) returns (a: Action)
    requires Reachable(s) && s.maxIdle <= 0 && s.writer == Some(REAPER) && |s.pcs| >= FIRST_WORKER
    ensures Enabled(s, a) && IsWork(a) && IsReaping(a)
  {
    ThreadHolds(s, REAPER);
    SweepHolds(s);
    if s.todo == {} {
      a := ReapDone;
    } else {
      var fd :| fd in s.todo;
      EntryHolds(s, fd);
      a := if s.conns[s.registered[fd]].flagged then ReapErase(fd) else ReapSkip(fd);
    }
  }

  /** A thread that holds connections_lock_ for reading goes on. */
  lemma ReaderGoes(s: State, u: Tid) returns (a: Action)
    requires Reachable(s) && u in s.readers
    ensures Enabled(s, a) && a in {HandlerReturn(u), CallUnlock(u), CallRelease(u)}
  {
    LockHolds(s);
    ThreadHolds(s, u);
    match s.pcs[u]
    case CallRun(_, _) => a := HandlerReturn(u);
    case CallReturned(_, _) => a := CallUnlock(u);
    case CallUnlocked(_) => a := CallRelease(u);
  }

  lemma AcquireGoes(s: State, t: Tid, fd: Fd) returns (a: Action)
    requires Reachable(s) && s.maxIdle <= 0 && FIRST_WORKER <= t < |s.pcs| && !Lost(s, t) && InPhase(s, t, Acquire(fd))
    ensures Good(s, a, t) && !a.TakeTask?
  {
    if RegistryFree(s) {
      a := ShutAcquire(t, fd);
      ShutdownIsGood(s, a, t);
    } else if s.writer.Some? {
      a := HolderGoes(s, t);
    } else {
      var u :| u in s.readers;
      a := ReaderGoes(s, u);
    }
  }

  lemma WorkerIsSomewhere(s: State, t: Tid)
    requires Reachable(s) && FIRST_WORKER <= t < |s.pcs|
    ensures IsWorker(s, t) && RunsOn(t, s.pcs[t])
  {
    ThreadHolds(s, t);
  }

  /** Without callbacks outstanding, the locks a shutdown waits for are free. */
  lemma LocksAreFree(s: State, t: Tid)
    requires Reachable(s) && FIRST_WORKER <= t < |s.pcs| && s.pcs[t].Shutting? && !Lost(s, t)
    ensures s.pcs[t].conn in s.conns
    ensures s.pcs[t].phase == LockHandle ==> s.conns[s.pcs[t].conn].handle == Mutex(0, false)
    ensures s.pcs[t].phase == LockRaw ==> s.conns[s.pcs[t].conn].raw == Mutex(0, false)
  {
    var c := s.pcs[t].conn;
    ThreadHolds(s, t);
    ConnHolds(s, c);
    ReachableHolds(s);
    ReadersAreOutstanding(s, c);
  }

  lemma ScanGoes(s: State, t: Tid) returns (a: Action)
    requires FIRST_WORKER <= t < |s.pcs| && InPhase(s, t, Scan) && !Lost(s, t)
    ensures Good(s, a, t) && !a.TakeTask?
  {
    if fd :| fd in s.registered && s.registered[fd] == s.pcs[t].conn {
      a := ShutFound(t, fd);
    } else {
      a := ShutNotFound(t);
    }
    ShutdownIsGood(s, a, t);
  }

  lemma DeregisteringGoes(s: State, t: Tid) returns (a: Action)
    requires Reachable(s) && s.maxIdle <= 0 && FIRST_WORKER <= t < |s.pcs| && s.pcs[t].Shutting? && !Lost(s, t)
    requires s.pcs[t].phase !in {LockHandle, LockRaw, Close, Delete}
    ensures Good(s, a, t) && !a.TakeTask?
  {
    WorkerIsSomewhere(s, t);
    match s.pcs[t].phase
    case Begin => a := ShutBegin(t); ShutdownIsGood(s, a, t);
    case Scan => a := ScanGoes(s, t);
    case Acquire(fd) => a := AcquireGoes(s, t, fd);
    case Erase(fd) => a := ShutErase(t, fd); ShutdownIsGood(s, a, t);
  }

  /** A worker that shuts down a connection without callbacks outstanding goes on, or can be let go on. */
  lemma ShutdownGoes(s: State, t: Tid) returns (a: Action)
    requires Reachable(s) && s.maxIdle <= 0 && FIRST_WORKER <= t < |s.pcs| && s.pcs[t].Shutting? && !Lost(s, t)
    ensures Good(s, a, t) && !a.TakeTask?
  {
    if s.pcs[t].phase in {LockHandle, LockRaw} {
      a := LockingGoes(s, t);
    } else if s.pcs[t].phase in {Close, Delete} {
      a := DestroyingGoes(s, t);
    } else {
      a := DeregisteringGoes(s, t);
    }
  }

  lemma LockingGoes(s: State, t: Tid) returns (a: Action)
    requires Reachable(s) && FIRST_WORKER <= t < |s.pcs| && s.pcs[t].Shutting? && !Lost(s, t)
    requires s.pcs[t].phase in {LockHandle, LockRaw}
    ensures Good(s, a, t) && !a.TakeTask?
  {
    LocksAreFree(s, t);
    a := if s.pcs[t].phase == LockHandle then ShutLockHandle(t) else ShutLockRaw(t);
    ShutdownIsGood(s, a, t);
  }

  lemma DestroyingGoes(s: State, t: Tid) returns (a: Action)
    requires Reachable(s) && FIRST_WORKER <= t < |s.pcs| && s.pcs[t].Shutting? && !Lost(s, t)
    requires s.pcs[t].phase in {Close, Delete}
    ensures Good(s, a, t) && !a.TakeTask?
  {
    WorkerIsSomewhere(s, t);
    a := if s.pcs[t].phase == Close then ShutClose(t) else ShutDelete(t);
    ShutdownIsGood(s, a, t);
  }

  /** A thread that waits for connections_lock_ takes it. */
  lemma WriterGoes(s: State, u: Tid) returns (a: Action)
    requires Reachable(s) && u < |s.pcs| && RegistryFree(s) && WantsRegistry(s.pcs[u])
    ensures Enabled(s, a) && IsWork(a) && PassesWriters(s, a) && !a.TakeTask?
  {
    ThreadHolds(s, u);
    match s.pcs[u]
    case AcceptWait(_) => a := AcceptLock;
    case DataWait(_, _) => a := DataLock;
    case SweepWait => a := ReapLock;
    case Shutting(_, phase) => a := ShutAcquire(u, phase.fd);
  }

  /** A worker that waits to run a callback does so, once those who want the lock for writing have had it. */
  lemma WaiterGoes(s: State, t: Tid) returns (a: Action)
    requires Reachable(s) && s.maxIdle <= 0 && FIRST_WORKER <= t < |s.pcs| && s.pcs[t].CallWait?
    ensures Good(s, a, t) && !a.TakeTask?
  {
    if s.writer.Some? {
      a := HolderGoes(s, t);
    } else if u :| 0 <= u < |s.pcs| && WantsRegistry(s.pcs[u]) {
      if s.readers == {} {
        a := WriterGoes(s, u);
      } else {
        var r :| r in s.readers;
        a := ReaderGoes(s, r);
      }
    } else {
      WorkerIsSomewhere(s, t);
      a := CallLock(t);
    }
  }

  lemma CallbackGoes(s: State, t: Tid) returns (a: Action)
    requires Reachable(s) && s.maxIdle <= 0 && FIRST_WORKER <= t < |s.pcs| && !s.pcs[t].Shutting? && !s.pcs[t].Ready?
    ensures Good(s, a, t) && !a.TakeTask?
  {
    WorkerIsSomewhere(s, t);
    match s.pcs[t]
    case CallWait(_, _) => a := WaiterGoes(s, t);
    case CallRun(_, _) => a := HandlerReturn(t); HandlingIsGood(s, a, t);
    case CallReturned(_, _) => a := CallUnlock(t); HandlingIsGood(s, a, t);
    case CallUnlocked(_) => a := CallRelease(t); HandlingIsGood(s, a, t);
    case Terminating(_) => a := TerminatedReturn(t); HandlingIsGood(s, a, t);
  }

  lemma HandlingIsGood(s: State, a: Action, t: Tid)
    requires t < |s.pcs| && !s.pcs[t].Shutting? && Enabled(s, a) && IsWork(a) && PassesWriters(s, a)
    ensures Good(s, a, t)
  {
  }

  lemma TaskHolds(s: State, task: Task)
    requires Reachable(s) && task in s.queue
    ensures task.conn in s.conns
  {
    ReachableHolds(s);
  }

  lemma TakeGoes(s: State, t: Tid) returns (a: Action)
    requires Reachable(s) && s.queue != multiset{} && Resting(s, t)
    ensures Good(s, a, t) && a.TakeTask?
  {
    var task :| task in s.queue;
    TaskHolds(s, task);
    a := TakeTask(t, task);
  }

  lemma WorkerGoes(s: State, t: Tid) returns (a: Action)
    requires Reachable(s) && s.maxIdle <= 0 && s.queue != multiset{} && FIRST_WORKER <= t < |s.pcs| && !Lost(s, t)
    ensures Good(s, a, t)
  {
    if s.pcs[t].Ready? {
      a := TakeGoes(s, t);
    } else if s.pcs[t].Shutting? {
      a := ShutdownGoes(s, t);
    } else {
      a := CallbackGoes(s, t);
    }
  }

  /** Each step is possible also with locks that let no reader in while a writer waits. */
  predicate Passing(s: State, actions: seq<Action>)
    decreases |actions|
  {
    actions == [] || (Enabled(s, actions[0]) && PassesWriters(s, actions[0]) && Passing(Do(s, actions[0]), actions[1..]))
  }

  predicate SomeTaken(actions: seq<Action>) {
    exists k :: 0 <= k < |actions| && actions[k].TakeTask?
  }

  lemma QueueStays(s: State, a: Action)
    requires Enabled(s, a) && !a.TakeTask? && s.queue != multiset{}
    ensures Do(s, a).queue != multiset{}
  {
    assert s.queue <= Do(s, a).queue;
  }

  /** As long as a worker is not lost, the run can go on until one takes a task. */
  lemma {:induction false} SomebodyTakes(s: State, t: Tid) returns (actions: seq<Action>)
    requires Reachable(s) && s.maxIdle <= 0 && s.queue != multiset{} && FIRST_WORKER <= t < |s.pcs| && !Lost(s, t)
    ensures Run(s, actions).Some? && Passing(s, actions) && SomeTaken(actions)
    decreases WorkLeft(s)
  {
    var a := WorkerGoes(s, t);
    if a.TakeTask? {
      actions := [a];
      assert [a][1..] == [];
      assert Run(Do(s, a), []).Some? && actions[0].TakeTask?;
    } else {
      ReachableHolds(s);
      WorkShrinks(s, a);
      Goes(s, a, Do(s, a));
      ConfigurationStays(s, a);
      QueueStays(s, a);
      NotLostByThis(s, a, t);
      var rest := SomebodyTakes(Do(s, a), t);
      actions := [a] + rest;
      TakenLater(s, a, rest);
    }
  }

  lemma TakenLater(s: State, a: Action, rest: seq<Action>)
    requires Enabled(s, a) && PassesWriters(s, a) && Run(Do(s, a), rest).Some? && Passing(Do(s, a), rest) && SomeTaken(rest)
    ensures Run(s, [a] + rest).Some? && Passing(s, [a] + rest) && SomeTaken([a] + rest)
  {
    assert ([a] + rest)[1..] == rest;
    var k :| 0 <= k < |rest| && rest[k].TakeTask?;
    assert ([a] + rest)[k + 1].TakeTask?;
  }

  /**
   Exactly when the executor is dead: with idle reaping off and something queued, some run takes a task
   if and only if some worker is not shutting down a connection with callbacks outstanding; and whether
   or not the locks prefer writers makes no difference.
   */
  lemma TakenUnlessAllLost(s: State)
    requires Reachable(s) && s.maxIdle <= 0 && s.queue != multiset{}
    ensures (exists actions :: Run(s, actions).Some? && SomeTaken(actions)) <==> !AllLost(s)
    ensures (exists actions :: Run(s, actions).Some? && Passing(s, actions) && SomeTaken(actions)) <==> !AllLost(s)
  {
    ReachableHolds(s);
    if AllLost(s) {
      forall actions | Run(s, actions).Some? ensures !SomeTaken(actions) {
        LostForGood(s, actions);
      }
    } else {
      var t :| FIRST_WORKER <= t < |s.pcs| && !Lost(s, t);
      var actions := SomebodyTakes(s, t);
      assert Run(s, actions).Some? && Passing(s, actions) && SomeTaken(actions);
    }
  }

  // ---------------------------------------------------------------- where it comes from, and where it ends

  lemma QueuedMeansOutstanding(s: State, kind: Kind, c: ConnId)
    requires Call(kind, c) in s.queue
    ensures AllOutstanding(s, c) > 0
  {
    assert Outstanding(s, kind, c) > 0;
    match kind
    case Established =>
    case DataReady =>
    case Error =>
  }

  /** A server that is stuck, with idle reaping off, has lost all its workers: it is stuck for good. */
  lemma StuckMeansLost(s: State)
    requires Reachable(s) && s.maxIdle <= 0 && Busy(s) && !CanWork(s)
    ensures AllLost(s)
  {
    StuckMeansAllWorkersShutDown(s);
    ThreadHolds(s, MAIN);
    forall t | FIRST_WORKER <= t < |s.pcs| ensures Lost(s, t) {
      assert WaitsForQueue(s, t);
      var kind :| Call(kind, s.pcs[t].conn) in s.queue;
      QueuedMeansOutstanding(s, kind, s.pcs[t].conn);
    }
  }

  /** A server whose workers are all lost works off what it can, and then it is stuck. */
  lemma {:induction false} LostEndsStuck(s: State) returns (end: State)
    requires Reachable(s) && s.maxIdle <= 0 && AllLost(s)
    ensures Reachable(end) && end.maxIdle <= 0 && AllLost(end) && |end.pcs| == |s.pcs|
    ensures forall a :: IsWork(a) ==> !Enabled(end, a)
    decreases WorkLeft(s)
  {
    if a :| IsWork(a) && Enabled(s, a) {
      ReachableHolds(s);
      WorkShrinks(s, a);
      Goes(s, a, Do(s, a));
      ConfigurationStays(s, a);
      AllLostStays(s, a);
      end := LostEndsStuck(Do(s, a));
    } else {
      end := s;
    }
  }

  // ---------------------------------------------------------------- it happens

  /** Data is dispatched for a connection whose shutdown is queued. */
  lemma DispatchesData(s: State, c: ConnId, t: Tid)
    requires Calm(s) && Fresh(s, c) && Resting(s, t) && s.defers
    ensures Calm(With(s, c, 1, Queued, multiset{Deferred(c), Call(DataReady, c)}))
  {
    Requests(s, c, t);
    var s0 := With(s, c, 0, Queued, multiset{Deferred(c)});
    var s1 := DoDataEvent(s0, FdOf(c));
    Goes(s0, DataEvent(FdOf(c)), s1);
    var s2 := DoDataLock(s1);
    Goes(s1, DataLock, s2);
    assert s2 == s0.(writer := Some(MAIN), pcs := s.pcs[MAIN := DataHeld(FdOf(c), c)]);
    DispatchesDataOn(s, c, s2);
  }

  lemma DispatchesDataOn(s: State, c: ConnId, s2: State)
    requires Calm(s) && Reachable(s2)
    requires s2 == With(s, c, 0, Queued, multiset{Deferred(c)})
                     .(writer := Some(MAIN), pcs := s.pcs[MAIN := DataHeld(FdOf(c), c)])
    ensures Calm(With(s, c, 1, Queued, multiset{Deferred(c), Call(DataReady, c)}))
  {
    var s3 := DoDataReadLock(s2);
    Goes(s2, DataReadLock, s3);
    assert s3.pcs == s.pcs[MAIN := DataLocked(c)];
    DispatchesDataThen(s, c, s3);
  }

  lemma DispatchesDataThen(s: State, c: ConnId, s3: State)
    requires Calm(s) && Reachable(s3)
    requires s3 == With(s, c, 1, Queued, multiset{Deferred(c)}).(writer := Some(MAIN), pcs := s.pcs[MAIN := DataLocked(c)])
    ensures Calm(With(s, c, 1, Queued, multiset{Deferred(c), Call(DataReady, c)}))
  {
    var s4 := DoDataEnqueue(s3);
    Goes(s3, DataEnqueue, s4);
    assert s4.pcs == s.pcs;
    assert s4.queue == s.queue + multiset{Deferred(c), Call(DataReady, c)};
    assert s4 == With(s, c, 1, Queued, multiset{Deferred(c), Call(DataReady, c)});
  }

  /** A worker at rest is lost to a new connection. */
  function OneLost(s: State, c: ConnId, t: Tid): State
    requires t < |s.pcs|
  {
    With(s, c, 1, At(t), multiset{Call(DataReady, c)}).(pcs := s.pcs[t := Shutting(c, Begin)])
  }

  lemma LosesOne(s: State, c: ConnId, t: Tid)
    requires Calm(s) && Fresh(s, c) && Resting(s, t) && s.defers
    ensures Calm(OneLost(s, c, t))
  {
    DispatchesData(s, c, t);
    LosesOneNow(s, c, t);
  }

  lemma LosesOneNow(s: State, c: ConnId, t: Tid)
    requires Calm(With(s, c, 1, Queued, multiset{Deferred(c), Call(DataReady, c)})) && Resting(s, t)
    ensures Calm(OneLost(s, c, t))
  {
    var s0 := With(s, c, 1, Queued, multiset{Deferred(c), Call(DataReady, c)});
    TakesDeferred(s, c, t);
    Goes(s0, TakeTask(t, Deferred(c)), OneLost(s, c, t));
  }

  lemma TakesDeferred(s: State, c: ConnId, t: Tid)
    requires Resting(s, t)
    ensures var s0 := With(s, c, 1, Queued, multiset{Deferred(c), Call(DataReady, c)});
      CanTake(s0, t, Deferred(c)) && DoTake(s0, t, Deferred(c)) == OneLost(s, c, t)
  {
    var s0 := With(s, c, 1, Queued, multiset{Deferred(c), Call(DataReady, c)});
    assert s0.queue - multiset{Deferred(c)} == s.queue + multiset{Call(DataReady, c)};
  }

  /** Each of the first i workers is lost to a connection of its own, the others are at rest. */
  ghost predicate LostUpTo(s: State, workers: nat, i: nat) {
    && Calm(s) && s.maxIdle == -1 && s.defers && |s.pcs| == FIRST_WORKER + workers
    && (forall c :: c in s.conns ==> c < i && s.conns[c].fd == FdOf(c))
    && (forall k: nat :: k < i && k < workers ==>
          s.pcs[FIRST_WORKER + k] == Shutting(k, Begin) && Call(DataReady, k) in s.queue)
    && (forall t :: FIRST_WORKER + i <= t < |s.pcs| ==> s.pcs[t].Ready?)
  }

  lemma LosesNext(s: State, workers: nat, i: nat) returns (next: State)
    requires LostUpTo(s, workers, i) && i < workers
    ensures LostUpTo(next, workers, i + 1)
  {
    LosesOne(s, i, FIRST_WORKER + i);
    next := OneLost(s, i, FIRST_WORKER + i);
  }

  lemma NoneLost(workers: nat)
    ensures LostUpTo(Start(workers, -1, true, 0), workers, 0)
  {
    StartIsCalm(workers, -1, true);
  }

  lemma {:induction false} LosesThem(workers: nat, i: nat) returns (s: State)
    requires i <= workers
    ensures LostUpTo(s, workers, i)
  {
    if i == 0 {
      s := Start(workers, -1, true, 0);
      NoneLost(workers);
    } else {
      var before := LosesThem(workers, i - 1);
      s := LosesNext(before, workers, i - 1);
    }
  }

  lemma AllAreLost(s: State, workers: nat)
    requires LostUpTo(s, workers, workers)
    ensures AllLost(s)
  {
    forall t | FIRST_WORKER <= t < |s.pcs| ensures Lost(s, t) {
      var k: nat := t - FIRST_WORKER;
      assert s.pcs[FIRST_WORKER + k] == Shutting(k, Begin) && Call(DataReady, k) in s.queue;
      QueuedMeansOutstanding(s, DataReady, k);
    }
  }

  /**
   However many workers there are, as many deferred shutdowns can stop the server for good: a reachable
   state has work, no step that carries any of it on, and no run in which a callback is run again.
   */
  lemma WorkersCanGetStuck(workers: nat)
    requires workers > 0
    ensures exists s :: && Reachable(s) && s.maxIdle <= 0 && |s.pcs| == FIRST_WORKER + workers
                        && Busy(s) && AllLost(s) && forall a :: IsWork(a) ==> !Enabled(s, a)
  {
    var s := LosesThem(workers, workers);
    AllAreLost(s, workers);
    var end := LostEndsStuck(s);
    assert Lost(end, FIRST_WORKER);
    assert Busy(end);
  }
}
