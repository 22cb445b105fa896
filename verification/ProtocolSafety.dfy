/**
 What the server promises in every reachable state, whatever the interleaving.
 */
module ProtocolSafety {
  import opened Words
  import opened Protocol
  import opened ProtocolSteps
  import opened ProtocolInvariant

  // ---------------------------------------------------------------- the invariant over whole runs

  lemma StartHolds(workers: nat, maxIdle: int, defers: bool, clock: nat)
    requires clock < U64_MODULUS
    ensures Inv(Start(workers, maxIdle, defers, clock))
  {
  }

  lemma AcceptingKeeps(s: State, a: Action)
    requires Inv(s) && IsAccepting(a) && DispatchEnabled(s, a)
    ensures Inv(DoDispatch(s, a))
  {
    var c := if a.Accept? then a.conn else s.pcs[MAIN].conn;
    assert ThreadOk(s, MAIN) && (c in s.conns ==> ConnOk(s, c));
    match a
    case Accept(fd, _, decorated) => AcceptKeeps(s, fd, c, decorated);
    case AcceptLock => AcceptLockStep(s, c); QuietKeeps(s, DoDispatch(s, a), MAIN, c);
    case AcceptInsert => AcceptInsertKeeps(s);
    case AcceptArm => AcceptArmKeeps(s);
    case AcceptReadLock => AcceptReadLockStep(s, c); QuietKeeps(s, DoDispatch(s, a), MAIN, c);
    case AcceptEnqueue => AcceptEnqueueStep(s, c); QuietKeeps(s, DoDispatch(s, a), MAIN, c);
  }

  lemma EventKeeps(s: State, a: Action)
    requires Inv(s) && IsEvent(a) && DispatchEnabled(s, a)
    ensures Inv(DoDispatch(s, a))
  {
    var c := s.registered[a.fd];
    assert ThreadOk(s, MAIN) && ConnOk(s, c) && EntryOk(s, a.fd);
    match a
    case Hangup(fd) => HangupUnclaimed(s, fd); HangupStep(s, fd); QuietKeeps(s, DoDispatch(s, a), MAIN, c);
    case DataEvent(fd) => DataEventStep(s, fd); QuietKeeps(s, DoDispatch(s, a), MAIN, c);
    case ErrorEvent(fd) => ErrorEventStep(s, fd); QuietKeeps(s, DoDispatch(s, a), MAIN, c);
  }

  lemma DispatchKeeps(s: State, a: Action)
    requires Inv(s) && IsDispatching(a) && DispatchEnabled(s, a)
    ensures Inv(DoDispatch(s, a))
  {
    var c := s.pcs[MAIN].conn;
    assert ThreadOk(s, MAIN) && ConnOk(s, c);
    assert a.DataReadLock? ==> EntryOk(s, s.pcs[MAIN].fd);
    DispatchStep(s, a, c);
    QuietKeeps(s, DoDispatch(s, a), MAIN, c);
  }

  lemma DispatchStep(s: State, a: Action, c: ConnId)
    requires Facts(s, MAIN, c) && Dealing(s.pcs[MAIN]) && s.pcs[MAIN].conn == c && IsDispatching(a) && DispatchEnabled(s, a)
    requires a.DataReadLock? ==> s.pcs[MAIN].fd in s.registered && EntryOk(s, s.pcs[MAIN].fd)
    ensures QuietStep(s, DoDispatch(s, a), MAIN, c)
  {
    match a
    case DataLock => DataLockStep(s, c);
    case DataMiss => DataMissStep(s, c);
    case DataReadLock => DataReadLockStep(s, c);
    case DataEnqueue => DataEnqueueStep(s, c);
    case ErrorReadLock => ErrorReadLockStep(s, c);
    case ErrorEnqueue => ErrorEnqueueStep(s, c);
  }

  lemma DangleKeeps(s: State)
    requires Inv(s) && CanDangle(s)
    ensures Inv(DoDangle(s))
  {
    var c := s.pcs[MAIN].conn;
    assert ThreadOk(s, MAIN) && ConnOk(s, c);
    assert s.pcs[MAIN].DataHeld? ==> EntryOk(s, s.pcs[MAIN].fd);
    DanglingStep(s, c);
    QuietKeeps(s, DoDangle(s), MAIN, c);
  }

  lemma TakeKeeps(s: State, t: Tid, task: Task)
    requires Inv(s) && CanTake(s, t, task)
    ensures Inv(DoTake(s, t, task))
  {
    assert ThreadOk(s, t) && ConnOk(s, task.conn);
    match task {
      case Call(_, _) => TakeCallStep(s, t, task);
      case Terminated(_) => TakeTerminatedStep(s, t, task);
      case Deferred(_) => TakeDeferredStep(s, t, task);
    }
    QuietKeeps(s, DoTake(s, t, task), t, task.conn);
  }

  lemma HandlingKeeps(s: State, a: Action)
    requires Inv(s) && IsHandling(a) && CallbackEnabled(s, a)
    ensures Inv(DoCallback(s, a))
  {
    var t, c := a.tid, s.pcs[a.tid].conn;
    assert ThreadOk(s, t) && ThreadOk(s, MAIN) && ConnOk(s, c);
    if a.HandlerUse? {
      HandlerUseKeeps(s, t);
    } else {
      HandlingStep(s, a, t, c);
      QuietKeeps(s, DoCallback(s, a), t, c);
    }
  }

  lemma HandlingStep(s: State, a: Action, t: Tid, c: ConnId)
    requires Facts(s, t, c) && ThreadOk(s, MAIN) && IsHandling(a) && !a.HandlerUse? && CallbackEnabled(s, a)
    requires t == a.tid && Dealing(s.pcs[t]) && s.pcs[t].conn == c
    ensures QuietStep(s, DoCallback(s, a), t, c)
  {
    match a
    case CallLock(_) => CallLockStep(s, t, c);
    case HandlerDefer(_) => HandlerDeferStep(s, t, c);
    case HandlerReturn(_) => HandlerReturnStep(s, t, c);
    case CallUnlock(_) => CallUnlockStep(s, t, c);
    case CallRelease(_) => CallReleaseStep(s, t, c);
    case TerminatedReturn(_) => TerminatedReturnStep(s, t, c);
  }

  lemma LeavingKeeps(s: State, a: Action)
    requires Inv(s) && (a.ShutErase? || a.ShutClose? || a.ShutDelete?) && ShutdownEnabled(s, a)
    ensures Inv(DoShutdown(s, a))
  {
    match a
    case ShutErase(t, fd) => ShutEraseKeeps(s, t, fd);
    case ShutClose(t) => ShutCloseKeeps(s, t);
    case ShutDelete(t) => DeleteKeeps(s, t);
  }

  lemma DeregisteringKeeps(s: State, a: Action)
    requires Inv(s) && IsDeregistering(a) && !a.ShutErase? && ShutdownEnabled(s, a)
    ensures Inv(DoShutdown(s, a))
  {
    var c := ShutdownSubject(s, a);
    assert ThreadOk(s, a.tid) && ConnOk(s, c);
    assert a.ShutFound? ==> EntryOk(s, a.fd);
    DeregisteringStep(s, a, a.tid, c);
    QuietKeeps(s, DoShutdown(s, a), a.tid, c);
  }

  lemma LockingKeeps(s: State, a: Action)
    requires Inv(s) && IsLocking(a) && ShutdownEnabled(s, a)
    ensures Inv(DoShutdown(s, a))
  {
    var c := ShutdownSubject(s, a);
    assert ThreadOk(s, a.tid) && ConnOk(s, c);
    LockingStep(s, a, a.tid, c);
    QuietKeeps(s, DoShutdown(s, a), a.tid, c);
  }

  lemma DeleteKeeps(s: State, t: Tid)
    requires Inv(s) && InPhase(s, t, Delete)
    ensures Inv(DoShutDelete(s, t))
  {
    var c := s.pcs[t].conn;
    assert ThreadOk(s, t) && ConnOk(s, c);
    ShutDeleteStep(s, t, c);
    QuietKeeps(s, DoShutDelete(s, t), t, c);
  }

  lemma DeregisteringStep(s: State, a: Action, t: Tid, c: ConnId)
    requires Facts(s, t, c) && IsDeregistering(a) && !a.ShutErase? && ShutdownEnabled(s, a)
    requires a.ShutFound? ==> a.fd in s.registered && EntryOk(s, a.fd)
    requires t == a.tid && ShuttingDown(s, t, c)
    ensures QuietStep(s, DoShutdown(s, a), t, c)
  {
    match a
    case ShutBegin(_) => ShutBeginStep(s, t, c);
    case ShutFound(_, fd) => ShutFoundStep(s, t, fd, c);
    case ShutNotFound(_) => ShutNotFoundStep(s, t, c);
    case ShutAcquire(_, fd) => ShutAcquireStep(s, t, fd, c);
  }

  lemma LockingStep(s: State, a: Action, t: Tid, c: ConnId)
    requires Facts(s, t, c) && IsLocking(a) && ShutdownEnabled(s, a)
    requires t == a.tid && ShuttingDown(s, t, c)
    ensures QuietStep(s, DoShutdown(s, a), t, c)
  {
    match a
    case ShutLockHandle(_) => ShutLockHandleStep(s, t, c);
    case ShutLockRaw(_) => ShutLockRawStep(s, t, c);
  }

  lemma ReapingKeeps(s: State, a: Action)
    requires Inv(s) && IsReaping(a) && ReapingEnabled(s, a)
    ensures Inv(DoReaping(s, a))
  {
    match a
    case ReapWake => ReapWakeKeeps(s);
    case ReapLock => ReapLockKeeps(s);
    case ReapSkip(fd) => ReapSkipKeeps(s, fd);
    case ReapErase(fd) => ReapEraseKeeps(s, fd);
    case ReapIdle(fd) => ReapIdleKeeps(s, fd);
    case ReapDone => ReapDoneKeeps(s);
  }

  lemma DispatcherKeeps(s: State, a: Action)
    requires Inv(s) && IsDispatch(a) && DispatchEnabled(s, a)
    ensures Inv(DoDispatch(s, a))
  {
    if IsAccepting(a) {
      AcceptingKeeps(s, a);
    } else if IsEvent(a) {
      EventKeeps(s, a);
    } else if IsDispatching(a) {
      DispatchKeeps(s, a);
    } else {
      DangleKeeps(s);
    }
  }

  lemma CallbackKeeps(s: State, a: Action)
    requires Inv(s) && IsCallback(a) && CallbackEnabled(s, a)
    ensures Inv(DoCallback(s, a))
  {
    if a.TakeTask? {
      TakeKeeps(s, a.tid, a.task);
    } else {
      HandlingKeeps(s, a);
    }
  }

  lemma ShutdownKeeps(s: State, a: Action)
    requires Inv(s) && IsShutdownStep(a) && ShutdownEnabled(s, a)
    ensures Inv(DoShutdown(s, a))
  {
    if a.ShutErase? || a.ShutClose? || a.ShutDelete? {
      LeavingKeeps(s, a);
    } else if IsDeregistering(a) {
      DeregisteringKeeps(s, a);
    } else {
      LockingKeeps(s, a);
    }
  }

  /** Every step of every thread keeps the invariant. */
  lemma EveryStepKeeps(s: State, a: Action)
    requires Inv(s) && Enabled(s, a)
    ensures Inv(Do(s, a))
  {
    if IsDispatch(a) {
      DispatchIsStep(s, a);
      DispatcherKeeps(s, a);
    } else if IsCallback(a) {
      CallbackIsStep(s, a);
      CallbackKeeps(s, a);
    } else if IsShutdownStep(a) {
      ShutdownIsStep(s, a);
      ShutdownKeeps(s, a);
    } else if IsReaping(a) {
      ReapingIsStep(s, a);
      ReapingKeeps(s, a);
    } else {
      TickKeeps(s);
    }
  }

  lemma {:induction false} RunKeeps(s: State, actions: seq<Action>)
    requires Inv(s) && Run(s, actions).Some?
    ensures Inv(Run(s, actions).value)
    decreases |actions|
  {
    if actions != [] {
      EveryStepKeeps(s, actions[0]);
      RunKeeps(Do(s, actions[0]), actions[1..]);
    }
  }

  lemma ReachableHolds(s: State)
    requires Reachable(s)
    ensures Inv(s)
  {
    var workers: nat, maxIdle: int, defers: bool, clock: nat, actions: seq<Action> :|
      clock < U64_MODULUS && Run(Start(workers, maxIdle, defers, clock), actions) == Some(s);
    StartHolds(workers, maxIdle, defers, clock);
    RunKeeps(Start(workers, maxIdle, defers, clock), actions);
  }

  lemma ThreadHolds(s: State, t: Tid)
    requires Reachable(s)
    ensures |s.pcs| >= FIRST_WORKER
    ensures t < |s.pcs| ==> ThreadOk(s, t)
  {
    ReachableHolds(s);
  }

  lemma ConnHolds(s: State, c: ConnId)
    requires Reachable(s) && c in s.conns
    ensures ConnOk(s, c)
  {
    ReachableHolds(s);
  }

  lemma EntryHolds(s: State, fd: Fd)
    requires Reachable(s) && fd in s.registered
    ensures EntryOk(s, fd)
  {
    ReachableHolds(s);
  }

  lemma OpenOnce(s: State, c: ConnId, d: ConnId)
    requires Reachable(s) && c in s.conns && d in s.conns
    ensures s.conns[c].open && s.conns[d].open && s.conns[c].fd == s.conns[d].fd ==> c == d
  {
    ReachableHolds(s);
  }

  lemma OwnEntry(s: State, c: ConnId, fd: Fd)
    requires Reachable(s) && c in s.conns && s.conns[c].open && s.conns[c].fd == fd
    ensures fd in s.registered ==> s.registered[fd] == c
    ensures forall f :: f in s.registered && s.registered[f] == c ==> f == fd
  {
    ReachableHolds(s);
    OnlyOwnEntry(s, c, fd);
  }

  lemma InterestHolds(s: State)
    requires Reachable(s)
    ensures |s.pcs| >= FIRST_WORKER && InterestOk(s)
  {
    ReachableHolds(s);
  }

  lemma SweepHolds(s: State)
    requires Reachable(s)
    ensures |s.pcs| >= FIRST_WORKER && SweepOk(s) && s.clock < U64_MODULUS
  {
    ReachableHolds(s);
  }

  // ---------------------------------------------------------------- no callback on a deleted connection

  lemma {:induction false} OwedMeansCounted(pcs: seq<Pc>, kind: Kind, c: ConnId)
    requires ThreadsOwing(pcs, kind, c) == 0
    ensures forall t :: 0 <= t < |pcs| ==> !Owes(pcs[t], kind, c)
  {
    forall t | 0 <= t < |pcs| ensures !Owes(pcs[t], kind, c) {
      if Owes(pcs[t], kind, c) {
        OwingCounts(pcs, t, kind, c);
      }
    }
  }

  /** A read lock that was taken on a living connection is released before the connection is deleted. */
  lemma HoldsEndBeforeDelete(s: State, c: ConnId, kind: Kind)
    requires Reachable(s) && c in s.conns
    requires s.conns[c].party.Gone? || !s.conns[c].open
    ensures Call(kind, c) !in s.queue
    ensures forall t :: 0 <= t < |s.pcs| ==> !Owes(s.pcs[t], kind, c)
  {
    ConnHolds(s, c);
    OwedMeansCounted(s.pcs, kind, c);
  }

  /**
   No DataReady closure is queued, being queued or running for a connection that is deleted, or whose
   descriptor is being closed, and none is ever dispatched for one: the shutdown has the write lock by
   then, and the dispatcher looks into the map again. With idle reaping off the same holds of
   ConnectionEstablished.
   */
  lemma NoCallbackOnDeleted(s: State, c: ConnId, kind: Kind)
    requires Reachable(s) && c in s.conns
    requires s.conns[c].party.Gone? || !s.conns[c].open
    requires kind.DataReady? || (kind.Established? && s.maxIdle <= 0)
    ensures Call(kind, c) !in s.queue
    ensures forall t :: 0 <= t < |s.pcs| ==> !Owes(s.pcs[t], kind, c)
    ensures AboutToReadLock(s, kind) ==> s.pcs[MAIN].conn != c
    ensures forall t :: 0 <= t < |s.pcs| ==> s.pcs[t] != Dangling(kind, c)
  {
    HoldsEndBeforeDelete(s, c, kind);
    ThreadHolds(s, MAIN);
    if AboutToReadLock(s, kind) {
      if kind.DataReady? { EntryHolds(s, s.pcs[MAIN].fd); }
      ConnHolds(s, s.pcs[MAIN].conn);
    }
    forall t | 0 <= t < |s.pcs| ensures s.pcs[t] != Dangling(kind, c) {
      ThreadHolds(s, t);
    }
  }

  /**
   In any reachable state, a ReadLock the dispatcher is about to make hits a deleted connection exactly
   when it is not the data path's, and the connection's descriptor is closed and nobody is still at
   work shutting it down. On the accept path that takes idle reaping.
   */
  lemma ReadLockHitsDeleted(s: State, kind: Kind)
    requires Reachable(s) && AboutToReadLock(s, kind)
    ensures s.pcs[MAIN].conn in s.conns
    ensures var c := s.pcs[MAIN].conn;
            CanDangle(s) <==> && !kind.DataReady? && !s.conns[c].open
                              && forall t :: 0 <= t < |s.pcs| ==> !ShuttingDown(s, t, c)
    ensures CanDangle(s) && kind.Established? ==> s.maxIdle > 0
  {
    var c := s.pcs[MAIN].conn;
    ThreadHolds(s, MAIN);
    ConnHolds(s, c);
    if kind.DataReady? { EntryHolds(s, s.pcs[MAIN].fd); }
    if s.conns[c].party.Gone? {
      forall t | 0 <= t < |s.pcs| ensures !ShuttingDown(s, t, c) {
        ThreadHolds(s, t);
      }
    } else if s.conns[c].party.At? {
      assert ShuttingDown(s, s.conns[c].party.tid, c);
    }
  }

  /**
   When the dispatcher finds the descriptor in the map, it is about to lock the connection it looked
   up before it had the lock; that connection is not deleted, nobody holds its lock for writing and
   nobody waits to, so ReadLock returns at once although connections_lock_ is held.
   */
  lemma DispatchNeverBlocks(s: State)
    requires Reachable(s) && AboutToDispatch(s)
    ensures CanDataReadLock(s)
    ensures s.registered[s.pcs[MAIN].fd] == s.pcs[MAIN].conn
    ensures forall t :: 0 <= t < |s.pcs| && s.pcs[t].Shutting? && s.pcs[t].conn == s.pcs[MAIN].conn
                        ==> s.pcs[t].phase in {Begin, Scan} || s.pcs[t].phase.Acquire?
  {
    var fd, c := s.pcs[MAIN].fd, s.pcs[MAIN].conn;
    ThreadHolds(s, MAIN);
    EntryHolds(s, fd);
    ConnHolds(s, c);
    forall t | 0 <= t < |s.pcs| && s.pcs[t].Shutting? && s.pcs[t].conn == c
      ensures s.pcs[t].phase in {Begin, Scan} || s.pcs[t].phase.Acquire?
    {
      ThreadHolds(s, t);
    }
  }

  /** With idle reaping off, the accept path's unguarded ReadLock is just as safe. */
  lemma EstablishNeverBlocks(s: State)
    requires Reachable(s) && s.maxIdle <= 0 && Has(s, MAIN) && s.pcs[MAIN].AcceptArmed?
    ensures CanAcceptReadLock(s)
  {
    ThreadHolds(s, MAIN);
    ConnHolds(s, s.pcs[MAIN].conn);
  }

  /**
   The error path has no such check: its ReadLock goes through exactly until a shutdown has the write
   lock, waits while that shutdown is under way, and hits a deleted connection afterwards.
   */
  lemma ErrorLocksExactlyWhileUnlocked(s: State)
    requires Reachable(s) && Has(s, MAIN) && s.pcs[MAIN].ErrorFound?
    ensures s.pcs[MAIN].conn in s.conns
    ensures CanErrorReadLock(s) <==>
              var party := s.conns[s.pcs[MAIN].conn].party;
              !party.Gone? && (party.At? ==> party.tid < |s.pcs| && s.pcs[party.tid].Shutting?
                                             && s.pcs[party.tid].phase !in {LockRaw, Close, Delete})
    ensures CanDangle(s) <==> s.conns[s.pcs[MAIN].conn].party.Gone?
  {
    ThreadHolds(s, MAIN);
    ConnHolds(s, s.pcs[MAIN].conn);
  }

  // ---------------------------------------------------------------- the map and the descriptors

  /** Every entry of the map is an undeleted connection that has this very descriptor open. */
  lemma EntriesAreLive(s: State, fd: Fd)
    requires Reachable(s) && fd in s.registered
    ensures s.registered[fd] in s.conns
    ensures var k := s.conns[s.registered[fd]]; k.open && k.fd == fd && !k.party.Gone? && !k.handle.writer
    ensures forall c :: c in s.conns && s.conns[c].open && s.conns[c].fd == fd ==> c == s.registered[fd]
  {
    EntryHolds(s, fd);
    ConnHolds(s, s.registered[fd]);
    ReachableHolds(s);
  }

  /** An accept never overwrites an entry, although the descriptor is reused. */
  lemma AcceptNeverOverwrites(s: State)
    requires Reachable(s) && CanAcceptInsert(s)
    ensures s.conns[s.pcs[MAIN].conn].fd !in s.registered
  {
    ThreadHolds(s, MAIN);
  }

  /** An erase by descriptor, decided before the lock was taken, never removes another connection. */
  lemma EraseHitsOnlyItsOwn(s: State, t: Tid, fd: Fd)
    requires Reachable(s) && InPhase(s, t, Erase(fd))
    ensures fd in s.registered ==> s.registered[fd] == s.pcs[t].conn
    ensures DoShutErase(s, t, fd).registered
         == map f | f in s.registered && s.registered[f] != s.pcs[t].conn :: s.registered[f]
  {
    var c := s.pcs[t].conn;
    ThreadHolds(s, t);
    ConnHolds(s, c);
    OwnEntry(s, c, fd);
  }

  /** A descriptor is closed only after its entry is gone and, with idle reaping off, epoll stopped watching it. */
  lemma ClosedOnlyWhenDequeued(s: State, t: Tid)
    requires Reachable(s) && InPhase(s, t, Close)
    ensures forall fd :: fd in s.registered ==> s.registered[fd] != s.pcs[t].conn && fd != s.conns[s.pcs[t].conn].fd
    ensures s.maxIdle <= 0 ==> s.conns[s.pcs[t].conn].fd !in s.interest
  {
    var c := s.pcs[t].conn;
    ThreadHolds(s, t);
    ConnHolds(s, c);
    forall fd | fd in s.registered ensures s.registered[fd] != c && fd != s.conns[c].fd {
      EntryHolds(s, fd);
      OpenOnce(s, c, s.registered[fd]);
    }
    InterestHolds(s);
  }

  /**
   With idle reaping off epoll watches exactly the descriptors in the map, but for the one the
   dispatcher has just put there and is about to add.
   */
  lemma WatchedExactlyWhenRegistered(s: State, fd: Fd)
    requires Reachable(s) && s.maxIdle <= 0
    requires Has(s, MAIN) && (s.pcs[MAIN].AcceptInserted? ==> s.conns[s.pcs[MAIN].conn].fd != fd)
    ensures fd in s.interest <==> fd in s.registered
  {
    InterestHolds(s);
  }

  // ---------------------------------------------------------------- the reaper

  lemma IdleTestFrom(s: State, fd: Fd)
    requires |s.pcs| >= FIRST_WORKER && SweepOk(s) && s.clock < U64_MODULUS && Looking(s, fd)
    ensures s.conns[s.registered[fd]].lastUse <= s.tm
    ensures FoundIdle(s, fd) <==> s.maxIdle > 0 && s.tm - s.conns[s.registered[fd]].lastUse > s.maxIdle
  {
  }

  /** The reaper's unsigned subtraction never wraps: idle means unused for more than the limit. */
  lemma IdleTestExact(s: State, fd: Fd)
    requires Reachable(s) && Looking(s, fd)
    ensures s.conns[s.registered[fd]].lastUse <= s.tm
    ensures FoundIdle(s, fd) <==> s.maxIdle > 0 && s.tm - s.conns[s.registered[fd]].lastUse > s.maxIdle
  {
    SweepHolds(s);
    IdleTestFrom(s, fd);
  }

  /** A Shutdown made by the reaper, which holds connections_lock_, never asks for that lock again. */
  lemma ReaperNeverRelocks(s: State)
    requires Reachable(s) && Has(s, REAPER) && s.pcs[REAPER].Shutting?
    ensures s.writer == Some(REAPER)
    ensures !s.pcs[REAPER].phase.Acquire? && !s.pcs[REAPER].phase.Erase?
    ensures forall fd :: !CanShutFound(s, REAPER, fd)
  {
    var c := s.pcs[REAPER].conn;
    ThreadHolds(s, REAPER);
    ConnHolds(s, c);
    forall fd ensures !CanShutFound(s, REAPER, fd) {
      if fd in s.registered {
        EntryHolds(s, fd);
      }
    }
  }

  // ---------------------------------------------------------------- read holds over whole runs

  /** The read locks of connection c this action takes, and those it releases. */
  function Takes(s: State, a: Action, c: ConnId): nat
    requires Enabled(s, a)
  {
    if (a.AcceptReadLock? || a.DataReadLock? || a.ErrorReadLock?) && s.pcs[MAIN].conn == c then 1 else 0
  }

  function Gives(s: State, a: Action, c: ConnId): nat
    requires Enabled(s, a)
  {
    if a.CallUnlock? && s.pcs[a.tid].conn == c then 1 else 0
  }

  function Taken(s: State, actions: seq<Action>, c: ConnId): nat
    requires Run(s, actions).Some?
    decreases |actions|
  {
    if actions == [] then 0 else Takes(s, actions[0], c) + Taken(Do(s, actions[0]), actions[1..], c)
  }

  function Given(s: State, actions: seq<Action>, c: ConnId): nat
    requires Run(s, actions).Some?
    decreases |actions|
  {
    if actions == [] then 0 else Gives(s, actions[0], c) + Given(Do(s, actions[0]), actions[1..], c)
  }

  function Readers(s: State, c: ConnId): nat {
    if c in s.conns then s.conns[c].handle.readers + s.conns[c].raw.readers else 0
  }

  /** The callbacks of any kind for c that are queued, being queued, or running. */
  function AllOutstanding(s: State, c: ConnId): nat {
    Outstanding(s, Established, c) + Outstanding(s, DataReady, c) + Outstanding(s, Error, c)
  }

  lemma UnlockFindsAHold(s: State, t: Tid)
    requires Inv(s) && CanCallUnlock(s, t)
    ensures var k, kind := s.conns[s.pcs[t].conn], s.pcs[t].kind;
            (if OnRaw(k, kind) then k.raw.readers else k.handle.readers) > 0
  {
    var c := s.pcs[t].conn;
    assert HoldsMatch(s, c) by { assert ConnOk(s, c); }
    OwingCounts(s.pcs, t, s.pcs[t].kind, c);
    match s.pcs[t].kind
    case Established =>
    case DataReady =>
    case Error =>
  }

  lemma AcceptingReaders(s: State, a: Action, c: ConnId)
    requires Enabled(s, a) && IsAccepting(a)
    ensures Readers(DoDispatch(s, a), c) == Readers(s, c) + Takes(s, a, c)
  {
  }

  lemma DispatchReaders(s: State, a: Action, c: ConnId)
    requires Enabled(s, a) && IsDispatch(a)
    ensures Readers(DoDispatch(s, a), c) == Readers(s, c) + Takes(s, a, c)
  {
    if IsAccepting(a) { AcceptingReaders(s, a, c); }
  }

  lemma TakeReaders(s: State, t: Tid, task: Task, c: ConnId)
    requires CanTake(s, t, task)
    ensures Readers(DoTake(s, t, task), c) == Readers(s, c)
  {
  }

  lemma HandlingReaders(s: State, a: Action, c: ConnId)
    requires IsHandling(a) && !a.CallUnlock? && CallbackEnabled(s, a)
    ensures Readers(DoCallback(s, a), c) == Readers(s, c)
  {
  }

  lemma UnlockReaders(s: State, t: Tid, c: ConnId)
    requires Inv(s) && CanCallUnlock(s, t)
    ensures Readers(DoCallUnlock(s, t), c) + One(s.pcs[t].conn == c) == Readers(s, c)
  {
    UnlockFindsAHold(s, t);
  }

  lemma ShutdownReaders(s: State, s': State, t: Tid, d: ConnId, c: ConnId)
    requires Shuts(s, s', t, d)
    ensures Readers(s', c) == Readers(s, c)
  {
  }

  lemma ShutdownStepReaders(s: State, a: Action, c: ConnId)
    requires IsShutdownStep(a) && ShutdownEnabled(s, a)
    ensures Readers(DoShutdown(s, a), c) == Readers(s, c)
  {
    var d := ShutdownShuts(s, a);
    ShutdownReaders(s, DoShutdown(s, a), a.tid, d, c);
  }

  lemma ReapingReaders(s: State, a: Action, c: ConnId)
    requires IsReaping(a) && ReapingEnabled(s, a)
    ensures Readers(DoReaping(s, a), c) == Readers(s, c)
  {
    if !a.ReapIdle? { SweepGoesOn(s, a); }
  }

  lemma CallbackReaders(s: State, a: Action, c: ConnId)
    requires Inv(s) && IsCallback(a) && CallbackEnabled(s, a)
    ensures Readers(DoCallback(s, a), c) + One(a.CallUnlock? && s.pcs[a.tid].conn == c) == Readers(s, c)
  {
    if a.TakeTask? {
      TakeReaders(s, a.tid, a.task, c);
    } else if a.CallUnlock? {
      UnlockReaders(s, a.tid, c);
    } else {
      HandlingReaders(s, a, c);
    }
  }

  /** Apart from the ReadLocks and the Unlock no action touches a reader count. */
  lemma ReadersStep(s: State, a: Action, c: ConnId)
    requires Inv(s) && Enabled(s, a)
    ensures Readers(Do(s, a), c) + Gives(s, a, c) == Readers(s, c) + Takes(s, a, c)
  {
    if IsDispatch(a) {
      DispatchReaders(s, a, c);
    } else if IsCallback(a) {
      CallbackReaders(s, a, c);
    } else if IsShutdownStep(a) {
      ShutdownStepReaders(s, a, c);
    } else if IsReaping(a) {
      ReapingReaders(s, a, c);
    }
  }

  lemma ReadersAreOutstanding(s: State, c: ConnId)
    requires Inv(s)
    ensures Readers(s, c) == AllOutstanding(s, c)
  {
    if c in s.conns {
      assert ConnOk(s, c);
    } else {
      forall kind: Kind ensures Outstanding(s, kind, c) == 0 {
        forall t | 0 <= t < |s.pcs| ensures !Owes(s.pcs[t], kind, c) { assert ThreadOk(s, t); }
        NobodyOwes(s.pcs, kind, c);
      }
    }
  }

  lemma {:induction false} ReadersOverRun(s: State, actions: seq<Action>, c: ConnId)
    requires Inv(s) && Run(s, actions).Some?
    ensures Readers(Run(s, actions).value, c) + Given(s, actions, c) == Readers(s, c) + Taken(s, actions, c)
    decreases |actions|
  {
    if actions != [] {
      ReadersStep(s, actions[0], c);
      EveryStepKeeps(s, actions[0]);
      ReadersOverRun(Do(s, actions[0]), actions[1..], c);
    }
  }

  /**
   Over any run from the start, every read lock taken on a connection was released once, or belongs
   to one callback that is still queued, being queued or running.
   */
  lemma HoldsConserved(workers: nat, maxIdle: int, defers: bool, clock: nat, actions: seq<Action>, c: ConnId)
    requires clock < U64_MODULUS && Run(Start(workers, maxIdle, defers, clock), actions).Some?
    ensures var start := Start(workers, maxIdle, defers, clock); var s := Run(start, actions).value;
      && Taken(start, actions, c) == Given(start, actions, c) + AllOutstanding(s, c)
      && Readers(s, c) == AllOutstanding(s, c)
  {
    var start := Start(workers, maxIdle, defers, clock);
    StartHolds(workers, maxIdle, defers, clock);
    ReadersOverRun(start, actions, c);
    RunKeeps(start, actions);
    ReadersAreOutstanding(Run(start, actions).value, c);
  }
}
