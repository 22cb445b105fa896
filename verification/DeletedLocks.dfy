/**
 The dispatcher's ReadLocks that hit a deleted connection: for which callbacks, and in which
 configurations of the server, that happens.
 */
module DeletedLocks {
  import opened Words
  import opened Protocol
  import opened ProtocolInvariant
  import opened ProtocolSteps
  import opened ProtocolSafety
  import opened ProtocolProgress
  import opened Scenarios

  /** A server so configured is about to call ReadLock, for a callback of this kind, on a deleted connection. */
  ghost predicate HitsDeleted(s: State, workers: nat, maxIdle: int, defers: bool, kind: Kind) {
    && Reachable(s) && |s.pcs| == FIRST_WORKER + workers && s.maxIdle == maxIdle && s.defers == defers
    && AboutToReadLock(s, kind) && CanDangle(s)
  }

  // ---------------------------------------------------------------- when nobody else shuts down

  /** Nobody but the dispatcher shuts c down, and not while it has c in hand to report an error on. */
  predicate Unharmed(s: State, c: ConnId) {
    && |s.pcs| >= FIRST_WORKER
    && (c in s.conns ==> !ClaimedByOther(s.conns[c], MAIN))
    && (s.pcs[MAIN] == ErrorFound(c) ==> c in s.conns && s.conns[c].party.Unclaimed?)
  }

  lemma UnharmedByAccepting(s: State, a: Action, c: ConnId)
    requires Unharmed(s, c) && IsAccepting(a) && DispatchEnabled(s, a)
    ensures Unharmed(DoDispatch(s, a), c)
  {
  }

  lemma UnharmedByDispatching(s: State, a: Action, c: ConnId)
    requires Unharmed(s, c) && (IsDispatching(a) || a.DanglingReadLock?) && DispatchEnabled(s, a)
    ensures Unharmed(DoDispatch(s, a), c)
  {
  }

  lemma UnharmedByEvents(s: State, a: Action, c: ConnId)
    requires Unharmed(s, c) && IsEvent(a) && DispatchEnabled(s, a) && s.conns[s.registered[a.fd]].party.Unclaimed?
    ensures Unharmed(DoDispatch(s, a), c)
  {
  }

  lemma UnharmedByHandling(s: State, a: Action, c: ConnId)
    requires !s.defers && Unharmed(s, c) && IsHandling(a) && CallbackEnabled(s, a)
    ensures Unharmed(DoCallback(s, a), c)
  {
  }

  lemma UnharmedBySweep(s: State, s': State, c: ConnId)
    requires Unharmed(s, c) && SweepsOn(s, s')
    ensures Unharmed(s', c)
  {
  }

  lemma UnharmedByReaping(s: State, a: Action, c: ConnId)
    requires s.maxIdle <= 0 && Unharmed(s, c) && IsReaping(a) && ReapingEnabled(s, a)
    ensures Unharmed(DoReaping(s, a), c)
  {
    SweepGoesOn(s, a);
    UnharmedBySweep(s, DoReaping(s, a), c);
  }

  lemma UnharmedByTaking(s: State, t: Tid, task: Task, c: ConnId)
    requires Unharmed(s, c) && CanTake(s, t, task) && PartyOk(s, task.conn)
    ensures Unharmed(DoTake(s, t, task), c)
  {
    assert s.queue[task] > 0;
  }

  lemma UnharmedByShutting(s: State, s': State, t: Tid, d: ConnId, c: ConnId)
    requires Unharmed(s, c) && Shuts(s, s', t, d) && s.conns[d].party == At(t)
    ensures Unharmed(s', c)
  {
  }

  /** What the map has is nobody's to shut down: the dispatcher, here, has no shutdown under way. */
  lemma EventUnclaimed(s: State, a: Action, c: ConnId)
    requires Inv(s) && Enabled(s, a) && IsEvent(a) && forall d :: Unharmed(s, d)
    ensures s.conns[s.registered[a.fd]].party.Unclaimed?
  {
    var d := s.registered[a.fd];
    assert Unharmed(s, d) && EntryOk(s, a.fd) && ConnOk(s, d) && ThreadOk(s, MAIN);
  }

  lemma ShutterIsParty(s: State, t: Tid)
    requires Inv(s) && t < |s.pcs| && s.pcs[t].Shutting?
    ensures s.pcs[t].conn in s.conns && s.conns[s.pcs[t].conn].party == At(t)
  {
    assert ThreadOk(s, t);
  }

  lemma TaskConn(s: State, task: Task)
    requires Inv(s) && task in s.queue
    ensures task.conn in s.conns && PartyOk(s, task.conn)
  {
    assert ConnOk(s, task.conn);
  }

  lemma UnharmedByMain(s: State, a: Action, c: ConnId)
    requires Inv(s) && Enabled(s, a) && IsDispatch(a) && forall d :: Unharmed(s, d)
    ensures Unharmed(DoDispatch(s, a), c)
  {
    if IsAccepting(a) {
      UnharmedByAccepting(s, a, c);
    } else if IsEvent(a) {
      EventUnclaimed(s, a, c);
      UnharmedByEvents(s, a, c);
    } else {
      UnharmedByDispatching(s, a, c);
    }
  }

  lemma UnharmedByCallback(s: State, a: Action, c: ConnId)
    requires Inv(s) && !s.defers && Unharmed(s, c) && IsCallback(a) && CallbackEnabled(s, a)
    ensures Unharmed(DoCallback(s, a), c)
  {
    if a.TakeTask? {
      TaskConn(s, a.task);
      UnharmedByTaking(s, a.tid, a.task, c);
    } else {
      UnharmedByHandling(s, a, c);
    }
  }

  lemma UnharmedByShutdown(s: State, a: Action, c: ConnId)
    requires Inv(s) && Unharmed(s, c) && IsShutdownStep(a) && ShutdownEnabled(s, a)
    ensures Unharmed(DoShutdown(s, a), c)
  {
    var d := ShutdownShuts(s, a);
    ShutterIsParty(s, a.tid);
    UnharmedByShutting(s, DoShutdown(s, a), a.tid, d, c);
  }

  lemma UnharmedByTick(s: State, c: ConnId)
    requires Unharmed(s, c)
    ensures Unharmed(s.(clock := s.clock + 1), c)
  {
  }

  lemma UnharmedStays(s: State, a: Action, c: ConnId)
    requires Inv(s) && s.maxIdle <= 0 && !s.defers && Enabled(s, a) && forall d :: Unharmed(s, d)
    ensures Unharmed(Do(s, a), c)
  {
    if IsDispatch(a) {
      UnharmedByMain(s, a, c);
    } else if IsCallback(a) {
      UnharmedByCallback(s, a, c);
    } else if IsShutdownStep(a) {
      UnharmedByShutdown(s, a, c);
    } else if IsReaping(a) {
      UnharmedByReaping(s, a, c);
    } else {
      UnharmedByTick(s, c);
    }
  }

  lemma {:induction false} UnharmedOverRun(s: State, actions: seq<Action>)
    requires Inv(s) && s.maxIdle <= 0 && !s.defers && Run(s, actions).Some? && forall c :: Unharmed(s, c)
    ensures forall c :: Unharmed(Run(s, actions).value, c)
    decreases |actions|
  {
    if actions != [] {
      var a := actions[0];
      forall c ensures Unharmed(Do(s, a), c) { UnharmedStays(s, a, c); }
      EveryStepKeeps(s, a);
      ConfigurationStays(s, a);
      UnharmedOverRun(Do(s, a), actions[1..]);
    }
  }

  lemma {:induction false} ConfigurationOf(s: State, actions: seq<Action>)
    requires Run(s, actions).Some?
    ensures Run(s, actions).value.maxIdle == s.maxIdle && Run(s, actions).value.defers == s.defers
    decreases |actions|
  {
    if actions != [] {
      ConfigurationStays(s, actions[0]);
      ConfigurationOf(Do(s, actions[0]), actions[1..]);
    }
  }

  /**
   With idle reaping off and handlers that never call DeferredShutdown, a connection the dispatcher has
   found with an error is nobody's to shut down: it is alive, and its ReadLock goes through at once.
   */
  lemma ErrorsAreSafeWithoutDeferral(s: State)
    requires Reachable(s) && s.maxIdle <= 0 && !s.defers && Has(s, MAIN) && s.pcs[MAIN].ErrorFound?
    ensures CanErrorReadLock(s) && s.conns[s.pcs[MAIN].conn].party.Unclaimed?
  {
    var workers: nat, maxIdle: int, defers: bool, clock: nat, actions: seq<Action> :|
      clock < U64_MODULUS && Run(Start(workers, maxIdle, defers, clock), actions) == Some(s);
    var start := Start(workers, maxIdle, defers, clock);
    StartHolds(workers, maxIdle, defers, clock);
    ConfigurationOf(start, actions);
    UnharmedOverRun(start, actions);
    var c := s.pcs[MAIN].conn;
    assert Unharmed(s, c);
    ErrorLocksExactlyWhileUnlocked(s);
  }

  // ---------------------------------------------------------------- where it happens

  /** The reaper picks an idle connection, unlocked, that the dispatcher has in hand. */
  lemma PicksInHand(s: State, workers: nat, maxIdle: int, defers: bool, kind: Kind) returns (end: State)
    requires Reachable(s) && |s.pcs| == FIRST_WORKER + workers && s.maxIdle == maxIdle && s.defers == defers
    requires CanReapIdle(s, FdOf(0)) && s.registered == map[FdOf(0) := 0] && AboutToReadLock(s, kind) && s.pcs[MAIN].conn == 0
    requires !kind.DataReady? && !s.conns[0].decorated && s.conns[0].handle == Mutex(0, false)
    ensures HitsDeleted(end, workers, maxIdle, defers, kind)
  {
    Goes(s, ReapIdle(FdOf(0)), DoReapIdle(s, FdOf(0)));
    end := DeletesInHand(DoReapIdle(s, FdOf(0)), workers, maxIdle, defers, kind);
  }

  lemma DeletesInHand(s: State, workers: nat, maxIdle: int, defers: bool, kind: Kind) returns (end: State)
    requires Reachable(s) && |s.pcs| == FIRST_WORKER + workers && s.maxIdle == maxIdle && s.defers == defers
    requires s.pcs[REAPER] == Shutting(0, Begin) && s.registered == map[] && AboutToReadLock(s, kind) && s.pcs[MAIN].conn == 0
    requires !kind.DataReady? && 0 in s.conns && !s.conns[0].decorated && s.conns[0].handle == Mutex(0, false)
    ensures HitsDeleted(end, workers, maxIdle, defers, kind)
  {
    end := ReaperDeletes(s, 0);
  }

  /** With a limit, an accepted connection can become idle and be reaped before it is announced. */
  lemma ReapedBeforeAnnounced(workers: nat, maxIdle: int, defers: bool) returns (end: State)
    requires 0 < maxIdle < U64_MODULUS - 1
    ensures HitsDeleted(end, workers, maxIdle, defers, Established)
  {
    var start := Start(workers, maxIdle, defers, 0);
    StartIsCalm(workers, maxIdle, defers);
    Accepts(start, 0, false);
    Ages(Accepted(start, 0, false), maxIdle + 1);
    var s1 := Accepted(start, 0, false).(clock := maxIdle + 1);
    SweepsInHand(s1, Established);
    end := PicksInHand(Swept(s1), workers, maxIdle, defers, Established);
  }

  /** A sweep finds it idle. */
  lemma SweepsInHand(s: State, kind: Kind)
    requires Reachable(s) && |s.pcs| >= FIRST_WORKER && s.pcs[REAPER].Ready? && RegistryFree(s)
    requires s.registered == map[FdOf(0) := 0] && AboutToReadLock(s, kind) && !kind.DataReady? && 0 in s.conns
    requires !s.conns[0].flagged && s.conns[0].lastUse == 0 && s.conns[0].party.Unclaimed?
    requires 0 < s.maxIdle < s.clock < U64_MODULUS
    ensures Reachable(Swept(s)) && CanReapIdle(Swept(s), FdOf(0)) && AboutToReadLock(Swept(s), kind)
  {
    Sweeps(s);
  }

  lemma FindsError(s: State, c: ConnId)
    requires Calm(s) && FdOf(c) in s.registered && s.registered[FdOf(c)] == c && c in s.conns
    ensures Reachable(s.(pcs := s.pcs[MAIN := ErrorFound(c)]))
  {
    Goes(s, ErrorEvent(FdOf(c)), s.(pcs := s.pcs[MAIN := ErrorFound(c)]));
  }

  /** With a limit, a connection can be reaped while the dispatcher goes to report an error on it. */
  lemma ReapedBeforeError(workers: nat, maxIdle: int, defers: bool) returns (end: State)
    requires workers > 0 && 0 < maxIdle < U64_MODULUS - 1
    ensures HitsDeleted(end, workers, maxIdle, defers, Error)
  {
    var start := Start(workers, maxIdle, defers, 0);
    StartIsCalm(workers, maxIdle, defers);
    Completes(start, 0, FIRST_WORKER);
    FindsError(With(start, 0, 0, Unclaimed, multiset{}), 0);
    var s1 := With(start, 0, 0, Unclaimed, multiset{}).(pcs := start.pcs[MAIN := ErrorFound(0)]);
    Ages(s1, maxIdle + 1);
    var s2 := s1.(clock := maxIdle + 1);
    SweepsInHand(s2, Error);
    end := PicksInHand(Swept(s2), workers, maxIdle, defers, Error);
  }

  /** With DeferredShutdown, a worker can delete a connection while the dispatcher goes to report an error on it. */
  lemma ShutDownBeforeError(workers: nat, maxIdle: int) returns (end: State)
    requires workers > 0
    ensures HitsDeleted(end, workers, maxIdle, true, Error)
  {
    var start := Start(workers, maxIdle, true, 0);
    StartIsCalm(workers, maxIdle, true);
    Requests(start, 0, FIRST_WORKER);
    FindsError(With(start, 0, 0, Queued, multiset{Deferred(0)}), 0);
    var s1 := With(start, 0, 0, Queued, multiset{Deferred(0)}).(pcs := start.pcs[MAIN := ErrorFound(0)]);
    end := DeletesBeforeError(s1, workers, maxIdle);
  }

  lemma DeletesBeforeError(s1: State, workers: nat, maxIdle: int) returns (end: State)
    requires Reachable(s1) && |s1.pcs| == FIRST_WORKER + workers && workers > 0 && s1.maxIdle == maxIdle && s1.defers
    requires s1.pcs[MAIN] == ErrorFound(0) && s1.pcs[FIRST_WORKER].Ready? && Deferred(0) in s1.queue && RegistryFree(s1)
    requires 0 in s1.conns && !s1.conns[0].decorated && s1.conns[0].handle == Mutex(0, false)
    requires FdOf(0) in s1.registered && s1.registered[FdOf(0)] == 0
    ensures HitsDeleted(end, workers, maxIdle, true, Error)
  {
    var s2 := DoTake(s1, FIRST_WORKER, Deferred(0));
    Goes(s1, TakeTask(FIRST_WORKER, Deferred(0)), s2);
    end := WorkerDeletes(s2, FIRST_WORKER, 0, FdOf(0));
  }

  /**
   The configurations in which some run brings the dispatcher to call ReadLock on a deleted connection:
   never for data; for a new connection exactly those with idle reaping on; for an error exactly those
   with idle reaping on or with handlers that call DeferredShutdown. A server that listens has a worker,
   for epoll_create refuses 0, and max_idle_ is an int.
   */
  lemma HitsDeletedExactly(workers: nat, maxIdle: int, defers: bool, kind: Kind)
    requires workers > 0 && maxIdle < 0x8000_0000
    ensures (exists s :: HitsDeleted(s, workers, maxIdle, defers, kind)) <==>
            match kind
            case Established => maxIdle > 0
            case DataReady => false
            case Error => maxIdle > 0 || defers
  {
    if s :| HitsDeleted(s, workers, maxIdle, defers, kind) {
      ReadLockHitsDeleted(s, kind);
      if kind.Error? && maxIdle <= 0 && !defers { ErrorsAreSafeWithoutDeferral(s); }
    }
    if (kind.Established? && maxIdle > 0) || (kind.Error? && (maxIdle > 0 || defers)) {
      HappensWhereItCan(workers, maxIdle, defers, kind);
    }
  }

  lemma HappensWhereItCan(workers: nat, maxIdle: int, defers: bool, kind: Kind)
    requires workers > 0 && maxIdle < 0x8000_0000
    requires (kind.Established? && maxIdle > 0) || (kind.Error? && (maxIdle > 0 || defers))
    ensures exists s :: HitsDeleted(s, workers, maxIdle, defers, kind)
  {
    if kind.Established? {
      var s := ReapedBeforeAnnounced(workers, maxIdle, defers);
    } else if maxIdle > 0 {
      var s := ReapedBeforeError(workers, maxIdle, defers);
    } else {
      var s := ShutDownBeforeError(workers, maxIdle);
    }
  }
}
