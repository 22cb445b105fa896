/**
 What one step changes, seen from outside: whose it is, and what it leaves alone.
 */
module ProtocolSteps {
  import opened Protocol

  // ---------------------------------------------------------------- whose step it is

  /** The thread that takes the step; the clock's is nobody's. */
  function Actor(a: Action): Tid {
    if IsDispatch(a) then MAIN else if IsCallback(a) || IsShutdownStep(a) then a.tid else REAPER
  }

  /** No other thread moves, and the configuration stays. */
  predicate ByThread(s: State, s': State, t: Tid) {
    && |s'.pcs| == |s.pcs| && (forall u :: 0 <= u < |s.pcs| && u != t ==> s'.pcs[u] == s.pcs[u])
    && s'.maxIdle == s.maxIdle && s'.defers == s.defers
  }

  lemma AcceptingIsByMain(s: State, a: Action)
    requires IsAccepting(a) && DispatchEnabled(s, a)
    ensures ByThread(s, DoDispatch(s, a), MAIN)
  {
  }

  lemma DispatchingIsByMain(s: State, a: Action)
    requires IsDispatch(a) && !IsAccepting(a) && DispatchEnabled(s, a)
    ensures ByThread(s, DoDispatch(s, a), MAIN)
  {
  }

  lemma CallbackIsByWorker(s: State, a: Action)
    requires IsCallback(a) && CallbackEnabled(s, a)
    ensures ByThread(s, DoCallback(s, a), a.tid)
  {
  }

  lemma ReapingIsByReaper(s: State, a: Action)
    requires IsReaping(a) && ReapingEnabled(s, a)
    ensures ByThread(s, DoReaping(s, a), REAPER)
  {
  }

  /** Every step is one thread's. */
  lemma StepIsByActor(s: State, a: Action)
    requires Enabled(s, a)
    ensures ByThread(s, Do(s, a), Actor(a))
  {
    if IsAccepting(a) {
      AcceptingIsByMain(s, a);
    } else if IsDispatch(a) {
      DispatchingIsByMain(s, a);
    } else if IsCallback(a) {
      CallbackIsByWorker(s, a);
    } else if IsShutdownStep(a) {
      var c := ShutdownShuts(s, a);
    } else if IsReaping(a) {
      ReapingIsByReaper(s, a);
    }
  }

  /** The dispatcher, the reaper and the clock leave the workers where they are. */
  lemma WorkersStay(s: State, a: Action, t: Tid)
    requires Enabled(s, a) && !IsCallback(a) && !IsShutdownStep(a) && FIRST_WORKER <= t < |s.pcs|
    ensures |Do(s, a).pcs| == |s.pcs| && Do(s, a).pcs[t] == s.pcs[t]
  {
    StepIsByActor(s, a);
  }

  // ---------------------------------------------------------------- a shutdown

  predicate ShuttingDown(s: State, t: Tid, c: ConnId) {
    t < |s.pcs| && s.pcs[t].Shutting? && s.pcs[t].conn == c
  }

  lemma ShutdownSubject(s: State, a: Action) returns (c: ConnId)
    requires IsShutdownStep(a) && ShutdownEnabled(s, a)
    ensures ShuttingDown(s, a.tid, c) && c in s.conns
  {
    c := s.pcs[a.tid].conn;
  }

  /** The steps a shutdown here may still need. */
  function PhaseWeight(phase: Phase): nat {
    match phase
    case Begin => 8
    case Scan => 7
    case Acquire(_) => 6
    case Erase(_) => 5
    case LockHandle => 4
    case LockRaw => 3
    case Close => 2
    case Delete => 1
  }

  /** The map loses entries at most. */
  predicate Shrinks(s: State, s': State) {
    forall fd :: fd in s'.registered ==> fd in s.registered && s'.registered[fd] == s.registered[fd]
  }

  /** Thread t goes on with its shutdown of c, or ends it by deleting c. */
  predicate GoesOn(s: State, s': State, t: Tid, c: ConnId)
    requires t < |s.pcs| && s.pcs[t].Shutting? && c in s.conns && c in s'.conns
  {
    && |s'.pcs| == |s.pcs|
    && if s.pcs[t].phase.Delete? then s'.pcs[t] == (if t == REAPER then Sweeping else Ready) && s'.conns[c].party.Gone?
       else && ShuttingDown(s', t, c) && PhaseWeight(s'.pcs[t].phase) < PhaseWeight(s.pcs[t].phase)
            && s'.conns[c].party == s.conns[c].party
  }

  /** Nobody's read hold on either lock goes or comes. */
  predicate SameReaders(k: Conn, k': Conn) {
    k'.handle.readers == k.handle.readers && k'.raw.readers == k.raw.readers
  }

  /** A step of thread t's shutdown of c. */
  predicate Shuts(s: State, s': State, t: Tid, c: ConnId) {
    && ShuttingDown(s, t, c) && c in s.conns && c in s'.conns
    && GoesOn(s, s', t, c)
    && s'.pcs == s.pcs[t := s'.pcs[t]]
    && s'.conns == s.conns[c := s'.conns[c]]
    && s'.conns[c].lastUse == s.conns[c].lastUse && SameReaders(s.conns[c], s'.conns[c])
    && s'.conns[c].fd == s.conns[c].fd && s'.conns[c].decorated == s.conns[c].decorated
    && (s.conns[c].flagged && !s.pcs[t].phase.Begin? ==> s'.conns[c].flagged)
    && Shrinks(s, s') && (!s.pcs[t].phase.Erase? ==> s'.registered == s.registered)
    && s'.queue == s.queue && s'.todo == s.todo && s'.tm == s.tm && s'.maxIdle == s.maxIdle && s'.defers == s.defers
  }

  lemma DeregisteringShuts(s: State, a: Action)
    requires IsDeregistering(a) && !a.ShutErase? && ShutdownEnabled(s, a)
    ensures Shuts(s, DoShutdown(s, a), a.tid, s.pcs[a.tid].conn)
  {
  }

  lemma EraseShuts(s: State, t: Tid, fd: Fd)
    requires InPhase(s, t, Erase(fd))
    ensures Shuts(s, DoShutErase(s, t, fd), t, s.pcs[t].conn)
  {
  }

  lemma LockingShuts(s: State, a: Action)
    requires IsLocking(a) && ShutdownEnabled(s, a)
    ensures Shuts(s, DoShutdown(s, a), a.tid, s.pcs[a.tid].conn)
  {
  }

  lemma DestroyingShuts(s: State, a: Action)
    requires IsDestroying(a) && ShutdownEnabled(s, a)
    ensures Shuts(s, DoShutdown(s, a), a.tid, s.pcs[a.tid].conn)
  {
  }

  /** Each of its steps is one. */
  lemma ShutdownShuts(s: State, a: Action) returns (c: ConnId)
    requires IsShutdownStep(a) && ShutdownEnabled(s, a)
    ensures Shuts(s, DoShutdown(s, a), a.tid, c)
  {
    if a.ShutErase? {
      EraseShuts(s, a.tid, a.fd);
    } else if IsDeregistering(a) {
      DeregisteringShuts(s, a);
    } else if IsLocking(a) {
      LockingShuts(s, a);
    } else {
      DestroyingShuts(s, a);
    }
    c := s.pcs[a.tid].conn;
  }

  lemma DispatchIsStep(s: State, a: Action)
    requires IsDispatch(a) && Enabled(s, a)
    ensures DispatchEnabled(s, a) && Do(s, a) == DoDispatch(s, a)
  {
  }

  lemma CallbackIsStep(s: State, a: Action)
    requires IsCallback(a) && Enabled(s, a)
    ensures CallbackEnabled(s, a) && Do(s, a) == DoCallback(s, a)
  {
  }

  /** Such a step is possible, and this is where it leads. */
  lemma ShutdownIsStep(s: State, a: Action)
    requires IsShutdownStep(a) && ShutdownEnabled(s, a)
    ensures Enabled(s, a) && Do(s, a) == DoShutdown(s, a)
  {
  }

  // ---------------------------------------------------------------- the reaper

  /** The reaper goes on with its sweep, or between two, and leaves the connections alone. */
  predicate SweepsOn(s: State, s': State) {
    && REAPER < |s.pcs| == |s'.pcs| && s'.pcs == s.pcs[REAPER := s'.pcs[REAPER]]
    && !s.pcs[REAPER].Shutting? && !s'.pcs[REAPER].Shutting?
    && s'.conns == s.conns && s'.queue == s.queue && Shrinks(s, s')
  }

  lemma ReapingIsStep(s: State, a: Action)
    requires IsReaping(a) && Enabled(s, a)
    ensures ReapingEnabled(s, a) && Do(s, a) == DoReaping(s, a)
  {
  }

  lemma SweepGoesOn(s: State, a: Action)
    requires IsReaping(a) && !a.ReapIdle? && ReapingEnabled(s, a)
    ensures SweepsOn(s, DoReaping(s, a))
  {
    assert s.pcs == s.pcs[REAPER := s.pcs[REAPER]];
  }
}
