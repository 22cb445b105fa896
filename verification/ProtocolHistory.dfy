/**
 What the past says about a state: each connection is what it was accepted as, and what a sweep of the
 reaper has left in the map is what was in use.
 */
module ProtocolHistory {
  import opened Words
  import opened Protocol
  import opened ProtocolSteps
  import opened ProtocolInvariant
  import opened ProtocolSafety

  // ---------------------------------------------------------------- what a connection was accepted as

  /** The same connections, with the same descriptors, decorated or not. */
  predicate SameConnections(s: State, s': State) {
    && s'.conns.Keys == s.conns.Keys
    && forall c :: c in s.conns ==> s'.conns[c].fd == s.conns[c].fd && s'.conns[c].decorated == s.conns[c].decorated
  }

  lemma AcceptingAcceptsNone(s: State, a: Action)
    requires IsAccepting(a) && !a.Accept? && DispatchEnabled(s, a)
    ensures SameConnections(s, DoDispatch(s, a))
  {
  }

  lemma DispatchAcceptsNone(s: State, a: Action)
    requires IsDispatch(a) && !a.Accept? && DispatchEnabled(s, a)
    ensures SameConnections(s, DoDispatch(s, a))
  {
    if IsAccepting(a) { AcceptingAcceptsNone(s, a); }
  }

  lemma TakingAcceptsNone(s: State, t: Tid, task: Task)
    requires CanTake(s, t, task)
    ensures SameConnections(s, DoTake(s, t, task))
  {
  }

  lemma CallbackAcceptsNone(s: State, a: Action)
    requires IsCallback(a) && CallbackEnabled(s, a)
    ensures SameConnections(s, DoCallback(s, a))
  {
    if a.TakeTask? { TakingAcceptsNone(s, a.tid, a.task); }
  }

  lemma ShutdownAcceptsNone(s: State, a: Action)
    requires IsShutdownStep(a) && ShutdownEnabled(s, a)
    ensures SameConnections(s, DoShutdown(s, a))
  {
    var c := ShutdownShuts(s, a);
  }

  lemma ReapingAcceptsNone(s: State, a: Action)
    requires IsReaping(a) && ReapingEnabled(s, a)
    ensures SameConnections(s, DoReaping(s, a))
  {
    if !a.ReapIdle? { SweepGoesOn(s, a); }
  }

  lemma OnlyAcceptAccepts(s: State, a: Action)
    requires Enabled(s, a) && !a.Accept?
    ensures SameConnections(s, Do(s, a))
  {
    if IsDispatch(a) {
      DispatchAcceptsNone(s, a);
    } else if IsCallback(a) {
      CallbackAcceptsNone(s, a);
    } else if IsShutdownStep(a) {
      ShutdownAcceptsNone(s, a);
    } else if IsReaping(a) {
      ReapingAcceptsNone(s, a);
    }
  }

  /** The action accepts connection c. */
  predicate Accepts(a: Action, c: ConnId) {
    a.Accept? && a.conn == c
  }

  /** Connection c is there exactly if one of the actions accepted it, and as that action accepted it. */
  predicate AsAccepted(s: State, actions: seq<Action>, c: ConnId) {
    && (c in s.conns <==> exists k :: 0 <= k < |actions| && Accepts(actions[k], c))
    && forall k :: 0 <= k < |actions| && Accepts(actions[k], c) ==>
         c in s.conns && s.conns[c].fd == actions[k].fd && s.conns[c].decorated == actions[k].decorated
  }

  /** It stays what it is. */
  predicate AsBefore(s: State, end: State, actions: seq<Action>, c: ConnId) {
    c in s.conns ==>
      && c in end.conns && end.conns[c].fd == s.conns[c].fd && end.conns[c].decorated == s.conns[c].decorated
      && forall k :: 0 <= k < |actions| ==> !Accepts(actions[k], c)
  }

  lemma AcceptsAs(s: State, a: Action, c: ConnId)
    requires Enabled(s, a)
    ensures c in s.conns ==> !Accepts(a, c) && AsBefore(s, Do(s, a), [], c)
    ensures c !in s.conns ==> (c in Do(s, a).conns <==> Accepts(a, c))
    ensures Accepts(a, c) ==> Do(s, a).conns[c].fd == a.fd && Do(s, a).conns[c].decorated == a.decorated
  {
    if !a.Accept? { OnlyAcceptAccepts(s, a); }
  }

  lemma AsBeforeFurther(s: State, a: Action, end: State, rest: seq<Action>, c: ConnId)
    requires Enabled(s, a) && AsBefore(Do(s, a), end, rest, c)
    requires c !in Do(s, a).conns ==> AsAccepted(end, rest, c)
    ensures AsBefore(s, end, [a] + rest, c)
    ensures c !in s.conns ==> AsAccepted(end, [a] + rest, c)
  {
    AcceptsAs(s, a, c);
    var actions := [a] + rest;
    assert actions[0] == a && forall k :: 0 <= k < |rest| ==> actions[k + 1] == rest[k];
    if c !in Do(s, a).conns && exists k :: 0 <= k < |rest| && Accepts(rest[k], c) {
      var k :| 0 <= k < |rest| && Accepts(rest[k], c);
      assert Accepts(actions[k + 1], c);
    }
    if c !in s.conns && c in Do(s, a).conns { assert Accepts(actions[0], c); }
  }

  lemma {:induction false} AcceptedOverRun(s: State, actions: seq<Action>, c: ConnId)
    requires Run(s, actions).Some?
    ensures AsBefore(s, Run(s, actions).value, actions, c)
    ensures c !in s.conns ==> AsAccepted(Run(s, actions).value, actions, c)
    decreases |actions|
  {
    if actions != [] {
      AcceptedOverRun(Do(s, actions[0]), actions[1..], c);
      AsBeforeFurther(s, actions[0], Run(s, actions).value, actions[1..], c);
      assert [actions[0]] + actions[1..] == actions;
    }
  }

  /**
   Over any run from the start: a connection is there if and only if the run accepted it, it is decorated
   if and only if it was accepted so, and its descriptor is the one it was accepted on.
   */
  lemma AcceptedAs(workers: nat, maxIdle: int, defers: bool, clock: nat, actions: seq<Action>, c: ConnId)
    requires Run(Start(workers, maxIdle, defers, clock), actions).Some?
    ensures var s := Run(Start(workers, maxIdle, defers, clock), actions).value;
      && (c in s.conns <==> exists k :: 0 <= k < |actions| && Accepts(actions[k], c))
      && (c in s.conns && s.conns[c].decorated
          <==> exists k :: 0 <= k < |actions| && Accepts(actions[k], c) && actions[k].decorated)
      && forall k :: 0 <= k < |actions| && Accepts(actions[k], c) ==> c in s.conns && s.conns[c].fd == actions[k].fd
  {
    AcceptedOverRun(Start(workers, maxIdle, defers, clock), actions, c);
  }

  // ---------------------------------------------------------------- what may come at any time

  /**
   Whatever the workers and the reaper are at, a dispatcher that looks for events can take any: data and
   errors on any entry of the map, a hang-up unless somebody else is to shut the connection down, and a
   new connection on any descriptor that is not open.
   */
  lemma EventsAreTaken(s: State, fd: Fd)
    requires Reachable(s) && MAIN < |s.pcs| && s.pcs[MAIN].Ready? && fd > 0 && fd in s.registered
    ensures Enabled(s, DataEvent(fd)) && Enabled(s, ErrorEvent(fd))
    ensures NobodyShuts(s, s.registered[fd]) ==> Enabled(s, Hangup(fd))
  {
    EntryHolds(s, fd);
    ConnHolds(s, s.registered[fd]);
    UnclaimedWhenNobodyShuts(s, s.registered[fd]);
  }

  lemma ConnectionsAreTaken(s: State, fd: Fd, c: ConnId, decorated: bool)
    requires Reachable(s) && MAIN < |s.pcs| && s.pcs[MAIN].Ready? && c !in s.conns
    requires forall d :: d in s.conns && s.conns[d].open ==> s.conns[d].fd != fd
    ensures Enabled(s, Accept(fd, c, decorated))
  {
    ThreadHolds(s, MAIN);
  }

  predicate NobodyShuts(s: State, c: ConnId) {
    Deferred(c) !in s.queue && forall t :: 0 <= t < |s.pcs| ==> !ShuttingDown(s, t, c)
  }

  lemma UnclaimedWhenNobodyShuts(s: State, c: ConnId)
    requires c in s.conns && PartyOk(s, c)
    ensures NobodyShuts(s, c) ==> !ClaimedByOther(s.conns[c], MAIN)
  {
    if s.conns[c].party.At? { assert ShuttingDown(s, s.conns[c].party.tid, c); }
  }

  /**
   A handler may use its connection, return, and, in a service that does so at all, ask for the
   connection's shutdown, exactly as long as nobody shuts it down or is to.
   */
  lemma HandlersAreFree(s: State, t: Tid)
    requires Reachable(s) && InHandler(s, t)
    ensures Enabled(s, HandlerUse(t)) && Enabled(s, HandlerReturn(t))
    ensures Enabled(s, HandlerDefer(t)) <==> s.defers && NobodyShuts(s, s.pcs[t].conn)
  {
    var c := s.pcs[t].conn;
    ConnHolds(s, c);
    RunningKeepsAlive(s, t);
    forall u | ShuttingDown(s, u, c) ensures s.conns[c].party == At(u) { ThreadHolds(s, u); }
    UnclaimedExactly(s, c);
  }

  lemma UnclaimedExactly(s: State, c: ConnId)
    requires c in s.conns && PartyOk(s, c) && !s.conns[c].party.Gone?
    requires forall u :: ShuttingDown(s, u, c) ==> s.conns[c].party == At(u)
    ensures s.conns[c].party.Unclaimed? <==> NobodyShuts(s, c)
  {
    if s.conns[c].party.At? { assert ShuttingDown(s, s.conns[c].party.tid, c); }
  }

  /** While a callback runs its connection is not deleted. */
  lemma RunningKeepsAlive(s: State, t: Tid)
    requires InHandler(s, t) && ConnOk(s, s.pcs[t].conn)
    ensures !s.conns[s.pcs[t].conn].party.Gone?
  {
    OwingCounts(s.pcs, t, s.pcs[t].kind, s.pcs[t].conn);
    match s.pcs[t].kind
    case Established =>
    case DataReady =>
    case Error =>
  }

  // ---------------------------------------------------------------- what a sweep leaves

  /** The connection was last used more than the limit before this time. */
  predicate IdleAt(maxIdle: int, now: nat, k: Conn) {
    maxIdle > 0 && now - k.lastUse > maxIdle
  }

  /** The reaper is in the middle of a sweep. */
  predicate InSweep(s: State) {
    REAPER < |s.pcs| && (s.pcs[REAPER].Sweeping? || s.pcs[REAPER].Shutting?)
  }

  /** What the other threads leave alone meanwhile. */
  predicate SweepUndisturbed(s: State, s': State) {
    && (InSweep(s) ==> InSweep(s'))
    && s'.registered == s.registered && s'.todo == s.todo && s'.tm == s.tm && s'.maxIdle == s.maxIdle
    && forall c :: c in s.conns ==> c in s'.conns && s'.conns[c].lastUse == s.conns[c].lastUse
                                    && (s.conns[c].flagged ==> s'.conns[c].flagged)
  }

  lemma ReaperHoldsLock(s: State)
    requires Inv(s) && InSweep(s)
    ensures s.writer == Some(REAPER) && s.readers == {}
  {
    assert ThreadOk(s, REAPER);
  }

  lemma AcceptingLeavesSweep(s: State, a: Action)
    requires MAIN < |s.pcs| && ThreadOk(s, MAIN) && s.writer == Some(REAPER) && IsAccepting(a) && DispatchEnabled(s, a)
    ensures SweepUndisturbed(s, DoDispatch(s, a))
  {
  }

  lemma DispatchLeavesSweep(s: State, a: Action)
    requires MAIN < |s.pcs| && ThreadOk(s, MAIN) && s.writer == Some(REAPER) && IsDispatch(a) && DispatchEnabled(s, a)
    ensures SweepUndisturbed(s, DoDispatch(s, a))
  {
    if IsAccepting(a) { AcceptingLeavesSweep(s, a); }
  }

  lemma TakingLeavesSweep(s: State, t: Tid, task: Task)
    requires CanTake(s, t, task)
    ensures SweepUndisturbed(s, DoTake(s, t, task))
  {
  }

  /** Nobody is in a handler, so no use is noted. */
  lemma CallbackLeavesSweep(s: State, a: Action)
    requires IsCallback(a) && CallbackEnabled(s, a) && ThreadOk(s, a.tid) && s.readers == {}
    ensures SweepUndisturbed(s, DoCallback(s, a))
  {
    if a.TakeTask? { TakingLeavesSweep(s, a.tid, a.task); }
  }

  lemma ShutdownLeavesSweep(s: State, a: Action)
    requires Inv(s) && InSweep(s) && IsShutdownStep(a) && ShutdownEnabled(s, a)
    ensures SweepUndisturbed(s, DoShutdown(s, a))
  {
    var c := ShutdownShuts(s, a);
    ShutterInSweep(s, a.tid, c);
    ShuttingLeavesSweep(s, DoShutdown(s, a), a.tid, c);
  }

  /** A shutdown does not touch the map meanwhile, and a flag it is about to set is not set yet. */
  lemma ShutterInSweep(s: State, t: Tid, c: ConnId)
    requires Inv(s) && InSweep(s) && ShuttingDown(s, t, c)
    ensures c in s.conns && !s.pcs[t].phase.Erase? && (s.pcs[t].phase.Begin? ==> !s.conns[c].flagged)
  {
    ReaperHoldsLock(s);
    assert ThreadOk(s, t) && ConnOk(s, c);
  }

  lemma ShuttingLeavesSweep(s: State, s': State, t: Tid, c: ConnId)
    requires Shuts(s, s', t, c) && !s.pcs[t].phase.Erase? && (s.pcs[t].phase.Begin? ==> !s.conns[c].flagged)
    ensures SweepUndisturbed(s, s')
  {
  }

  /** Where the sweep that began in s0 stands: what is left and looked at was in use, what is gone was not. */
  predicate SweptSoFar(s0: State, s: State) {
    && s.tm == s0.clock && s.maxIdle == s0.maxIdle && Shrinks(s0, s)
    && (forall c :: c in s0.conns ==> c in s.conns && s.conns[c].lastUse == s0.conns[c].lastUse
                                      && (s0.conns[c].flagged ==> s.conns[c].flagged))
    && (forall fd :: fd in s0.registered ==> s0.registered[fd] in s0.conns && EntrySwept(s0, s, fd))
  }

  predicate EntrySwept(s0: State, s: State, fd: Fd)
    requires fd in s0.registered && s0.registered[fd] in s0.conns
  {
    var c := s0.registered[fd];
    var idle := IdleAt(s0.maxIdle, s0.clock, s0.conns[c]);
    if fd in s.registered then fd in s.todo || !(idle || s0.conns[c].flagged)
    else idle || (c in s.conns && s.conns[c].flagged)
  }

  lemma SweptByOthers(s0: State, s: State, s': State)
    requires SweptSoFar(s0, s) && SweepUndisturbed(s, s')
    ensures SweptSoFar(s0, s')
  {
    forall fd | fd in s0.registered ensures EntrySwept(s0, s', fd) { assert EntrySwept(s0, s, fd); }
  }

  lemma SweptBySkip(s0: State, s: State, fd: Fd)
    requires SweptSoFar(s0, s) && |s.pcs| >= FIRST_WORKER && SweepOk(s) && s.clock < U64_MODULUS && CanReapSkip(s, fd)
    ensures SweptSoFar(s0, DoReapSkip(s, fd))
  {
    IdleTestFrom(s, fd);
    forall f | f in s0.registered ensures EntrySwept(s0, DoReapSkip(s, fd), f) { assert EntrySwept(s0, s, f); }
  }

  lemma SweptByErase(s0: State, s: State, fd: Fd)
    requires SweptSoFar(s0, s) && CanReapErase(s, fd)
    ensures SweptSoFar(s0, DoReapErase(s, fd))
  {
    forall f | f in s0.registered ensures EntrySwept(s0, DoReapErase(s, fd), f) { assert EntrySwept(s0, s, f); }
  }

  lemma SweptByIdle(s0: State, s: State, fd: Fd)
    requires SweptSoFar(s0, s) && |s.pcs| >= FIRST_WORKER && SweepOk(s) && s.clock < U64_MODULUS && CanReapIdle(s, fd)
    ensures SweptSoFar(s0, DoReapIdle(s, fd))
  {
    IdleTestFrom(s, fd);
    forall f | f in s0.registered ensures EntrySwept(s0, DoReapIdle(s, fd), f) { assert EntrySwept(s0, s, f); }
  }

  lemma SweptByReaper(s0: State, s: State, a: Action)
    requires Inv(s) && InSweep(s) && SweptSoFar(s0, s) && IsReaping(a) && !a.ReapDone? && ReapingEnabled(s, a)
    ensures InSweep(DoReaping(s, a)) && SweptSoFar(s0, DoReaping(s, a))
  {
    match a
    case ReapSkip(fd) => SweptBySkip(s0, s, fd);
    case ReapErase(fd) => SweptByErase(s0, s, fd);
    case ReapIdle(fd) => SweptByIdle(s0, s, fd);
    case _ => assert false;
  }

  lemma OthersLeaveSweep(s: State, a: Action)
    requires Inv(s) && InSweep(s) && Enabled(s, a) && !IsReaping(a)
    ensures SweepUndisturbed(s, Do(s, a))
  {
    ReaperHoldsLock(s);
    if IsDispatch(a) {
      assert ThreadOk(s, MAIN);
      DispatchLeavesSweep(s, a);
    } else if IsCallback(a) {
      assert ThreadOk(s, a.tid);
      CallbackLeavesSweep(s, a);
    } else if IsShutdownStep(a) {
      ShutdownLeavesSweep(s, a);
    }
  }

  lemma SweptByStep(s0: State, s: State, a: Action)
    requires Inv(s) && InSweep(s) && SweptSoFar(s0, s) && Enabled(s, a) && !a.ReapDone?
    ensures InSweep(Do(s, a)) && SweptSoFar(s0, Do(s, a))
  {
    if IsReaping(a) {
      ReapingIsStep(s, a);
      SweptByReaper(s0, s, a);
    } else {
      OthersLeaveSweep(s, a);
      SweptByOthers(s0, s, Do(s, a));
    }
  }

  lemma {:induction false} SweptOverRun(s0: State, s: State, actions: seq<Action>)
    requires Inv(s) && InSweep(s) && SweptSoFar(s0, s) && Run(s, actions).Some?
    requires forall k :: 0 <= k < |actions| ==> !actions[k].ReapDone?
    ensures Inv(Run(s, actions).value) && SweptSoFar(s0, Run(s, actions).value)
    decreases |actions|
  {
    if actions != [] {
      EveryStepKeeps(s, actions[0]);
      SweptByStep(s0, s, actions[0]);
      SweptOverRun(s0, Do(s, actions[0]), actions[1..]);
    }
  }

  lemma SweepBegins(s: State)
    requires Inv(s) && CanReapLock(s)
    ensures InSweep(DoReapLock(s)) && SweptSoFar(s, DoReapLock(s))
  {
    forall fd | fd in s.registered ensures s.registered[fd] in s.conns { assert EntryOk(s, fd); }
  }

  /**
   One sweep of the reaper, whatever the other threads do meanwhile: when it is done, every entry that
   was idle or shut down at its beginning is gone; an entry that is gone was idle then, or has been shut
   down; and what is left is as it was, nothing new among it.
   */
  lemma SweepExact(s: State, actions: seq<Action>)
    requires Reachable(s) && CanReapLock(s) && Run(DoReapLock(s), actions).Some?
    requires forall k :: 0 <= k < |actions| ==> !actions[k].ReapDone?
    requires CanReapDone(Run(DoReapLock(s), actions).value)
    ensures var end := Run(DoReapLock(s), actions).value;
      && Shrinks(s, end)
      && forall fd :: fd in s.registered ==>
           var c := s.registered[fd];
           && c in s.conns && c in end.conns
           && (IdleAt(s.maxIdle, s.clock, s.conns[c]) || s.conns[c].flagged ==> fd !in end.registered)
           && (fd !in end.registered ==> IdleAt(s.maxIdle, s.clock, s.conns[c]) || end.conns[c].flagged)
  {
    ReachableHolds(s);
    SweepBegins(s);
    ReapLockKeeps(s);
    SweptOverRun(s, DoReapLock(s), actions);
    var end := Run(DoReapLock(s), actions).value;
    forall fd | fd in s.registered ensures EntrySwept(s, end, fd) {}
  }

  // ---------------------------------------------------------------- and what epoll still watches

  /** What the step adds to epoll is what the dispatcher was about to add. */
  predicate WatchesNoMore(s: State, s': State) {
    && FIRST_WORKER <= |s.pcs| && FIRST_WORKER <= |s'.pcs|
    && s'.interest <= s.interest + Arming(s) && Arming(s') <= Arming(s)
  }

  lemma AcceptingWatchesNoMore(s: State, a: Action)
    requires |s.pcs| >= FIRST_WORKER && IsAccepting(a) && !a.AcceptInsert? && DispatchEnabled(s, a)
    ensures WatchesNoMore(s, DoDispatch(s, a))
  {
  }

  lemma DispatchWatchesNoMore(s: State, a: Action)
    requires |s.pcs| >= FIRST_WORKER && IsDispatch(a) && !a.AcceptInsert? && DispatchEnabled(s, a)
    ensures WatchesNoMore(s, DoDispatch(s, a))
  {
    if IsAccepting(a) { AcceptingWatchesNoMore(s, a); }
  }

  lemma TakingWatchesNoMore(s: State, t: Tid, task: Task)
    requires |s.pcs| >= FIRST_WORKER && CanTake(s, t, task)
    ensures WatchesNoMore(s, DoTake(s, t, task))
  {
  }

  lemma CallbackWatchesNoMore(s: State, a: Action)
    requires |s.pcs| >= FIRST_WORKER && IsCallback(a) && CallbackEnabled(s, a)
    ensures WatchesNoMore(s, DoCallback(s, a))
  {
    if a.TakeTask? { TakingWatchesNoMore(s, a.tid, a.task); }
  }

  lemma ShutdownWatchesNoMore(s: State, a: Action)
    requires |s.pcs| >= FIRST_WORKER && IsShutdownStep(a) && ShutdownEnabled(s, a)
    ensures WatchesNoMore(s, DoShutdown(s, a))
  {
    var c := ShutdownShuts(s, a);
  }

  lemma ReapingWatchesNoMore(s: State, a: Action)
    requires |s.pcs| >= FIRST_WORKER && IsReaping(a) && ReapingEnabled(s, a)
    ensures WatchesNoMore(s, DoReaping(s, a))
    ensures a.ReapErase? || a.ReapIdle? ==> a.fd !in DoReaping(s, a).interest
  {
    ReapingAcceptsNone(s, a);
  }

  /** Of the entries that were there when the sweep began, what is gone is not watched, but for one about to be added. */
  predicate Unwatched(s0: State, s: State) {
    && FIRST_WORKER <= |s0.pcs| && FIRST_WORKER <= |s.pcs| && Arming(s) <= Arming(s0)
    && forall fd :: fd in s0.registered && fd !in s.registered ==> fd !in s.interest || fd in Arming(s0)
  }

  lemma UnwatchedByOthers(s0: State, s: State, s': State)
    requires Unwatched(s0, s) && WatchesNoMore(s, s') && s'.registered == s.registered
    ensures Unwatched(s0, s')
  {
  }

  lemma UnwatchedByReaper(s0: State, s: State, a: Action)
    requires Unwatched(s0, s) && IsReaping(a) && ReapingEnabled(s, a)
    ensures Unwatched(s0, DoReaping(s, a))
  {
    ReapingWatchesNoMore(s, a);
    assert forall fd :: fd in s.registered && fd !in DoReaping(s, a).registered ==>
             (a.ReapErase? || a.ReapIdle?) && fd == a.fd;
  }

  lemma NoInsertInSweep(s: State, a: Action)
    requires Inv(s) && InSweep(s) && Enabled(s, a)
    ensures !a.AcceptInsert?
  {
    ReaperHoldsLock(s);
    assert ThreadOk(s, MAIN);
  }

  lemma OthersWatchNoMore(s: State, a: Action)
    requires Inv(s) && InSweep(s) && Enabled(s, a) && !IsReaping(a)
    ensures WatchesNoMore(s, Do(s, a))
  {
    NoInsertInSweep(s, a);
    if IsDispatch(a) {
      DispatchWatchesNoMore(s, a);
    } else if IsCallback(a) {
      CallbackWatchesNoMore(s, a);
    } else if IsShutdownStep(a) {
      ShutdownWatchesNoMore(s, a);
    }
  }

  lemma UnwatchedByStep(s0: State, s: State, a: Action)
    requires Inv(s) && InSweep(s) && Unwatched(s0, s) && Enabled(s, a)
    ensures Unwatched(s0, Do(s, a))
  {
    if IsReaping(a) {
      ReapingIsStep(s, a);
      UnwatchedByReaper(s0, s, a);
    } else {
      OthersLeaveSweep(s, a);
      OthersWatchNoMore(s, a);
      UnwatchedByOthers(s0, s, Do(s, a));
    }
  }

  lemma {:induction false} UnwatchedOverRun(s0: State, s: State, actions: seq<Action>)
    requires Inv(s) && InSweep(s) && SweptSoFar(s0, s) && Unwatched(s0, s) && Run(s, actions).Some?
    requires forall k :: 0 <= k < |actions| ==> !actions[k].ReapDone?
    ensures Unwatched(s0, Run(s, actions).value)
    decreases |actions|
  {
    if actions != [] {
      EveryStepKeeps(s, actions[0]);
      SweptByStep(s0, s, actions[0]);
      UnwatchedByStep(s0, s, actions[0]);
      UnwatchedOverRun(s0, Do(s, actions[0]), actions[1..]);
    }
  }

  /**
   When the sweep is done epoll watches no descriptor whose entry it removed, unless the dispatcher was
   about to give it that very descriptor.
   */
  lemma SweepUnwatches(s: State, actions: seq<Action>, fd: Fd)
    requires Reachable(s) && CanReapLock(s) && Run(DoReapLock(s), actions).Some?
    requires forall k :: 0 <= k < |actions| ==> !actions[k].ReapDone?
    requires fd in s.registered && fd !in Run(DoReapLock(s), actions).value.registered
    requires !(MAIN < |s.pcs| && s.pcs[MAIN].AcceptInserted? && s.pcs[MAIN].conn in s.conns
               && s.conns[s.pcs[MAIN].conn].fd == fd)
    ensures fd !in Run(DoReapLock(s), actions).value.interest
  {
    ReachableHolds(s);
    SweepBegins(s);
    ReapLockKeeps(s);
    UnwatchedOverRun(s, DoReapLock(s), actions);
  }

  // ---------------------------------------------------------------- epoll and closed descriptors

  /** Every descriptor epoll watches is open. */
  predicate WatchedOpen(s: State) {
    forall fd :: fd in s.interest ==> OpenOn(s, fd)
  }

  predicate OpenOn(s: State, fd: Fd) {
    exists c :: c in s.conns && s.conns[c].open && s.conns[c].fd == fd
  }

  /** Nothing is closed, and nothing more is watched. */
  predicate ClosesNothing(s: State, s': State) {
    && s'.interest <= s.interest
    && forall c :: c in s.conns ==> c in s'.conns && s'.conns[c].open == s.conns[c].open && s'.conns[c].fd == s.conns[c].fd
  }

  lemma OpenAfter(s: State, s': State)
    requires WatchedOpen(s) && ClosesNothing(s, s')
    ensures WatchedOpen(s')
  {
    forall fd | fd in s'.interest ensures OpenOn(s', fd) {
      var c :| c in s.conns && s.conns[c].open && s.conns[c].fd == fd;
      assert s'.conns[c].open;
    }
  }

  lemma AcceptingClosesNothing(s: State, a: Action)
    requires IsAccepting(a) && !a.AcceptArm? && DispatchEnabled(s, a)
    ensures ClosesNothing(s, DoDispatch(s, a))
  {
  }

  lemma DispatchClosesNothing(s: State, a: Action)
    requires IsDispatch(a) && !a.AcceptArm? && DispatchEnabled(s, a)
    ensures ClosesNothing(s, DoDispatch(s, a))
  {
    if IsAccepting(a) { AcceptingClosesNothing(s, a); }
  }

  lemma TakingClosesNothing(s: State, t: Tid, task: Task)
    requires CanTake(s, t, task)
    ensures ClosesNothing(s, DoTake(s, t, task))
  {
  }

  lemma CallbackClosesNothing(s: State, a: Action)
    requires IsCallback(a) && CallbackEnabled(s, a)
    ensures ClosesNothing(s, DoCallback(s, a))
  {
    if a.TakeTask? { TakingClosesNothing(s, a.tid, a.task); }
  }

  lemma ShutdownClosesNothing(s: State, a: Action)
    requires IsShutdownStep(a) && !a.ShutClose? && ShutdownEnabled(s, a)
    ensures ClosesNothing(s, DoShutdown(s, a))
  {
    if IsLocking(a) { LockingClosesNothing(s, a); }
  }

  lemma LockingClosesNothing(s: State, a: Action)
    requires IsLocking(a) && ShutdownEnabled(s, a)
    ensures ClosesNothing(s, DoShutdown(s, a))
  {
  }

  lemma ReapingClosesNothing(s: State, a: Action)
    requires IsReaping(a) && ReapingEnabled(s, a)
    ensures ClosesNothing(s, DoReaping(s, a))
  {
    if !a.ReapIdle? { SweepGoesOn(s, a); }
  }

  lemma OpenAfterClose(s: State, t: Tid)
    requires WatchedOpen(s) && InPhase(s, t, Close)
    ensures WatchedOpen(DoShutClose(s, t))
  {
    var s' := DoShutClose(s, t);
    forall fd | fd in s'.interest ensures OpenOn(s', fd) {
      var c :| c in s.conns && s.conns[c].open && s.conns[c].fd == fd;
      assert s'.conns[c].open;
    }
  }

  /** A step of the dispatcher gives epoll a descriptor that is closed again already. */
  predicate ArmsClosed(s: State, a: Action) {
    Enabled(s, a) && a.AcceptArm? && !s.conns[s.pcs[MAIN].conn].open
  }

  lemma OpenAfterArm(s: State)
    requires WatchedOpen(s) && CanAcceptArm(s) && s.conns[s.pcs[MAIN].conn].open
    ensures WatchedOpen(DoAcceptArm(s))
  {
    var s' := DoAcceptArm(s);
    forall fd | fd in s'.interest ensures OpenOn(s', fd) {
      if fd in s.interest {
        var c :| c in s.conns && s.conns[c].open && s.conns[c].fd == fd;
        assert s'.conns[c].open;
      } else {
        assert s'.conns[s.pcs[MAIN].conn].open;
      }
    }
  }

  lemma ShutdownKeepsWatchedOpen(s: State, a: Action)
    requires WatchedOpen(s) && IsShutdownStep(a) && ShutdownEnabled(s, a)
    ensures WatchedOpen(DoShutdown(s, a))
  {
    if a.ShutClose? {
      OpenAfterClose(s, a.tid);
    } else {
      ShutdownClosesNothing(s, a);
      OpenAfter(s, DoShutdown(s, a));
    }
  }

  lemma DispatchKeepsWatchedOpen(s: State, a: Action)
    requires WatchedOpen(s) && IsDispatch(a) && Enabled(s, a) && !ArmsClosed(s, a)
    ensures WatchedOpen(DoDispatch(s, a))
  {
    if a.AcceptArm? {
      OpenAfterArm(s);
    } else {
      DispatchClosesNothing(s, a);
      OpenAfter(s, DoDispatch(s, a));
    }
  }

  lemma StepKeepsWatchedOpen(s: State, a: Action)
    requires WatchedOpen(s) && Enabled(s, a) && !ArmsClosed(s, a)
    ensures WatchedOpen(Do(s, a))
  {
    if IsDispatch(a) {
      DispatchKeepsWatchedOpen(s, a);
    } else if IsCallback(a) {
      CallbackClosesNothing(s, a);
      OpenAfter(s, DoCallback(s, a));
    } else if IsShutdownStep(a) {
      ShutdownKeepsWatchedOpen(s, a);
    } else if IsReaping(a) {
      ReapingClosesNothing(s, a);
      OpenAfter(s, DoReaping(s, a));
    } else {
      OpenAfter(s, s.(clock := s.clock + 1));
    }
  }

  /** In no step of the run. */
  predicate NeverArmsClosed(s: State, actions: seq<Action>)
    requires Run(s, actions).Some?
    decreases |actions|
  {
    actions == [] || (!ArmsClosed(s, actions[0]) && NeverArmsClosed(Do(s, actions[0]), actions[1..]))
  }

  /**
   A descriptor that is closed is no longer watched: over any run, unless the dispatcher gives epoll one
   that was reaped and closed between its insertion and then, everything epoll watches is open.
   */
  lemma {:induction false} WatchedOpenOverRun(s: State, actions: seq<Action>)
    requires WatchedOpen(s) && Run(s, actions).Some? && NeverArmsClosed(s, actions)
    ensures WatchedOpen(Run(s, actions).value)
    decreases |actions|
  {
    if actions != [] {
      StepKeepsWatchedOpen(s, actions[0]);
      WatchedOpenOverRun(Do(s, actions[0]), actions[1..]);
    }
  }
}
