/**
 Pieces of runs, for showing that a state can be reached: one connection at a time, mostly undecorated.
 */
module Scenarios {
  import opened Words
  import opened Protocol
  import opened ProtocolSteps
  import opened ProtocolSafety
  import opened ProtocolProgress

  /** The dispatcher is ready and nobody holds connections_lock_. */
  ghost predicate Calm(s: State) {
    Reachable(s) && |s.pcs| >= FIRST_WORKER && s.pcs[MAIN].Ready? && RegistryFree(s)
  }

  /** The descriptor the kernel hands out for connection c. */
  function FdOf(c: ConnId): Fd {
    c + 1
  }

  predicate Fresh(s: State, c: ConnId) {
    c !in s.conns && FdFree(s, FdOf(c))
  }

  lemma StartIsCalm(workers: nat, maxIdle: int, defers: bool)
    ensures Calm(Start(workers, maxIdle, defers, 0)) && forall c :: Fresh(Start(workers, maxIdle, defers, 0), c)
  {
    var start := Start(workers, maxIdle, defers, 0);
    assert Run(start, []) == Some(start);
  }

  /** The state with connection c in it, accepted, in the map and watched. */
  function Accepted(s: State, c: ConnId, decorated: bool): State
    requires |s.pcs| >= FIRST_WORKER
  {
    s.(conns := s.conns[c := NewConn(FdOf(c), decorated, s.clock)], registered := s.registered[FdOf(c) := c],
       interest := s.interest + {FdOf(c)}, pcs := s.pcs[MAIN := AcceptArmed(c)])
  }

  lemma Accepts(s: State, c: ConnId, decorated: bool)
    requires Calm(s) && Fresh(s, c)
    ensures Reachable(Accepted(s, c, decorated))
  {
    var s1 := DoAccept(s, FdOf(c), c, decorated);
    Goes(s, Accept(FdOf(c), c, decorated), s1);
    var s2 := DoAcceptLock(s1);
    Goes(s1, AcceptLock, s2);
    AcceptsOn(s, c, decorated, s2);
  }

  lemma AcceptsOn(s: State, c: ConnId, decorated: bool, s2: State)
    requires Calm(s) && Reachable(s2)
    requires s2 == s.(conns := s.conns[c := NewConn(FdOf(c), decorated, s.clock)], writer := Some(MAIN), pcs := s2.pcs)
    requires s2.pcs == s.pcs[MAIN := AcceptWait(c)][MAIN := AcceptHeld(c)]
    ensures Reachable(Accepted(s, c, decorated))
  {
    var s3 := DoAcceptInsert(s2);
    Goes(s2, AcceptInsert, s3);
    var s4 := DoAcceptArm(s3);
    Goes(s3, AcceptArm, s4);
    assert s4.pcs == s.pcs[MAIN := AcceptArmed(c)];
    assert s4 == Accepted(s, c, decorated);
  }

  /** The state with connection c in it, this far, and these tasks queued besides. */
  function With(s: State, c: ConnId, readers: nat, party: Party, tasks: multiset<Task>): State {
    s.(conns := s.conns[c := NewConn(FdOf(c), false, s.clock).(handle := Mutex(readers, false), party := party)],
       registered := s.registered[FdOf(c) := c], interest := s.interest + {FdOf(c)}, queue := s.queue + tasks)
  }

  /** Its ConnectionEstablished is queued. */
  lemma Announces(s: State, c: ConnId)
    requires Calm(s) && Fresh(s, c)
    ensures Reachable(With(s, c, 1, Unclaimed, multiset{Call(Established, c)}))
  {
    Accepts(s, c, false);
    var s1 := DoAcceptReadLock(Accepted(s, c, false));
    Goes(Accepted(s, c, false), AcceptReadLock, s1);
    assert s1 == With(s, c, 1, Unclaimed, multiset{}).(pcs := s.pcs[MAIN := AcceptLocked(c)]);
    AnnouncesOn(s, c, s1);
  }

  lemma AnnouncesOn(s: State, c: ConnId, s1: State)
    requires Calm(s) && Reachable(s1)
    requires s1 == With(s, c, 1, Unclaimed, multiset{}).(pcs := s.pcs[MAIN := AcceptLocked(c)])
    ensures Reachable(With(s, c, 1, Unclaimed, multiset{Call(Established, c)}))
  {
    var s2 := DoAcceptEnqueue(s1);
    Goes(s1, AcceptEnqueue, s2);
    assert s2.pcs == s.pcs;
    assert s2 == With(s, c, 1, Unclaimed, multiset{Call(Established, c)});
  }

  /** A worker at rest. */
  predicate Resting(s: State, t: Tid) {
    FIRST_WORKER <= t < |s.pcs| && s.pcs[t].Ready?
  }

  /** The worker t is in the middle of calling ConnectionEstablished for c. */
  function Calling(s: State, c: ConnId, readers: nat, party: Party, tasks: multiset<Task>, t: Tid, pc: Pc): State
    requires t < |s.pcs|
  {
    With(s, c, readers, party, tasks).(readers := {t}, pcs := s.pcs[t := pc])
  }

  /** The worker is in the handler. */
  lemma Handles(s: State, c: ConnId, t: Tid)
    requires Calm(s) && Fresh(s, c) && Resting(s, t)
    ensures Reachable(Calling(s, c, 1, Unclaimed, multiset{}, t, CallRun(Established, c)))
  {
    Announces(s, c);
    TakesCall(s, c, t);
    var s0 := With(s, c, 1, Unclaimed, multiset{}).(pcs := s.pcs[t := CallWait(Established, c)]);
    var s1 := DoCallLock(s0, t);
    Goes(s0, CallLock(t), s1);
    assert s1.pcs == s.pcs[t := CallRun(Established, c)] && s1.readers == {t};
    assert s1 == Calling(s, c, 1, Unclaimed, multiset{}, t, CallRun(Established, c));
  }

  lemma TakesCall(s: State, c: ConnId, t: Tid)
    requires Resting(s, t) && Reachable(With(s, c, 1, Unclaimed, multiset{Call(Established, c)}))
    ensures Reachable(With(s, c, 1, Unclaimed, multiset{}).(pcs := s.pcs[t := CallWait(Established, c)]))
  {
    var s0 := With(s, c, 1, Unclaimed, multiset{Call(Established, c)});
    var s1 := DoTake(s0, t, Call(Established, c));
    Goes(s0, TakeTask(t, Call(Established, c)), s1);
    assert s1.queue == s.queue + multiset{};
    assert s1 == With(s, c, 1, Unclaimed, multiset{}).(pcs := s.pcs[t := CallWait(Established, c)]);
  }

  /** The handler calls DeferredShutdown. */
  lemma Defers(s: State, c: ConnId, t: Tid)
    requires Calm(s) && Fresh(s, c) && Resting(s, t) && s.defers
    ensures Reachable(Calling(s, c, 1, Queued, multiset{Deferred(c)}, t, CallRun(Established, c)))
  {
    Handles(s, c, t);
    var s0 := Calling(s, c, 1, Unclaimed, multiset{}, t, CallRun(Established, c));
    var s1 := DoHandlerDefer(s0, t);
    Goes(s0, HandlerDefer(t), s1);
    assert s1.queue == s.queue + multiset{Deferred(c)};
    assert s1 == Calling(s, c, 1, Queued, multiset{Deferred(c)}, t, CallRun(Established, c));
  }

  lemma Returns(s: State, c: ConnId, t: Tid, party: Party, tasks: multiset<Task>)
    requires Resting(s, t) && Reachable(Calling(s, c, 1, party, tasks, t, CallRun(Established, c)))
    ensures Reachable(Calling(s, c, 1, party, tasks, t, CallReturned(Established, c)))
  {
    var s0 := Calling(s, c, 1, party, tasks, t, CallRun(Established, c));
    var s1 := DoHandlerReturn(s0, t);
    Goes(s0, HandlerReturn(t), s1);
    assert s1 == Calling(s, c, 1, party, tasks, t, CallReturned(Established, c));
  }

  lemma Unlocks(s: State, c: ConnId, t: Tid, party: Party, tasks: multiset<Task>)
    requires Resting(s, t) && Reachable(Calling(s, c, 1, party, tasks, t, CallReturned(Established, c)))
    ensures Reachable(Calling(s, c, 0, party, tasks, t, CallUnlocked(c)))
  {
    var s0 := Calling(s, c, 1, party, tasks, t, CallReturned(Established, c));
    var s1 := DoCallUnlock(s0, t);
    Goes(s0, CallUnlock(t), s1);
    assert s1 == Calling(s, c, 0, party, tasks, t, CallUnlocked(c));
  }

  lemma Releases(s: State, c: ConnId, t: Tid, party: Party, tasks: multiset<Task>)
    requires Calm(s) && Resting(s, t) && Reachable(Calling(s, c, 0, party, tasks, t, CallUnlocked(c)))
    ensures Calm(With(s, c, 0, party, tasks))
  {
    var s0 := Calling(s, c, 0, party, tasks, t, CallUnlocked(c));
    var s1 := DoCallRelease(s0, t);
    Goes(s0, CallRelease(t), s1);
    assert s1.pcs == s.pcs && s1.readers == {} == s.readers;
    assert s1 == With(s, c, 0, party, tasks);
  }

  /** The callback is run, and the worker is at rest again. */
  lemma Completes(s: State, c: ConnId, t: Tid)
    requires Calm(s) && Fresh(s, c) && Resting(s, t)
    ensures Calm(With(s, c, 0, Unclaimed, multiset{}))
  {
    Handles(s, c, t);
    Returns(s, c, t, Unclaimed, multiset{});
    Unlocks(s, c, t, Unclaimed, multiset{});
    Releases(s, c, t, Unclaimed, multiset{});
  }

  /** The same with a handler that asks for the connection's shutdown, which is then queued. */
  lemma Requests(s: State, c: ConnId, t: Tid)
    requires Calm(s) && Fresh(s, c) && Resting(s, t) && s.defers
    ensures Calm(With(s, c, 0, Queued, multiset{Deferred(c)}))
  {
    Defers(s, c, t);
    Returns(s, c, t, Queued, multiset{Deferred(c)});
    Unlocks(s, c, t, Queued, multiset{Deferred(c)});
    Releases(s, c, t, Queued, multiset{Deferred(c)});
  }

  /** Time passes. */
  lemma {:induction false} Ages(s: State, seconds: nat)
    requires Reachable(s) && s.clock + seconds < U64_MODULUS
    ensures Reachable(s.(clock := s.clock + seconds))
    decreases seconds
  {
    if seconds == 0 {
      assert s.(clock := s.clock) == s;
    } else {
      SecondPasses(s);
      Ages(s.(clock := s.clock + 1), seconds - 1);
    }
  }

  lemma SecondPasses(s: State)
    requires Reachable(s) && s.clock + 1 < U64_MODULUS
    ensures Reachable(s.(clock := s.clock + 1))
  {
    Goes(s, Tick, s.(clock := s.clock + 1));
  }

  /** The reaper has connections_lock_ and has looked at nothing yet. */
  function Swept(s: State): State
    requires |s.pcs| >= FIRST_WORKER
  {
    s.(writer := Some(REAPER), tm := s.clock, todo := s.registered.Keys, pcs := s.pcs[REAPER := Sweeping])
  }

  lemma Sweeps(s: State)
    requires Reachable(s) && |s.pcs| >= FIRST_WORKER && s.pcs[REAPER].Ready? && RegistryFree(s)
    ensures Reachable(Swept(s))
  {
    var s1 := DoReapWake(s);
    Goes(s, ReapWake, s1);
    assert s1 == s.(pcs := s.pcs[REAPER := SweepWait]);
    SweepsThen(s, s1);
  }

  lemma SweepsThen(s: State, s1: State)
    requires |s.pcs| >= FIRST_WORKER && RegistryFree(s)
    requires Reachable(s1) && s1 == s.(pcs := s.pcs[REAPER := SweepWait])
    ensures Reachable(Swept(s))
  {
    var s2 := DoReapLock(s1);
    Goes(s1, ReapLock, s2);
    assert s2.pcs == s.pcs[REAPER := Sweeping];
    assert s2 == Swept(s);
  }

  /** A thread that shuts down an unlocked connection goes through with it. */
  predicate Deleted(s: State, end: State, c: ConnId)
    requires |s.pcs| >= FIRST_WORKER
  {
    && |end.pcs| == |s.pcs| && end.maxIdle == s.maxIdle && end.defers == s.defers && end.pcs[MAIN] == s.pcs[MAIN]
    && c in end.conns && end.conns[c].party.Gone?
  }

  /** The connection t shuts down is undecorated, and nobody holds its lock. */
  predicate Bare(s: State, t: Tid, c: ConnId) {
    && FIRST_WORKER <= |s.pcs| && MAIN < t < |s.pcs| && ShuttingDown(s, t, c) && c in s.conns
    && !s.conns[c].decorated && s.conns[c].handle == Mutex(0, false)
  }

  lemma Deletes(s: State, t: Tid, c: ConnId) returns (end: State)
    requires Reachable(s) && Bare(s, t, c) && s.pcs[t].phase == LockHandle
    ensures Reachable(end) && Deleted(s, end, c)
  {
    var s1 := DoShutLockHandle(s, t);
    Goes(s, ShutLockHandle(t), s1);
    end := Closes(s1, t, c);
  }

  lemma Closes(s1: State, t: Tid, c: ConnId) returns (end: State)
    requires Reachable(s1) && FIRST_WORKER <= |s1.pcs| && MAIN < t < |s1.pcs| && ShuttingDown(s1, t, c) && c in s1.conns
    requires s1.pcs[t].phase == Close
    ensures Reachable(end) && Deleted(s1, end, c)
  {
    var s2 := DoShutClose(s1, t);
    Goes(s1, ShutClose(t), s2);
    end := DoShutDelete(s2, t);
    Goes(s2, ShutDelete(t), end);
  }

  /** The reaper has already taken it out of the map. */
  lemma ReaperDeletes(s: State, c: ConnId) returns (end: State)
    requires Reachable(s) && Bare(s, REAPER, c) && s.pcs[REAPER].phase == Begin
    requires forall fd :: fd in s.registered ==> s.registered[fd] != c
    ensures Reachable(end) && Deleted(s, end, c)
  {
    var s1 := DoShutBegin(s, REAPER);
    Goes(s, ShutBegin(REAPER), s1);
    var s2 := DoShutNotFound(s1, REAPER);
    Goes(s1, ShutNotFound(REAPER), s2);
    end := Deletes(s2, REAPER, c);
  }

  /** A worker takes it out of the map first. */
  lemma WorkerDeletes(s: State, t: Tid, c: ConnId, fd: Fd) returns (end: State)
    requires Reachable(s) && Bare(s, t, c) && s.pcs[t].phase == Begin
    requires RegistryFree(s) && fd in s.registered && s.registered[fd] == c
    ensures Reachable(end) && Deleted(s, end, c)
  {
    var s1 := DoShutBegin(s, t);
    Goes(s, ShutBegin(t), s1);
    var s2 := DoShutFound(s1, t, fd);
    Goes(s1, ShutFound(t, fd), s2);
    end := WorkerErases(s2, t, c, fd);
  }

  lemma WorkerErases(s: State, t: Tid, c: ConnId, fd: Fd) returns (end: State)
    requires Reachable(s) && Bare(s, t, c) && s.pcs[t].phase == Acquire(fd) && RegistryFree(s)
    ensures Reachable(end) && Deleted(s, end, c)
  {
    var s1 := DoShutAcquire(s, t, fd);
    Goes(s, ShutAcquire(t, fd), s1);
    end := WorkerLeaves(s1, t, c, fd);
  }

  lemma WorkerLeaves(s: State, t: Tid, c: ConnId, fd: Fd) returns (end: State)
    requires Reachable(s) && Bare(s, t, c) && s.pcs[t].phase == Erase(fd)
    ensures Reachable(end) && Deleted(s, end, c)
  {
    var s1 := DoShutErase(s, t, fd);
    Goes(s, ShutErase(t, fd), s1);
    end := Deletes(s1, t, c);
  }
}
