/**
 A decorated connection has two locks: ConnectionEstablished holds the raw connection's, the other
 callbacks the handle's, and a shutdown takes one after the other.
 */
module DecoratedLocks {
  import opened Protocol
  import opened ProtocolSteps
  import opened ProtocolProgress
  import opened Scenarios

  /** The dispatcher is shutting the only connection, a decorated one, down while its callback is outstanding. */
  function Hanging(start: State, handle: Mutex, flagged: bool, listed: bool, writer: Option<Tid>, phase: Phase): State
    requires |start.pcs| >= FIRST_WORKER
  {
    start.(conns := map[0 := Conn(FdOf(0), true, handle, Mutex(1, false), flagged, true, At(MAIN), start.clock)],
           registered := if listed then map[FdOf(0) := 0] else map[], interest := if listed then {FdOf(0)} else {},
           writer := writer, queue := multiset{Call(Established, 0), Terminated(0)},
           pcs := start.pcs[MAIN := Shutting(0, phase)])
  }

  /** Nothing was ever accepted. */
  ghost predicate Empty(s: State) {
    Calm(s) && s.conns == map[] && s.registered == map[] && s.interest == {} && s.queue == multiset{}
  }

  /** Its ConnectionEstablished is queued, and the raw connection locked for it. */
  lemma AnnouncesDecorated(s: State)
    requires Empty(s)
    ensures Reachable(Announced(s))
  {
    Accepts(s, 0, true);
    var s0 := Accepted(s, 0, true);
    var s1 := DoAcceptReadLock(s0);
    Goes(s0, AcceptReadLock, s1);
    EnqueuesDecorated(s, s1);
  }

  function Announced(s: State): State
    requires |s.pcs| >= FIRST_WORKER
  {
    s.(conns := map[0 := NewConn(FdOf(0), true, s.clock).(raw := Mutex(1, false))], registered := map[FdOf(0) := 0],
       interest := {FdOf(0)}, queue := multiset{Call(Established, 0)})
  }

  lemma EnqueuesDecorated(s: State, s1: State)
    requires Empty(s) && Reachable(s1)
    requires s1 == Announced(s).(queue := multiset{}, pcs := s1.pcs)
    requires s1.pcs == s.pcs[MAIN := AcceptArmed(0)][MAIN := AcceptLocked(0)]
    ensures Reachable(Announced(s))
  {
    var s2 := DoAcceptEnqueue(s1);
    Goes(s1, AcceptEnqueue, s2);
    assert s2.pcs == s.pcs;
    assert s2 == Announced(s);
  }

  lemma HangsUpDecorated(s: State)
    requires Empty(s)
    ensures Reachable(Hanging(s, Mutex(0, false), false, true, None, Begin))
  {
    AnnouncesDecorated(s);
    var s0 := Announced(s);
    var s1 := DoHangup(s0, FdOf(0));
    Goes(s0, Hangup(FdOf(0)), s1);
    assert s1.queue == multiset{Call(Established, 0), Terminated(0)};
    assert s1 == Hanging(s, Mutex(0, false), false, true, None, Begin);
  }

  lemma Deregisters(s: State)
    requires Empty(s)
    ensures Reachable(Hanging(s, Mutex(0, false), false, true, None, Scan))
  {
    HangsUpDecorated(s);
    var s0 := Hanging(s, Mutex(0, false), false, true, None, Begin);
    var s1 := Hanging(s, Mutex(0, false), false, true, None, Scan);
    assert DoShutBegin(s0, MAIN) == s1;
    Goes(s0, ShutBegin(MAIN), s1);
  }

  lemma FindsItself(s: State)
    requires Empty(s)
    ensures Reachable(Hanging(s, Mutex(0, false), false, true, None, Acquire(FdOf(0))))
  {
    Deregisters(s);
    var s0 := Hanging(s, Mutex(0, false), false, true, None, Scan);
    var s1 := Hanging(s, Mutex(0, false), false, true, None, Acquire(FdOf(0)));
    assert DoShutFound(s0, MAIN, FdOf(0)) == s1;
    Goes(s0, ShutFound(MAIN, FdOf(0)), s1);
  }

  lemma Acquires(s: State)
    requires Empty(s)
    ensures Reachable(Hanging(s, Mutex(0, false), false, true, Some(MAIN), Erase(FdOf(0))))
  {
    FindsItself(s);
    var s0 := Hanging(s, Mutex(0, false), false, true, None, Acquire(FdOf(0)));
    var s1 := Hanging(s, Mutex(0, false), false, true, Some(MAIN), Erase(FdOf(0)));
    assert DoShutAcquire(s0, MAIN, FdOf(0)) == s1;
    Goes(s0, ShutAcquire(MAIN, FdOf(0)), s1);
  }

  lemma Erases(s: State)
    requires Empty(s)
    ensures Reachable(Hanging(s, Mutex(0, false), false, false, None, LockHandle))
  {
    Acquires(s);
    var s0 := Hanging(s, Mutex(0, false), false, true, Some(MAIN), Erase(FdOf(0)));
    var s1 := Hanging(s, Mutex(0, false), false, false, None, LockHandle);
    assert DoShutErase(s0, MAIN, FdOf(0)) == s1;
    Goes(s0, ShutErase(MAIN, FdOf(0)), s1);
  }

  lemma LocksHandle(s: State)
    requires Empty(s)
    ensures Reachable(Hanging(s, Mutex(0, true), true, false, None, LockRaw))
  {
    Erases(s);
    var s0 := Hanging(s, Mutex(0, false), false, false, None, LockHandle);
    var s1 := Hanging(s, Mutex(0, true), true, false, None, LockRaw);
    assert DoShutLockHandle(s0, MAIN) == s1;
    Goes(s0, ShutLockHandle(MAIN), s1);
  }

  /**
   The two locks of a decorated connection are two: in every configuration a state is reachable in which
   a shutdown holds the handle's lock and waits for the raw connection's, which is locked for a
   ConnectionEstablished that is still queued.
   */
  lemma WaitsForRawLock(workers: nat, maxIdle: int, defers: bool)
    ensures exists s :: && Reachable(s) && |s.pcs| == FIRST_WORKER + workers && s.maxIdle == maxIdle && s.defers == defers
                        && 0 in s.conns && s.conns[0].decorated && s.conns[0].handle.writer && s.conns[0].raw.readers == 1
                        && Call(Established, 0) in s.queue && InPhase(s, MAIN, LockRaw) && !CanShutLockRaw(s, MAIN)
  {
    var start := Start(workers, maxIdle, defers, 0);
    StartIsCalm(workers, maxIdle, defers);
    LocksHandle(start);
    var s := Hanging(start, Mutex(0, true), true, false, None, LockRaw);
    assert Reachable(s);
  }
}
