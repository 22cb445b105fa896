/**
 What holds in every reachable state of the server, step by step.
 */
module ProtocolInvariant {
  import opened Words
  import opened Protocol

  // ---------------------------------------------------------------- counting read holds

  /** The thread owes connection c the release of a read lock taken for a callback of this kind. */
  predicate Owes(pc: Pc, kind: Kind, c: ConnId) {
    match pc
    case AcceptLocked(x) => kind.Established? && x == c
    case DataLocked(x) => kind.DataReady? && x == c
    case ErrorLocked(x) => kind.Error? && x == c
    case CallWait(k, x) => k == kind && x == c
    case CallRun(k, x) => k == kind && x == c
    case CallReturned(k, x) => k == kind && x == c
    case _ => false
  }

  function One(b: bool): nat {
    if b then 1 else 0
  }

  function ThreadsOwing(pcs: seq<Pc>, kind: Kind, c: ConnId): nat {
    if pcs == [] then 0 else One(Owes(pcs[0], kind, c)) + ThreadsOwing(pcs[1..], kind, c)
  }

  /** The callbacks of a kind for c that are queued, being dispatched, or running. */
  function Outstanding(s: State, kind: Kind, c: ConnId): nat {
    s.queue[Call(kind, c)] + ThreadsOwing(s.pcs, kind, c)
  }

  lemma {:induction false} OwingAfterMove(pcs: seq<Pc>, t: Tid, pc: Pc, kind: Kind, c: ConnId)
    requires t < |pcs|
    ensures ThreadsOwing(pcs[t := pc], kind, c) + One(Owes(pcs[t], kind, c))
         == ThreadsOwing(pcs, kind, c) + One(Owes(pc, kind, c))
  {
    if t == 0 {
      assert pcs[t := pc][1..] == pcs[1..];
    } else {
      assert pcs[t := pc][1..] == pcs[1..][t - 1 := pc];
      OwingAfterMove(pcs[1..], t - 1, pc, kind, c);
    }
  }

  lemma Moved(pcs: seq<Pc>, t: Tid, pc: Pc, c: ConnId)
    requires t < |pcs|
    ensures ThreadsOwing(pcs[t := pc], Established, c)
         == ThreadsOwing(pcs, Established, c) - One(Owes(pcs[t], Established, c)) + One(Owes(pc, Established, c))
    ensures ThreadsOwing(pcs[t := pc], DataReady, c)
         == ThreadsOwing(pcs, DataReady, c) - One(Owes(pcs[t], DataReady, c)) + One(Owes(pc, DataReady, c))
    ensures ThreadsOwing(pcs[t := pc], Error, c)
         == ThreadsOwing(pcs, Error, c) - One(Owes(pcs[t], Error, c)) + One(Owes(pc, Error, c))
  {
    OwingAfterMove(pcs, t, pc, Established, c);
    OwingAfterMove(pcs, t, pc, DataReady, c);
    OwingAfterMove(pcs, t, pc, Error, c);
  }

  lemma {:induction false} OwingCounts(pcs: seq<Pc>, t: Tid, kind: Kind, c: ConnId)
    requires t < |pcs| && Owes(pcs[t], kind, c)
    ensures ThreadsOwing(pcs, kind, c) >= 1
  {
    if t > 0 {
      assert pcs[1..][t - 1] == pcs[t];
      OwingCounts(pcs[1..], t - 1, kind, c);
    }
  }

  lemma {:induction false} NobodyOwes(pcs: seq<Pc>, kind: Kind, c: ConnId)
    requires forall t :: 0 <= t < |pcs| ==> !Owes(pcs[t], kind, c)
    ensures ThreadsOwing(pcs, kind, c) == 0
  {
    if pcs != [] {
      assert forall t :: 0 <= t < |pcs[1..]| ==> pcs[1..][t] == pcs[t + 1];
      NobodyOwes(pcs[1..], kind, c);
    }
  }

  // ---------------------------------------------------------------- the invariant

  /** The read holds on both locks of c are exactly the callbacks outstanding. */
  predicate HoldsMatch(s: State, c: ConnId)
    requires c in s.conns
  {
    var k := s.conns[c];
    var established := Outstanding(s, Established, c);
    && k.handle.readers == Outstanding(s, DataReady, c) + Outstanding(s, Error, c) + (if k.decorated then 0 else established)
    && k.raw.readers == (if k.decorated then established else 0)
  }

  /** Where a connection stands while one thread shuts it down. */
  predicate PhaseOk(t: Tid, k: Conn, phase: Phase) {
    && (k.open <==> phase != Delete)
    && (k.handle.writer <==> phase in {LockRaw, Close, Delete})
    && (k.raw.writer <==> k.decorated && phase in {Close, Delete})
    && (phase == LockRaw ==> k.decorated)
    && (k.flagged <==> if k.decorated then phase in {LockRaw, Close, Delete} else phase != Begin)
    && (phase.Acquire? || phase.Erase? ==> phase.fd == k.fd && t != REAPER)
  }

  /** One party at most shuts a connection down, and the locks and the descriptor follow its progress. */
  predicate PartyOk(s: State, c: ConnId)
    requires c in s.conns
  {
    var k := s.conns[c];
    && s.queue[Deferred(c)] == One(k.party.Queued?)
    && match k.party
       case At(t) => t < |s.pcs| && s.pcs[t].Shutting? && s.pcs[t].conn == c && PhaseOk(t, k, s.pcs[t].phase)
       case Gone => !k.open && k.handle.writer && (k.raw.writer <==> k.decorated) && k.flagged
       case _ => k.open && !k.handle.writer && !k.raw.writer && !k.flagged
  }

  predicate ConnOk(s: State, c: ConnId)
    requires c in s.conns
  {
    && HoldsMatch(s, c)
    && PartyOk(s, c)
    && (s.conns[c].handle.writer ==> s.conns[c].handle.readers == 0)
    && (s.conns[c].raw.writer ==> s.conns[c].raw.readers == 0)
    && s.conns[c].lastUse <= s.clock
  }

  /** The connection's shutdown, if any, has not left the map yet. */
  predicate Listed(s: State, k: Conn) {
    match k.party
    case At(t) =>
      && t < |s.pcs| && t != REAPER && s.pcs[t].Shutting?
      && (s.pcs[t].phase in {Begin, Scan} || s.pcs[t].phase.Acquire? || s.pcs[t].phase.Erase?)
    case Gone => false
    case _ => true
  }

  /** An entry of the map is a connection that still has this descriptor open. */
  predicate EntryOk(s: State, fd: Fd)
    requires fd in s.registered
  {
    var c := s.registered[fd];
    && c in s.conns
    && s.conns[c].fd == fd
    && s.conns[c].open
    && Listed(s, s.conns[c])
  }

  predicate RunsOn(t: Tid, pc: Pc) {
    match pc
    case Ready => true
    case Shutting(_, _) => true
    case SweepWait => t == REAPER
    case Sweeping => t == REAPER
    case CallWait(_, _) => t >= FIRST_WORKER
    case CallRun(_, _) => t >= FIRST_WORKER
    case CallReturned(_, _) => t >= FIRST_WORKER
    case CallUnlocked(_) => t >= FIRST_WORKER
    case Terminating(_) => t >= FIRST_WORKER
    case _ => t == MAIN
  }

  /** Holds connections_lock_ for writing. */
  predicate Exclusive(t: Tid, pc: Pc) {
    || pc.AcceptHeld? || pc.DataHeld? || pc.DataLocked? || pc.Sweeping?
    || (pc.Shutting? && (t == REAPER || pc.phase.Erase?))
  }

  /** Holds connections_lock_ for reading. */
  predicate Shared(pc: Pc) {
    pc.CallRun? || pc.CallReturned? || pc.CallUnlocked?
  }

  /** The connection is in the map under its own descriptor. */
  predicate Registered(s: State, c: ConnId) {
    c in s.conns && s.conns[c].fd in s.registered && s.registered[s.conns[c].fd] == c
  }

  predicate PcOk(s: State, t: Tid, pc: Pc) {
    match pc
    case AcceptWait(c) => Untouched(s, c) && s.conns[c].party.Unclaimed? && s.conns[c].fd !in s.registered
    case AcceptHeld(c) => Untouched(s, c) && s.conns[c].party.Unclaimed? && s.conns[c].fd !in s.registered
    case AcceptInserted(c) =>
      Untouched(s, c) && (s.maxIdle <= 0 ==> s.conns[c].party.Unclaimed? && Registered(s, c))
    case AcceptArmed(c) =>
      Untouched(s, c) && (s.maxIdle <= 0 ==> s.conns[c].party.Unclaimed? && Registered(s, c))
    case DataWait(fd, c) => fd in s.registered ==> s.registered[fd] == c
    case DataHeld(fd, c) => fd in s.registered ==> s.registered[fd] == c
    case DataLocked(c) => Registered(s, c)
    case Dangling(kind, _) => !kind.DataReady? && (kind.Established? ==> s.maxIdle > 0)
    case Shutting(c, _) => c in s.conns && s.conns[c].party == At(t) && (t == REAPER ==> s.maxIdle > 0)
    case _ => true
  }

  /** Nobody holds a lock of this connection for reading. */
  predicate Untouched(s: State, c: ConnId) {
    c in s.conns && s.conns[c].handle.readers == 0 && s.conns[c].raw.readers == 0
  }

  predicate ThreadOk(s: State, t: Tid)
    requires t < |s.pcs|
  {
    var pc := s.pcs[t];
    && RunsOn(t, pc)
    && (Dealing(pc) ==> pc.conn in s.conns)
    && (s.writer == Some(t) <==> Exclusive(t, pc))
    && (t in s.readers <==> Shared(pc))
    && PcOk(s, t, pc)
  }

  predicate RegistryLockOk(s: State) {
    && (s.writer.Some? ==> s.writer.value < |s.pcs| && s.readers == {})
    && (forall t :: t in s.readers ==> t < |s.pcs|)
  }

  predicate OneOwnerPerFd(s: State) {
    forall c, d :: c in s.conns && d in s.conns && s.conns[c].open && s.conns[d].open && s.conns[c].fd == s.conns[d].fd
                   ==> c == d
  }

  /** While the reaper looks, nothing registered was used later than its tm. */
  predicate SweepOk(s: State)
    requires |s.pcs| >= FIRST_WORKER
  {
    s.pcs[REAPER].Sweeping? || s.pcs[REAPER].Shutting? ==>
      && s.tm <= s.clock
      && s.todo <= s.registered.Keys
      && forall fd :: fd in s.registered && s.registered[fd] in s.conns ==> s.conns[s.registered[fd]].lastUse <= s.tm
  }

  /** The descriptor just put into the map and not yet given to epoll. */
  function Arming(s: State): set<Fd>
    requires |s.pcs| >= FIRST_WORKER
  {
    if s.pcs[MAIN].AcceptInserted? && s.pcs[MAIN].conn in s.conns then {s.conns[s.pcs[MAIN].conn].fd} else {}
  }

  /** With idle reaping off epoll watches exactly what is in the map, apart from that one. */
  predicate InterestOk(s: State)
    requires |s.pcs| >= FIRST_WORKER
  {
    s.maxIdle <= 0 ==> s.interest == s.registered.Keys - Arming(s)
  }

  predicate Inv(s: State) {
    && |s.pcs| >= FIRST_WORKER
    && s.clock < U64_MODULUS
    && (forall c :: c in s.conns ==> ConnOk(s, c))
    && (forall t :: 0 <= t < |s.pcs| ==> ThreadOk(s, t))
    && (forall fd :: fd in s.registered ==> EntryOk(s, fd))
    && (forall task :: task in s.queue ==> task.conn in s.conns)
    && RegistryLockOk(s)
    && OneOwnerPerFd(s)
    && InterestOk(s)
    && SweepOk(s)
  }

  // ---------------------------------------------------------------- what one step cannot disturb

  /** Apart from thread t and these connections, nothing changes but the queue, the map's other fields aside. */
  predicate Local(s: State, s': State, t: Tid, subj: set<ConnId>) {
    && t < |s.pcs| == |s'.pcs|
    && s'.pcs == s.pcs[t := s'.pcs[t]]
    && (Dealing(s.pcs[t]) ==> s.pcs[t].conn in subj) && (Dealing(s'.pcs[t]) ==> s'.pcs[t].conn in subj)
    && s'.clock == s.clock && s'.maxIdle == s.maxIdle
    && s.conns.Keys <= s'.conns.Keys <= s.conns.Keys + subj
    && (forall d :: d in s.conns && d !in subj ==> s'.conns[d] == s.conns[d])
    && (forall fd :: fd in s'.registered ==>
          s'.registered[fd] in subj || (fd in s.registered && s.registered[fd] == s'.registered[fd]))
    && (forall fd :: fd in s.registered && s.registered[fd] !in subj ==>
          fd in s'.registered && s'.registered[fd] == s.registered[fd])
  }

  /** The queue changes only in what concerns these connections. */
  ghost predicate LocalQueue(s: State, s': State, subj: set<ConnId>) {
    forall task: Task :: task.conn !in subj ==> s'.queue[task] == s.queue[task]
  }

  /** Only thread t gains or loses connections_lock_. */
  predicate LocalLock(s: State, s': State, t: Tid) {
    forall u :: 0 <= u < |s.pcs| && u != t ==>
      (s'.writer == Some(u) <==> s.writer == Some(u)) && (u in s'.readers <==> u in s.readers)
  }

  lemma ConnFrame(s: State, s': State, t: Tid, subj: set<ConnId>, d: ConnId)
    requires Local(s, s', t, subj) && LocalQueue(s, s', subj)
    requires d in s.conns && d !in subj && ConnOk(s, d)
    ensures ConnOk(s', d)
  {
    forall kind: Kind ensures Outstanding(s', kind, d) == Outstanding(s, kind, d) {
      OwingAfterMove(s.pcs, t, s'.pcs[t], kind, d);
      assert s'.queue[Call(kind, d)] == s.queue[Call(kind, d)];
    }
    assert s'.queue[Deferred(d)] == s.queue[Deferred(d)];
  }

  lemma EntryFrame(s: State, s': State, t: Tid, subj: set<ConnId>, fd: Fd)
    requires Local(s, s', t, subj)
    requires fd in s.registered && s.registered[fd] !in subj && EntryOk(s, fd) && ConnOk(s, s.registered[fd])
    ensures EntryOk(s', fd)
  {
  }

  lemma ThreadFrame(s: State, s': State, t: Tid, subj: set<ConnId>, u: Tid)
    requires Local(s, s', t, subj) && LocalLock(s, s', t)
    requires u < |s.pcs| && u != t && ThreadOk(s, u)
    requires u == MAIN ==> PcOk(s', MAIN, s.pcs[MAIN])
    requires forall c :: c in subj && c in s.conns && s.conns[c].party == At(u) ==> s'.conns[c].party == At(u)
    ensures ThreadOk(s', u)
  {
  }

  /** What is left to show for a step: what it does to its own thread and its own connections. */
  predicate OwnPart(s: State, s': State, t: Tid, subj: set<ConnId>)
    requires Local(s, s', t, subj)
  {
    && (forall c :: c in subj && c in s'.conns ==> ConnOk(s', c))
    && (forall c :: c in subj && c in s.conns && s.conns[c].party.At? && s.conns[c].party != At(t) ==>
          s'.conns[c].party == s.conns[c].party)
    && (forall fd :: fd in s'.registered && s'.registered[fd] in subj ==> EntryOk(s', fd))
    && ThreadOk(s', t)
    && (t != MAIN ==> PcOk(s', MAIN, s.pcs[MAIN]))
  }

  predicate SharedPart(s': State) {
    && |s'.pcs| >= FIRST_WORKER
    && (forall task :: task in s'.queue ==> task.conn in s'.conns)
    && RegistryLockOk(s')
    && OneOwnerPerFd(s')
    && InterestOk(s')
    && SweepOk(s')
  }

  lemma ConnsKept(s: State, s': State, t: Tid, subj: set<ConnId>)
    requires forall c :: c in s.conns ==> ConnOk(s, c)
    requires Local(s, s', t, subj) && LocalQueue(s, s', subj)
    requires forall c :: c in subj && c in s'.conns ==> ConnOk(s', c)
    ensures forall c :: c in s'.conns ==> ConnOk(s', c)
  {
    forall c | c in s'.conns ensures ConnOk(s', c) {
      if c !in subj { ConnFrame(s, s', t, subj, c); }
    }
  }

  lemma EntriesKept(s: State, s': State, t: Tid, subj: set<ConnId>)
    requires forall c :: c in s.conns ==> ConnOk(s, c)
    requires forall fd :: fd in s.registered ==> EntryOk(s, fd)
    requires Local(s, s', t, subj)
    requires forall fd :: fd in s'.registered && s'.registered[fd] in subj ==> EntryOk(s', fd)
    ensures forall fd :: fd in s'.registered ==> EntryOk(s', fd)
  {
    forall fd | fd in s'.registered ensures EntryOk(s', fd) {
      if s'.registered[fd] !in subj {
        assert EntryOk(s, fd);
        EntryFrame(s, s', t, subj, fd);
      }
    }
  }

  lemma ThreadsKept(s: State, s': State, t: Tid, subj: set<ConnId>)
    requires |s.pcs| >= FIRST_WORKER && forall u :: 0 <= u < |s.pcs| ==> ThreadOk(s, u)
    requires Local(s, s', t, subj) && LocalLock(s, s', t)
    requires t != MAIN ==> PcOk(s', MAIN, s.pcs[MAIN])
    requires forall c :: c in subj && c in s.conns && s.conns[c].party.At? && s.conns[c].party != At(t) ==>
               s'.conns[c].party == s.conns[c].party
    requires ThreadOk(s', t)
    ensures forall u :: 0 <= u < |s'.pcs| ==> ThreadOk(s', u)
  {
    forall u | 0 <= u < |s'.pcs| ensures ThreadOk(s', u) {
      if u != t {
        ThreadFrame(s, s', t, subj, u);
      }
    }
  }

  lemma StepKeeps(s: State, s': State, t: Tid, subj: set<ConnId>)
    requires Inv(s)
    requires Local(s, s', t, subj) && LocalQueue(s, s', subj) && LocalLock(s, s', t)
    requires OwnPart(s, s', t, subj) && SharedPart(s')
    ensures Inv(s')
  {
    ConnsKept(s, s', t, subj);
    EntriesKept(s, s', t, subj);
    ThreadsKept(s, s', t, subj);
  }

  /** A step of thread t on connection c that leaves the map, and what the map depends on, alone. */
  predicate Quiet(s: State, s': State, t: Tid, c: ConnId) {
    && c in s.conns && c in s'.conns
    && t < |s.pcs| == |s'.pcs|
    && s'.pcs == s.pcs[t := s'.pcs[t]]
    && s'.conns == s.conns[c := s'.conns[c]]
    && (Dealing(s.pcs[t]) ==> s.pcs[t].conn == c) && (Dealing(s'.pcs[t]) ==> s'.pcs[t].conn == c)
    && s'.maxIdle == s.maxIdle && s'.clock == s.clock
    && s'.registered == s.registered && s'.interest == s.interest && s'.todo == s.todo && s'.tm == s.tm
    && !(t == MAIN && (s.pcs[t].AcceptInserted? || s'.pcs[t].AcceptInserted?))
    && s'.conns[c].fd == s.conns[c].fd && s'.conns[c].open == s.conns[c].open && s'.conns[c].lastUse == s.conns[c].lastUse
    && (t == REAPER ==> (s'.pcs[t].Sweeping? || s'.pcs[t].Shutting? ==> s.pcs[t].Sweeping? || s.pcs[t].Shutting?))
  }

  /** A change of a connection that the dispatcher, dealing with the same connection, cannot notice. */
  predicate Gentle(k: Conn, k': Conn) {
    && (k.handle.readers == 0 ==> k'.handle.readers == 0)
    && (k.raw.readers == 0 ==> k'.raw.readers == 0)
    && (k.party.Unclaimed? ==> k'.party == k.party)
  }

  lemma GentleKeepsMain(s: State, s': State, t: Tid, c: ConnId)
    requires Quiet(s, s', t, c) && t != MAIN && ThreadOk(s, MAIN) && Gentle(s.conns[c], s'.conns[c])
    requires s.conns[c].party.At? && s.conns[c].party != At(t) ==> s'.conns[c].party == s.conns[c].party
    ensures PcOk(s', MAIN, s.pcs[MAIN])
  {
  }

  /** What a quiet step has to show for itself. */
  ghost predicate QuietStep(s: State, s': State, t: Tid, c: ConnId) {
    && |s.pcs| >= FIRST_WORKER
    && Quiet(s, s', t, c)
    && LocalQueue(s, s', {c}) && LocalLock(s, s', t) && RegistryLockOk(s')
    && ConnOk(s', c) && ThreadOk(s', t)
    && (s.conns[c].party.At? && s.conns[c].party != At(t) ==> s'.conns[c].party == s.conns[c].party)
    && (Registered(s, c) && Listed(s, s.conns[c]) ==> Listed(s', s'.conns[c]))
    && (t == MAIN || Gentle(s.conns[c], s'.conns[c]) || PcOk(s', MAIN, s.pcs[MAIN]))
  }

  lemma QuietTasks(s: State, s': State, t: Tid, c: ConnId)
    requires (forall task :: task in s.queue ==> task.conn in s.conns) && Quiet(s, s', t, c) && LocalQueue(s, s', {c})
    ensures forall task :: task in s'.queue ==> task.conn in s'.conns
  {
    forall task | task in s'.queue ensures task.conn in s'.conns {
      assert task.conn != c ==> s'.queue[task] == s.queue[task];
    }
  }

  lemma QuietSweep(s: State, s': State, t: Tid, c: ConnId)
    requires |s.pcs| >= FIRST_WORKER && Quiet(s, s', t, c) && SweepOk(s)
    ensures SweepOk(s')
  {
    assert forall d :: d in s.conns ==> s'.conns[d].lastUse == s.conns[d].lastUse;
  }

  /** What InterestOk rests on is as it was. */
  predicate SameInterest(s: State, s': State)
    requires |s.pcs| >= FIRST_WORKER && |s'.pcs| >= FIRST_WORKER
  {
    && s'.maxIdle == s.maxIdle && s'.interest == s.interest && s'.registered.Keys == s.registered.Keys
    && Arming(s') == Arming(s)
  }

  lemma QuietInterest(s: State, s': State, t: Tid, c: ConnId)
    requires |s.pcs| >= FIRST_WORKER && Quiet(s, s', t, c)
    ensures SameInterest(s, s')
  {
    assert t == MAIN || s'.pcs[MAIN] == s.pcs[MAIN];
  }

  lemma QuietOwners(s: State, s': State, t: Tid, c: ConnId)
    requires Quiet(s, s', t, c) && OneOwnerPerFd(s)
    ensures OneOwnerPerFd(s')
  {
    forall x, y | x in s'.conns && y in s'.conns && s'.conns[x].open && s'.conns[y].open && s'.conns[x].fd == s'.conns[y].fd
      ensures x == y
    {
      assert s.conns[x].open && s.conns[y].open && s.conns[x].fd == s.conns[y].fd;
    }
  }

  lemma QuietShared(s: State, s': State, t: Tid, c: ConnId)
    requires |s.pcs| >= FIRST_WORKER && OneOwnerPerFd(s) && InterestOk(s) && SweepOk(s)
    requires forall task :: task in s.queue ==> task.conn in s.conns
    requires Quiet(s, s', t, c) && RegistryLockOk(s') && LocalQueue(s, s', {c})
    ensures SharedPart(s')
  {
    QuietTasks(s, s', t, c);
    QuietOwners(s, s', t, c);
    QuietInterest(s, s', t, c);
    QuietSweep(s, s', t, c);
  }

  lemma QuietEntries(s: State, s': State, t: Tid, c: ConnId)
    requires Inv(s) && QuietStep(s, s', t, c)
    ensures forall fd :: fd in s'.registered && s'.registered[fd] == c ==> EntryOk(s', fd)
  {
    forall fd | fd in s'.registered && s'.registered[fd] == c ensures EntryOk(s', fd) {
      assert EntryOk(s, fd);
    }
  }

  lemma QuietKeeps(s: State, s': State, t: Tid, c: ConnId)
    requires Inv(s) && QuietStep(s, s', t, c)
    ensures Inv(s')
  {
    QuietEntries(s, s', t, c);
    QuietShared(s, s', t, c);
    assert ThreadOk(s, MAIN);
    QuietOwn(s, s', t, c);
    StepKeeps(s, s', t, {c});
  }

  lemma QuietOwn(s: State, s': State, t: Tid, c: ConnId)
    requires QuietStep(s, s', t, c) && ThreadOk(s, MAIN)
    requires forall fd :: fd in s'.registered && s'.registered[fd] == c ==> EntryOk(s', fd)
    ensures Local(s, s', t, {c}) && OwnPart(s, s', t, {c})
  {
    if t != MAIN && Gentle(s.conns[c], s'.conns[c]) {
      GentleKeepsMain(s, s', t, c);
    }
  }

  /** What a step of thread t on connection c may rely on. */
  predicate Facts(s: State, t: Tid, c: ConnId) {
    && |s.pcs| >= FIRST_WORKER && t < |s.pcs| && c in s.conns
    && ThreadOk(s, t) && ConnOk(s, c) && RegistryLockOk(s)
  }

  // ---------------------------------------------------------------- the dispatcher's quiet steps

  lemma AcceptLockStep(s: State, c: ConnId)
    requires CanAcceptLock(s) && c == s.pcs[MAIN].conn && Facts(s, MAIN, c)
    ensures QuietStep(s, DoAcceptLock(s), MAIN, c)
  {
    Moved(s.pcs, MAIN, DoAcceptLock(s).pcs[MAIN], c);
  }

  lemma AcceptReadLockStep(s: State, c: ConnId)
    requires CanAcceptReadLock(s) && c == s.pcs[MAIN].conn && Facts(s, MAIN, c)
    ensures QuietStep(s, DoAcceptReadLock(s), MAIN, c)
  {
    Moved(s.pcs, MAIN, DoAcceptReadLock(s).pcs[MAIN], c);
  }

  lemma AcceptEnqueueStep(s: State, c: ConnId)
    requires CanAcceptEnqueue(s) && c == s.pcs[MAIN].conn && Facts(s, MAIN, c)
    ensures QuietStep(s, DoAcceptEnqueue(s), MAIN, c)
  {
    Moved(s.pcs, MAIN, DoAcceptEnqueue(s).pcs[MAIN], c);
  }

  /** The dispatcher has no shutdown under way, and what is in the map is not deleted: so nobody claims it. */
  lemma HangupUnclaimed(s: State, fd: Fd)
    requires CanHangup(s, fd) && Facts(s, MAIN, s.registered[fd]) && EntryOk(s, fd)
    ensures s.conns[s.registered[fd]].party.Unclaimed?
  {
  }

  lemma HangupStep(s: State, fd: Fd)
    requires CanHangup(s, fd) && Facts(s, MAIN, s.registered[fd]) && s.conns[s.registered[fd]].party.Unclaimed?
    ensures QuietStep(s, DoHangup(s, fd), MAIN, s.registered[fd])
  {
    Moved(s.pcs, MAIN, DoHangup(s, fd).pcs[MAIN], s.registered[fd]);
  }

  lemma DataEventStep(s: State, fd: Fd)
    requires CanDataEvent(s, fd) && Facts(s, MAIN, s.registered[fd])
    ensures QuietStep(s, DoDataEvent(s, fd), MAIN, s.registered[fd])
  {
    Moved(s.pcs, MAIN, DoDataEvent(s, fd).pcs[MAIN], s.registered[fd]);
  }

  lemma DataLockStep(s: State, c: ConnId)
    requires CanDataLock(s) && c == s.pcs[MAIN].conn && Facts(s, MAIN, c)
    ensures QuietStep(s, DoDataLock(s), MAIN, c)
  {
    Moved(s.pcs, MAIN, DoDataLock(s).pcs[MAIN], c);
  }

  lemma DataMissStep(s: State, c: ConnId)
    requires CanDataMiss(s) && c == s.pcs[MAIN].conn && Facts(s, MAIN, c)
    ensures QuietStep(s, DoDataMiss(s), MAIN, c)
  {
    Moved(s.pcs, MAIN, DoDataMiss(s).pcs[MAIN], c);
  }

  lemma DataReadLockStep(s: State, c: ConnId)
    requires CanDataReadLock(s) && c == s.pcs[MAIN].conn && Facts(s, MAIN, c) && EntryOk(s, s.pcs[MAIN].fd)
    ensures QuietStep(s, DoDataReadLock(s), MAIN, c)
  {
    Moved(s.pcs, MAIN, DoDataReadLock(s).pcs[MAIN], c);
  }

  lemma DataEnqueueStep(s: State, c: ConnId)
    requires CanDataEnqueue(s) && c == s.pcs[MAIN].conn && Facts(s, MAIN, c)
    ensures QuietStep(s, DoDataEnqueue(s), MAIN, c)
  {
    Moved(s.pcs, MAIN, DoDataEnqueue(s).pcs[MAIN], c);
  }

  lemma ErrorEventStep(s: State, fd: Fd)
    requires CanErrorEvent(s, fd) && Facts(s, MAIN, s.registered[fd])
    ensures QuietStep(s, DoErrorEvent(s, fd), MAIN, s.registered[fd])
  {
    Moved(s.pcs, MAIN, DoErrorEvent(s, fd).pcs[MAIN], s.registered[fd]);
  }

  lemma ErrorReadLockStep(s: State, c: ConnId)
    requires CanErrorReadLock(s) && c == s.pcs[MAIN].conn && Facts(s, MAIN, c)
    ensures QuietStep(s, DoErrorReadLock(s), MAIN, c)
  {
    Moved(s.pcs, MAIN, DoErrorReadLock(s).pcs[MAIN], c);
  }

  lemma ErrorEnqueueStep(s: State, c: ConnId)
    requires CanErrorEnqueue(s) && c == s.pcs[MAIN].conn && Facts(s, MAIN, c)
    ensures QuietStep(s, DoErrorEnqueue(s), MAIN, c)
  {
    Moved(s.pcs, MAIN, DoErrorEnqueue(s).pcs[MAIN], c);
  }

  /** It is not the data path that calls ReadLock on a deleted connection. */
  lemma DanglingStep(s: State, c: ConnId)
    requires CanDangle(s) && c == s.pcs[MAIN].conn && Facts(s, MAIN, c)
    requires s.pcs[MAIN].DataHeld? ==> EntryOk(s, s.pcs[MAIN].fd)
    ensures QuietStep(s, DoDangle(s), MAIN, c)
  {
    Moved(s.pcs, MAIN, DoDangle(s).pcs[MAIN], c);
  }

  // ---------------------------------------------------------------- the workers' quiet steps

  lemma TakeCallConn(s: State, t: Tid, task: Task)
    requires task.Call? && CanTake(s, t, task) && Facts(s, t, task.conn)
    ensures ConnOk(DoTake(s, t, task), task.conn)
  {
    Moved(s.pcs, t, DoTake(s, t, task).pcs[t], task.conn);
  }

  lemma TakeCallStep(s: State, t: Tid, task: Task)
    requires task.Call? && CanTake(s, t, task) && Facts(s, t, task.conn)
    ensures QuietStep(s, DoTake(s, t, task), t, task.conn)
  {
    TakeCallConn(s, t, task);
  }

  lemma TakeTerminatedConn(s: State, t: Tid, task: Task)
    requires task.Terminated? && CanTake(s, t, task) && Facts(s, t, task.conn)
    ensures ConnOk(DoTake(s, t, task), task.conn)
  {
    Moved(s.pcs, t, DoTake(s, t, task).pcs[t], task.conn);
  }

  lemma TakeTerminatedStep(s: State, t: Tid, task: Task)
    requires task.Terminated? && CanTake(s, t, task) && Facts(s, t, task.conn)
    ensures QuietStep(s, DoTake(s, t, task), t, task.conn)
  {
    TakeTerminatedConn(s, t, task);
  }

  lemma TakeDeferredStep(s: State, t: Tid, task: Task)
    requires task.Deferred? && CanTake(s, t, task) && Facts(s, t, task.conn)
    ensures QuietStep(s, DoTake(s, t, task), t, task.conn)
  {
    Moved(s.pcs, t, DoTake(s, t, task).pcs[t], task.conn);
  }

  lemma CallLockStep(s: State, t: Tid, c: ConnId)
    requires CanCallLock(s, t) && c == s.pcs[t].conn && Facts(s, t, c)
    ensures QuietStep(s, DoCallLock(s, t), t, c)
  {
    Moved(s.pcs, t, DoCallLock(s, t).pcs[t], c);
  }

  lemma HandlerDeferStep(s: State, t: Tid, c: ConnId)
    requires CanHandlerDefer(s, t) && c == s.pcs[t].conn && Facts(s, t, c) && ThreadOk(s, MAIN)
    ensures QuietStep(s, DoHandlerDefer(s, t), t, c)
  {
    OwingCounts(s.pcs, t, s.pcs[t].kind, c);
    assert s.pcs == s.pcs[t := s.pcs[t]];
    Moved(s.pcs, t, DoHandlerDefer(s, t).pcs[t], c);
  }

  lemma HandlerReturnStep(s: State, t: Tid, c: ConnId)
    requires InHandler(s, t) && c == s.pcs[t].conn && Facts(s, t, c)
    ensures QuietStep(s, DoHandlerReturn(s, t), t, c)
  {
    Moved(s.pcs, t, DoHandlerReturn(s, t).pcs[t], c);
  }

  lemma CallUnlockConn(s: State, t: Tid, c: ConnId)
    requires CanCallUnlock(s, t) && c == s.pcs[t].conn && Facts(s, t, c)
    ensures ConnOk(DoCallUnlock(s, t), c)
  {
    CallUnlockHolds(s, t, c);
  }

  /** One hold less, and one callback less outstanding. */
  lemma CallUnlockHolds(s: State, t: Tid, c: ConnId)
    requires CanCallUnlock(s, t) && c == s.pcs[t].conn && HoldsMatch(s, c)
    ensures HoldsMatch(DoCallUnlock(s, t), c)
  {
    OwingCounts(s.pcs, t, s.pcs[t].kind, c);
    Moved(s.pcs, t, DoCallUnlock(s, t).pcs[t], c);
  }

  lemma CallUnlockStep(s: State, t: Tid, c: ConnId)
    requires CanCallUnlock(s, t) && c == s.pcs[t].conn && Facts(s, t, c)
    ensures QuietStep(s, DoCallUnlock(s, t), t, c)
  {
    CallUnlockConn(s, t, c);
  }

  lemma CallReleaseStep(s: State, t: Tid, c: ConnId)
    requires CanCallRelease(s, t) && c == s.pcs[t].conn && Facts(s, t, c)
    ensures QuietStep(s, DoCallRelease(s, t), t, c)
  {
    Moved(s.pcs, t, DoCallRelease(s, t).pcs[t], c);
  }

  lemma TerminatedReturnStep(s: State, t: Tid, c: ConnId)
    requires CanTerminatedReturn(s, t) && c == s.pcs[t].conn && Facts(s, t, c)
    ensures QuietStep(s, DoTerminatedReturn(s, t), t, c)
  {
    Moved(s.pcs, t, DoTerminatedReturn(s, t).pcs[t], c);
  }

  // ---------------------------------------------------------------- a shutdown's quiet steps

  lemma ShutBeginConn(s: State, t: Tid, c: ConnId)
    requires InPhase(s, t, Begin) && c == s.pcs[t].conn && Facts(s, t, c)
    ensures ConnOk(DoShutBegin(s, t), c)
  {
    Moved(s.pcs, t, DoShutBegin(s, t).pcs[t], c);
  }

  lemma ShutBeginStep(s: State, t: Tid, c: ConnId)
    requires InPhase(s, t, Begin) && c == s.pcs[t].conn && Facts(s, t, c)
    ensures QuietStep(s, DoShutBegin(s, t), t, c)
  {
    ShutBeginConn(s, t, c);
  }

  lemma ShutFoundStep(s: State, t: Tid, fd: Fd, c: ConnId)
    requires CanShutFound(s, t, fd) && EntryOk(s, fd) && c == s.pcs[t].conn && Facts(s, t, c)
    ensures QuietStep(s, DoShutFound(s, t, fd), t, c)
  {
    Moved(s.pcs, t, DoShutFound(s, t, fd).pcs[t], c);
  }

  lemma ShutNotFoundStep(s: State, t: Tid, c: ConnId)
    requires CanShutNotFound(s, t) && c == s.pcs[t].conn && Facts(s, t, c)
    ensures QuietStep(s, DoShutNotFound(s, t), t, c)
  {
    Moved(s.pcs, t, DoShutNotFound(s, t).pcs[t], c);
  }

  lemma ShutAcquireStep(s: State, t: Tid, fd: Fd, c: ConnId)
    requires CanShutAcquire(s, t, fd) && c == s.pcs[t].conn && Facts(s, t, c)
    ensures QuietStep(s, DoShutAcquire(s, t, fd), t, c)
  {
    Moved(s.pcs, t, DoShutAcquire(s, t, fd).pcs[t], c);
  }

  lemma ShutLockHandleConn(s: State, t: Tid, c: ConnId)
    requires CanShutLockHandle(s, t) && c == s.pcs[t].conn && Facts(s, t, c)
    ensures ConnOk(DoShutLockHandle(s, t), c)
  {
    Moved(s.pcs, t, DoShutLockHandle(s, t).pcs[t], c);
  }

  lemma ShutLockHandleStep(s: State, t: Tid, c: ConnId)
    requires CanShutLockHandle(s, t) && c == s.pcs[t].conn && Facts(s, t, c)
    ensures QuietStep(s, DoShutLockHandle(s, t), t, c)
  {
    ShutLockHandleConn(s, t, c);
  }

  lemma ShutLockRawConn(s: State, t: Tid, c: ConnId)
    requires CanShutLockRaw(s, t) && c == s.pcs[t].conn && Facts(s, t, c)
    ensures ConnOk(DoShutLockRaw(s, t), c)
  {
    Moved(s.pcs, t, DoShutLockRaw(s, t).pcs[t], c);
  }

  lemma ShutLockRawStep(s: State, t: Tid, c: ConnId)
    requires CanShutLockRaw(s, t) && c == s.pcs[t].conn && Facts(s, t, c)
    ensures QuietStep(s, DoShutLockRaw(s, t), t, c)
  {
    ShutLockRawConn(s, t, c);
  }

  lemma ShutDeleteConn(s: State, t: Tid, c: ConnId)
    requires InPhase(s, t, Delete) && c == s.pcs[t].conn && Facts(s, t, c)
    ensures ConnOk(DoShutDelete(s, t), c)
  {
    Moved(s.pcs, t, DoShutDelete(s, t).pcs[t], c);
  }

  lemma ShutDeleteStep(s: State, t: Tid, c: ConnId)
    requires InPhase(s, t, Delete) && c == s.pcs[t].conn && Facts(s, t, c)
    ensures QuietStep(s, DoShutDelete(s, t), t, c)
  {
    ShutDeleteConn(s, t, c);
  }

  // ---------------------------------------------------------------- steps that touch the map or what it rests on

  lemma AcceptConn(s: State, fd: Fd, c: ConnId, decorated: bool)
    requires Inv(s) && CanAccept(s, fd, c)
    ensures ConnOk(DoAccept(s, fd, c, decorated), c)
  {
    var s' := DoAccept(s, fd, c, decorated);
    forall kind: Kind ensures Outstanding(s', kind, c) == 0 {
      forall t | 0 <= t < |s.pcs| ensures !Owes(s.pcs[t], kind, c) { assert ThreadOk(s, t); }
      NobodyOwes(s.pcs, kind, c);
      OwingAfterMove(s.pcs, MAIN, AcceptWait(c), kind, c);
    }
  }

  lemma AcceptShared(s: State, fd: Fd, c: ConnId, decorated: bool)
    requires Inv(s) && CanAccept(s, fd, c)
    ensures SharedPart(DoAccept(s, fd, c, decorated))
    ensures forall f :: f in s.registered ==> f != fd && s.registered[f] != c
  {
    forall f | f in s.registered ensures f != fd && s.registered[f] != c { assert EntryOk(s, f); }
    AcceptOwners(s, fd, c, decorated);
    assert Arming(DoAccept(s, fd, c, decorated)) == Arming(s);
  }

  /** The kernel hands out no descriptor that is open. */
  lemma AcceptOwners(s: State, fd: Fd, c: ConnId, decorated: bool)
    requires CanAccept(s, fd, c) && OneOwnerPerFd(s)
    ensures OneOwnerPerFd(DoAccept(s, fd, c, decorated))
  {
  }

  lemma AcceptKeeps(s: State, fd: Fd, c: ConnId, decorated: bool)
    requires Inv(s) && CanAccept(s, fd, c)
    ensures Inv(DoAccept(s, fd, c, decorated))
  {
    assert ThreadOk(s, MAIN);
    AcceptConn(s, fd, c, decorated);
    AcceptShared(s, fd, c, decorated);
    AcceptOwn(s, fd, c, decorated);
    StepKeeps(s, DoAccept(s, fd, c, decorated), MAIN, {c});
  }

  lemma AcceptOwn(s: State, fd: Fd, c: ConnId, decorated: bool)
    requires |s.pcs| >= FIRST_WORKER && CanAccept(s, fd, c) && ThreadOk(s, MAIN)
    requires ConnOk(DoAccept(s, fd, c, decorated), c)
    requires forall f :: f in s.registered ==> f != fd && s.registered[f] != c
    ensures Local(s, DoAccept(s, fd, c, decorated), MAIN, {c}) && OwnPart(s, DoAccept(s, fd, c, decorated), MAIN, {c})
  {
  }

  /** The new entry replaces no other: its descriptor is not in the map. */
  lemma AcceptInsertOwn(s: State, c: ConnId)
    requires CanAcceptInsert(s) && c == s.pcs[MAIN].conn && Facts(s, MAIN, c)
    requires forall fd :: fd in s.registered ==> EntryOk(s, fd)
    ensures Local(s, DoAcceptInsert(s), MAIN, {c}) && OwnPart(s, DoAcceptInsert(s), MAIN, {c})
  {
    Moved(s.pcs, MAIN, AcceptInserted(c), c);
  }

  lemma AcceptInsertShared(s: State)
    requires Inv(s) && CanAcceptInsert(s)
    ensures SharedPart(DoAcceptInsert(s))
  {
    assert ThreadOk(s, MAIN) && ThreadOk(s, REAPER);
  }

  lemma AcceptInsertKeeps(s: State)
    requires Inv(s) && CanAcceptInsert(s)
    ensures Inv(DoAcceptInsert(s))
  {
    var c := s.pcs[MAIN].conn;
    assert ThreadOk(s, MAIN) && ConnOk(s, c);
    AcceptInsertOwn(s, c);
    AcceptInsertShared(s);
    StepKeeps(s, DoAcceptInsert(s), MAIN, {c});
  }

  lemma AcceptArmOwn(s: State, c: ConnId)
    requires CanAcceptArm(s) && c == s.pcs[MAIN].conn && Facts(s, MAIN, c)
    requires forall fd :: fd in s.registered ==> EntryOk(s, fd)
    ensures Local(s, DoAcceptArm(s), MAIN, {c}) && OwnPart(s, DoAcceptArm(s), MAIN, {c})
  {
    Moved(s.pcs, MAIN, AcceptArmed(c), c);
    forall fd | fd in s.registered ensures EntryOk(s, fd) {}
  }

  lemma AcceptArmShared(s: State)
    requires Inv(s) && CanAcceptArm(s)
    ensures SharedPart(DoAcceptArm(s))
  {
    assert ThreadOk(s, MAIN);
    AcceptArmInterest(s);
  }

  lemma AcceptArmInterest(s: State)
    requires |s.pcs| >= FIRST_WORKER && CanAcceptArm(s) && ThreadOk(s, MAIN) && InterestOk(s)
    ensures InterestOk(DoAcceptArm(s))
  {
    assert Arming(s) == {s.conns[s.pcs[MAIN].conn].fd} && Arming(DoAcceptArm(s)) == {};
  }

  lemma AcceptArmKeeps(s: State)
    requires Inv(s) && CanAcceptArm(s)
    ensures Inv(DoAcceptArm(s))
  {
    var c := s.pcs[MAIN].conn;
    assert ThreadOk(s, MAIN) && ConnOk(s, c);
    AcceptArmOwn(s, c);
    AcceptArmShared(s);
    StepKeeps(s, DoAcceptArm(s), MAIN, {c});
  }

  lemma HandlerUseOwn(s: State, t: Tid, c: ConnId)
    requires InHandler(s, t) && c == s.pcs[t].conn && Facts(s, t, c) && ThreadOk(s, MAIN)
    requires forall fd :: fd in s.registered ==> EntryOk(s, fd)
    ensures Local(s, DoHandlerUse(s, t), t, {c}) && OwnPart(s, DoHandlerUse(s, t), t, {c})
  {
    assert s.pcs == s.pcs[t := s.pcs[t]];
  }

  lemma HandlerUseShared(s: State, t: Tid)
    requires Inv(s) && InHandler(s, t)
    ensures SharedPart(DoHandlerUse(s, t))
  {
    assert ThreadOk(s, t) && ThreadOk(s, REAPER);
    HandlerUseWhileNobodySweeps(s, t);
    HandlerUseOwners(s, t);
    HandlerUseInterest(s, t);
  }

  lemma HandlerUseInterest(s: State, t: Tid)
    requires |s.pcs| >= FIRST_WORKER && InHandler(s, t) && InterestOk(s)
    ensures InterestOk(DoHandlerUse(s, t))
  {
    assert Arming(DoHandlerUse(s, t)) == Arming(s);
  }

  lemma HandlerUseOwners(s: State, t: Tid)
    requires InHandler(s, t) && OneOwnerPerFd(s)
    ensures OneOwnerPerFd(DoHandlerUse(s, t))
  {
    var s' := DoHandlerUse(s, t);
    forall x, y | x in s'.conns && y in s'.conns && s'.conns[x].open && s'.conns[y].open && s'.conns[x].fd == s'.conns[y].fd
      ensures x == y
    {
      assert s.conns[x].open && s.conns[y].open && s.conns[x].fd == s.conns[y].fd;
    }
  }

  lemma HandlerUseWhileNobodySweeps(s: State, t: Tid)
    requires |s.pcs| >= FIRST_WORKER && InHandler(s, t) && ThreadOk(s, t) && ThreadOk(s, REAPER) && RegistryLockOk(s)
    ensures !s.pcs[REAPER].Sweeping? && !s.pcs[REAPER].Shutting? && SweepOk(DoHandlerUse(s, t))
  {
  }

  lemma HandlerUseKeeps(s: State, t: Tid)
    requires Inv(s) && InHandler(s, t)
    ensures Inv(DoHandlerUse(s, t))
  {
    var c := s.pcs[t].conn;
    assert ThreadOk(s, t) && ThreadOk(s, MAIN) && ConnOk(s, c);
    HandlerUseOwn(s, t, c);
    HandlerUseShared(s, t);
    StepKeeps(s, DoHandlerUse(s, t), t, {c});
  }

  /** The entry erased under this descriptor, if there is one, is the connection's own. */
  lemma OnlyOwnEntry(s: State, c: ConnId, fd: Fd)
    requires Inv(s) && c in s.conns && s.conns[c].open && s.conns[c].fd == fd
    ensures fd in s.registered ==> s.registered[fd] == c
    ensures forall f :: f in s.registered && s.registered[f] == c ==> f == fd
  {
    forall f | f in s.registered ensures s.registered[f] == c <==> f == fd { assert EntryOk(s, f); }
  }

  lemma ShutEraseConn(s: State, t: Tid, fd: Fd, c: ConnId)
    requires InPhase(s, t, Erase(fd)) && c == s.pcs[t].conn && Facts(s, t, c)
    ensures ConnOk(DoShutErase(s, t, fd), c)
  {
    Moved(s.pcs, t, DoShutErase(s, t, fd).pcs[t], c);
  }

  lemma ShutEraseOwn(s: State, t: Tid, fd: Fd, c: ConnId)
    requires InPhase(s, t, Erase(fd)) && c == s.pcs[t].conn && Facts(s, t, c) && ThreadOk(s, MAIN)
    requires fd in s.registered ==> s.registered[fd] == c
    requires forall f :: f in s.registered && s.registered[f] == c ==> f == fd
    ensures Local(s, DoShutErase(s, t, fd), t, {c}) && OwnPart(s, DoShutErase(s, t, fd), t, {c})
  {
    ShutEraseConn(s, t, fd, c);
  }

  /** The thread about to erase holds connections_lock_, so the reaper is not looking. */
  lemma ShutEraseSweep(s: State, t: Tid, fd: Fd)
    requires Inv(s) && InPhase(s, t, Erase(fd))
    ensures t != REAPER && SweepOk(DoShutErase(s, t, fd))
  {
    assert ThreadOk(s, t) && ThreadOk(s, REAPER) && ConnOk(s, s.pcs[t].conn);
  }

  lemma ShutEraseShared(s: State, t: Tid, fd: Fd)
    requires Inv(s) && InPhase(s, t, Erase(fd))
    ensures SharedPart(DoShutErase(s, t, fd))
  {
    ShutEraseSweep(s, t, fd);
    assert ThreadOk(s, t);
    assert Arming(DoShutErase(s, t, fd)) == Arming(s);
  }

  lemma ShutEraseKeeps(s: State, t: Tid, fd: Fd)
    requires Inv(s) && InPhase(s, t, Erase(fd))
    ensures Inv(DoShutErase(s, t, fd))
  {
    var c := s.pcs[t].conn;
    assert ThreadOk(s, t) && ThreadOk(s, MAIN) && ConnOk(s, c);
    OnlyOwnEntry(s, c, fd);
    ShutEraseOwn(s, t, fd, c);
    ShutEraseShared(s, t, fd);
    StepKeeps(s, DoShutErase(s, t, fd), t, {c});
  }

  lemma ShutCloseConn(s: State, t: Tid, c: ConnId)
    requires InPhase(s, t, Close) && c == s.pcs[t].conn && Facts(s, t, c)
    ensures ConnOk(DoShutClose(s, t), c)
  {
    Moved(s.pcs, t, DoShutClose(s, t).pcs[t], c);
  }

  lemma ShutCloseMain(s: State, t: Tid, c: ConnId)
    requires InPhase(s, t, Close) && c == s.pcs[t].conn && Facts(s, t, c) && ThreadOk(s, MAIN) && t != MAIN
    ensures PcOk(DoShutClose(s, t), MAIN, s.pcs[MAIN])
  {
  }

  lemma ShutCloseOwn(s: State, t: Tid, c: ConnId)
    requires InPhase(s, t, Close) && c == s.pcs[t].conn && Facts(s, t, c) && ThreadOk(s, MAIN)
    requires forall fd :: fd in s.registered ==> s.registered[fd] != c
    ensures Local(s, DoShutClose(s, t), t, {c}) && OwnPart(s, DoShutClose(s, t), t, {c})
  {
    ShutCloseConn(s, t, c);
    if t != MAIN { ShutCloseMain(s, t, c); }
  }

  /** Its entry has left the map, and while it is open nobody else's entry is under the same descriptor. */
  lemma CloseUnregistered(s: State, t: Tid)
    requires Inv(s) && InPhase(s, t, Close)
    ensures s.conns[s.pcs[t].conn].fd !in s.registered
    ensures forall fd :: fd in s.registered ==> s.registered[fd] != s.pcs[t].conn
  {
    assert ThreadOk(s, t) && ConnOk(s, s.pcs[t].conn);
    forall fd | fd in s.registered ensures fd != s.conns[s.pcs[t].conn].fd && s.registered[fd] != s.pcs[t].conn {
      assert EntryOk(s, fd);
    }
  }

  lemma ShutCloseInterest(s: State, t: Tid)
    requires |s.pcs| >= FIRST_WORKER && InPhase(s, t, Close) && InterestOk(s)
    requires s.conns[s.pcs[t].conn].fd !in s.registered
    ensures InterestOk(DoShutClose(s, t))
  {
    assert Arming(DoShutClose(s, t)) == Arming(s);
  }

  lemma ShutCloseOwners(s: State, t: Tid)
    requires InPhase(s, t, Close) && OneOwnerPerFd(s)
    ensures OneOwnerPerFd(DoShutClose(s, t))
  {
    var s' := DoShutClose(s, t);
    forall x, y | x in s'.conns && y in s'.conns && s'.conns[x].open && s'.conns[y].open && s'.conns[x].fd == s'.conns[y].fd
      ensures x == y
    {
      assert s.conns[x].open && s.conns[y].open && s.conns[x].fd == s.conns[y].fd;
    }
  }

  lemma ShutCloseSweep(s: State, t: Tid)
    requires |s.pcs| >= FIRST_WORKER && InPhase(s, t, Close) && SweepOk(s)
    ensures SweepOk(DoShutClose(s, t))
  {
  }

  lemma ShutCloseShared(s: State, t: Tid)
    requires Inv(s) && InPhase(s, t, Close) && s.conns[s.pcs[t].conn].fd !in s.registered
    ensures SharedPart(DoShutClose(s, t))
  {
    ShutCloseInterest(s, t);
    ShutCloseOwners(s, t);
    ShutCloseSweep(s, t);
  }

  lemma ShutCloseKeeps(s: State, t: Tid)
    requires Inv(s) && InPhase(s, t, Close)
    ensures Inv(DoShutClose(s, t))
  {
    var c := s.pcs[t].conn;
    assert ThreadOk(s, t) && ThreadOk(s, MAIN) && ConnOk(s, c);
    CloseUnregistered(s, t);
    ShutCloseOwn(s, t, c);
    ShutCloseShared(s, t);
    StepKeeps(s, DoShutClose(s, t), t, {c});
  }

  // ---------------------------------------------------------------- the reaper's steps

  lemma ReapWakeShared(s: State)
    requires Inv(s) && CanReapWake(s)
    ensures SharedPart(DoReapWake(s))
  {
    assert Arming(DoReapWake(s)) == Arming(s);
  }

  lemma ReapWakeOwn(s: State)
    requires |s.pcs| >= FIRST_WORKER && CanReapWake(s) && ThreadOk(s, MAIN) && ThreadOk(s, REAPER)
    ensures Local(s, DoReapWake(s), REAPER, {}) && OwnPart(s, DoReapWake(s), REAPER, {})
  {
  }

  lemma ReapWakeKeeps(s: State)
    requires Inv(s) && CanReapWake(s)
    ensures Inv(DoReapWake(s))
  {
    assert ThreadOk(s, REAPER) && ThreadOk(s, MAIN);
    ReapWakeOwn(s);
    ReapWakeShared(s);
    StepKeeps(s, DoReapWake(s), REAPER, {});
  }

  /** Nothing was used later than now, so nothing registered was used later than tm. */
  lemma ReapLockShared(s: State)
    requires Inv(s) && CanReapLock(s)
    ensures SharedPart(DoReapLock(s))
  {
    assert Arming(DoReapLock(s)) == Arming(s);
    forall fd | fd in s.registered && s.registered[fd] in s.conns ensures s.conns[s.registered[fd]].lastUse <= s.clock {
      assert ConnOk(s, s.registered[fd]);
    }
  }

  lemma ReapLockOwn(s: State)
    requires |s.pcs| >= FIRST_WORKER && CanReapLock(s) && ThreadOk(s, MAIN) && ThreadOk(s, REAPER)
    ensures Local(s, DoReapLock(s), REAPER, {}) && OwnPart(s, DoReapLock(s), REAPER, {})
  {
  }

  lemma ReapLockKeeps(s: State)
    requires Inv(s) && CanReapLock(s)
    ensures Inv(DoReapLock(s))
  {
    assert ThreadOk(s, REAPER) && ThreadOk(s, MAIN);
    ReapLockOwn(s);
    ReapLockShared(s);
    StepKeeps(s, DoReapLock(s), REAPER, {});
  }

  lemma ReapSkipKeeps(s: State, fd: Fd)
    requires Inv(s) && CanReapSkip(s, fd)
    ensures Inv(DoReapSkip(s, fd))
  {
    assert ThreadOk(s, REAPER) && ThreadOk(s, MAIN);
    assert s.pcs == s.pcs[REAPER := s.pcs[REAPER]];
    StepKeeps(s, DoReapSkip(s, fd), REAPER, {});
  }

  lemma ReapDoneShared(s: State)
    requires Inv(s) && CanReapDone(s)
    ensures SharedPart(DoReapDone(s))
  {
    assert Arming(DoReapDone(s)) == Arming(s);
  }

  lemma ReapDoneOwn(s: State)
    requires |s.pcs| >= FIRST_WORKER && CanReapDone(s) && ThreadOk(s, MAIN) && ThreadOk(s, REAPER)
    ensures Local(s, DoReapDone(s), REAPER, {}) && OwnPart(s, DoReapDone(s), REAPER, {})
  {
  }

  lemma ReapDoneKeeps(s: State)
    requires Inv(s) && CanReapDone(s)
    ensures Inv(DoReapDone(s))
  {
    assert ThreadOk(s, REAPER) && ThreadOk(s, MAIN);
    ReapDoneOwn(s);
    ReapDoneShared(s);
    StepKeeps(s, DoReapDone(s), REAPER, {});
  }

  lemma ReapEraseOwn(s: State, fd: Fd, c: ConnId)
    requires CanReapErase(s, fd) && c == s.registered[fd] && Facts(s, REAPER, c) && ThreadOk(s, MAIN)
    requires forall f :: f in s.registered && s.registered[f] == c ==> f == fd
    ensures Local(s, DoReapErase(s, fd), REAPER, {c}) && OwnPart(s, DoReapErase(s, fd), REAPER, {c})
  {
    assert s.pcs == s.pcs[REAPER := s.pcs[REAPER]];
  }

  lemma ReapEraseKeeps(s: State, fd: Fd)
    requires Inv(s) && CanReapErase(s, fd)
    ensures Inv(DoReapErase(s, fd))
  {
    var c := s.registered[fd];
    assert ThreadOk(s, REAPER) && ThreadOk(s, MAIN) && ConnOk(s, c) && EntryOk(s, fd);
    OnlyOwnEntry(s, c, fd);
    ReapEraseOwn(s, fd, c);
    ReapEraseShared(s, fd);
    StepKeeps(s, DoReapErase(s, fd), REAPER, {c});
  }

  lemma ReapEraseShared(s: State, fd: Fd)
    requires Inv(s) && CanReapErase(s, fd)
    ensures SharedPart(DoReapErase(s, fd))
  {
    assert Arming(DoReapErase(s, fd)) == Arming(s);
  }

  /** The reaper has no shutdown under way, and what is in the map is not deleted: so nobody claims it. */
  lemma ReapIdleUnclaimed(s: State, fd: Fd)
    requires CanReapIdle(s, fd) && Facts(s, REAPER, s.registered[fd]) && EntryOk(s, fd)
    ensures s.conns[s.registered[fd]].party.Unclaimed?
  {
  }

  lemma ReapIdleOwn(s: State, fd: Fd, c: ConnId)
    requires CanReapIdle(s, fd) && c == s.registered[fd] && Facts(s, REAPER, c) && ThreadOk(s, MAIN) && EntryOk(s, fd)
    requires s.conns[c].party.Unclaimed?
    requires forall f :: f in s.registered && s.registered[f] == c ==> f == fd
    ensures Local(s, DoReapIdle(s, fd), REAPER, {c}) && OwnPart(s, DoReapIdle(s, fd), REAPER, {c})
  {
    Moved(s.pcs, REAPER, Shutting(c, Begin), c);
  }

  lemma ReapIdleShared(s: State, fd: Fd)
    requires Inv(s) && CanReapIdle(s, fd)
    ensures SharedPart(DoReapIdle(s, fd))
  {
  }

  lemma ReapIdleKeeps(s: State, fd: Fd)
    requires Inv(s) && CanReapIdle(s, fd)
    ensures Inv(DoReapIdle(s, fd))
  {
    var c := s.registered[fd];
    assert ThreadOk(s, REAPER) && ThreadOk(s, MAIN) && ConnOk(s, c) && EntryOk(s, fd);
    OnlyOwnEntry(s, c, fd);
    ReapIdleUnclaimed(s, fd);
    ReapIdleOwn(s, fd, c);
    ReapIdleShared(s, fd);
    StepKeeps(s, DoReapIdle(s, fd), REAPER, {c});
  }

  lemma TickKeeps(s: State)
    requires Inv(s) && s.clock + 1 < U64_MODULUS
    ensures Inv(s.(clock := s.clock + 1))
  {
    var s' := s.(clock := s.clock + 1);
    forall c | c in s'.conns ensures ConnOk(s', c) { assert ConnOk(s, c); }
    forall t | 0 <= t < |s'.pcs| ensures ThreadOk(s', t) { TickThread(s, t); }
    forall fd | fd in s'.registered ensures EntryOk(s', fd) { assert EntryOk(s, fd); }
    TickShared(s);
  }

  lemma TickThread(s: State, t: Tid)
    requires t < |s.pcs| && ThreadOk(s, t)
    ensures ThreadOk(s.(clock := s.clock + 1), t)
  {
  }

  lemma TickShared(s: State)
    requires SharedPart(s)
    ensures SharedPart(s.(clock := s.clock + 1))
  {
    assert Arming(s.(clock := s.clock + 1)) == Arming(s);
  }
}
