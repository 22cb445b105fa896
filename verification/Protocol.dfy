/**
 The epoll server as a transition system: the dispatcher (the thread in ListenEpoll), the reaper,
 and any number of pool workers, over any number of connections and in any interleaving.

 A step is one action of one thread between two points where another thread may get in.
 Thread 0 is the dispatcher, thread 1 the reaper, the others are the workers.
 */
module Protocol {
  import opened Words

  type Fd = nat
  type ConnId = nat
  type Tid = nat

  const MAIN: Tid := 0
  const REAPER: Tid := 1
  const FIRST_WORKER: Tid := 2

  datatype Option<T> = None | Some(value: T)

  /** The callback a closure run by LockCallAndUnlock makes. */
  datatype Kind = Established | DataReady | Error

  /** What the executor's queue holds. */
  datatype Task =
    | Call(kind: Kind, conn: ConnId)     // LockCallAndUnlock, which unlocks the connection at its end
    | Terminated(conn: ConnId)           // ConnectionTerminated, run without any lock
    | Deferred(conn: ConnId)             // Connection::Shutdown, from DeferShutdown

  /** How far a Shutdown has come. */
  datatype Phase =
    | Begin                // nothing done yet
    | Scan                 // deregistering: looking through the map
    | Acquire(fd: Fd)      // found under fd, waiting for connections_lock_
    | Erase(fd: Fd)        // holding connections_lock_
    | LockHandle           // deregistered, waiting for the handle's lock
    | LockRaw              // a decorated connection: waiting for the wrapped connection's lock
    | Close                // all locks held
    | Delete               // the descriptor is closed

  datatype Pc =
    | Ready
    // the dispatcher, accepting
    | AcceptWait(conn: ConnId) | AcceptHeld(conn: ConnId) | AcceptInserted(conn: ConnId)
    | AcceptArmed(conn: ConnId) | AcceptLocked(conn: ConnId)
    // the dispatcher, on data and on errors
    | DataWait(fd: Fd, conn: ConnId) | DataHeld(fd: Fd, conn: ConnId) | DataLocked(conn: ConnId)
    | ErrorFound(conn: ConnId) | ErrorLocked(conn: ConnId)
    // the dispatcher has called ReadLock on a deleted connection: what it does then is undefined
    | Dangling(kind: Kind, conn: ConnId)
    // a worker
    | CallWait(kind: Kind, conn: ConnId) | CallRun(kind: Kind, conn: ConnId)
    | CallReturned(kind: Kind, conn: ConnId) | CallUnlocked(conn: ConnId)
    | Terminating(conn: ConnId)
    // the reaper
    | SweepWait | Sweeping
    // whoever shuts a connection down
    | Shutting(conn: ConnId, phase: Phase)

  /** Who shuts a connection down: each connection has one party that does. */
  datatype Party = Unclaimed | Queued | At(tid: Tid) | Gone

  /** A reader/writer lock. */
  datatype Mutex = Mutex(readers: nat, writer: bool)

  /**
   A connection: the handle in the map and, when AddDecorators wrapped it, the raw connection
   inside. Without decorators the two are the same object and only the first lock is used.
   */
  datatype Conn = Conn(fd: Fd, decorated: bool, handle: Mutex, raw: Mutex, flagged: bool, open: bool,
                       party: Party, lastUse: nat)

  datatype State = State(
    maxIdle: int,                      // max_idle_
    defers: bool,                      // whether the service's handlers ever call DeferredShutdown
    clock: nat,                        // time(NULL)
    conns: map<ConnId, Conn>,          // every connection ever accepted
    registered: map<Fd, ConnId>,       // connections_
    interest: set<Fd>,                 // what epoll watches
    writer: Option<Tid>,               // connections_lock_: its writer
    readers: set<Tid>,                 // connections_lock_: its readers
    queue: multiset<Task>,             // executor_: waiting
    pcs: seq<Pc>,                      // where each thread is
    todo: set<Fd>,                     // the reaper: entries not looked at yet
    tm: nat)                           // the reaper: its tm

  // ---------------------------------------------------------------- locks

  /** ConnectionEstablished is called with the raw connection, the other callbacks with the handle. */
  predicate OnRaw(k: Conn, kind: Kind) {
    kind.Established? && k.decorated
  }

  predicate Held(k: Conn, kind: Kind) {
    if OnRaw(k, kind) then k.raw.writer else k.handle.writer
  }

  function ReadLock(k: Conn, kind: Kind): Conn {
    if OnRaw(k, kind) then k.(raw := k.raw.(readers := k.raw.readers + 1))
    else k.(handle := k.handle.(readers := k.handle.readers + 1))
  }

  function Less(n: nat): nat {
    if n == 0 then 0 else n - 1
  }

  function Unlock(k: Conn, kind: Kind): Conn {
    if OnRaw(k, kind) then k.(raw := k.raw.(readers := Less(k.raw.readers)))
    else k.(handle := k.handle.(readers := Less(k.handle.readers)))
  }

  /** connections_lock_ can be taken for writing. */
  predicate RegistryFree(s: State) {
    s.writer.None? && s.readers == {}
  }

  // ---------------------------------------------------------------- actions

  datatype Action =
    // the dispatcher
    | Accept(fd: Fd, conn: ConnId, decorated: bool)
    | AcceptLock | AcceptInsert | AcceptArm | AcceptReadLock | AcceptEnqueue
    | Hangup(fd: Fd)
    | DataEvent(fd: Fd) | DataLock | DataMiss | DataReadLock | DataEnqueue
    | ErrorEvent(fd: Fd) | ErrorReadLock | ErrorEnqueue
    | DanglingReadLock
    // a worker
    | TakeTask(tid: Tid, task: Task)
    | CallLock(tid: Tid) | HandlerUse(tid: Tid) | HandlerDefer(tid: Tid) | HandlerReturn(tid: Tid)
    | CallUnlock(tid: Tid) | CallRelease(tid: Tid) | TerminatedReturn(tid: Tid)
    // a shutdown, on any thread
    | ShutBegin(tid: Tid) | ShutFound(tid: Tid, fd: Fd) | ShutNotFound(tid: Tid)
    | ShutAcquire(tid: Tid, fd: Fd) | ShutErase(tid: Tid, fd: Fd) | ShutLockHandle(tid: Tid) | ShutLockRaw(tid: Tid)
    | ShutClose(tid: Tid) | ShutDelete(tid: Tid)
    // the reaper
    | ReapWake | ReapLock | ReapSkip(fd: Fd) | ReapErase(fd: Fd) | ReapIdle(fd: Fd) | ReapDone
    // the clock
    | Tick

  /** Thread t exists, and is where it can take the action. */
  predicate Has(s: State, t: Tid) {
    t < |s.pcs| && (Dealing(s.pcs[t]) ==> s.pcs[t].conn in s.conns)
  }

  /** The thread is dealing with a connection. */
  predicate Dealing(pc: Pc) {
    !pc.Ready? && !pc.SweepWait? && !pc.Sweeping?
  }

  /** A descriptor the kernel may hand out. */
  predicate FdFree(s: State, fd: Fd) {
    forall c :: c in s.conns && s.conns[c].open ==> s.conns[c].fd != fd
  }

  /** The map has an entry for this descriptor. */
  predicate Known(s: State, fd: Fd) {
    fd in s.registered && s.registered[fd] in s.conns
  }

  /** Another party is to shut the connection down: each connection has one party that does. */
  predicate ClaimedByOther(k: Conn, t: Tid) {
    k.party.Queued? || (k.party.At? && k.party.tid != t)
  }

  predicate Alive(s: State, c: ConnId) {
    c in s.conns && !s.conns[c].party.Gone?
  }

  function Goto(s: State, t: Tid, pc: Pc): State
    requires t < |s.pcs|
  {
    s.(pcs := s.pcs[t := pc])
  }

  function WithConn(s: State, c: ConnId, k: Conn): State {
    s.(conns := s.conns[c := k])
  }

  function AddTask(s: State, task: Task): State {
    s.(queue := s.queue + multiset{task})
  }

  function Unregister(s: State, fd: Fd): State {
    s.(registered := s.registered - {fd}, interest := s.interest - {fd})
  }

  // ---------------------------------------------------------------- the dispatcher: accepting

  predicate CanAccept(s: State, fd: Fd, c: ConnId) {
    Has(s, MAIN) && s.pcs[MAIN].Ready? && c !in s.conns && FdFree(s, fd)
  }

  function NewConn(fd: Fd, decorated: bool, now: nat): Conn {
    Conn(fd, decorated, Mutex(0, false), Mutex(0, false), false, true, Unclaimed, now)
  }

  function DoAccept(s: State, fd: Fd, c: ConnId, decorated: bool): State
    requires CanAccept(s, fd, c)
  {
    Goto(WithConn(s, c, NewConn(fd, decorated, s.clock)), MAIN, AcceptWait(c))
  }

  predicate CanAcceptLock(s: State) {
    Has(s, MAIN) && s.pcs[MAIN].AcceptWait? && RegistryFree(s)
  }

  function DoAcceptLock(s: State): State
    requires CanAcceptLock(s)
  {
    Goto(s.(writer := Some(MAIN)), MAIN, AcceptHeld(s.pcs[MAIN].conn))
  }

  predicate CanAcceptInsert(s: State) {
    Has(s, MAIN) && s.pcs[MAIN].AcceptHeld?
  }

  function DoAcceptInsert(s: State): State
    requires CanAcceptInsert(s)
  {
    var c := s.pcs[MAIN].conn;
    Goto(s.(registered := s.registered[s.conns[c].fd := c], writer := None), MAIN, AcceptInserted(c))
  }

  predicate CanAcceptArm(s: State) {
    Has(s, MAIN) && s.pcs[MAIN].AcceptInserted?
  }

  function DoAcceptArm(s: State): State
    requires CanAcceptArm(s)
  {
    var c := s.pcs[MAIN].conn;
    Goto(s.(interest := s.interest + {s.conns[c].fd}), MAIN, AcceptArmed(c))
  }

  predicate CanAcceptReadLock(s: State) {
    && Has(s, MAIN) && s.pcs[MAIN].AcceptArmed?
    && Alive(s, s.pcs[MAIN].conn) && !Held(s.conns[s.pcs[MAIN].conn], Established)
  }

  function DoAcceptReadLock(s: State): State
    requires CanAcceptReadLock(s)
  {
    var c := s.pcs[MAIN].conn;
    Goto(WithConn(s, c, ReadLock(s.conns[c], Established)), MAIN, AcceptLocked(c))
  }

  predicate CanAcceptEnqueue(s: State) {
    Has(s, MAIN) && s.pcs[MAIN].AcceptLocked?
  }

  function DoAcceptEnqueue(s: State): State
    requires CanAcceptEnqueue(s)
  {
    Goto(AddTask(s, Call(Established, s.pcs[MAIN].conn)), MAIN, Ready)
  }

  // ---------------------------------------------------------------- the dispatcher: events

  predicate CanHangup(s: State, fd: Fd) {
    fd > 0 && Has(s, MAIN) && s.pcs[MAIN].Ready? && Known(s, fd) && !ClaimedByOther(s.conns[s.registered[fd]], MAIN)
  }

  function DoHangup(s: State, fd: Fd): State
    requires CanHangup(s, fd)
  {
    var c := s.registered[fd];
    Goto(WithConn(AddTask(s, Terminated(c)), c, s.conns[c].(party := At(MAIN))), MAIN, Shutting(c, Begin))
  }

  predicate CanDataEvent(s: State, fd: Fd) {
    fd > 0 && Has(s, MAIN) && s.pcs[MAIN].Ready? && Known(s, fd)
  }

  function DoDataEvent(s: State, fd: Fd): State
    requires CanDataEvent(s, fd)
  {
    Goto(s, MAIN, DataWait(fd, s.registered[fd]))
  }

  predicate CanDataLock(s: State) {
    Has(s, MAIN) && s.pcs[MAIN].DataWait? && RegistryFree(s)
  }

  function DoDataLock(s: State): State
    requires CanDataLock(s)
  {
    Goto(s.(writer := Some(MAIN)), MAIN, DataHeld(s.pcs[MAIN].fd, s.pcs[MAIN].conn))
  }

  predicate CanDataMiss(s: State) {
    Has(s, MAIN) && s.pcs[MAIN].DataHeld? && s.pcs[MAIN].fd !in s.registered
  }

  function DoDataMiss(s: State): State
    requires CanDataMiss(s)
  {
    Goto(s.(writer := None), MAIN, Ready)
  }

  /** The dispatcher found the descriptor still in the map and is about to call ReadLock. */
  predicate AboutToDispatch(s: State) {
    Has(s, MAIN) && s.pcs[MAIN].DataHeld? && s.pcs[MAIN].fd in s.registered
  }

  predicate CanDataReadLock(s: State) {
    AboutToDispatch(s) && Alive(s, s.pcs[MAIN].conn) && !Held(s.conns[s.pcs[MAIN].conn], DataReady)
  }

  function DoDataReadLock(s: State): State
    requires CanDataReadLock(s)
  {
    var c := s.pcs[MAIN].conn;
    Goto(WithConn(s, c, ReadLock(s.conns[c], DataReady)), MAIN, DataLocked(c))
  }

  predicate CanDataEnqueue(s: State) {
    Has(s, MAIN) && s.pcs[MAIN].DataLocked?
  }

  function DoDataEnqueue(s: State): State
    requires CanDataEnqueue(s)
  {
    Goto(AddTask(s, Call(DataReady, s.pcs[MAIN].conn)).(writer := None), MAIN, Ready)
  }

  predicate CanErrorEvent(s: State, fd: Fd) {
    fd > 0 && Has(s, MAIN) && s.pcs[MAIN].Ready? && Known(s, fd)
  }

  function DoErrorEvent(s: State, fd: Fd): State
    requires CanErrorEvent(s, fd)
  {
    Goto(s, MAIN, ErrorFound(s.registered[fd]))
  }

  predicate CanErrorReadLock(s: State) {
    && Has(s, MAIN) && s.pcs[MAIN].ErrorFound?
    && Alive(s, s.pcs[MAIN].conn) && !Held(s.conns[s.pcs[MAIN].conn], Error)
  }

  function DoErrorReadLock(s: State): State
    requires CanErrorReadLock(s)
  {
    var c := s.pcs[MAIN].conn;
    Goto(WithConn(s, c, ReadLock(s.conns[c], Error)), MAIN, ErrorLocked(c))
  }

  predicate CanErrorEnqueue(s: State) {
    Has(s, MAIN) && s.pcs[MAIN].ErrorLocked?
  }

  function DoErrorEnqueue(s: State): State
    requires CanErrorEnqueue(s)
  {
    Goto(AddTask(s, Call(Error, s.pcs[MAIN].conn)), MAIN, Ready)
  }

  /** The dispatcher is about to call ReadLock for a callback of this kind. */
  predicate AboutToReadLock(s: State, kind: Kind) {
    && Has(s, MAIN)
    && match kind
       case Established => s.pcs[MAIN].AcceptArmed?
       case DataReady => AboutToDispatch(s)
       case Error => s.pcs[MAIN].ErrorFound?
  }

  function KindAt(pc: Pc): Kind {
    if pc.AcceptArmed? then Established else if pc.DataHeld? then DataReady else Error
  }

  /** It calls ReadLock on a connection that is deleted: nothing tells it. */
  predicate CanDangle(s: State) {
    && Has(s, MAIN) && AboutToReadLock(s, KindAt(s.pcs[MAIN]))
    && s.conns[s.pcs[MAIN].conn].party.Gone?
  }

  function DoDangle(s: State): State
    requires CanDangle(s)
  {
    Goto(s, MAIN, Dangling(KindAt(s.pcs[MAIN]), s.pcs[MAIN].conn))
  }

  // ---------------------------------------------------------------- a worker

  predicate IsWorker(s: State, t: Tid) {
    t >= FIRST_WORKER && Has(s, t)
  }

  predicate CanTake(s: State, t: Tid, task: Task) {
    IsWorker(s, t) && s.pcs[t].Ready? && task in s.queue && task.conn in s.conns
  }

  function DoTake(s: State, t: Tid, task: Task): State
    requires CanTake(s, t, task)
  {
    var rest := s.(queue := s.queue - multiset{task});
    match task
    case Call(kind, c) => Goto(rest, t, CallWait(kind, c))
    case Terminated(c) => Goto(rest, t, Terminating(c))
    case Deferred(c) => Goto(WithConn(rest, c, s.conns[c].(party := At(t))), t, Shutting(c, Begin))
  }

  predicate CanCallLock(s: State, t: Tid) {
    IsWorker(s, t) && s.pcs[t].CallWait? && s.writer.None?
  }

  function DoCallLock(s: State, t: Tid): State
    requires CanCallLock(s, t)
  {
    Goto(s.(readers := s.readers + {t}), t, CallRun(s.pcs[t].kind, s.pcs[t].conn))
  }

  predicate InHandler(s: State, t: Tid) {
    IsWorker(s, t) && s.pcs[t].CallRun?
  }

  /** The handler receives or sends: the connection's last use is now. */
  function DoHandlerUse(s: State, t: Tid): State
    requires InHandler(s, t)
  {
    var c := s.pcs[t].conn;
    WithConn(s, c, s.conns[c].(lastUse := s.clock))
  }

  predicate CanHandlerDefer(s: State, t: Tid) {
    InHandler(s, t) && s.defers && s.conns[s.pcs[t].conn].party.Unclaimed?
  }

  /** The handler calls DeferredShutdown. */
  function DoHandlerDefer(s: State, t: Tid): State
    requires CanHandlerDefer(s, t)
  {
    var c := s.pcs[t].conn;
    WithConn(AddTask(s, Deferred(c)), c, s.conns[c].(party := Queued))
  }

  function DoHandlerReturn(s: State, t: Tid): State
    requires InHandler(s, t)
  {
    Goto(s, t, CallReturned(s.pcs[t].kind, s.pcs[t].conn))
  }

  predicate CanCallUnlock(s: State, t: Tid) {
    IsWorker(s, t) && s.pcs[t].CallReturned?
  }

  function DoCallUnlock(s: State, t: Tid): State
    requires CanCallUnlock(s, t)
  {
    var c := s.pcs[t].conn;
    Goto(WithConn(s, c, Unlock(s.conns[c], s.pcs[t].kind)), t, CallUnlocked(c))
  }

  predicate CanCallRelease(s: State, t: Tid) {
    IsWorker(s, t) && s.pcs[t].CallUnlocked?
  }

  function DoCallRelease(s: State, t: Tid): State
    requires CanCallRelease(s, t)
  {
    Goto(s.(readers := s.readers - {t}), t, Ready)
  }

  predicate CanTerminatedReturn(s: State, t: Tid) {
    IsWorker(s, t) && s.pcs[t].Terminating?
  }

  function DoTerminatedReturn(s: State, t: Tid): State
    requires CanTerminatedReturn(s, t)
  {
    Goto(s, t, Ready)
  }

  // ---------------------------------------------------------------- a shutdown, on any thread

  predicate InPhase(s: State, t: Tid, phase: Phase) {
    Has(s, t) && s.pcs[t].Shutting? && s.pcs[t].phase == phase
  }

  /** Deregister sets the handle's flag; IsShutdown of a decorated handle reads the raw connection's. */
  function DoShutBegin(s: State, t: Tid): State
    requires InPhase(s, t, Begin)
  {
    var c := s.pcs[t].conn;
    Goto(WithConn(s, c, s.conns[c].(flagged := !s.conns[c].decorated)), t, Shutting(c, Scan))
  }

  predicate CanShutFound(s: State, t: Tid, fd: Fd) {
    InPhase(s, t, Scan) && fd in s.registered && s.registered[fd] == s.pcs[t].conn
  }

  function DoShutFound(s: State, t: Tid, fd: Fd): State
    requires CanShutFound(s, t, fd)
  {
    Goto(s, t, Shutting(s.pcs[t].conn, Acquire(fd)))
  }

  predicate CanShutNotFound(s: State, t: Tid) {
    InPhase(s, t, Scan) && forall fd :: fd in s.registered ==> s.registered[fd] != s.pcs[t].conn
  }

  function DoShutNotFound(s: State, t: Tid): State
    requires CanShutNotFound(s, t)
  {
    Goto(s, t, Shutting(s.pcs[t].conn, LockHandle))
  }

  predicate CanShutAcquire(s: State, t: Tid, fd: Fd) {
    InPhase(s, t, Acquire(fd)) && RegistryFree(s)
  }

  function DoShutAcquire(s: State, t: Tid, fd: Fd): State
    requires CanShutAcquire(s, t, fd)
  {
    Goto(s.(writer := Some(t)), t, Shutting(s.pcs[t].conn, Erase(fd)))
  }

  function DoShutErase(s: State, t: Tid, fd: Fd): State
    requires InPhase(s, t, Erase(fd))
  {
    Goto(Unregister(s, fd).(writer := None), t, Shutting(s.pcs[t].conn, LockHandle))
  }

  predicate CanShutLockHandle(s: State, t: Tid) {
    InPhase(s, t, LockHandle) && s.conns[s.pcs[t].conn].handle == Mutex(0, false)
  }

  /** With the handle locked, a decorator goes on to shut down what it wraps. */
  function DoShutLockHandle(s: State, t: Tid): State
    requires CanShutLockHandle(s, t)
  {
    var c := s.pcs[t].conn;
    Goto(WithConn(s, c, s.conns[c].(handle := Mutex(0, true), flagged := true)), t,
         Shutting(c, if s.conns[c].decorated then LockRaw else Close))
  }

  predicate CanShutLockRaw(s: State, t: Tid) {
    InPhase(s, t, LockRaw) && s.conns[s.pcs[t].conn].raw == Mutex(0, false)
  }

  function DoShutLockRaw(s: State, t: Tid): State
    requires CanShutLockRaw(s, t)
  {
    var c := s.pcs[t].conn;
    Goto(WithConn(s, c, s.conns[c].(raw := Mutex(0, true))), t, Shutting(c, Close))
  }

  /** The kernel stops watching a descriptor that is closed. */
  function DoShutClose(s: State, t: Tid): State
    requires InPhase(s, t, Close)
  {
    var c := s.pcs[t].conn;
    Goto(WithConn(s, c, s.conns[c].(open := false)).(interest := s.interest - {s.conns[c].fd}), t, Shutting(c, Delete))
  }

  function DoShutDelete(s: State, t: Tid): State
    requires InPhase(s, t, Delete)
  {
    var c := s.pcs[t].conn;
    Goto(WithConn(s, c, s.conns[c].(party := Gone)), t, if t == REAPER then Sweeping else Ready)
  }

  // ---------------------------------------------------------------- the reaper

  predicate CanReapWake(s: State) {
    Has(s, REAPER) && s.pcs[REAPER].Ready?
  }

  function DoReapWake(s: State): State
    requires CanReapWake(s)
  {
    Goto(s, REAPER, SweepWait)
  }

  predicate CanReapLock(s: State) {
    Has(s, REAPER) && s.pcs[REAPER].SweepWait? && RegistryFree(s)
  }

  function DoReapLock(s: State): State
    requires CanReapLock(s)
  {
    Goto(s.(writer := Some(REAPER), tm := s.clock, todo := s.registered.Keys), REAPER, Sweeping)
  }

  /** The reaper looks at the entry for fd. */
  predicate Looking(s: State, fd: Fd) {
    Has(s, REAPER) && s.pcs[REAPER].Sweeping? && fd in s.todo && Known(s, fd)
  }

  predicate FoundIdle(s: State, fd: Fd)
    requires Known(s, fd)
  {
    IdleTest(s.tm, s.conns[s.registered[fd]].lastUse, s.maxIdle)
  }

  predicate CanReapSkip(s: State, fd: Fd) {
    Looking(s, fd) && !s.conns[s.registered[fd]].flagged && !FoundIdle(s, fd)
  }

  function DoReapSkip(s: State, fd: Fd): State
    requires CanReapSkip(s, fd)
  {
    s.(todo := s.todo - {fd})
  }

  predicate CanReapErase(s: State, fd: Fd) {
    Looking(s, fd) && s.conns[s.registered[fd]].flagged
  }

  function DoReapErase(s: State, fd: Fd): State
    requires CanReapErase(s, fd)
  {
    Unregister(s, fd).(todo := s.todo - {fd})
  }

  predicate CanReapIdle(s: State, fd: Fd) {
    && Looking(s, fd) && !s.conns[s.registered[fd]].flagged && FoundIdle(s, fd)
    && !ClaimedByOther(s.conns[s.registered[fd]], REAPER)
  }

  function DoReapIdle(s: State, fd: Fd): State
    requires CanReapIdle(s, fd)
  {
    var c := s.registered[fd];
    Goto(WithConn(Unregister(s, fd).(todo := s.todo - {fd}), c, s.conns[c].(party := At(REAPER))), REAPER,
         Shutting(c, Begin))
  }

  predicate CanReapDone(s: State) {
    Has(s, REAPER) && s.pcs[REAPER].Sweeping? && s.todo == {}
  }

  function DoReapDone(s: State): State
    requires CanReapDone(s)
  {
    Goto(s.(writer := None), REAPER, Ready)
  }

  // ---------------------------------------------------------------- kinds of actions

  predicate IsAccepting(a: Action) {
    a.Accept? || a.AcceptLock? || a.AcceptInsert? || a.AcceptArm? || a.AcceptReadLock? || a.AcceptEnqueue?
  }

  /** The dispatcher finds an event on a descriptor. */
  predicate IsEvent(a: Action) {
    a.Hangup? || a.DataEvent? || a.ErrorEvent?
  }

  predicate IsDispatching(a: Action) {
    a.DataLock? || a.DataMiss? || a.DataReadLock? || a.DataEnqueue? || a.ErrorReadLock? || a.ErrorEnqueue?
  }

  /** The steps of the dispatcher, but for those of its shutdowns. */
  predicate IsDispatch(a: Action) {
    IsAccepting(a) || IsEvent(a) || IsDispatching(a) || a.DanglingReadLock?
  }

  predicate IsHandling(a: Action) {
    a.CallLock? || a.HandlerUse? || a.HandlerDefer? || a.HandlerReturn? || a.CallUnlock? || a.CallRelease?
    || a.TerminatedReturn?
  }

  /** A step of a worker, but for those of its shutdowns. */
  predicate IsCallback(a: Action) {
    IsHandling(a) || a.TakeTask?
  }

  predicate IsDeregistering(a: Action) {
    a.ShutBegin? || a.ShutFound? || a.ShutNotFound? || a.ShutAcquire? || a.ShutErase?
  }

  predicate IsLocking(a: Action) {
    a.ShutLockHandle? || a.ShutLockRaw?
  }

  predicate IsDestroying(a: Action) {
    a.ShutClose? || a.ShutDelete?
  }

  predicate IsShutdownStep(a: Action) {
    IsDeregistering(a) || IsLocking(a) || IsDestroying(a)
  }

  predicate IsReaping(a: Action) {
    a.ReapWake? || a.ReapLock? || a.ReapSkip? || a.ReapErase? || a.ReapIdle? || a.ReapDone?
  }

  // ---------------------------------------------------------------- any step

  predicate DispatchEnabled(s: State, a: Action)
    requires IsDispatch(a)
  {
    match a
    case Accept(fd, c, _) => CanAccept(s, fd, c)
    case AcceptLock => CanAcceptLock(s)
    case AcceptInsert => CanAcceptInsert(s)
    case AcceptArm => CanAcceptArm(s)
    case AcceptReadLock => CanAcceptReadLock(s)
    case AcceptEnqueue => CanAcceptEnqueue(s)
    case Hangup(fd) => CanHangup(s, fd)
    case DataEvent(fd) => CanDataEvent(s, fd)
    case DataLock => CanDataLock(s)
    case DataMiss => CanDataMiss(s)
    case DataReadLock => CanDataReadLock(s)
    case DataEnqueue => CanDataEnqueue(s)
    case ErrorEvent(fd) => CanErrorEvent(s, fd)
    case ErrorReadLock => CanErrorReadLock(s)
    case ErrorEnqueue => CanErrorEnqueue(s)
    case DanglingReadLock => CanDangle(s)
  }

  function DoDispatch(s: State, a: Action): State
    requires IsDispatch(a) && DispatchEnabled(s, a)
  {
    match a
    case Accept(fd, c, decorated) => DoAccept(s, fd, c, decorated)
    case AcceptLock => DoAcceptLock(s)
    case AcceptInsert => DoAcceptInsert(s)
    case AcceptArm => DoAcceptArm(s)
    case AcceptReadLock => DoAcceptReadLock(s)
    case AcceptEnqueue => DoAcceptEnqueue(s)
    case Hangup(fd) => DoHangup(s, fd)
    case DataEvent(fd) => DoDataEvent(s, fd)
    case DataLock => DoDataLock(s)
    case DataMiss => DoDataMiss(s)
    case DataReadLock => DoDataReadLock(s)
    case DataEnqueue => DoDataEnqueue(s)
    case ErrorEvent(fd) => DoErrorEvent(s, fd)
    case ErrorReadLock => DoErrorReadLock(s)
    case ErrorEnqueue => DoErrorEnqueue(s)
    case DanglingReadLock => DoDangle(s)
  }

  predicate CallbackEnabled(s: State, a: Action)
    requires IsCallback(a)
  {
    match a
    case TakeTask(t, task) => CanTake(s, t, task)
    case CallLock(t) => CanCallLock(s, t)
    case HandlerUse(t) => InHandler(s, t)
    case HandlerDefer(t) => CanHandlerDefer(s, t)
    case HandlerReturn(t) => InHandler(s, t)
    case CallUnlock(t) => CanCallUnlock(s, t)
    case CallRelease(t) => CanCallRelease(s, t)
    case TerminatedReturn(t) => CanTerminatedReturn(s, t)
  }

  function DoCallback(s: State, a: Action): State
    requires IsCallback(a) && CallbackEnabled(s, a)
  {
    match a
    case TakeTask(t, task) => DoTake(s, t, task)
    case CallLock(t) => DoCallLock(s, t)
    case HandlerUse(t) => DoHandlerUse(s, t)
    case HandlerDefer(t) => DoHandlerDefer(s, t)
    case HandlerReturn(t) => DoHandlerReturn(s, t)
    case CallUnlock(t) => DoCallUnlock(s, t)
    case CallRelease(t) => DoCallRelease(s, t)
    case TerminatedReturn(t) => DoTerminatedReturn(s, t)
  }

  predicate ShutdownEnabled(s: State, a: Action)
    requires IsShutdownStep(a)
  {
    match a
    case ShutBegin(t) => InPhase(s, t, Begin)
    case ShutFound(t, fd) => CanShutFound(s, t, fd)
    case ShutNotFound(t) => CanShutNotFound(s, t)
    case ShutAcquire(t, fd) => CanShutAcquire(s, t, fd)
    case ShutErase(t, fd) => InPhase(s, t, Erase(fd))
    case ShutLockHandle(t) => CanShutLockHandle(s, t)
    case ShutLockRaw(t) => CanShutLockRaw(s, t)
    case ShutClose(t) => InPhase(s, t, Close)
    case ShutDelete(t) => InPhase(s, t, Delete)
  }

  function DoShutdown(s: State, a: Action): State
    requires IsShutdownStep(a) && ShutdownEnabled(s, a)
  {
    match a
    case ShutBegin(t) => DoShutBegin(s, t)
    case ShutFound(t, fd) => DoShutFound(s, t, fd)
    case ShutNotFound(t) => DoShutNotFound(s, t)
    case ShutAcquire(t, fd) => DoShutAcquire(s, t, fd)
    case ShutErase(t, fd) => DoShutErase(s, t, fd)
    case ShutLockHandle(t) => DoShutLockHandle(s, t)
    case ShutLockRaw(t) => DoShutLockRaw(s, t)
    case ShutClose(t) => DoShutClose(s, t)
    case ShutDelete(t) => DoShutDelete(s, t)
  }

  predicate ReapingEnabled(s: State, a: Action)
    requires IsReaping(a)
  {
    match a
    case ReapWake => CanReapWake(s)
    case ReapLock => CanReapLock(s)
    case ReapSkip(fd) => CanReapSkip(s, fd)
    case ReapErase(fd) => CanReapErase(s, fd)
    case ReapIdle(fd) => CanReapIdle(s, fd)
    case ReapDone => CanReapDone(s)
  }

  function DoReaping(s: State, a: Action): State
    requires IsReaping(a) && ReapingEnabled(s, a)
  {
    match a
    case ReapWake => DoReapWake(s)
    case ReapLock => DoReapLock(s)
    case ReapSkip(fd) => DoReapSkip(s, fd)
    case ReapErase(fd) => DoReapErase(s, fd)
    case ReapIdle(fd) => DoReapIdle(s, fd)
    case ReapDone => DoReapDone(s)
  }

  predicate Enabled(s: State, a: Action) {
    if IsDispatch(a) then DispatchEnabled(s, a)
    else if IsCallback(a) then CallbackEnabled(s, a)
    else if IsShutdownStep(a) then ShutdownEnabled(s, a)
    else if IsReaping(a) then ReapingEnabled(s, a)
    else s.clock + 1 < U64_MODULUS
  }

  function Do(s: State, a: Action): State
    requires Enabled(s, a)
  {
    if IsDispatch(a) then DoDispatch(s, a)
    else if IsCallback(a) then DoCallback(s, a)
    else if IsShutdownStep(a) then DoShutdown(s, a)
    else if IsReaping(a) then DoReaping(s, a)
    else s.(clock := s.clock + 1)
  }

  // ---------------------------------------------------------------- runs

  /** A server that starts to listen, with this many workers. */
  function Start(workers: nat, maxIdle: int, defers: bool, clock: nat): State {
    State(maxIdle, defers, clock, map[], map[], {}, None, {}, multiset{}, seq(FIRST_WORKER + workers, _ => Ready), {}, 0)
  }

  /** The state after these actions, if each is enabled in its turn. */
  function Run(s: State, actions: seq<Action>): Option<State>
    decreases |actions|
  {
    if actions == [] then Some(s)
    else if Enabled(s, actions[0]) then Run(Do(s, actions[0]), actions[1..])
    else None
  }

  ghost predicate Reachable(s: State) {
    exists workers: nat, maxIdle: int, defers: bool, clock: nat, actions: seq<Action> ::
      clock < U64_MODULUS && Run(Start(workers, maxIdle, defers, clock), actions) == Some(s)
  }
}
