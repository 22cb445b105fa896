/**
 Callbacks run at the same time: connections_lock_ is shared among them, and so is a connection's lock.
 */
module Parallel {
  import opened Protocol
  import opened ProtocolSafety
  import opened ProtocolProgress
  import opened Scenarios

  /** The ConnectionEstablished of each of n connections is queued, and the workers are at rest. */
  ghost predicate Queued(s: State, workers: nat, n: nat) {
    && Calm(s) && |s.pcs| == FIRST_WORKER + workers
    && (forall t :: FIRST_WORKER <= t < |s.pcs| ==> s.pcs[t].Ready?)
    && (forall c: ConnId :: c in s.conns <==> c < n)
    && (forall c :: c in s.conns ==> s.conns[c].fd == FdOf(c) && Call(Established, c) in s.queue)
  }

  lemma QueuesNext(s: State, workers: nat, n: nat) returns (next: State)
    requires Queued(s, workers, n)
    ensures Queued(next, workers, n + 1) && next.maxIdle == s.maxIdle && next.defers == s.defers
  {
    Announces(s, n);
    next := With(s, n, 1, Unclaimed, multiset{Call(Established, n)});
  }

  lemma {:induction false} QueuesThem(workers: nat, maxIdle: int, defers: bool, n: nat) returns (s: State)
    ensures Queued(s, workers, n) && s.maxIdle == maxIdle && s.defers == defers
  {
    if n == 0 {
      s := Start(workers, maxIdle, defers, 0);
      StartIsCalm(workers, maxIdle, defers);
    } else {
      s := QueuesThem(workers, maxIdle, defers, n - 1);
      s := QueuesNext(s, workers, n - 1);
    }
  }

  /** The first i workers are in handlers, the others at rest with something to take. */
  ghost predicate Calls(s: State, workers: nat, i: nat) {
    && Reachable(s) && |s.pcs| == FIRST_WORKER + workers && s.writer.None?
    && (forall t :: FIRST_WORKER <= t < |s.pcs| ==> if t < FIRST_WORKER + i then s.pcs[t].CallRun? else s.pcs[t].Ready?)
    && (forall c: nat :: i <= c < workers ==> c in s.conns && Call(Established, c) in s.queue)
  }

  lemma TakesNext(s: State, workers: nat, i: nat) returns (next: State)
    requires Calls(s, workers, i) && i < workers
    ensures Reachable(next) && next == DoTake(s, FIRST_WORKER + i, Call(Established, i))
    ensures CanCallLock(next, FIRST_WORKER + i)
  {
    next := DoTake(s, FIRST_WORKER + i, Call(Established, i));
    Goes(s, TakeTask(FIRST_WORKER + i, Call(Established, i)), next);
  }

  lemma CallsNext(s: State, workers: nat, i: nat) returns (end: State)
    requires Calls(s, workers, i) && i < workers
    ensures Calls(end, workers, i + 1) && end.maxIdle == s.maxIdle && end.defers == s.defers
  {
    var next := TakesNext(s, workers, i);
    end := DoCallLock(next, FIRST_WORKER + i);
    Goes(next, CallLock(FIRST_WORKER + i), end);
  }

  lemma {:induction false} CallsThem(workers: nat, maxIdle: int, defers: bool, i: nat) returns (s: State)
    requires i <= workers
    ensures Calls(s, workers, i) && s.maxIdle == maxIdle && s.defers == defers
  {
    if i == 0 {
      s := QueuesThem(workers, maxIdle, defers, workers);
    } else {
      s := CallsThem(workers, maxIdle, defers, i - 1);
      s := CallsNext(s, workers, i - 1);
    }
  }

  /** In every configuration all workers can be in handlers at the same time. */
  lemma AllWorkersAtOnce(workers: nat, maxIdle: int, defers: bool)
    ensures exists s :: && Reachable(s) && |s.pcs| == FIRST_WORKER + workers && s.maxIdle == maxIdle && s.defers == defers
                        && forall t :: FIRST_WORKER <= t < |s.pcs| ==> InHandler(s, t)
  {
    var s := CallsThem(workers, maxIdle, defers, workers);
    forall t | FIRST_WORKER <= t < |s.pcs| ensures InHandler(s, t) { ThreadHolds(s, t); }
  }
}
