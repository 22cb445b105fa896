/**
 Taking connections down: Server::DequeueConnection, Connection::Deregister, Shutdown of a stack of
 decorators of any depth, and one sweep of Server::ReapConnectionsEpoll.

 What is done to the kernel, to the locks and to the heap is written to a journal, in order.
 The pointers between the layers never change; the flags and the server's map do.
 */
module Teardown {
  import opened Words

  datatype Event =
    | TakeRegistry                  // connections_lock_ taken for writing
    | DropRegistry                  // and released
    | Unwatch(fd: int)              // EPOLL_CTL_DEL
    | LockConn(conn: Connection)    // the connection's own lock taken for writing
    | CloseSocket(fd: int)
    | Free(conn: Connection)
    | NotifyTerminated(conn: Connection)

  class Journal {
    ghost var events: seq<Event>

    ghost method Write(e: Event)
      modifies this
      ensures events == old(events) + [e]
    {
      events := events + [e];
    }
  }

  /** A socket connection, or a decorator around another connection. */
  class Connection {
    const wrapped: Connection?
    const owned: bool
    const socket: int
    const server: Server?
    var isShutdown: bool
    var eof: bool
    var lastUse: nat
    ghost const Layers: set<Connection>

    constructor Socket(server: Server?, socket: int, now: nat)
      ensures Stacked() && Layers == {this} && this.wrapped == null && this.socket == socket && this.server == server
      ensures !isShutdown && !eof && lastUse == now
    {
      wrapped := null;
      owned := false;
      this.socket := socket;
      this.server := server;
      isShutdown, eof, lastUse := false, false, now;
      Layers := {this};
    }

    constructor Decorate(wrapped: Connection, own: bool)
      requires wrapped.Stacked()
      ensures Stacked() && Layers == {this} + wrapped.Layers && this.wrapped == wrapped && this.owned == own
      ensures !isShutdown
    {
      this.wrapped := wrapped;
      owned := own;
      socket := -1;
      server := null;
      isShutdown, eof, lastUse := false, false, 0;
      Layers := {this} + wrapped.Layers;
    }

    /** The layers below are different objects, down to a socket. */
    ghost predicate Stacked()
      decreases Layers
    {
      if wrapped == null then Layers == {this}
      else this !in wrapped.Layers && Layers == {this} + wrapped.Layers && wrapped.Stacked()
    }

    ghost function Bottom(): (b: Connection)
      requires Stacked()
      ensures b in Layers && b.wrapped == null
      decreases Layers
    {
      if wrapped == null then this else wrapped.Bottom()
    }

    /** IsShutdown, which decorators forward. */
    ghost predicate Down()
      requires Stacked()
      reads Layers
    {
      Bottom().isShutdown
    }

    ghost function Used(): nat
      requires Stacked()
      reads Layers
    {
      Bottom().lastUse
    }

    method GetServer() returns (srv: Server?)
      requires Stacked()
      ensures srv == Bottom().server
      decreases Layers
    {
      if wrapped == null {
        return server;
      }
      srv := wrapped.GetServer();
    }

    method IsShutdown() returns (b: bool)
      requires Stacked()
      ensures b == Down()
      decreases Layers
    {
      if wrapped == null {
        return isShutdown;
      }
      b := wrapped.IsShutdown();
    }

    method GetLastUse() returns (t: nat)
      requires Stacked()
      ensures t == Used()
      decreases Layers
    {
      if wrapped == null {
        return lastUse;
      }
      t := wrapped.GetLastUse();
    }

    /** Shutdown of a socket connection and of the decorators. */
    method Shutdown(journal: Journal)
      requires Stacked() && Distinct(MapOf(Bottom().server))
      modifies Layers, Bottom().server, journal
      ensures journal.events == old(journal.events) + ShutdownEvents(this, old(MapOf(Bottom().server)))
      ensures MapOf(Bottom().server) == Without(old(MapOf(Bottom().server)), ChainSet(this))
      ensures forall x :: x in Layers ==>
                x.isShutdown == (old(x.isShutdown) || x in ChainSet(this)) && x.lastUse == old(x.lastUse)
      ensures forall x :: x in Layers ==> x.eof == (old(x.eof) || (x in ChainSet(this) && x.wrapped == null))
      decreases Layers, 1
    {
      if wrapped == null {
        eof := true;
      }
      ghost var m := MapOf(Bottom().server);
      WithoutMore(m, {this}, Inner(this));
      Associate(journal.events, DequeueEvents(m, this), DestroyEvents(this, Without(m, {this})));
      Deregister(journal);
      Destroy(journal);
    }

    /**
     The rest of Shutdown, once the layer is deregistered. A range reader eats its remaining data
     between taking its lock and shutting down what it wraps.
     */
    method Destroy(journal: Journal)
      requires Stacked() && Distinct(MapOf(Bottom().server))
      modifies Layers - {this}, Bottom().server, journal
      ensures journal.events == old(journal.events) + DestroyEvents(this, old(MapOf(Bottom().server)))
      ensures MapOf(Bottom().server) == Without(old(MapOf(Bottom().server)), Inner(this))
      ensures forall x :: x in Layers && x != this ==>
                x.isShutdown == (old(x.isShutdown) || x in Inner(this)) && x.lastUse == old(x.lastUse)
      ensures forall x :: x in Layers && x != this ==> x.eof == (old(x.eof) || (x in Inner(this) && x.wrapped == null))
      decreases Layers, 0
    {
      journal.Write(LockConn(this));
      if wrapped == null {
        journal.Write(CloseSocket(socket));
      } else if owned {
        wrapped.Shutdown(journal);
      }
      journal.Write(Free(this));
      WithoutNothing(old(MapOf(Bottom().server)));
    }

    method Deregister(journal: Journal)
      requires Stacked() && Distinct(MapOf(Bottom().server))
      modifies this`isShutdown, Bottom().server, journal
      ensures isShutdown
      ensures MapOf(Bottom().server) == Without(old(MapOf(Bottom().server)), {this})
      ensures journal.events == old(journal.events) + DequeueEvents(old(MapOf(Bottom().server)), this)
    {
      var srv := GetServer();
      isShutdown := true;
      if srv != null {
        srv.DequeueConnection(this, journal);
      }
    }
  }

  class Server {
    const maxIdle: int
    var connections: map<int, Connection>

    constructor (maxIdle: int)
      ensures this.maxIdle == maxIdle && connections == map[]
    {
      this.maxIdle := maxIdle;
      connections := map[];
    }

    method DequeueConnection(conn: Connection, journal: Journal)
      requires Distinct(connections)
      modifies this, journal
      ensures connections == Without(old(connections), {conn})
      ensures journal.events == old(journal.events) + DequeueEvents(old(connections), conn)
    {
      var snapshot := connections;
      var todo := snapshot.Keys;
      while todo != {}
        invariant todo <= snapshot.Keys
        invariant connections == map fd | fd in snapshot && (snapshot[fd] != conn || fd in todo) :: snapshot[fd]
        invariant journal.events == old(journal.events)
                    + if forall fd :: fd in snapshot && snapshot[fd] == conn ==> fd in todo then []
                      else DequeueEvents(snapshot, conn)
      {
        SomeMember(todo);
        var fd :| fd in todo;
        todo := todo - {fd};
        if snapshot[fd] == conn {
          OnlyEntry(snapshot, fd);
          journal.Write(TakeRegistry);
          connections := connections - {fd};
          journal.Write(Unwatch(fd));
          journal.Write(DropRegistry);
        }
      }
    }

    /** The handles in the map are separate stacks, each of a connection to this server. */
    ghost predicate Wired()
      reads this
    {
      && (forall fd :: fd in connections ==> connections[fd].Stacked() && connections[fd].Bottom().server == this)
      && (forall f, g :: f in connections && g in connections && f != g ==> connections[f].Layers !! connections[g].Layers)
    }

    /** The reaper removes what is shut down and what is idle. */
    ghost predicate Reaped(c: Connection, tm: nat)
      requires c.Stacked()
      reads c.Layers
    {
      c.Down() || IdleTest(tm, c.Used(), maxIdle)
    }

    /** The loop body of the sweep, for the entry fd. */
    method ReapEntry(fd: int, tm: nat, journal: Journal)
      requires Wired() && fd in connections
      modifies this, connections[fd].Layers, journal
      ensures var c := old(connections[fd]);
        if old(Reaped(c, tm)) then
          && connections == old(connections) - {fd}
          && journal.events == old(journal.events) + ReapEvents(c, fd, old(c.Down()))
        else
          && connections == old(connections)
          && journal.events == old(journal.events)
    {
      var conn := connections[fd];
      DistinctWhenWired(this);
      var down := conn.IsShutdown();
      var used := conn.GetLastUse();
      if down || IdleTest(tm, used, maxIdle) {
        connections := connections - {fd};
        journal.Write(Unwatch(fd));
        down := conn.IsShutdown();
        if !down {
          UnregisteredShutdown(conn, connections);
          conn.Shutdown(journal);
          journal.Write(NotifyTerminated(conn));
        }
      }
    }

    /** In the middle of a sweep: what is still to be looked at is as it was at the start. */
    ghost predicate Midway(snapshot: map<int, Connection>, todo: set<int>, reaped: set<int>, down: set<int>, tm: nat)
      reads this, LayersOf(snapshot)
    {
      && Wired()
      && todo <= snapshot.Keys
      && (forall fd :: fd in snapshot ==> snapshot[fd].Stacked())
      && (forall f, g :: f in snapshot && g in snapshot && f != g ==> snapshot[f].Layers !! snapshot[g].Layers)
      && connections == (map fd | fd in snapshot && (fd in todo || fd !in reaped) :: snapshot[fd])
      && forall fd :: fd in todo ==> (Reaped(snapshot[fd], tm) <==> fd in reaped) && (snapshot[fd].Down() <==> fd in down)
    }

    /** The entries looked at so far were dealt with, in this order. */
    ghost predicate SoFar(snapshot: map<int, Connection>, todo: set<int>, reaped: set<int>, down: set<int>, tm: nat,
                          order: seq<int>, journal: Journal, before: seq<Event>)
      reads this, LayersOf(snapshot), journal
    {
      && Midway(snapshot, todo, reaped, down, tm)
      && reaped <= snapshot.Keys
      && OnceEach(order, reaped - todo)
      && journal.events == before + SweepEvents(snapshot, order, down)
    }

    /** One round of the sweep. */
    method SweepEntry(fd: int, tm: nat, journal: Journal, ghost snapshot: map<int, Connection>, ghost todo: set<int>,
                      ghost reaped: set<int>, ghost down: set<int>)
      requires Midway(snapshot, todo, reaped, down, tm) && fd in todo
      modifies this, snapshot[fd].Layers, journal
      ensures Midway(snapshot, todo - {fd}, reaped, down, tm)
      ensures journal.events == old(journal.events)
                + if fd in reaped then ReapEvents(snapshot[fd], fd, fd in down) else []
    {
      assert connections[fd] == snapshot[fd];
      ReapEntry(fd, tm, journal);
    }

    /** One round, and where it stands in the order. */
    method SweepRound(fd: int, tm: nat, journal: Journal, ghost snapshot: map<int, Connection>, ghost todo: set<int>,
                      ghost reaped: set<int>, ghost down: set<int>, ghost order: seq<int>, ghost before: seq<Event>)
      returns (ghost order': seq<int>)
      requires SoFar(snapshot, todo, reaped, down, tm, order, journal, before) && fd in todo
      modifies this, snapshot[fd].Layers, journal
      ensures SoFar(snapshot, todo - {fd}, reaped, down, tm, order', journal, before)
    {
      order' := if fd in reaped then order + [fd] else order;
      OrderMore(snapshot, todo, reaped, down, order, fd, before);
      SweepEntry(fd, tm, journal, snapshot, todo, reaped, down);
    }

    /**
     One sweep with connections_lock_ held: exactly the entries shut down or idle at tm are removed,
     each dealt with once, in some order. As no use lies in the future, an entry stays if and only if its
     socket is not shut down, and there is no limit or no more than that has passed since its last use.
     */
    method Sweep(tm: nat, journal: Journal) returns (ghost order: seq<int>)
      requires Wired()
      modifies this, LayersOf(connections), journal
      ensures connections == map fd | fd in old(connections) && !old(Reaped(connections[fd], tm)) :: old(connections)[fd]
      ensures OnceEach(order, set fd | fd in old(connections) && old(Reaped(connections[fd], tm)))
      ensures journal.events == old(journal.events)
                + SweepEvents(old(connections), order, set fd | fd in old(connections) && old(connections[fd].Down()))
      ensures forall fd :: fd in old(connections) && old(connections[fd].Bottom().lastUse) <= tm < U64_MODULUS ==>
        var b := old(connections[fd].Bottom());
        fd in connections <==> !old(b.isShutdown) && !(maxIdle > 0 && tm - old(b.lastUse) > maxIdle)
    {
      AllReapedExactly(this, tm);
      ghost var reaped := set fd | fd in connections && Reaped(connections[fd], tm);
      ghost var down := set fd | fd in connections && connections[fd].Down();
      order := SweepAll(tm, journal, connections, reaped, down);
    }

    /** The loop of the sweep. */
    method SweepAll(tm: nat, journal: Journal, snapshot: map<int, Connection>, ghost reaped: set<int>, ghost down: set<int>)
      returns (ghost order: seq<int>)
      requires Midway(snapshot, snapshot.Keys, reaped, down, tm) && reaped <= snapshot.Keys
      modifies this, LayersOf(snapshot), journal
      ensures connections == map fd | fd in snapshot && fd !in reaped :: snapshot[fd]
      ensures OnceEach(order, reaped)
      ensures journal.events == old(journal.events) + SweepEvents(snapshot, order, down)
    {
      var todo := snapshot.Keys;
      ghost var before := journal.events;
      order := [];
      while todo != {}
        invariant SoFar(snapshot, todo, reaped, down, tm, order, journal, before)
      {
        SomeMember(todo);
        var fd :| fd in todo;
        order := SweepRound(fd, tm, journal, snapshot, todo, reaped, down, order, before);
        todo := todo - {fd};
      }
      assert reaped - {} == reaped;
    }
  }

  // ---------------------------------------------------------------- the reaper's sweep

  /** What the reaper removes, by the fields of the socket at the bottom. */
  lemma ReapedExactly(srv: Server, c: Connection, tm: nat)
    requires c.Stacked()
    ensures c.Bottom().lastUse <= tm < U64_MODULUS ==>
      (srv.Reaped(c, tm) <==> c.Bottom().isShutdown || (srv.maxIdle > 0 && tm - c.Bottom().lastUse > srv.maxIdle))
  {
    if c.Bottom().lastUse <= tm < U64_MODULUS {
      assert (tm - c.Bottom().lastUse) % U64_MODULUS == tm - c.Bottom().lastUse;
    }
  }

  lemma AllReapedExactly(srv: Server, tm: nat)
    requires srv.Wired()
    ensures forall fd :: fd in srv.connections && srv.connections[fd].Bottom().lastUse <= tm < U64_MODULUS ==>
      var b := srv.connections[fd].Bottom();
      srv.Reaped(srv.connections[fd], tm) <==> b.isShutdown || (srv.maxIdle > 0 && tm - b.lastUse > srv.maxIdle)
  {
    forall fd | fd in srv.connections && srv.connections[fd].Bottom().lastUse <= tm < U64_MODULUS
      ensures var b := srv.connections[fd].Bottom();
        srv.Reaped(srv.connections[fd], tm) <==> b.isShutdown || (srv.maxIdle > 0 && tm - b.lastUse > srv.maxIdle)
    {
      ReapedExactly(srv, srv.connections[fd], tm);
    }
  }

  ghost function LayersOf(m: map<int, Connection>): set<Connection> {
    set fd, x | fd in m && x in m[fd].Layers :: x
  }

  /** What the sweep does about one entry it removes. */
  ghost function ReapEvents(c: Connection, fd: int, down: bool): seq<Event>
    requires c.Stacked()
  {
    [Unwatch(fd)] + if down then [] else (Locks(Chain(c)) + Closes(c) + Frees(Chain(c))) + [NotifyTerminated(c)]
  }

  ghost function SweepEvents(m: map<int, Connection>, order: seq<int>, down: set<int>): seq<Event>
    requires forall fd :: fd in m ==> m[fd].Stacked()
    requires forall k :: 0 <= k < |order| ==> order[k] in m
  {
    if order == [] then []
    else
      var fd := order[|order| - 1];
      SweepEvents(m, order[..|order| - 1], down) + ReapEvents(m[fd], fd, fd in down)
  }

  /** The sequence lists each member of the set once. */
  ghost predicate OnceEach(order: seq<int>, members: set<int>) {
    && (forall fd :: fd in members <==> fd in order)
    && (forall k :: 0 <= k < |order| ==> order[k] in members)
    && (forall i, j :: 0 <= i < j < |order| ==> order[i] != order[j])
  }

  lemma OnceEachMore(order: seq<int>, members: set<int>, fd: int)
    requires OnceEach(order, members) && fd !in members
    ensures OnceEach(order + [fd], members + {fd})
  {
    var order' := order + [fd];
    assert forall f :: f in order' <==> f in order || f == fd;
    assert forall k :: 0 <= k < |order| ==> order'[k] == order[k];
  }

  lemma Associate(a: seq<Event>, b: seq<Event>, c: seq<Event>)
    ensures (a + b) + c == a + (b + c)
  {
  }

  lemma OrderMore(m: map<int, Connection>, todo: set<int>, reaped: set<int>, down: set<int>, order: seq<int>, fd: int,
                  before: seq<Event>)
    requires forall f :: f in m ==> m[f].Stacked()
    requires fd in todo && todo <= m.Keys && reaped <= m.Keys && OnceEach(order, reaped - todo)
    ensures var order' := if fd in reaped then order + [fd] else order;
      && OnceEach(order', reaped - (todo - {fd}))
      && (before + SweepEvents(m, order, down)) + (if fd in reaped then ReapEvents(m[fd], fd, fd in down) else [])
         == before + SweepEvents(m, order', down)
  {
    if fd in reaped {
      OnceEachMore(order, reaped - todo, fd);
      assert reaped - (todo - {fd}) == reaped - todo + {fd};
      SweepOneMore(m, order, fd, down);
      Associate(before, SweepEvents(m, order, down), ReapEvents(m[fd], fd, fd in down));
    } else {
      assert reaped - (todo - {fd}) == reaped - todo;
    }
  }

  lemma SweepOneMore(m: map<int, Connection>, order: seq<int>, fd: int, down: set<int>)
    requires forall f :: f in m ==> m[f].Stacked()
    requires fd in m && forall k :: 0 <= k < |order| ==> order[k] in m
    ensures SweepEvents(m, order + [fd], down) == SweepEvents(m, order, down) + ReapEvents(m[fd], fd, fd in down)
  {
    assert (order + [fd])[..|order|] == order;
  }

  lemma DistinctWhenWired(srv: Server)
    requires srv.Wired()
    ensures Distinct(srv.connections)
  {
    forall fd | fd in srv.connections ensures srv.connections[fd] in srv.connections[fd].Layers {
      assert srv.connections[fd].Stacked();
    }
  }

  lemma {:induction false} ChainInLayers(c: Connection)
    requires c.Stacked()
    ensures ChainSet(c) <= c.Layers
    decreases c.Layers
  {
    if c.wrapped != null && c.owned {
      ChainInLayers(c.wrapped);
    }
  }

  lemma Untouched(m: map<int, Connection>, gone: set<Connection>)
    requires forall fd :: fd in m ==> m[fd] !in gone
    ensures Without(m, gone) == m
  {
    var w := Without(m, gone);
    assert forall fd :: fd in m ==> fd in w && w[fd] == m[fd];
    assert forall fd :: fd in w ==> fd in m;
  }

  // ---------------------------------------------------------------- maps and dequeuing

  /** The map of a server; a client connection has none. */
  ghost function MapOf(srv: Server?): map<int, Connection>
    reads srv
  {
    if srv == null then map[] else srv.connections
  }

  /** No handle is in the map twice. */
  predicate Distinct(m: map<int, Connection>) {
    forall f, g :: f in m && g in m && m[f] == m[g] ==> f == g
  }

  ghost function Without(m: map<int, Connection>, gone: set<Connection>): map<int, Connection> {
    map fd | fd in m && m[fd] !in gone :: m[fd]
  }

  /** What DequeueConnection does: nothing for a handle that is not in the map. */
  ghost function DequeueEvents(m: map<int, Connection>, c: Connection): seq<Event> {
    if fd :| fd in m && m[fd] == c then [TakeRegistry, Unwatch(fd), DropRegistry] else []
  }

  lemma SomeMember(s: set<int>)
    ensures s == {} || exists x :: x in s
  {
    if forall x :: x !in s { assert s == {}; }
  }

  lemma OnlyEntry(m: map<int, Connection>, fd: int)
    requires Distinct(m) && fd in m
    ensures DequeueEvents(m, m[fd]) == [TakeRegistry, Unwatch(fd), DropRegistry]
  {
  }

  // ---------------------------------------------------------------- a stack of layers

  /** The layers a Shutdown of c shuts down, from the outside in: it stops below the first unowned one. */
  ghost function Chain(c: Connection): seq<Connection>
    requires c.Stacked()
    decreases c.Layers
  {
    [c] + if c.wrapped != null && c.owned then Chain(c.wrapped) else []
  }

  ghost function ChainSet(c: Connection): set<Connection>
    requires c.Stacked()
    decreases c.Layers, 1
  {
    {c} + Inner(c)
  }

  /** The layers below c that are shut down with it. */
  ghost function Inner(c: Connection): set<Connection>
    requires c.Stacked()
    decreases c.Layers, 0
  {
    if c.wrapped != null && c.owned then ChainSet(c.wrapped) else {}
  }

  lemma WithoutMore(m: map<int, Connection>, a: set<Connection>, b: set<Connection>)
    requires Distinct(m)
    ensures Without(Without(m, a), b) == Without(m, a + b)
    ensures Distinct(Without(m, a))
  {
  }

  lemma WithoutNothing(m: map<int, Connection>)
    ensures Without(m, {}) == m
  {
    var w := Without(m, {});
    assert forall fd :: fd in m ==> fd in w && w[fd] == m[fd];
    assert forall fd :: fd in w ==> fd in m;
  }

  /** What Shutdown of c does, call by call: deregister, then take the layer down. */
  ghost function ShutdownEvents(c: Connection, m: map<int, Connection>): seq<Event>
    requires c.Stacked()
    decreases c.Layers, 1
  {
    DequeueEvents(m, c) + DestroyEvents(c, Without(m, {c}))
  }

  ghost function DestroyEvents(c: Connection, m: map<int, Connection>): seq<Event>
    requires c.Stacked()
    decreases c.Layers, 0
  {
    [LockConn(c)]
    + (if c.wrapped == null then [CloseSocket(c.socket)]
       else if c.owned then ShutdownEvents(c.wrapped, m)
       else [])
    + [Free(c)]
  }

  ghost function Locks(layers: seq<Connection>): seq<Event> {
    if layers == [] then [] else [LockConn(layers[0])] + Locks(layers[1..])
  }

  /** The layers are freed from the inside out. */
  ghost function Frees(layers: seq<Connection>): seq<Event> {
    if layers == [] then [] else Frees(layers[1..]) + [Free(layers[0])]
  }

  ghost function Closes(c: Connection): seq<Event>
    requires c.Stacked()
    decreases c.Layers
  {
    if c.wrapped == null then [CloseSocket(c.socket)] else if c.owned then Closes(c.wrapped) else []
  }

  /** Only the outermost handle of a stack is in the map. */
  ghost predicate OnlyOutermost(c: Connection, m: map<int, Connection>) {
    forall fd :: fd in m && m[fd] in c.Layers ==> m[fd] == c
  }

  lemma NothingToDequeue(m: map<int, Connection>, c: Connection)
    requires forall fd :: fd in m ==> m[fd] != c
    ensures DequeueEvents(m, c) == [] && Without(m, {c}) == m
  {
    var w := Without(m, {c});
    assert forall fd :: fd in m ==> fd in w && w[fd] == m[fd];
    assert forall fd :: fd in w ==> fd in m;
  }

  lemma Single(c: Connection)
    ensures Locks([c]) == [LockConn(c)] && Frees([c]) == [Free(c)]
  {
    assert [c][1..] == [];
  }

  lemma {:induction false} UnregisteredDestroy(c: Connection, m: map<int, Connection>)
    requires c.Stacked() && forall fd :: fd in m ==> m[fd] !in c.Layers
    ensures DestroyEvents(c, m) == Locks(Chain(c)) + Closes(c) + Frees(Chain(c))
    decreases c.Layers
  {
    if c.wrapped != null && c.owned {
      NothingToDequeue(m, c.wrapped);
      UnregisteredDestroy(c.wrapped, m);
      var inner := DestroyEvents(c.wrapped, m);
      assert [] + inner == inner;
      Nested(c, Chain(c.wrapped), Closes(c));
    } else {
      Single(c);
      assert [LockConn(c)] + [] == [LockConn(c)];
    }
  }

  lemma Nested(c: Connection, inner: seq<Connection>, closes: seq<Event>)
    ensures [LockConn(c)] + (Locks(inner) + closes + Frees(inner)) + [Free(c)]
         == Locks([c] + inner) + closes + Frees([c] + inner)
  {
    assert ([c] + inner)[1..] == inner;
  }

  lemma {:induction false} ChainIsDistinct(c: Connection)
    requires c.Stacked()
    ensures forall i :: 0 <= i < |Chain(c)| ==> Chain(c)[i] in c.Layers
    ensures forall i, j :: 0 <= i < j < |Chain(c)| ==> Chain(c)[i] != Chain(c)[j]
    decreases c.Layers
  {
    if c.wrapped != null && c.owned {
      ChainIsDistinct(c.wrapped);
    }
  }

  /** A layer is shut down with the one around it exactly if that one owns it. */
  lemma {:induction false} ChainExact(c: Connection)
    requires c.Stacked()
    ensures |Chain(c)| > 0 && Chain(c)[0] == c
    ensures forall i :: 0 <= i < |Chain(c)| - 1 ==> Chain(c)[i].owned && Chain(c)[i].wrapped == Chain(c)[i + 1]
    ensures var last := Chain(c)[|Chain(c)| - 1]; last.wrapped == null || !last.owned
    ensures forall x :: x in ChainSet(c) <==> x in Chain(c)
    decreases c.Layers
  {
    if c.wrapped != null && c.owned {
      ChainExact(c.wrapped);
      var inner := Chain(c.wrapped);
      assert Chain(c) == [c] + inner;
      forall i | 0 <= i < |Chain(c)| - 1 ensures Chain(c)[i].owned && Chain(c)[i].wrapped == Chain(c)[i + 1] {
        if i > 0 { assert inner[i - 1].owned && inner[i - 1].wrapped == inner[i]; }
      }
    }
  }

  /**
   Shutting down the outermost handle of any stack: it is taken out of the map, with
   connections_lock_ held once; then the layers are locked from the outside in; then the socket is
   closed, if every layer owns the next; then the layers are freed from the inside out. No layer
   below the first unowned one is touched.
   */
  lemma StackShutdown(c: Connection, m: map<int, Connection>)
    requires c.Stacked() && OnlyOutermost(c, m)
    ensures ShutdownEvents(c, m) == DequeueEvents(m, c) + (Locks(Chain(c)) + Closes(c) + Frees(Chain(c)))
  {
    UnregisteredDestroy(c, Without(m, {c}));
  }

  /** A stack that has no entry in the map leaves the map alone. */
  lemma UnregisteredShutdown(c: Connection, m: map<int, Connection>)
    requires c.Stacked() && forall fd :: fd in m ==> m[fd] !in c.Layers
    ensures ShutdownEvents(c, m) == Locks(Chain(c)) + Closes(c) + Frees(Chain(c))
    ensures Without(m, ChainSet(c)) == m
  {
    StackShutdown(c, m);
    NothingToDequeue(m, c);
    ChainInLayers(c);
    Untouched(m, ChainSet(c));
  }

  // ---------------------------------------------------------------- how often

  function Times(events: seq<Event>, e: Event): nat {
    multiset(events)[e]
  }

  function Once(b: bool): nat {
    if b then 1 else 0
  }

  lemma TimesAppend(a: seq<Event>, b: seq<Event>, e: Event)
    ensures Times(a + b, e) == Times(a, e) + Times(b, e)
  {
  }

  lemma LocksMore(c: Connection, inner: seq<Connection>, e: Event)
    ensures Times(Locks([c] + inner), e) == Once(e == LockConn(c)) + Times(Locks(inner), e)
  {
    assert ([c] + inner)[1..] == inner;
    TimesAppend([LockConn(c)], Locks(inner), e);
  }

  lemma FreesMore(c: Connection, inner: seq<Connection>, e: Event)
    ensures Times(Frees([c] + inner), e) == Times(Frees(inner), e) + Once(e == Free(c))
  {
    assert ([c] + inner)[1..] == inner;
    TimesAppend(Frees(inner), [Free(c)], e);
  }

  lemma {:induction false} LocksOnce(c: Connection, e: Event)
    requires c.Stacked()
    ensures Times(Locks(Chain(c)), e) == Once(e.LockConn? && e.conn in ChainSet(c))
    decreases c.Layers
  {
    if c.wrapped != null && c.owned {
      LocksOnce(c.wrapped, e);
      ChainInLayers(c.wrapped);
      LocksMore(c, Chain(c.wrapped), e);
    } else {
      LocksMore(c, [], e);
    }
  }

  lemma {:induction false} FreesOnce(c: Connection, e: Event)
    requires c.Stacked()
    ensures Times(Frees(Chain(c)), e) == Once(e.Free? && e.conn in ChainSet(c))
    decreases c.Layers
  {
    if c.wrapped != null && c.owned {
      FreesOnce(c.wrapped, e);
      ChainInLayers(c.wrapped);
      FreesMore(c, Chain(c.wrapped), e);
    } else {
      FreesMore(c, [], e);
    }
  }

  /** The event closes the socket at the bottom of the stack, and every layer owns the next. */
  ghost predicate IsClose(c: Connection, e: Event)
    requires c.Stacked()
  {
    e.CloseSocket? && e.fd == c.Bottom().socket && c.Bottom() in ChainSet(c)
  }

  lemma {:induction false} ClosesOnce(c: Connection, e: Event)
    requires c.Stacked()
    ensures Times(Closes(c), e) == Once(IsClose(c, e))
    decreases c.Layers
  {
    if c.wrapped == null {
      assert Closes(c) == [CloseSocket(c.socket)];
    } else {
      var b := c.Bottom();
      assert b == c.wrapped.Bottom() && b != c;
      if c.owned {
        ClosesOnce(c.wrapped, e);
        assert b in ChainSet(c) <==> b in ChainSet(c.wrapped);
      } else {
        assert ChainSet(c) == {c};
        assert Closes(c) == [];
      }
    }
  }

  lemma DestroyTimes(c: Connection, e: Event)
    requires c.Stacked()
    ensures Times(Locks(Chain(c)) + Closes(c) + Frees(Chain(c)), e)
         == Once((e.LockConn? || e.Free?) && e.conn in ChainSet(c)) + Once(IsClose(c, e))
  {
    LocksOnce(c, e);
    FreesOnce(c, e);
    ClosesOnce(c, e);
  }

  lemma DequeueTimes(m: map<int, Connection>, c: Connection, e: Event)
    requires !e.Unwatch? && !e.DropRegistry?
    ensures Times(DequeueEvents(m, c), e) == Once(e.TakeRegistry? && exists fd :: fd in m && m[fd] == c)
  {
  }

  lemma ShutdownTimes(c: Connection, m: map<int, Connection>, e: Event)
    requires c.Stacked() && OnlyOutermost(c, m) && !e.Unwatch? && !e.DropRegistry?
    ensures Times(ShutdownEvents(c, m), e)
         == Once(e.TakeRegistry? && exists fd :: fd in m && m[fd] == c)
            + Once((e.LockConn? || e.Free?) && e.conn in ChainSet(c)) + Once(IsClose(c, e))
  {
    StackShutdown(c, m);
    DequeueTimes(m, c, e);
    DestroyTimes(c, e);
    TimesAppend(DequeueEvents(m, c), Locks(Chain(c)) + Closes(c) + Frees(Chain(c)), e);
  }

  /**
   The shutdown of a whole stack takes connections_lock_ once if its handle is in the map and never
   otherwise; it locks and frees every layer down to the first unowned one exactly once, and no other,
   and closes the socket once, or not at all when a layer does not own the next.
   */
  lemma StackShutdownOnce(c: Connection, m: map<int, Connection>, x: Connection, fd: int)
    requires c.Stacked() && OnlyOutermost(c, m)
    ensures Times(ShutdownEvents(c, m), TakeRegistry) == Once(exists fd :: fd in m && m[fd] == c)
    ensures Times(ShutdownEvents(c, m), LockConn(x)) == Once(x in ChainSet(c))
    ensures Times(ShutdownEvents(c, m), Free(x)) == Once(x in ChainSet(c))
    ensures Times(ShutdownEvents(c, m), CloseSocket(fd)) == Once(fd == c.Bottom().socket && c.Bottom() in ChainSet(c))
  {
    ShutdownTimes(c, m, TakeRegistry);
    ShutdownTimes(c, m, LockConn(x));
    ShutdownTimes(c, m, Free(x));
    ShutdownTimes(c, m, CloseSocket(fd));
  }

  /** How often the event occurs when the sweep deals with an entry. */
  ghost function Dealt(c: Connection, fd: int, down: bool, e: Event): nat
    requires c.Stacked()
  {
    Once(e == Unwatch(fd)) + Once(!down && (e.LockConn? || e.Free?) && e.conn in ChainSet(c))
    + Once(!down && e == NotifyTerminated(c))
  }

  lemma ReapTimes(c: Connection, fd: int, down: bool, e: Event)
    requires c.Stacked() && !e.CloseSocket?
    ensures Times(ReapEvents(c, fd, down), e) == Dealt(c, fd, down, e)
  {
    DestroyTimes(c, e);
  }

  /** An event that concerns the entry fd: its descriptor, one of its layers, or its end. */
  ghost predicate Concerns(m: map<int, Connection>, fd: int, e: Event)
    requires fd in m
  {
    || e == TakeRegistry || e == Unwatch(fd) || e == NotifyTerminated(m[fd])
    || ((e.LockConn? || e.Free?) && e.conn in m[fd].Layers)
  }

  /** How often the event, which concerns the entry, occurs when the entries are dealt with in that order. */
  ghost function Expected(m: map<int, Connection>, order: seq<int>, down: set<int>, fd: int, e: Event): nat
    requires fd in m && m[fd].Stacked()
  {
    if fd in order then Dealt(m[fd], fd, fd in down, e) else 0
  }

  /** The handles are separate stacks, and the order lists entries of the map, none twice. */
  ghost predicate Swept(m: map<int, Connection>, order: seq<int>) {
    && (forall f :: f in m ==> m[f].Stacked())
    && (forall f, g :: f in m && g in m && f != g ==> m[f].Layers !! m[g].Layers)
    && (forall k :: 0 <= k < |order| ==> order[k] in m)
    && (forall i, j :: 0 <= i < j < |order| ==> order[i] != order[j])
  }

  lemma SweptFirst(m: map<int, Connection>, first: seq<int>, last: int)
    requires Swept(m, first + [last])
    ensures Swept(m, first) && last in m && last !in first
  {
    var order := first + [last];
    assert forall k :: 0 <= k < |first| ==> first[k] == order[k];
    assert order[|first|] == last;
  }

  lemma {:induction false} SweepTimes(m: map<int, Connection>, order: seq<int>, down: set<int>, fd: int, e: Event)
    requires Swept(m, order) && fd in m && Concerns(m, fd, e)
    ensures Times(SweepEvents(m, order, down), e) == Expected(m, order, down, fd, e)
    decreases |order|
  {
    if order != [] {
      var first, last := order[..|order| - 1], order[|order| - 1];
      assert order == first + [last];
      SweptFirst(m, first, last);
      SweepTimes(m, first, down, fd, e);
      TimesMore(m, first, last, down, e);
      ExpectedMore(m, first, last, down, fd, e);
    }
  }

  lemma TimesMore(m: map<int, Connection>, first: seq<int>, last: int, down: set<int>, e: Event)
    requires forall f :: f in m ==> m[f].Stacked()
    requires last in m && (forall k :: 0 <= k < |first| ==> first[k] in m) && !e.CloseSocket?
    ensures Times(SweepEvents(m, first + [last], down), e)
         == Times(SweepEvents(m, first, down), e) + Dealt(m[last], last, last in down, e)
  {
    SweepOneMore(m, first, last, down);
    TimesAppend(SweepEvents(m, first, down), ReapEvents(m[last], last, last in down), e);
    ReapTimes(m[last], last, last in down, e);
  }

  lemma ExpectedMore(m: map<int, Connection>, first: seq<int>, last: int, down: set<int>, fd: int, e: Event)
    requires Swept(m, first) && fd in m && last in m && Concerns(m, fd, e) && last !in first
    ensures Expected(m, first + [last], down, fd, e)
         == Expected(m, first, down, fd, e) + Dealt(m[last], last, last in down, e)
  {
    assert fd in first + [last] <==> fd in first || fd == last;
    if last != fd { LastConcerns(m, last, fd, last in down, e); }
  }

  /** What is done about one entry does not concern another. */
  lemma LastConcerns(m: map<int, Connection>, last: int, fd: int, down: bool, e: Event)
    requires fd in m && last in m && m[fd].Stacked() && m[last].Stacked() && m[fd].Layers !! m[last].Layers
    requires Concerns(m, fd, e) && last != fd
    ensures Dealt(m[last], last, down, e) == 0
  {
    ChainInLayers(m[last]);
    assert m[fd] in m[fd].Layers && m[last] in m[last].Layers;
  }

  /**
   A sweep never takes connections_lock_ again, removes each entry from epoll at most once and exactly
   when it removes it from the map; and unless the entry was already shut down, it locks and frees each
   layer of it down to the first unowned one once, and no other, and reports its end once.
   */
  lemma SweepOnce(m: map<int, Connection>, order: seq<int>, down: set<int>, fd: int, x: Connection)
    requires Swept(m, order) && fd in m && x in m[fd].Layers
    ensures Times(SweepEvents(m, order, down), TakeRegistry) == 0
    ensures Times(SweepEvents(m, order, down), Unwatch(fd)) == Once(fd in order)
    ensures Times(SweepEvents(m, order, down), LockConn(x)) == Once(fd in order && fd !in down && x in ChainSet(m[fd]))
    ensures Times(SweepEvents(m, order, down), Free(x)) == Once(fd in order && fd !in down && x in ChainSet(m[fd]))
    ensures Times(SweepEvents(m, order, down), NotifyTerminated(m[fd])) == Once(fd in order && fd !in down)
  {
    SweepServer(m, order, down, fd);
    SweepTimes(m, order, down, fd, LockConn(x));
    SweepTimes(m, order, down, fd, Free(x));
  }

  lemma SweepServer(m: map<int, Connection>, order: seq<int>, down: set<int>, fd: int)
    requires Swept(m, order) && fd in m
    ensures Times(SweepEvents(m, order, down), TakeRegistry) == 0
    ensures Times(SweepEvents(m, order, down), Unwatch(fd)) == Once(fd in order)
    ensures Times(SweepEvents(m, order, down), NotifyTerminated(m[fd])) == Once(fd in order && fd !in down)
  {
    SweepTimes(m, order, down, fd, TakeRegistry);
    SweepTimes(m, order, down, fd, Unwatch(fd));
    SweepTimes(m, order, down, fd, NotifyTerminated(m[fd]));
  }

  // ---------------------------------------------------------------- in what order

  /** What is done to a layer of this stack. */
  ghost predicate OnLayer(c: Connection, e: Event) {
    (e.LockConn? || e.Free?) && e.conn in c.Layers
  }

  ghost predicate Then(c: Connection, e: Event) {
    OnLayer(c, e) || e == NotifyTerminated(c)
  }

  /** The descriptor leaves epoll first, then the layers are taken down, then their end is reported. */
  ghost predicate InOrder(events: seq<Event>, c: Connection, fd: int) {
    && (forall i, j | 0 <= i < |events| && 0 <= j < |events| && events[i] == Unwatch(fd) && Then(c, events[j]) :: i < j)
    && (forall i, j | 0 <= i < |events| && 0 <= j < |events| && OnLayer(c, events[i])
                      && events[j] == NotifyTerminated(c) :: i < j)
  }

  /** Nothing in it concerns the entry. */
  ghost predicate Elsewhere(events: seq<Event>, c: Connection, fd: int) {
    forall i :: 0 <= i < |events| ==> events[i] != Unwatch(fd) && events[i] != NotifyTerminated(c) && !OnLayer(c, events[i])
  }

  lemma OrderBefore(a: seq<Event>, b: seq<Event>, c: Connection, fd: int)
    requires (InOrder(a, c, fd) && Elsewhere(b, c, fd)) || (Elsewhere(a, c, fd) && InOrder(b, c, fd))
    ensures InOrder(a + b, c, fd)
  {
  }

  lemma ElsewhereBoth(a: seq<Event>, b: seq<Event>, c: Connection, fd: int)
    requires Elsewhere(a, c, fd) && Elsewhere(b, c, fd)
    ensures Elsewhere(a + b, c, fd)
  {
  }

  /** These are the steps of a shutdown of the stack. */
  lemma {:induction false} OnlyLayers(layers: seq<Connection>)
    ensures forall i :: 0 <= i < |Locks(layers)| ==> Locks(layers)[i].LockConn? && Locks(layers)[i].conn in layers
    ensures forall i :: 0 <= i < |Frees(layers)| ==> Frees(layers)[i].Free? && Frees(layers)[i].conn in layers
  {
    if layers != [] { OnlyLayers(layers[1..]); }
  }

  lemma {:induction false} OnlyCloses(c: Connection)
    requires c.Stacked()
    ensures forall i :: 0 <= i < |Closes(c)| ==> Closes(c)[i].CloseSocket?
    decreases c.Layers
  {
    if c.wrapped != null && c.owned { OnlyCloses(c.wrapped); }
  }

  ghost function DestroySteps(c: Connection): seq<Event>
    requires c.Stacked()
  {
    Locks(Chain(c)) + Closes(c) + Frees(Chain(c))
  }

  lemma DestroyStepsAre(c: Connection)
    requires c.Stacked()
    ensures forall i :: 0 <= i < |DestroySteps(c)| ==> DestroySteps(c)[i].CloseSocket? || OnLayer(c, DestroySteps(c)[i])
  {
    OnlyLayers(Chain(c));
    OnlyCloses(c);
    ChainIsDistinct(c);
  }

  lemma ReapedInOrder(c: Connection, fd: int, down: bool)
    requires c.Stacked()
    ensures InOrder(ReapEvents(c, fd, down), c, fd)
  {
    DestroyStepsAre(c);
    if !down {
      assert ReapEvents(c, fd, down) == [Unwatch(fd)] + (DestroySteps(c) + [NotifyTerminated(c)]);
    }
  }

  lemma ReapedElsewhere(last: Connection, f: int, down: bool, c: Connection, fd: int)
    requires last.Stacked() && c.Stacked() && last.Layers !! c.Layers && f != fd
    ensures Elsewhere(ReapEvents(last, f, down), c, fd)
  {
    DestroyStepsAre(last);
    assert last in last.Layers && c in c.Layers;
    if !down {
      assert ReapEvents(last, f, down) == [Unwatch(f)] + (DestroySteps(last) + [NotifyTerminated(last)]);
    }
  }

  lemma {:induction false} SweptElsewhere(m: map<int, Connection>, order: seq<int>, down: set<int>, fd: int)
    requires Swept(m, order) && fd in m && fd !in order
    ensures Elsewhere(SweepEvents(m, order, down), m[fd], fd)
    decreases |order|
  {
    if order != [] {
      var first, last := order[..|order| - 1], order[|order| - 1];
      assert order == first + [last];
      SweptFirst(m, first, last);
      SweptElsewhere(m, first, down, fd);
      ReapedElsewhere(m[last], last, last in down, m[fd], fd);
      ElsewhereBoth(SweepEvents(m, first, down), ReapEvents(m[last], last, last in down), m[fd], fd);
    }
  }

  /**
   In a sweep each removed entry is taken out of epoll before anything is done to its layers, and
   ConnectionTerminated is called for it after all of that.
   */
  lemma {:induction false} SweepInOrder(m: map<int, Connection>, order: seq<int>, down: set<int>, fd: int)
    requires Swept(m, order) && fd in m
    ensures InOrder(SweepEvents(m, order, down), m[fd], fd)
    decreases |order|
  {
    if order != [] {
      var first, last := order[..|order| - 1], order[|order| - 1];
      assert order == first + [last];
      SweptFirst(m, first, last);
      if last == fd {
        SweptElsewhere(m, first, down, fd);
        ReapedInOrder(m[fd], fd, fd in down);
      } else {
        SweepInOrder(m, first, down, fd);
        ReapedElsewhere(m[last], last, last in down, m[fd], fd);
      }
      OrderBefore(SweepEvents(m, first, down), ReapEvents(m[last], last, last in down), m[fd], fd);
    }
  }
}
