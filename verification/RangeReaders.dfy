/**
 What RangeReaderDecorator promises: a window of maxSize bytes on the wrapped connection,
 and a Shutdown that leaves the wrapped connection exactly behind the window.
 */
module RangeReaders {
  import opened Streams

  /** The requests a range reader passes on while it answers these requests. */
  function PassedOn(c: Conn, requests: seq<U64>): seq<U64>
    requires c.Range?
    decreases |requests|
  {
    if requests == [] then []
    else if c.offset >= c.maxSize then PassedOn(c, requests[1..])
    else
      var n := RangeRequest(c.maxSize, c.offset, requests[0]);
      var o := Receive(c, requests[0]);
      [n] + if o.reply.Overflow? then [] else PassedOn(o.conn, requests[1..])
  }

  /** One Receive below the limit: the offset follows the bytes, or the wrapped connection is at its end. */
  lemma ReceiveTracks(c: Conn, maxlen: U64)
    requires c.Range? && Streaming(c) && c.offset < c.maxSize
    ensures var o := Receive(c, maxlen);
      && o.conn.Range? && o.conn.maxSize == c.maxSize
      && (o.reply.Data? ==>
            && o.conn.offset <= c.maxSize
            && o.conn.offset == if IsEOF(o.conn.inner) then c.maxSize else c.offset + |o.reply.bytes|)
      && |if o.reply.Data? then o.reply.bytes else ""| <= c.maxSize - c.offset
  {
    var n := RangeRequest(c.maxSize, c.offset, maxlen);
    ReceiveDelivers(c.inner, n);
  }

  /**
   Any sequence of Receives: the reader is its wrapped connection asked with the requests passed
   on, each of them positive and within the bytes left, so that 0 ("no limit") is never passed on;
   the bytes stay within the window and the offset never exceeds maxSize.
   */
  lemma {:induction false} RangeRun(c: Conn, requests: seq<U64>)
    requires c.Range? && Streaming(c)
    ensures forall k :: 0 <= k < |PassedOn(c, requests)| ==> 0 < PassedOn(c, requests)[k] <= c.maxSize - c.offset
    ensures ReceiveAll(c, requests).conn.Range?
    ensures ReceiveAll(c, requests).ok == ReceiveAll(c.inner, PassedOn(c, requests)).ok
    ensures ReceiveAll(c, requests).bytes == ReceiveAll(c.inner, PassedOn(c, requests)).bytes
    ensures ReceiveAll(c, requests).conn.inner == ReceiveAll(c.inner, PassedOn(c, requests)).conn
    ensures ReceiveAll(c, requests).conn.maxSize == c.maxSize
    ensures |ReceiveAll(c, requests).bytes| <= c.maxSize - c.offset
    ensures c.offset <= ReceiveAll(c, requests).conn.offset <= c.maxSize
    ensures ReceiveAll(c, requests).ok ==>
              || ReceiveAll(c, requests).conn.offset == c.offset + |ReceiveAll(c, requests).bytes|
              || (ReceiveAll(c, requests).conn.offset == c.maxSize && Content(ReceiveAll(c, requests).conn.inner) == "")
    decreases |requests|
  {
    if requests == [] {
    } else if c.offset >= c.maxSize {
      RangeRun(c, requests[1..]);
    } else {
      var n := RangeRequest(c.maxSize, c.offset, requests[0]);
      var o := Receive(c, requests[0]);
      ReceiveDelivers(c, requests[0]);
      ReceiveDelivers(c.inner, n);
      ReceiveTracks(c, requests[0]);
      if o.reply.Data? {
        RangeRun(o.conn, requests[1..]);
        var more := PassedOn(o.conn, requests[1..]);
        assert PassedOn(c, requests) == [n] + more;
        assert ([n] + more)[1..] == more;
        if IsEOF(o.conn.inner) {
          AtEnd(o.conn.inner);
          EndStays(o.conn.inner, more);
        }
      }
    }
  }

  /**
   Each length passed on is the caller's own if that fits into what the answers before it left of the
   window, and otherwise, or if the caller named none, exactly what they left.
   */
  lemma {:induction false} EachRequestExact(c: Conn, requests: seq<U64>, k: nat)
    requires c.Range? && Streaming(c) && k < |PassedOn(c, requests)|
    ensures k < |requests|
    ensures var left := c.maxSize - c.offset - |ReceiveAll(c.inner, PassedOn(c, requests)[..k]).bytes|;
      left > 0 && PassedOn(c, requests)[k] == if requests[k] == 0 || requests[k] > left then left else requests[k]
    decreases |requests|
  {
    NothingPassedOnAtLimit(c, requests);
    if k > 0 {
      var n := RangeRequest(c.maxSize, c.offset, requests[0]);
      var o := Receive(c, requests[0]);
      ReceiveDelivers(c, requests[0]);
      ReceiveTracks(c, requests[0]);
      var more := PassedOn(o.conn, requests[1..]);
      NothingPassedOnAtLimit(o.conn, requests[1..]);
      EachRequestExact(o.conn, requests[1..], k - 1);
      FirstThenMore(c.inner, n, more, k);
    }
  }

  lemma {:induction false} NothingPassedOnAtLimit(c: Conn, requests: seq<U64>)
    requires c.Range?
    ensures c.offset >= c.maxSize ==> PassedOn(c, requests) == []
    decreases |requests|
  {
    if requests != [] && c.offset >= c.maxSize {
      NothingPassedOnAtLimit(c, requests[1..]);
    }
  }

  lemma FirstThenMore(inner: Conn, n: U64, more: seq<U64>, k: nat)
    requires 0 < k <= |more| && Receive(inner, n).reply.Data?
    ensures ([n] + more)[k] == more[k - 1]
    ensures |ReceiveAll(inner, ([n] + more)[..k]).bytes|
         == |Receive(inner, n).reply.bytes| + |ReceiveAll(Receive(inner, n).conn, more[..k - 1]).bytes|
  {
    assert ([n] + more)[..k] == [n] + more[..k - 1];
    assert ([n] + more[..k - 1])[1..] == more[..k - 1];
  }

  /** At the end of the wrapped connection nothing more is read, and nothing is thrown. */
  lemma {:induction false} EndStays(c: Conn, requests: seq<U64>)
    requires Streaming(c) && Content(c) == ""
    ensures ReceiveAll(c, requests).ok && ReceiveAll(c, requests).bytes == ""
    ensures Streaming(ReceiveAll(c, requests).conn) && Content(ReceiveAll(c, requests).conn) == ""
    decreases |requests|
  {
    if requests != [] {
      var next := EndGivesNothing(c, requests);
      EndStays(next, requests[1..]);
    }
  }

  lemma EndGivesNothing(c: Conn, requests: seq<U64>) returns (next: Conn)
    requires Streaming(c) && Content(c) == "" && requests != []
    ensures Streaming(next) && Content(next) == "" && ReceiveAll(c, requests) == ReceiveAll(next, requests[1..])
  {
    ExhaustedNeverThrows(c, requests[0]);
    NothingRead(c, requests[0]);
    next := Receive(c, requests[0]).conn;
    ReceiveFirst(c, requests);
    PrependNothing(ReceiveAll(next, requests[1..]));
  }

  lemma PrependNothing(t: Tape)
    ensures Tape(t.conn, "" + t.bytes, t.ok) == t
  {
    assert "" + t.bytes == t.bytes;
  }

  // ---------------------------------------------------------------- inside the window

  function Sum(requests: seq<U64>): nat {
    if requests == [] then 0 else requests[0] + Sum(requests[1..])
  }

  predicate AllPositive(requests: seq<U64>) {
    forall k :: 0 <= k < |requests| ==> requests[k] > 0
  }

  lemma {:induction false} ClosedWindow(c: Conn, requests: seq<U64>)
    requires c.Range? && c.offset >= c.maxSize
    ensures ReceiveAll(c, requests) == Tape(c, "", true)
    decreases |requests|
  {
    if requests != [] {
      ClosedWindow(c, requests[1..]);
    }
  }

  /** What a run through the reader shows is what the same run on the wrapped connection shows. */
  predicate SameRun(c: Conn, requests: seq<U64>)
    requires c.Range?
  {
    var through, direct := ReceiveAll(c, requests), ReceiveAll(c.inner, requests);
    && through.ok == direct.ok && through.bytes == direct.bytes
    && PassedOn(c, requests) <= requests
    && (PassedOn(c, requests) != requests ==> !direct.ok || Content(direct.conn) == "")
  }

  lemma SameRunStep(c: Conn, requests: seq<U64>)
    requires c.Range? && Streaming(c) && requests != [] && 0 < requests[0] <= c.maxSize - c.offset
    requires var o := Receive(c, requests[0]); o.reply.Data? ==> o.conn.Range? && SameRun(o.conn, requests[1..])
    ensures SameRun(c, requests)
  {
    var o := Receive(c, requests[0]);
    assert requests == [requests[0]] + requests[1..];
    if o.reply.Data? {
      assert PassedOn(c, requests) == [requests[0]] + PassedOn(o.conn, requests[1..]);
    }
  }

  lemma SameRunAtEnd(c: Conn, requests: seq<U64>)
    requires c.Range? && c.offset >= c.maxSize && Streaming(c.inner) && Content(c.inner) == ""
    ensures SameRun(c, requests)
  {
    ClosedWindow(c, requests);
    EndStays(c.inner, requests);
    NothingPassedOnAtLimit(c, requests);
  }

  lemma {:induction false} WindowIsTransparent(c: Conn, requests: seq<U64>)
    requires c.Range? && Streaming(c) && AllPositive(requests) && Sum(requests) <= c.maxSize - c.offset
    ensures SameRun(c, requests)
    decreases |requests|
  {
    if requests != [] {
      var o := Receive(c, requests[0]);
      ReceiveDelivers(c, requests[0]);
      ReceiveDelivers(c.inner, requests[0]);
      ReceiveTracks(c, requests[0]);
      if o.reply.Data? {
        if IsEOF(o.conn.inner) {
          AtEnd(o.conn.inner);
          SameRunAtEnd(o.conn, requests[1..]);
        } else {
          WindowIsTransparent(o.conn, requests[1..]);
        }
      }
      SameRunStep(c, requests);
    }
  }

  /**
   Inside its window a range reader cannot be noticed: as long as the requests are positive and together
   at most its size, they are passed on as they are up to a throw or the end of the stream, and the
   answers are those of the connection itself.
   */
  lemma WindowTransparent(c: Conn, size: U64, requests: seq<U64>)
    requires Streaming(c) && AllPositive(requests) && Sum(requests) <= size
    ensures var r := Range(c, size, 0);
      && ReceiveAll(r, requests).ok == ReceiveAll(c, requests).ok
      && ReceiveAll(r, requests).bytes == ReceiveAll(c, requests).bytes
      && PassedOn(r, requests) <= requests
      && (PassedOn(r, requests) != requests ==>
            !ReceiveAll(c, requests).ok || Content(ReceiveAll(c, requests).conn) == "")
  {
    WindowIsTransparent(Range(c, size, 0), requests);
  }

  /** The reader stops passing requests on only after a throw, at the end of the stream, or behind the window. */
  lemma {:induction false} PassesOnUntil(c: Conn, requests: seq<U64>)
    requires c.Range? && Streaming(c) && c.offset < c.maxSize
    ensures var t := ReceiveAll(c.inner, PassedOn(c, requests));
      && |PassedOn(c, requests)| <= |requests|
      && (|PassedOn(c, requests)| < |requests| ==>
            !t.ok || IsEOF(t.conn) || |t.bytes| == c.maxSize - c.offset)
    decreases |requests|
  {
    if requests != [] {
      var n := RangeRequest(c.maxSize, c.offset, requests[0]);
      var o := Receive(c, requests[0]);
      ReceiveDelivers(c, requests[0]);
      ReceiveTracks(c, requests[0]);
      if o.reply.Data? {
        var more := PassedOn(o.conn, requests[1..]);
        NothingPassedOnAtLimit(o.conn, requests[1..]);
        if o.conn.offset < o.conn.maxSize { PassesOnUntil(o.conn, requests[1..]); }
        assert ([n] + more)[1..] == more;
      }
    }
  }

  // ---------------------------------------------------------------- a window, and what lies behind it

  /** The furthest the window of a range reader reaches. */
  function Reach(c: Conn): nat
    requires c.Range? && c.offset <= c.maxSize
  {
    Position(c) + (c.maxSize - c.offset)
  }

  /** The reader is at most as far as it may get and, unless it threw, cannot get further than before. */
  predicate Within(before: Conn, after: Conn, threw: bool)
    requires before.Range? && before.offset <= before.maxSize
  {
    && after.Range? && after.offset <= after.maxSize
    && Position(after) <= Reach(before)
    && (!threw ==> Reach(after) <= Reach(before))
  }

  lemma WithinFurther(a: Conn, b: Conn, c: Conn, threw: bool)
    requires a.Range? && a.offset <= a.maxSize && Within(a, b, false) && Within(b, c, threw)
    ensures Within(a, c, threw)
  {
  }

  lemma ReceiveStaysWithin(c: Conn, maxlen: U64)
    requires c.Range? && Streaming(c)
    ensures Within(c, Receive(c, maxlen).conn, Receive(c, maxlen).reply.Overflow?)
  {
    if c.offset < c.maxSize {
      var n := RangeRequest(c.maxSize, c.offset, maxlen);
      MovesAtMost(c.inner, n);
      ReceiveDelivers(c.inner, n);
    }
  }

  // ---------------------------------------------------------------- callers that go on after a throw

  /** The connection after these Receives, whatever comes of them. */
  function Go(c: Conn, requests: seq<U64>): Conn
    decreases |requests|
  {
    if requests == [] then c else Go(Receive(c, requests[0]).conn, requests[1..])
  }

  /** Only the last Receive may throw: the caller stops there. */
  predicate StopsAtThrow(c: Conn, requests: seq<U64>)
    decreases |requests|
  {
    || requests == []
    || (&& (Receive(c, requests[0]).reply.Overflow? ==> |requests| == 1)
        && StopsAtThrow(Receive(c, requests[0]).conn, requests[1..]))
  }

  lemma {:induction false} StopperStaysWithin(c: Conn, requests: seq<U64>)
    requires c.Range? && Streaming(c) && StopsAtThrow(c, requests)
    ensures Position(Go(c, requests)) <= Reach(c)
    decreases |requests|
  {
    if requests != [] {
      var o := Receive(c, requests[0]);
      ReceiveDelivers(c, requests[0]);
      ReceiveStaysWithin(c, requests[0]);
      if o.reply.Data? {
        StopperStaysWithin(o.conn, requests[1..]);
      }
    }
  }

  lemma {:induction false} EmptyWindow(c: Conn, requests: seq<U64>)
    requires c.Range? && c.offset >= c.maxSize
    ensures Go(c, requests) == c
    decreases |requests|
  {
    if requests != [] {
      EmptyWindow(c, requests[1..]);
    }
  }

  /**
   Through a reader of this size, over any stream, a caller that makes at most this many Receives after
   one that throws never moves the source by more than size bytes.
   */
  ghost predicate WindowBinds(size: U64, extra: nat) {
    forall c: Conn, requests: seq<U64>, more: seq<U64> ::
      Streaming(c) && StopsAtThrow(Range(c, size, 0), requests) && |more| <= extra ==>
        Position(Go(Range(c, size, 0), requests + more)) <= Position(c) + size
  }

  /** A source of twice the window, all to be had at once, in a buffer a byte too small for the window. */
  function TooSmall(bytes: string, size: U64): Conn
    requires 0 < size && |bytes| == 2 * size
  {
    Ack(Source("", bytes, false, 2 * size, []), size - 1, true, "")
  }

  /** Asked once it throws, having read the window; asked again it reads as much again. */
  lemma TwiceIsTooMuch(bytes: string, size: U64)
    requires 0 < size && |bytes| == 2 * size
    ensures var c := Range(TooSmall(bytes, size), size, 0); var o := Receive(c, 0);
      && Streaming(c) && o.reply.Overflow?
      && Position(Receive(o.conn, 0).conn) == 2 * size
  {
    RequestOfAll(size);
    var first := Receive(TooSmall(bytes, size).inner, size);
    assert first.reply == Data(bytes[..size]) && |bytes[..size]| == size;
    assert "" + bytes[..size] == bytes[..size];
    var again := Receive(first.conn, 0);
    assert again.reply == Data(bytes[size..]);
    assert Position(again.conn) == |bytes[..size] + bytes[size..]|;
  }

  lemma RequestOfAll(size: U64)
    requires 0 < size
    ensures RangeRequest(size, 0, 0) == size && AckRequest(0, size) == size && AckRequest(size, size) == 0
  {
  }

  /**
   The window binds a caller that stops at the first throw, and no other: one Receive more is enough to
   read behind it, unless the window is empty.
   */
  lemma WindowBindsExactly(size: U64, extra: nat)
    ensures WindowBinds(size, extra) <==> extra == 0 || size == 0
  {
    if extra == 0 || size == 0 {
      forall c: Conn, requests: seq<U64>, more: seq<U64>
        | Streaming(c) && StopsAtThrow(Range(c, size, 0), requests) && |more| <= extra
        ensures Position(Go(Range(c, size, 0), requests + more)) <= Position(c) + size
      {
        if size == 0 {
          EmptyWindow(Range(c, size, 0), requests + more);
        } else {
          assert requests + more == requests;
          StopperStaysWithin(Range(c, size, 0), requests);
        }
      }
    } else {
      OneMoreIsTooMany(size, extra);
    }
  }

  lemma OneMoreIsTooMany(size: U64, extra: nat)
    requires size > 0 && extra > 0
    ensures !WindowBinds(size, extra)
  {
    var bytes := seq(2 * size, _ => 'x');
    var c := TooSmall(bytes, size);
    TwiceIsTooMuch(bytes, size);
    GoTwice(Range(c, size, 0), 0, 0);
    var once: seq<U64> := [0];
    assert once + once == [0, 0] && once[1..] == [];
    assert Streaming(c) && StopsAtThrow(Range(c, size, 0), once) && |once| <= extra;
    assert Position(Go(Range(c, size, 0), once + once)) > Position(c) + size;
  }

  lemma GoTwice(c: Conn, a: U64, b: U64)
    ensures Go(c, [a, b]) == Receive(Receive(c, a).conn, b).conn
  {
    assert [a, b][1..] == [b] && [b][1..] == [];
    var next := Receive(c, a).conn;
    assert Go(c, [a, b]) == Go(next, [b]);
    assert Go(next, [b]) == Go(Receive(next, b).conn, []);
  }

  // ---------------------------------------------------------------- Shutdown

  /** The loop of RangeReaderDecorator::Shutdown that eats what is left of the window. */
  function Drain(inner: Conn, maxSize: U64, offset: U64): Tape
    requires Streaming(inner)
    decreases Effort(inner)
  {
    if offset >= maxSize || IsEOF(inner) then Tape(inner, "", true)
    else
      var o := Receive(inner, maxSize - offset);
      ReceiveDelivers(inner, maxSize - offset);
      match o.reply
      case Overflow => Tape(o.conn, "", false)
      case Data(bytes) =>
        var t := Drain(o.conn, maxSize, Wrap(offset + |bytes|));
        Tape(t.conn, bytes + t.bytes, t.ok)
  }

  /** Draining from here ends with this connection, and this is whether it does so without a throw. */
  predicate DrainsTo(inner: Conn, maxSize: U64, offset: U64, end: Conn, ok: bool) {
    Streaming(inner) && Drain(inner, maxSize, offset).conn == end && Drain(inner, maxSize, offset).ok == ok
  }

  /** The loop is left. */
  lemma DrainStops(inner: Conn, maxSize: U64, offset: U64, end: Conn, ok: bool)
    requires DrainsTo(inner, maxSize, offset, end, ok) && (offset >= maxSize || IsEOF(inner))
    ensures inner == end && ok
  {
  }

  /** One round of the loop. */
  lemma DrainRound(inner: Conn, maxSize: U64, offset: U64, end: Conn, ok: bool, o: Outcome)
    requires DrainsTo(inner, maxSize, offset, end, ok) && offset < maxSize && !IsEOF(inner)
    requires o == Receive(inner, maxSize - offset)
    ensures o.reply.Overflow? ==> o.conn == end && !ok
    ensures o.reply.Data? ==> DrainsTo(o.conn, maxSize, Wrap(offset + |o.reply.bytes|), end, ok)
                              && Effort(o.conn) < Effort(inner)
  {
    ReceiveDelivers(inner, maxSize - offset);
  }

  /** The connection was read for exactly n bytes, or to its end if it has fewer. */
  predicate Consumed(before: Conn, n: nat, after: Conn) {
    && Streaming(after)
    && Content(after) == Drop(Content(before), n)
    && Position(after) == Position(before) + Min(n, |Content(before)|)
  }

  lemma ConsumedMore(a: Conn, b: Conn, c: Conn, bytes: string, n: nat)
    requires Content(a) == bytes + Content(b) && Position(b) == Position(a) + |bytes| && |bytes| <= n
    requires Consumed(b, n - |bytes|, c)
    ensures Consumed(a, n, c)
    ensures bytes + Take(Content(b), n - |bytes|) == Take(Content(a), n)
  {
    TakeDropAppend(bytes, Content(b), n);
  }

  predicate DrainsExactly(inner: Conn, n: nat, t: Tape) {
    t.ok ==> Consumed(inner, n, t.conn) && t.bytes == Take(Content(inner), n)
  }

  lemma DrainStep(inner: Conn, o: Outcome, maxlen: U64, n: nat, t: Tape)
    requires o.reply.Data? && Delivers(inner, maxlen, o) && |o.reply.bytes| <= n
    requires DrainsExactly(o.conn, n - |o.reply.bytes|, t)
    ensures DrainsExactly(inner, n, Tape(t.conn, o.reply.bytes + t.bytes, t.ok))
  {
    if t.ok {
      ConsumedMore(inner, o.conn, t.conn, o.reply.bytes, n);
    }
  }

  /** Shutdown eats exactly the rest of the window, or all there is, and nothing behind the window. */
  lemma {:induction false} DrainExact(inner: Conn, maxSize: U64, offset: U64)
    requires Streaming(inner) && offset <= maxSize
    ensures DrainsExactly(inner, maxSize - offset, Drain(inner, maxSize, offset))
    decreases Effort(inner)
  {
    var left := maxSize - offset;
    if offset >= maxSize {
    } else if IsEOF(inner) {
      AtEnd(inner);
    } else {
      var o := Receive(inner, left);
      ReceiveDelivers(inner, left);
      if o.reply.Data? {
        DrainExact(o.conn, maxSize, offset + |o.reply.bytes|);
        DrainRecurs(inner, maxSize, offset, o);
        DrainStep(inner, o, left, left, Drain(o.conn, maxSize, offset + |o.reply.bytes|));
      }
    }
  }

  lemma DrainRecurs(inner: Conn, maxSize: U64, offset: U64, o: Outcome)
    requires Streaming(inner) && offset < maxSize && !IsEOF(inner)
    requires o == Receive(inner, maxSize - offset) && o.reply.Data? && Streaming(o.conn)
    requires |o.reply.bytes| <= maxSize - offset
    ensures var t := Drain(o.conn, maxSize, offset + |o.reply.bytes|);
            Drain(inner, maxSize, offset) == Tape(t.conn, o.reply.bytes + t.bytes, t.ok)
  {
    assert Wrap(offset + |o.reply.bytes|) == offset + |o.reply.bytes|;
  }

  lemma {:induction false} DrainsWithoutThrow(inner: Conn, maxSize: U64, offset: U64, end: Conn, ok: bool)
    requires DrainsTo(inner, maxSize, offset, end, ok) && Streaming(inner) && Roomy(inner) && offset <= maxSize
    ensures ok && Roomy(end)
    decreases Effort(inner)
  {
    if offset >= maxSize || IsEOF(inner) {
      DrainStops(inner, maxSize, offset, end, ok);
    } else {
      var next, offset' := RoomyRound(inner, maxSize, offset, end, ok);
      DrainsWithoutThrow(next, maxSize, offset', end, ok);
    }
  }

  lemma RoomyRound(inner: Conn, maxSize: U64, offset: U64, end: Conn, ok: bool) returns (next: Conn, offset': U64)
    requires DrainsTo(inner, maxSize, offset, end, ok) && Streaming(inner) && Roomy(inner)
    requires offset < maxSize && !IsEOF(inner)
    ensures DrainsTo(next, maxSize, offset', end, ok) && Streaming(next) && Roomy(next)
    ensures offset' <= maxSize && Effort(next) < Effort(inner)
  {
    var o := ReceiveRoomy(inner, maxSize - offset);
    DrainRound(inner, maxSize, offset, end, ok, o);
    assert Wrap(offset + |o.reply.bytes|) == offset + |o.reply.bytes|;
    next, offset' := o.conn, offset + |o.reply.bytes|;
  }

  lemma DrainNeverThrows(inner: Conn, maxSize: U64, offset: U64)
    requires Streaming(inner) && Roomy(inner) && offset <= maxSize
    ensures Drain(inner, maxSize, offset).ok && Roomy(Drain(inner, maxSize, offset).conn)
  {
    var d := Drain(inner, maxSize, offset);
    DrainsWithoutThrow(inner, maxSize, offset, d.conn, d.ok);
  }

  lemma ReceiveRoomy(c: Conn, maxlen: U64) returns (o: Outcome)
    requires Streaming(c) && Roomy(c) && !IsEOF(c) && maxlen > 0
    ensures o == Receive(c, maxlen) && o.reply.Data? && |o.reply.bytes| <= maxlen
    ensures Streaming(o.conn) && Roomy(o.conn) && Effort(o.conn) < Effort(c)
  {
    o := Receive(c, maxlen);
    ReceiveDelivers(c, maxlen);
    RoomyNeverThrows(c, maxlen);
  }

  // ---------------------------------------------------------------- one reader after another

  /** A range reader's life: its size, and the Receives made before its Shutdown. */
  datatype Session = Session(size: U64, requests: seq<U64>)

  /** The wrapped connection after the sessions, and what each session read; ok until one throws. */
  datatype Ledger = Ledger(conn: Conn, seen: seq<string>, ok: bool)

  function OneSession(c: Conn, s: Session): Ledger
    requires Streaming(c)
  {
    var r := Range(c, s.size, 0);
    var t := ReceiveAll(r, s.requests);
    RangeRun(r, s.requests);
    ReceiveAllDelivers(r, s.requests);
    if !t.ok then Ledger(t.conn.inner, [t.bytes], false)
    else
      var d := Drain(t.conn.inner, s.size, t.conn.offset);
      Ledger(d.conn, [t.bytes], d.ok)
  }

  /** Unowned range readers, each made on the connection the previous one left behind. */
  function Sessions(c: Conn, ss: seq<Session>): Ledger
    requires Streaming(c)
    decreases |ss|
  {
    if ss == [] then Ledger(c, [], true)
    else
      var one := OneSession(c, ss[0]);
      SessionExact(c, ss[0]);
      if !one.ok then one
      else
        var more := Sessions(one.conn, ss[1..]);
        Ledger(more.conn, one.seen + more.seen, more.ok)
  }

  /** One session reads a prefix of its window and leaves the connection exactly behind it. */
  lemma SessionExact(c: Conn, s: Session)
    requires Streaming(c)
    ensures |OneSession(c, s).seen| == 1
    ensures Roomy(c) ==> OneSession(c, s).ok && Roomy(OneSession(c, s).conn)
    ensures OneSession(c, s).ok ==>
              && Consumed(c, s.size, OneSession(c, s).conn)
              && OneSession(c, s).seen[0] <= Take(Content(c), s.size)
  {
    var r := Range(c, s.size, 0);
    var t := ReceiveAll(r, s.requests);
    RangeRun(r, s.requests);
    ReceiveAllDelivers(r, s.requests);
    ReceiveAllDelivers(c, PassedOn(r, s.requests));
    if Roomy(c) { ReceiveAllNeverThrows(c, PassedOn(r, s.requests)); }
    if t.ok {
      SessionDrains(c, s.size, t.bytes, t.conn.inner, t.conn.offset);
    }
  }

  lemma SessionDrains(c: Conn, size: U64, bytes: string, inner: Conn, offset: U64)
    requires Streaming(inner) && Content(c) == bytes + Content(inner) && |bytes| <= size && offset <= size
    requires Position(inner) == Position(c) + |bytes|
    requires offset == |bytes| || (offset == size && Content(inner) == "")
    ensures bytes <= Take(Content(c), size)
    ensures Roomy(inner) ==> Drain(inner, size, offset).ok && Roomy(Drain(inner, size, offset).conn)
    ensures Drain(inner, size, offset).ok ==> Consumed(c, size, Drain(inner, size, offset).conn)
  {
    var d := Drain(inner, size, offset);
    DrainExact(inner, size, offset);
    if Roomy(inner) { DrainNeverThrows(inner, size, offset); }
    TakeDropAppend(bytes, Content(inner), size);
    if d.ok && offset == |bytes| {
      ConsumedMore(c, inner, d.conn, bytes, size);
    }
  }

  /** Where the window of session i starts. */
  function Start(ss: seq<Session>, i: nat): nat
    requires i <= |ss|
  {
    if i == 0 then 0 else ss[0].size + Start(ss[1..], i - 1)
  }

  /** These are the first bytes of the window of this size that starts there. */
  predicate SawAt(content: string, start: nat, size: nat, saw: string) {
    && |saw| <= size && (saw != "" ==> start + |saw| <= |content|)
    && forall k :: 0 <= k < |saw| ==> saw[k] == content[start + k]
  }

  lemma SawFirst(content: string, size: nat, saw: string)
    requires saw <= Take(content, size)
    ensures SawAt(content, 0, size, saw)
  {
  }

  lemma SawShifted(content: string, a: nat, b: nat, size: nat, saw: string)
    requires SawAt(Drop(content, a), b, size, saw)
    ensures SawAt(content, a + b, size, saw)
  {
  }

  /** Reader i saw the first bytes of its own window. */
  predicate SawOwnWindow(content: string, ss: seq<Session>, i: nat, saw: string)
    requires i < |ss|
  {
    SawAt(content, Start(ss, i), ss[i].size, saw)
  }

  /** Each reader saw the first bytes of its window, and the next one's window starts behind that window. */
  predicate SawInTurn(content: string, ss: seq<Session>, seen: seq<string>)
    decreases |ss|
  {
    && |seen| == |ss|
    && (ss == [] || (SawAt(content, 0, ss[0].size, seen[0]) && SawInTurn(Drop(content, ss[0].size), ss[1..], seen[1..])))
  }

  lemma {:induction false} OwnWindow(content: string, ss: seq<Session>, seen: seq<string>, i: nat)
    requires SawInTurn(content, ss, seen) && i < |ss|
    ensures SawOwnWindow(content, ss, i, seen[i])
    decreases i
  {
    if i > 0 {
      var a, rest := ss[0].size, ss[1..];
      OwnWindow(Drop(content, a), rest, seen[1..], i - 1);
      SawShifted(content, a, Start(rest, i - 1), rest[i - 1].size, seen[1..][i - 1]);
    }
  }

  lemma ConsumedTwice(a: Conn, n: nat, b: Conn, m: nat, c: Conn)
    requires Consumed(a, n, b) && Consumed(b, m, c)
    ensures Consumed(a, n + m, c)
  {
    DropDrop(Content(a), n, m);
    MinTwice(n, m, |Content(a)|);
  }

  lemma MinTwice(n: nat, m: nat, all: nat)
    ensures Min(n, all) + Min(m, all - Min(n, all)) == Min(n + m, all)
  {
  }

  lemma StartAfterFirst(ss: seq<Session>)
    requires ss != []
    ensures Start(ss, |ss|) == ss[0].size + Start(ss[1..], |ss[1..]|)
  {
  }

  /** The sessions read the windows in turn, and leave the connection behind the last one or at the end. */
  lemma {:induction false} SessionsInTurn(c: Conn, ss: seq<Session>)
    requires Streaming(c)
    ensures Roomy(c) ==> Sessions(c, ss).ok
    ensures Sessions(c, ss).ok ==>
              Consumed(c, Start(ss, |ss|), Sessions(c, ss).conn) && SawInTurn(Content(c), ss, Sessions(c, ss).seen)
    decreases |ss|
  {
    if ss == [] {
      assert Drop(Content(c), 0) == Content(c);
    } else {
      var one := OneSession(c, ss[0]);
      SessionExact(c, ss[0]);
      if one.ok {
        SessionsInTurn(one.conn, ss[1..]);
        if Sessions(one.conn, ss[1..]).ok {
          SawFirst(Content(c), ss[0].size, one.seen[0]);
          var more := Sessions(one.conn, ss[1..]);
          ConsumedInTurn(c, ss, one.conn, more.conn);
          SawNext(Content(c), ss, one.seen, more.seen);
        }
      }
    }
  }

  lemma ConsumedInTurn(c: Conn, ss: seq<Session>, between: Conn, end: Conn)
    requires ss != [] && Consumed(c, ss[0].size, between) && Consumed(between, Start(ss[1..], |ss[1..]|), end)
    ensures Consumed(c, Start(ss, |ss|), end)
  {
    var first, rest := ss[0].size, Start(ss[1..], |ss[1..]|);
    ConsumedTwice(c, first, between, rest, end);
    StartAfterFirst(ss);
    assert Start(ss, |ss|) == first + rest;
  }

  lemma SawNext(content: string, ss: seq<Session>, first: seq<string>, more: seq<string>)
    requires ss != [] && |first| == 1 && SawAt(content, 0, ss[0].size, first[0])
    requires SawInTurn(Drop(content, ss[0].size), ss[1..], more)
    ensures SawInTurn(content, ss, first + more)
  {
    assert (first + more)[1..] == more;
  }

  /**
   Consecutive range readers partition the stream, whatever their sizes, requests and chunks: reader i
   sees only bytes of its own window, from its beginning, and the last one leaves the connection behind
   its window or at the end.
   */
  lemma Partition(c: Conn, ss: seq<Session>)
    requires Streaming(c)
    ensures Roomy(c) ==> Sessions(c, ss).ok
    ensures Sessions(c, ss).ok ==>
              && Consumed(c, Start(ss, |ss|), Sessions(c, ss).conn)
              && |Sessions(c, ss).seen| == |ss|
              && forall i :: 0 <= i < |ss| ==> SawOwnWindow(Content(c), ss, i, Sessions(c, ss).seen[i])
  {
    SessionsInTurn(c, ss);
    var l := Sessions(c, ss);
    if l.ok {
      forall i | 0 <= i < |ss| ensures SawOwnWindow(Content(c), ss, i, l.seen[i]) {
        OwnWindow(Content(c), ss, l.seen, i);
      }
    }
  }
}
