/**
 What AcknowledgementDecorator promises: bytes are handed out again until they are acknowledged,
 none is lost, and with automatic acknowledgement the buffer is invisible.
 */
module Acknowledgements {
  import opened Words
  import opened Streams

  /** AcknowledgementDecorator::Acknowledge: the connection after it, and its answer. */
  function Acknowledge(c: Conn, bytes: U64): (r: (Conn, bool))
    requires c.Ack?
  {
    if bytes > |c.buffer| then (c, false) else (c.(buffer := c.buffer[bytes..]), true)
  }

  datatype Call = CallReceive(maxlen: U64) | CallAcknowledge(count: U64) | CallSetAutoAck(on: bool)

  /** A buffer with its history: what was acknowledged so far, and whether the wrapped connection threw. */
  datatype Ledger = Ledger(conn: Conn, acked: string, failed: bool, last: Reply)

  function Perform(l: Ledger, call: Call): Ledger
    requires l.conn.Ack?
  {
    match call
    case CallReceive(maxlen) =>
      var inner := Receive(l.conn.inner, AckRequest(|l.conn.buffer|, maxlen));
      var o := Receive(l.conn, maxlen);
      var acked := if o.reply.Data? && l.conn.autoAck then l.acked + o.reply.bytes else l.acked;
      Ledger(o.conn, acked, l.failed || inner.reply.Overflow?, o.reply)
    case CallAcknowledge(count) =>
      var (conn, done) := Acknowledge(l.conn, count);
      Ledger(conn, if done then l.acked + l.conn.buffer[..count] else l.acked, l.failed, l.last)
    case CallSetAutoAck(on) => l.(conn := l.conn.(autoAck := on))
  }

  lemma PerformKeepsAck(l: Ledger, call: Call)
    requires l.conn.Ack?
    ensures Perform(l, call).conn.Ack?
  {
  }

  function PerformAll(l: Ledger, calls: seq<Call>): Ledger
    requires l.conn.Ack?
    decreases |calls|
  {
    if calls == [] then l
    else
      PerformKeepsAck(l, calls[0]);
      PerformAll(Perform(l, calls[0]), calls[1..])
  }

  /** Everything there is to the stream: acknowledged, buffered, and not yet read. */
  function Whole(l: Ledger): string
    requires l.conn.Ack?
  {
    l.acked + (l.conn.buffer + Content(l.conn.inner))
  }

  lemma PerformConserves(l: Ledger, call: Call)
    requires l.conn.Ack? && Streaming(l.conn.inner)
    ensures Perform(l, call).conn.Ack?
    ensures !Perform(l, call).failed ==>
              && Streaming(Perform(l, call).conn.inner)
              && Whole(Perform(l, call)) == Whole(l)
              && Position(Perform(l, call).conn) - |Perform(l, call).acked + Perform(l, call).conn.buffer|
              == Position(l.conn) - |l.acked + l.conn.buffer|
  {
    match call
    case CallReceive(maxlen) =>
      var n := AckRequest(|l.conn.buffer|, maxlen);
      ReceiveDelivers(l.conn.inner, n);
      var i := Receive(l.conn.inner, n);
      if i.reply.Data? {
        ReadConserves(l.acked, l.conn.buffer, i.reply.bytes, Content(i.conn));
      }
    case CallAcknowledge(count) =>
      if count <= |l.conn.buffer| {
        MoveConserves(l.acked, l.conn.buffer, count, Content(l.conn.inner));
      }
    case CallSetAutoAck(_) =>
  }

  lemma ReadConserves(acked: string, buffer: string, bytes: string, rest: string)
    ensures acked + ((buffer + bytes) + rest) == acked + (buffer + (bytes + rest))
    ensures (acked + (buffer + bytes)) + ("" + rest) == acked + (buffer + (bytes + rest))
  {
  }

  lemma MoveConserves(acked: string, buffer: string, n: nat, rest: string)
    requires n <= |buffer|
    ensures (acked + buffer[..n]) + (buffer[n..] + rest) == acked + (buffer + rest)
  {
    assert buffer == buffer[..n] + buffer[n..];
  }

  /**
   Over any run of Receive, Acknowledge and SetAutoAck, Receives that throw on overflow included,
   the acknowledged bytes followed by the buffer are exactly what was read from the source.
   */
  lemma {:induction false} Conservation(l: Ledger, calls: seq<Call>)
    requires l.conn.Ack? && Streaming(l.conn.inner)
    ensures PerformAll(l, calls).conn.Ack?
    ensures !PerformAll(l, calls).failed ==>
              && Streaming(PerformAll(l, calls).conn.inner)
              && Whole(PerformAll(l, calls)) == Whole(l)
              && Position(PerformAll(l, calls).conn) - |PerformAll(l, calls).acked + PerformAll(l, calls).conn.buffer|
              == Position(l.conn) - |l.acked + l.conn.buffer|
    decreases |calls|
  {
    if calls != [] {
      PerformConserves(l, calls[0]);
      if Perform(l, calls[0]).failed {
        FailureStays(Perform(l, calls[0]), calls[1..]);
      } else {
        Conservation(Perform(l, calls[0]), calls[1..]);
      }
    }
  }

  lemma {:induction false} FailureStays(l: Ledger, calls: seq<Call>)
    requires l.conn.Ack? && l.failed
    ensures PerformAll(l, calls).conn.Ack? && PerformAll(l, calls).failed
    decreases |calls|
  {
    if calls != [] {
      PerformKeepsAck(l, calls[0]);
      FailureStays(Perform(l, calls[0]), calls[1..]);
    }
  }

  /**
   A Receive after any run returns the stream from the first unacknowledged byte to the last
   byte read, and at most maxBuffer bytes of it.
   */
  lemma ReceiveReturnsUnacknowledged(l: Ledger, calls: seq<Call>, maxlen: U64)
    requires l.conn.Ack? && Streaming(l.conn.inner)
    requires PerformAll(l, calls).conn.Ack?
    requires var after := Perform(PerformAll(l, calls), CallReceive(maxlen)); !after.failed && after.last.Data?
    ensures var before := PerformAll(l, calls);
            var after := Perform(before, CallReceive(maxlen));
      && |after.last.bytes| <= before.conn.maxBuffer
      && |before.acked| + |after.last.bytes| <= |Whole(l)|
      && after.last.bytes == Whole(l)[|before.acked|..|before.acked| + |after.last.bytes|]
      && Content(after.conn.inner) == Whole(l)[|before.acked| + |after.last.bytes|..]
  {
    var before := PerformAll(l, calls);
    if before.failed {
      FailureStays(before, [CallReceive(maxlen)]);
    }
    Conservation(l, calls);
    ReceiveReturnsRest(before, maxlen);
  }

  /** What one Receive returns is the buffer, with what it read behind it. */
  lemma ReceiveReturnsRest(before: Ledger, maxlen: U64)
    requires before.conn.Ack? && Streaming(before.conn.inner)
    requires !Perform(before, CallReceive(maxlen)).failed && Perform(before, CallReceive(maxlen)).last.Data?
    ensures var after := Perform(before, CallReceive(maxlen));
      && |after.last.bytes| <= before.conn.maxBuffer
      && |before.acked| + |after.last.bytes| <= |Whole(before)|
      && after.last.bytes == Whole(before)[|before.acked|..|before.acked| + |after.last.bytes|]
      && Content(after.conn.inner) == Whole(before)[|before.acked| + |after.last.bytes|..]
  {
    var n := AckRequest(|before.conn.buffer|, maxlen);
    ReceiveDelivers(before.conn.inner, n);
    var i := Receive(before.conn.inner, n);
    Between(before.acked, before.conn.buffer, i.reply.bytes, Content(i.conn));
  }

  lemma Between(acked: string, buffer: string, bytes: string, rest: string)
    ensures var whole := acked + (buffer + (bytes + rest)); var returned := buffer + bytes;
      && whole[|acked|..|acked| + |returned|] == returned
      && whole[|acked| + |returned|..] == rest
  {
    assert acked + (buffer + (bytes + rest)) == acked + ((buffer + bytes) + rest);
  }

  // ---------------------------------------------------------------- exactly what each call does

  /** The bytes read and not yet acknowledged, when this much of the stream is yet to be read. */
  function Owed(stream: string, acked: nat, toCome: nat): string {
    if acked + toCome <= |stream| then stream[acked..|stream| - toCome] else ""
  }

  lemma OwedIs(acked: string, held: string, rest: string)
    ensures Owed(acked + (held + rest), |acked|, |rest|) == held
  {
    Between(acked, held, "", rest);
    assert held + "" == held && "" + rest == rest;
  }

  /** After any run the buffer holds what is owed, and the configuration is the one given. */
  lemma HeldIsOwed(l: Ledger, calls: seq<Call>)
    requires l.conn.Ack? && Streaming(l.conn.inner)
    ensures PerformAll(l, calls).conn.Ack?
    ensures var s := PerformAll(l, calls); !s.failed ==>
      && Streaming(s.conn.inner) && Whole(s) == Whole(l)
      && s.conn.buffer == Owed(Whole(l), |s.acked|, |Content(s.conn.inner)|)
  {
    Conservation(l, calls);
    var s := PerformAll(l, calls);
    if !s.failed { OwedIs(s.acked, s.conn.buffer, Content(s.conn.inner)); }
  }

  /** The argument of the last SetAutoAck, if there was one. */
  function LastSet(calls: seq<Call>, before: bool): bool
    decreases |calls|
  {
    if calls == [] then before
    else LastSet(calls[1..], if calls[0].CallSetAutoAck? then calls[0].on else before)
  }

  lemma {:induction false} SettingsAfter(l: Ledger, calls: seq<Call>)
    requires l.conn.Ack?
    ensures PerformAll(l, calls).conn.Ack?
    ensures PerformAll(l, calls).conn.maxBuffer == l.conn.maxBuffer
    ensures PerformAll(l, calls).conn.autoAck == LastSet(calls, l.conn.autoAck)
    decreases |calls|
  {
    if calls != [] {
      PerformKeepsAck(l, calls[0]);
      SettingsAfter(Perform(l, calls[0]), calls[1..]);
    }
  }

  /** What is asked of the wrapped connection when this many bytes are owed. */
  function AskedWith(owed: nat, maxlen: U64): U64 {
    if maxlen > owed then maxlen - owed else 0
  }

  /** A Receive, when its wrapped Receive answered so: owed is what is then read and not acknowledged. */
  predicate Receives(before: Ledger, after: Ledger, inner: Outcome, owed: string)
    requires before.conn.Ack?
  {
    && after.conn.Ack? && after.conn.inner == inner.conn
    && if inner.reply.Overflow? then
         after.last.Overflow? && after.conn.buffer == before.conn.buffer && after.acked == before.acked
       else
         && (after.last.Overflow? <==> |owed| > before.conn.maxBuffer)
         && (after.last.Overflow? ==> after.conn.buffer == owed && after.acked == before.acked)
         && (after.last.Data? ==>
               && after.last.bytes == owed
               && after.conn.buffer == (if before.conn.autoAck then "" else owed)
               && after.acked == if before.conn.autoAck then before.acked + owed else before.acked)
  }

  lemma ReceiveGives(s: Ledger, maxlen: U64)
    requires s.conn.Ack?
    ensures var i := Receive(s.conn.inner, AskedWith(|s.conn.buffer|, maxlen));
      Receives(s, Perform(s, CallReceive(maxlen)), i, s.conn.buffer + if i.reply.Data? then i.reply.bytes else "")
  {
    RequestNeverWraps(|s.conn.buffer|, maxlen);
  }

  /**
   A Receive after any run, in either mode: the wrapped connection is asked for what the limit leaves
   beside the bytes owed, or for no limit. If it throws, so does this one, and nothing changes. Otherwise
   this one throws if and only if the bytes then read and not acknowledged exceed the maximum; and if it
   does not, it returns exactly those, which are kept, or counted as acknowledged, as last set.
   */
  lemma ReceiveExactly(l: Ledger, calls: seq<Call>, maxlen: U64)
    requires l.conn.Ack? && Streaming(l.conn.inner)
    requires PerformAll(l, calls).conn.Ack? && !PerformAll(l, calls).failed
    ensures var before := PerformAll(l, calls); var stream := Whole(l);
      var owed := Owed(stream, |before.acked|, |Content(before.conn.inner)|);
      var i := Receive(before.conn.inner, AskedWith(|owed|, maxlen));
      && before.conn.maxBuffer == l.conn.maxBuffer && before.conn.autoAck == LastSet(calls, l.conn.autoAck)
      && Receives(before, Perform(before, CallReceive(maxlen)), i, Owed(stream, |before.acked|, |Content(i.conn)|))
  {
    var before := PerformAll(l, calls);
    HeldIsOwed(l, calls);
    SettingsAfter(l, calls);
    ReceiveGives(before, maxlen);
    var i := Receive(before.conn.inner, AskedWith(|before.conn.buffer|, maxlen));
    ReceiveDelivers(before.conn.inner, AskedWith(|before.conn.buffer|, maxlen));
    if i.reply.Data? {
      ReadConserves(before.acked, before.conn.buffer, i.reply.bytes, Content(i.conn));
      OwedIs(before.acked, before.conn.buffer + i.reply.bytes, Content(i.conn));
    }
  }

  lemma {:induction false} PerformAfter(l: Ledger, calls: seq<Call>, call: Call)
    requires l.conn.Ack? && PerformAll(l, calls).conn.Ack?
    ensures PerformAll(l, calls + [call]) == Perform(PerformAll(l, calls), call)
    decreases |calls|
  {
    if calls == [] {
      assert [] + [call] == [call] && [call][1..] == [];
      PerformKeepsAck(l, call);
    } else {
      PerformKeepsAck(l, calls[0]);
      assert (calls + [call])[1..] == calls[1..] + [call];
      PerformAfter(Perform(l, calls[0]), calls[1..], call);
    }
  }

  /**
   After any run Acknowledge says yes if and only if that many bytes are owed; then just these count as
   acknowledged, and the next Receive that does not throw starts right behind them.
   */
  lemma AcknowledgeExactly(l: Ledger, calls: seq<Call>, count: U64, maxlen: U64)
    requires l.conn.Ack? && Streaming(l.conn.inner)
    requires PerformAll(l, calls).conn.Ack? && !PerformAll(l, calls).failed
    ensures var s := PerformAll(l, calls); var stream := Whole(l);
      var done := Acknowledge(s.conn, count).1;
      var next := Perform(s, CallAcknowledge(count));
      && |s.acked| <= |stream|
      && (done <==> count <= |Owed(stream, |s.acked|, |Content(s.conn.inner)|)|)
      && next.conn.Ack? && next.conn.inner == s.conn.inner && !next.failed
      && |next.acked| == |s.acked| + (if done then count else 0) && next.acked <= stream
      && (Perform(next, CallReceive(maxlen)).last.Data? ==>
            Perform(next, CallReceive(maxlen)).last.bytes <= stream[|next.acked|..])
  {
    var s, call := PerformAll(l, calls), CallAcknowledge(count);
    HeldIsOwed(l, calls);
    PerformKeepsAck(s, call);
    PerformAfter(l, calls, call);
    HeldIsOwed(l, calls + [call]);
    if Perform(Perform(s, call), CallReceive(maxlen)).last.Data? {
      ReceiveReturnsRest(Perform(s, call), maxlen);
    }
  }

  /** After any run the end is reached exactly when the wrapped connection is at its end and owes nothing more. */
  lemma EndsExactly(l: Ledger, calls: seq<Call>)
    requires l.conn.Ack? && Streaming(l.conn.inner)
    requires PerformAll(l, calls).conn.Ack? && !PerformAll(l, calls).failed
    ensures var s := PerformAll(l, calls); var stream := Whole(l);
      && (IsEOF(s.conn) <==> IsEOF(s.conn.inner) && Owed(stream, |s.acked|, |Content(s.conn.inner)|) == "")
      && (IsEOF(s.conn) ==> s.acked == stream)
  {
    var s := PerformAll(l, calls);
    HeldIsOwed(l, calls);
    if IsEOF(s.conn) {
      AtEnd(s.conn.inner);
      assert s.acked + ("" + "") == s.acked;
    }
  }

  // ---------------------------------------------------------------- bounds

  /** The difference that may have wrapped around is never what the wrapped connection is asked for. */
  lemma RequestNeverWraps(buffered: nat, maxlen: U64)
    ensures AckRequest(buffered, maxlen) == if maxlen > buffered then maxlen - buffered else 0
  {
    if maxlen > buffered {
      assert (maxlen - buffered) % U64_MODULUS == maxlen - buffered;
    }
  }

  /** The Receives of a run all throw. */
  predicate AllThrow(c: Conn, requests: seq<U64>)
    decreases |requests|
  {
    requests == [] || (Receive(c, requests[0]).reply.Overflow? && AllThrow(Receive(c, requests[0]).conn, requests[1..]))
  }

  /** After an overflow every Receive throws, however many there are, until something is acknowledged. */
  lemma {:induction false} OverflowLasts(c: Conn, requests: seq<U64>)
    requires c.Ack? && |c.buffer| > c.maxBuffer
    ensures AllThrow(c, requests)
    decreases |requests|
  {
    if requests != [] {
      var o := Receive(c, requests[0]);
      assert o.reply.Overflow? && |o.conn.buffer| >= |c.buffer|;
      OverflowLasts(o.conn, requests[1..]);
    }
  }

  /** A source with these bytes ready, all of them to be had at once. */
  function Ready(rest: string): Conn
  {
    Source("", rest, false, |rest| + 1, [])
  }

  /** Whatever the wrapped connection holds, an answer respects the caller's limit. */
  ghost predicate LimitBinds(maxBuffer: U64, autoAck: bool, buffer: string, maxlen: U64) {
    forall inner: Conn :: Streaming(inner) ==>
      var o := Receive(Ack(inner, maxBuffer, autoAck, buffer), maxlen);
      o.reply.Data? ==> |o.reply.bytes| <= maxlen
  }

  /**
   A caller's limit binds exactly when it exceeds what is buffered, or the maximum does the work: with
   that much buffered the limit passed on becomes 0, which means no limit at all.
   */
  lemma LimitBindsExactly(maxBuffer: U64, autoAck: bool, buffer: string, maxlen: U64)
    requires maxlen > 0
    ensures LimitBinds(maxBuffer, autoAck, buffer, maxlen)
       <==> |buffer| < maxlen || maxlen >= maxBuffer || |buffer| > maxBuffer
  {
    if |buffer| < maxlen || maxlen >= maxBuffer || |buffer| > maxBuffer {
      forall inner: Conn | Streaming(inner)
        ensures var o := Receive(Ack(inner, maxBuffer, autoAck, buffer), maxlen);
                o.reply.Data? ==> |o.reply.bytes| <= maxlen
      {
        ReceiveDelivers(inner, AckRequest(|buffer|, maxlen));
        RequestNeverWraps(|buffer|, maxlen);
      }
    } else {
      LimitIgnored(maxBuffer, autoAck, buffer, maxlen);
    }
  }

  /** One byte more, or with a full buffer none, and the answer is longer than the limit. */
  lemma LimitIgnored(maxBuffer: U64, autoAck: bool, buffer: string, maxlen: U64)
    requires 0 < maxlen <= |buffer| <= maxBuffer && maxlen < maxBuffer
    ensures !LimitBinds(maxBuffer, autoAck, buffer, maxlen)
  {
    var more := if |buffer| < maxBuffer then "x" else "";
    var inner := Ready(more);
    var o := Receive(Ack(inner, maxBuffer, autoAck, buffer), maxlen);
    assert Receive(inner, 0).reply == Data(more);
    assert Streaming(inner) && o.reply == Data(buffer + more);
  }

  // ---------------------------------------------------------------- automatic acknowledgement

  /**
   What one Receive shows at both ends: the length the wrapped connection was asked for, the wrapped
   connection after it, the answer, and IsEOF after it.
   */
  datatype View = View(asked: U64, wrapped: Conn, reply: Reply, eof: bool)

  /** A run of Receives on a connection itself, up to a throw. */
  function Direct(inner: Conn, requests: seq<U64>): seq<View>
    decreases |requests|
  {
    if requests == [] then []
    else
      var o := Receive(inner, requests[0]);
      [View(requests[0], o.conn, o.reply, IsEOF(o.conn))]
      + if o.reply.Overflow? then [] else Direct(o.conn, requests[1..])
  }

  lemma ReceiveKeepsAck(c: Conn, maxlen: U64)
    requires c.Ack?
    ensures Receive(c, maxlen).conn.Ack?
  {
  }

  /** The same run through an acknowledgement buffer. */
  function Through(c: Conn, requests: seq<U64>): seq<View>
    requires c.Ack?
    decreases |requests|
  {
    if requests == [] then []
    else
      var o := Receive(c, requests[0]);
      ReceiveKeepsAck(c, requests[0]);
      [View(AckRequest(|c.buffer|, requests[0]), o.conn.inner, o.reply, IsEOF(o.conn))]
      + if o.reply.Overflow? then [] else Through(o.conn, requests[1..])
  }

  predicate Fits(seen: seq<View>, maxBuffer: U64) {
    forall k :: 0 <= k < |seen| ==> seen[k].reply.Data? ==> |seen[k].reply.bytes| <= maxBuffer
  }

  lemma TransparentStep(inner: Conn, maxBuffer: U64, maxlen: U64)
    ensures AckRequest(0, maxlen) == maxlen
    ensures var i := Receive(inner, maxlen);
            var o := Receive(Ack(inner, maxBuffer, true, ""), maxlen);
      if i.reply.Overflow? then o == Outcome(Ack(i.conn, maxBuffer, true, ""), Overflow)
      else if |i.reply.bytes| > maxBuffer then o.reply.Overflow?
      else o == Outcome(Ack(i.conn, maxBuffer, true, ""), i.reply)
  {
    RequestNeverWraps(0, maxlen);
    var i := Receive(inner, maxlen);
    if i.reply.Data? {
      assert "" + i.reply.bytes == i.reply.bytes;
    }
  }

  /**
   With automatic acknowledgement from the start the decorator is step for step the wrapped connection
   - what it asks for, what becomes of the wrapped connection, the answers and IsEOF - exactly as long as
   no single answer exceeds the maximum.
   */
  lemma {:induction false} AutoAckTransparent(inner: Conn, maxBuffer: U64, requests: seq<U64>)
    ensures Through(Ack(inner, maxBuffer, true, ""), requests) == Direct(inner, requests)
       <==> Fits(Direct(inner, requests), maxBuffer)
    decreases |requests|
  {
    if requests != [] {
      var i := Receive(inner, requests[0]);
      var c := Ack(inner, maxBuffer, true, "");
      TransparentStep(inner, maxBuffer, requests[0]);
      var a, b := Through(c, requests), Direct(inner, requests);
      assert b[0] == View(requests[0], i.conn, i.reply, IsEOF(i.conn));
      if i.reply.Overflow? {
      } else if |i.reply.bytes| > maxBuffer {
        assert a[0] != b[0];
      } else {
        AutoAckTransparent(i.conn, maxBuffer, requests[1..]);
        assert a[1..] == Through(Ack(i.conn, maxBuffer, true, ""), requests[1..]);
        assert b[1..] == Direct(i.conn, requests[1..]);
        assert a == [a[0]] + a[1..] && b == [b[0]] + b[1..] && a[0] == b[0];
        FitsSplit(b, maxBuffer);
      }
    }
  }

  lemma FitsSplit(seen: seq<View>, maxBuffer: U64)
    requires seen != [] && (seen[0].reply.Data? ==> |seen[0].reply.bytes| <= maxBuffer)
    ensures Fits(seen, maxBuffer) <==> Fits(seen[1..], maxBuffer)
  {
    if Fits(seen[1..], maxBuffer) {
      forall k | 0 <= k < |seen| ensures seen[k].reply.Data? ==> |seen[k].reply.bytes| <= maxBuffer {
        if k > 0 {
          assert seen[1..][k - 1] == seen[k];
        }
      }
    }
  }

  // ---------------------------------------------------------------- a bound the caller can check

  /** Every request is limited, and by no more than the maximum. */
  predicate Limited(requests: seq<U64>, maxBuffer: U64) {
    forall k :: 0 <= k < |requests| ==> 0 < requests[k] <= maxBuffer
  }

  /** The buffer is transparent over every connection that behaves like a stream. */
  ghost predicate AlwaysTransparent(maxBuffer: U64, requests: seq<U64>) {
    forall inner: Conn :: Streaming(inner) ==>
      Through(Ack(inner, maxBuffer, true, ""), requests) == Direct(inner, requests)
  }

  lemma {:induction false} LimitedFits(inner: Conn, maxBuffer: U64, requests: seq<U64>)
    requires Streaming(inner) && Limited(requests, maxBuffer)
    ensures Fits(Direct(inner, requests), maxBuffer)
    decreases |requests|
  {
    if requests != [] {
      var o := Receive(inner, requests[0]);
      ReceiveDelivers(inner, requests[0]);
      if o.reply.Data? {
        assert Limited(requests[1..], maxBuffer) by {
          assert forall k :: 0 <= k < |requests[1..]| ==> requests[1..][k] == requests[k + 1];
        }
        LimitedFits(o.conn, maxBuffer, requests[1..]);
        DirectFirst(inner, requests);
        FitsSplit(Direct(inner, requests), maxBuffer);
      }
    }
  }

  /** A source that has nothing for k reads, and then more than the maximum at once. */
  predicate Late(c: Conn, k: nat, maxBuffer: U64) {
    && c.Source? && !c.eof && c.unit == maxBuffer + 1 && |c.rest| == maxBuffer + 1
    && |c.script| == k && forall j :: 0 <= j < k ==> c.script[j] == Arrival(0, false)
  }

  lemma SomeLateSource(k: nat, maxBuffer: U64) returns (c: Conn)
    ensures Late(c, k, maxBuffer) && Streaming(c)
  {
    c := Source("", seq(maxBuffer + 1, _ => 'x'), false, maxBuffer + 1, seq(k, _ => Arrival(0, false)));
  }

  lemma LateWaits(c: Conn, k: nat, maxBuffer: U64, maxlen: U64)
    requires Late(c, k, maxBuffer) && k > 0
    ensures Receive(c, maxlen).reply == Data("") && Late(Receive(c, maxlen).conn, k - 1, maxBuffer)
  {
  }

  lemma LateArrives(c: Conn, maxBuffer: U64, maxlen: U64)
    requires Late(c, 0, maxBuffer) && (maxlen == 0 || maxlen > maxBuffer)
    ensures Receive(c, maxlen).reply.Data? && |Receive(c, maxlen).reply.bytes| == maxBuffer + 1
  {
  }

  lemma DirectFirst(inner: Conn, requests: seq<U64>)
    requires requests != [] && Receive(inner, requests[0]).reply.Data?
    ensures Direct(inner, requests) != []
    ensures Direct(inner, requests)[0].reply == Receive(inner, requests[0]).reply
    ensures Direct(inner, requests)[1..] == Direct(Receive(inner, requests[0]).conn, requests[1..])
  {
  }

  lemma {:induction false} LateDoesNotFit(c: Conn, k: nat, maxBuffer: U64, requests: seq<U64>)
    requires Late(c, k, maxBuffer) && k < |requests| && (requests[k] == 0 || requests[k] > maxBuffer)
    ensures !Fits(Direct(c, requests), maxBuffer)
    decreases k
  {
    if k == 0 {
      LateArrives(c, maxBuffer, requests[0]);
      DirectFirst(c, requests);
    } else {
      LateWaits(c, k, maxBuffer, requests[0]);
      DirectFirst(c, requests);
      LateDoesNotFit(Receive(c, requests[0]).conn, k - 1, maxBuffer, requests[1..]);
      FitsSplit(Direct(c, requests), maxBuffer);
    }
  }

  /** The buffer is transparent whatever it wraps if and only if every request is limited by the maximum. */
  lemma TransparentExactlyWhenLimited(maxBuffer: U64, requests: seq<U64>)
    ensures AlwaysTransparent(maxBuffer, requests) <==> Limited(requests, maxBuffer)
  {
    if Limited(requests, maxBuffer) {
      forall inner: Conn | Streaming(inner)
        ensures Through(Ack(inner, maxBuffer, true, ""), requests) == Direct(inner, requests)
      {
        LimitedFits(inner, maxBuffer, requests);
        AutoAckTransparent(inner, maxBuffer, requests);
      }
    } else {
      var k :| 0 <= k < |requests| && !(0 < requests[k] <= maxBuffer);
      var inner := SomeLateSource(k, maxBuffer);
      LateDoesNotFit(inner, k, maxBuffer, requests);
      AutoAckTransparent(inner, maxBuffer, requests);
    }
  }
}
