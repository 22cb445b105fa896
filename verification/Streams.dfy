/**
 Connections as values: a byte source behind any stack of RangeReaderDecorator and
 AcknowledgementDecorator, and what Connection::Receive and Connection::IsEOF do to it.

 The source hands out its bytes in pieces of any size, empty ones included: its script says
 what each Receive finds. A statement about every script is a statement about every chunking.
 Once the script is used up the source delivers all it is asked for and reports the end, so
 reading on always finishes.
 */
module Streams {
  import opened Words

  /** size_t and uint64_t. */
  type U64 = n: nat | n < U64_MODULUS

  const SIZE_MAX: U64 := U64_MODULUS - 1

  /** The value an unsigned 64-bit operation stores. */
  function Wrap(n: int): U64 {
    n % U64_MODULUS
  }

  /** What one read of the source finds: at most this many bytes, and possibly the end. */
  datatype Arrival = Arrival(size: nat, closes: bool)

  type Positive = n: nat | n > 0 witness 1

  datatype Conn =
    | Source(delivered: string, rest: string, eof: bool, unit: Positive, script: seq<Arrival>)
    | Range(inner: Conn, maxSize: U64, offset: U64)
    | Ack(inner: Conn, maxBuffer: U64, autoAck: bool, buffer: string)

  /** What Receive returns, or the exception "buffer size exceeded". */
  datatype Reply = Data(bytes: string) | Overflow

  datatype Outcome = Outcome(conn: Conn, reply: Reply)

  function Min(a: nat, b: nat): nat {
    if a <= b then a else b
  }

  function Take(s: string, n: nat): string {
    s[..Min(n, |s|)]
  }

  function Drop(s: string, n: nat): string {
    s[Min(n, |s|)..]
  }

  lemma TakeDropAppend(a: string, b: string, n: nat)
    requires |a| <= n
    ensures Take(a + b, n) == a + Take(b, n - |a|)
    ensures Drop(a + b, n) == Drop(b, n - |a|)
  {
  }

  lemma DropDrop(s: string, a: nat, b: nat)
    ensures Drop(Drop(s, a), b) == Drop(s, a + b)
  {
  }

  // ---------------------------------------------------------------- the operations

  /** The length a source asks for: 0, and anything over its unit (65536 for a socket), mean a whole unit. */
  function RequestSize(unit: Positive, maxlen: U64): Positive {
    if maxlen == 0 || maxlen > unit then unit else maxlen
  }

  function ReadSource(c: Conn, maxlen: U64): Outcome
    requires c.Source?
  {
    var len := RequestSize(c.unit, maxlen);
    var found := if c.script == [] then Arrival(len, true) else c.script[0];
    var k := Min(Min(found.size, len), |c.rest|);
    Outcome(
      Source(c.delivered + c.rest[..k], c.rest[k..], c.eof || (found.closes && k == |c.rest|), c.unit,
             if c.script == [] then [] else c.script[1..]),
      Data(c.rest[..k]))
  }

  /** The length a range reader below its limit asks its wrapped connection for. */
  function RangeRequest(maxSize: U64, offset: U64, len: U64): U64
    requires offset < maxSize
  {
    if len == 0 || len > maxSize - offset then maxSize - offset else len
  }

  function RangeAfter(inner: Outcome, maxSize: U64, offset: U64): Outcome {
    match inner.reply
    case Overflow => Outcome(Range(inner.conn, maxSize, offset), Overflow)
    case Data(bytes) =>
      var offset' := if IsEOF(inner.conn) then maxSize else Wrap(offset + |bytes|);
      Outcome(Range(inner.conn, maxSize, offset'), Data(bytes))
  }

  /** The length an acknowledgement buffer asks its wrapped connection for. */
  function AckRequest(buffered: nat, maxlen: U64): U64 {
    var len := Wrap(maxlen - buffered);
    if maxlen > buffered then len else 0
  }

  function AckAfter(inner: Outcome, maxBuffer: U64, autoAck: bool, buffer: string): Outcome {
    match inner.reply
    case Overflow => Outcome(Ack(inner.conn, maxBuffer, autoAck, buffer), Overflow)
    case Data(bytes) =>
      var all := buffer + bytes;
      if |all| > maxBuffer then Outcome(Ack(inner.conn, maxBuffer, autoAck, all), Overflow)
      else if autoAck then Outcome(Ack(inner.conn, maxBuffer, autoAck, ""), Data(all))
      else Outcome(Ack(inner.conn, maxBuffer, autoAck, all), Data(all))
  }

  function Receive(c: Conn, maxlen: U64): Outcome {
    match c
    case Source(_, _, _, _, _) => ReadSource(c, maxlen)
    case Range(inner, maxSize, offset) =>
      if offset >= maxSize then Outcome(c, Data(""))
      else RangeAfter(Receive(inner, RangeRequest(maxSize, offset, maxlen)), maxSize, offset)
    case Ack(inner, maxBuffer, autoAck, buffer) =>
      AckAfter(Receive(inner, AckRequest(|buffer|, maxlen)), maxBuffer, autoAck, buffer)
  }

  predicate IsEOF(c: Conn) {
    match c
    case Source(_, _, eof, _, _) => eof
    case Range(inner, maxSize, offset) => offset >= maxSize || IsEOF(inner)
    case Ack(inner, _, _, buffer) => IsEOF(inner) && buffer == ""
  }

  // ---------------------------------------------------------------- the contract

  /** All the bytes a caller can still be given, in order. */
  function Content(c: Conn): string {
    match c
    case Source(_, rest, _, _, _) => rest
    case Range(inner, maxSize, offset) => if offset >= maxSize then "" else Take(Content(inner), maxSize - offset)
    case Ack(inner, _, _, buffer) => buffer + Content(inner)
  }

  /** The number of bytes read from the source at the bottom. */
  function Position(c: Conn): nat {
    match c
    case Source(delivered, _, _, _, _) => |delivered|
    case Range(inner, _, _) => Position(inner)
    case Ack(inner, _, _, _) => Position(inner)
  }

  /** The stack behaves like a plain byte stream: buffers acknowledge by themselves and are empty. */
  predicate Streaming(c: Conn) {
    match c
    case Source(_, rest, eof, _, _) => eof ==> rest == ""
    case Range(inner, maxSize, offset) => offset <= maxSize && Streaming(inner)
    case Ack(inner, _, autoAck, buffer) => autoAck && buffer == "" && Streaming(inner)
  }

  /** How much the source can still do: a bound on the reads before it reports its end. */
  function Effort(c: Conn): nat {
    match c
    case Source(_, rest, eof, _, script) => |rest| + |script| + (if eof then 0 else 1)
    case Range(inner, _, _) => Effort(inner)
    case Ack(inner, _, _, _) => Effort(inner)
  }

  /** The promise of Connection::Receive: before, request, and what came of it. */
  predicate Delivers(c: Conn, maxlen: U64, o: Outcome) {
    match o.reply
    case Overflow => Content(o.conn) == Content(c)
    case Data(bytes) =>
      && Streaming(o.conn)
      && Content(c) == bytes + Content(o.conn)
      && (maxlen > 0 ==> |bytes| <= maxlen)
      && Position(o.conn) == Position(c) + |bytes|
      && (!IsEOF(c) ==> Effort(o.conn) < Effort(c))
      && Effort(o.conn) <= Effort(c)
  }

  lemma {:induction false} AtEnd(c: Conn)
    requires Streaming(c) && IsEOF(c)
    ensures Content(c) == ""
  {
    match c
    case Source(_, _, _, _, _) =>
    case Range(inner, maxSize, offset) =>
      if offset < maxSize { AtEnd(inner); }
    case Ack(inner, _, _, _) => AtEnd(inner);
  }

  lemma SourceDelivers(c: Conn, maxlen: U64)
    requires c.Source? && Streaming(c)
    ensures Delivers(c, maxlen, ReadSource(c, maxlen))
  {
    var len := RequestSize(c.unit, maxlen);
    var found := if c.script == [] then Arrival(len, true) else c.script[0];
    var k := Min(Min(found.size, len), |c.rest|);
    assert c.rest == c.rest[..k] + c.rest[k..];
  }

  /** How much of what is left the next read of the source finds, and whether it finds the end there. */
  function Next(c: Conn): Arrival
    requires c.Source?
  {
    if c.script == [] then Arrival(|c.rest|, true) else c.script[0]
  }

  /**
   A read gives as much as the request, the unit, the arrival and what is left allow: it stays within
   each of them and exhausts one. The end is known once all is read and the arrival said so.
   */
  lemma SourceGivesAll(c: Conn, maxlen: U64)
    requires c.Source?
    ensures Receive(c, maxlen).reply.Data? && Receive(c, maxlen).reply.bytes <= c.rest
    ensures var n := |Receive(c, maxlen).reply.bytes|;
      && n <= c.unit && n <= Next(c).size && (maxlen > 0 ==> n <= maxlen)
      && (n == |c.rest| || n == c.unit || n == Next(c).size || n == maxlen)
    ensures var o := Receive(c, maxlen);
      && (IsEOF(o.conn) <==> IsEOF(c) || (Next(c).closes && o.reply.bytes == c.rest))
      && Content(c) == o.reply.bytes + Content(o.conn)
  {
    assert c.rest == Receive(c, maxlen).reply.bytes + Receive(c, maxlen).conn.rest;
  }

  /** What a window has left. */
  lemma WindowContent(inner: Conn, maxSize: U64, offset: U64)
    requires offset <= maxSize
    ensures Content(Range(inner, maxSize, offset)) == Take(Content(inner), maxSize - offset)
  {
  }

  /** What is taken off the front is taken off the front of what may be taken. */
  lemma TakeSplit(bytes: string, rest: string, left: nat, left': nat)
    requires |bytes| <= left && (left' == left - |bytes| || (rest == "" && left' == 0))
    ensures Take(bytes + rest, left) == bytes + Take(rest, left')
  {
    if left' == left - |bytes| {
      TakeDropAppend(bytes, rest, left);
    } else {
      TakeNothing(bytes, left);
    }
  }

  lemma TakeNothing(bytes: string, left: nat)
    requires |bytes| <= left
    ensures Take(bytes + "", left) == bytes + Take("", 0)
  {
    assert bytes + "" == bytes && Take(bytes, left) == bytes;
  }

  /** A window after its wrapped connection gave these bytes. */
  lemma WindowMoves(inner: Conn, bytes: string, inner': Conn, maxSize: U64, offset: U64, offset': U64)
    requires offset <= maxSize && offset' <= maxSize && |bytes| <= maxSize - offset
    requires offset' == offset + |bytes| || (Content(inner') == "" && offset' == maxSize)
    requires Content(inner) == bytes + Content(inner')
    ensures Content(Range(inner, maxSize, offset)) == bytes + Content(Range(inner', maxSize, offset'))
  {
    WindowContent(inner, maxSize, offset);
    WindowContent(inner', maxSize, offset');
    TakeSplit(bytes, Content(inner'), maxSize - offset, maxSize - offset');
  }

  lemma RangeDelivers(c: Conn, maxlen: U64, o: Outcome)
    requires c.Range? && Streaming(c) && c.offset < c.maxSize
    requires Delivers(c.inner, RangeRequest(c.maxSize, c.offset, maxlen), o)
    ensures Delivers(c, maxlen, RangeAfter(o, c.maxSize, c.offset))
  {
    if o.reply.Data? {
      assert Wrap(c.offset + |o.reply.bytes|) == c.offset + |o.reply.bytes|;
      if IsEOF(o.conn) {
        AtEnd(o.conn);
      }
      var offset' := if IsEOF(o.conn) then c.maxSize else c.offset + |o.reply.bytes|;
      WindowMoves(c.inner, o.reply.bytes, o.conn, c.maxSize, c.offset, offset');
    }
  }

  lemma AckDelivers(c: Conn, maxlen: U64, o: Outcome)
    requires c.Ack? && Streaming(c)
    requires Delivers(c.inner, AckRequest(0, maxlen), o)
    ensures Delivers(c, maxlen, AckAfter(o, c.maxBuffer, c.autoAck, c.buffer))
  {
  }

  /** Every streaming stack, of any depth, keeps the promise of Connection::Receive. */
  lemma {:induction false} ReceiveDelivers(c: Conn, maxlen: U64)
    requires Streaming(c)
    ensures Delivers(c, maxlen, Receive(c, maxlen))
  {
    match c
    case Source(_, _, _, _, _) => SourceDelivers(c, maxlen);
    case Range(inner, maxSize, offset) =>
      if offset < maxSize {
        ReceiveDelivers(inner, RangeRequest(maxSize, offset, maxlen));
        RangeDelivers(c, maxlen, Receive(inner, RangeRequest(maxSize, offset, maxlen)));
      }
    case Ack(inner, _, _, _) =>
      ReceiveDelivers(inner, AckRequest(0, maxlen));
      AckDelivers(c, maxlen, Receive(inner, AckRequest(0, maxlen)));
  }

  /** Reading moved the connection over exactly these bytes. */
  predicate Advanced(before: Conn, bytes: string, after: Conn) {
    Content(before) == bytes + Content(after) && Position(after) == Position(before) + |bytes|
  }

  lemma AdvancedFurther(a: Conn, x: string, b: Conn, y: string, c: Conn)
    requires Advanced(a, x, b) && Advanced(b, y, c)
    ensures Advanced(a, x + y, c)
  {
    assert x + (y + Content(c)) == (x + y) + Content(c);
  }

  lemma NothingBeneath(c: Conn)
    requires c.Range? && Streaming(c) && c.offset < c.maxSize && Content(c) == ""
    ensures Content(c.inner) == ""
  {
    assert |Content(c)| == Min(c.maxSize - c.offset, |Content(c.inner)|);
  }

  lemma NothingRead(c: Conn, maxlen: U64)
    requires Streaming(c) && Content(c) == "" && Receive(c, maxlen).reply.Data?
    ensures Receive(c, maxlen).reply.bytes == ""
    ensures Streaming(Receive(c, maxlen).conn) && Content(Receive(c, maxlen).conn) == ""
  {
    ReceiveDelivers(c, maxlen);
  }

  /** A stack with nothing left never throws. */
  lemma {:induction false} ExhaustedNeverThrows(c: Conn, maxlen: U64)
    requires Streaming(c) && Content(c) == ""
    ensures Receive(c, maxlen).reply.Data?
  {
    match c
    case Source(_, _, _, _, _) =>
    case Range(inner, maxSize, offset) =>
      if offset < maxSize {
        NothingBeneath(c);
        ExhaustedNeverThrows(inner, RangeRequest(maxSize, offset, maxlen));
      }
    case Ack(inner, _, _, _) =>
      ExhaustedNeverThrows(inner, AckRequest(0, maxlen));
      NothingRead(inner, AckRequest(0, maxlen));
  }

  /** Every acknowledgement buffer in the stack can hold all that is to come. */
  predicate Roomy(c: Conn) {
    match c
    case Source(_, _, _, _, _) => true
    case Range(inner, _, _) => Roomy(inner)
    case Ack(inner, maxBuffer, _, _) => Roomy(inner) && |Content(inner)| <= maxBuffer
  }

  /** Such a stack never throws. */
  lemma {:induction false} RoomyNeverThrows(c: Conn, maxlen: U64)
    requires Streaming(c) && Roomy(c)
    ensures Receive(c, maxlen).reply.Data? && Roomy(Receive(c, maxlen).conn)
  {
    match c
    case Source(_, _, _, _, _) =>
    case Range(inner, maxSize, offset) =>
      if offset < maxSize {
        RoomyNeverThrows(inner, RangeRequest(maxSize, offset, maxlen));
      }
    case Ack(inner, _, _, _) =>
      RoomyNeverThrows(inner, AckRequest(0, maxlen));
      ReceiveDelivers(inner, AckRequest(0, maxlen));
  }

  /** Whatever comes of it, a throw included, a limited Receive moves the source over at most that many bytes. */
  lemma {:induction false} MovesAtMost(c: Conn, maxlen: U64)
    requires Streaming(c) && maxlen > 0
    ensures Position(c) <= Position(Receive(c, maxlen).conn) <= Position(c) + maxlen
  {
    match c
    case Source(_, _, _, _, _) =>
    case Range(inner, maxSize, offset) =>
      if offset < maxSize {
        MovesAtMost(inner, RangeRequest(maxSize, offset, maxlen));
      }
    case Ack(inner, _, _, _) => MovesAtMost(inner, AckRequest(0, maxlen));
  }

  // ---------------------------------------------------------------- runs of Receive

  /** The bytes a sequence of Receives returned, and the connection after them; ok until one throws. */
  datatype Tape = Tape(conn: Conn, bytes: string, ok: bool)

  function ReceiveAll(c: Conn, requests: seq<U64>): Tape
    decreases |requests|
  {
    if requests == [] then Tape(c, "", true)
    else
      var o := Receive(c, requests[0]);
      match o.reply
      case Overflow => Tape(o.conn, "", false)
      case Data(bytes) =>
        var t := ReceiveAll(o.conn, requests[1..]);
        Tape(t.conn, bytes + t.bytes, t.ok)
  }

  lemma ReceiveFirst(c: Conn, requests: seq<U64>)
    requires requests != [] && Receive(c, requests[0]).reply.Data?
    ensures var o := Receive(c, requests[0]); var t := ReceiveAll(o.conn, requests[1..]);
      ReceiveAll(c, requests) == Tape(t.conn, o.reply.bytes + t.bytes, t.ok)
  {
  }

  /** The bytes of the tape are those the connection lost. */
  predicate Records(c: Conn, t: Tape) {
    && Content(c) == t.bytes + Content(t.conn)
    && (t.ok ==> Streaming(t.conn) && Position(t.conn) == Position(c) + |t.bytes| && Effort(t.conn) <= Effort(c))
  }

  lemma RecordsStep(c: Conn, maxlen: U64, o: Outcome, t: Tape)
    requires Delivers(c, maxlen, o) && o.reply.Data? && Records(o.conn, t)
    ensures Records(c, Tape(t.conn, o.reply.bytes + t.bytes, t.ok))
  {
    assert o.reply.bytes + (t.bytes + Content(t.conn)) == (o.reply.bytes + t.bytes) + Content(t.conn);
  }

  /** Whatever the requests and the chunking, the bytes come in order, none lost and none twice. */
  lemma {:induction false} ReceiveAllDelivers(c: Conn, requests: seq<U64>)
    requires Streaming(c)
    ensures Records(c, ReceiveAll(c, requests))
    decreases |requests|
  {
    if requests != [] {
      var o := Receive(c, requests[0]);
      ReceiveDelivers(c, requests[0]);
      if o.reply.Data? {
        ReceiveAllDelivers(o.conn, requests[1..]);
        RecordsStep(c, requests[0], o, ReceiveAll(o.conn, requests[1..]));
      }
    }
  }

  lemma {:induction false} ReceiveAllNeverThrows(c: Conn, requests: seq<U64>)
    requires Streaming(c) && Roomy(c)
    ensures ReceiveAll(c, requests).ok && Roomy(ReceiveAll(c, requests).conn)
    decreases |requests|
  {
    if requests != [] {
      ReceiveDelivers(c, requests[0]);
      RoomyNeverThrows(c, requests[0]);
      ReceiveAllNeverThrows(Receive(c, requests[0]).conn, requests[1..]);
    }
  }
}
