/**
 What LineBufferDecorator promises over any streaming stack: the lines of the stream, whole and
 in order, whatever pieces the stream arrives in.
 */
module LineBuffers {
  import opened Lines
  import opened RangeReaders
  import opened Streams

  /** A line buffer: what it wraps, remainder_ and remaining_lines_. */
  datatype LineBuffer = LineBuffer(inner: Conn, remainder: string, lines: seq<string>)

  datatype LineOutcome = LineOutcome(buffer: LineBuffer, reply: Reply)

  datatype Filled = Filled(inner: Conn, remainder: string, threw: bool)

  function Fresh(inner: Conn): LineBuffer {
    LineBuffer(inner, "", [])
  }

  /** Read until there is an LF, nothing comes, the end is reached, or the wrapped connection throws. */
  function Fill(inner: Conn, remainder: string): Filled
    requires Streaming(inner)
    decreases Effort(inner)
  {
    if LF in remainder || IsEOF(inner) then Filled(inner, remainder, false)
    else
      ReceiveDelivers(inner, SIZE_MAX);
      var o := Receive(inner, SIZE_MAX);
      match o.reply
      case Overflow => Filled(o.conn, remainder, true)
      case Data(bytes) =>
        if bytes == "" then Filled(o.conn, remainder, false) else Fill(o.conn, remainder + bytes)
  }

  /** Hand out the first queued line, if any, with its LF. */
  function PopLine(b: LineBuffer): LineOutcome {
    if b.lines == [] then LineOutcome(b, Data(""))
    else LineOutcome(b.(lines := b.lines[1..]), Data(b.lines[0] + [LF]))
  }

  /** Queue the complete lines of what was read. */
  function Queue(f: Filled): LineBuffer {
    var sp := SplitLines(f.remainder);
    LineBuffer(f.inner, sp.tail, sp.lines)
  }

  function ReceiveLine(b: LineBuffer): LineOutcome
    requires Streaming(b.inner)
  {
    if b.lines != [] then PopLine(b)
    else
      var f := Fill(b.inner, b.remainder);
      if f.threw then LineOutcome(LineBuffer(f.inner, f.remainder, []), Overflow)
      else PopLine(Queue(f))
  }

  predicate AtEOF(b: LineBuffer) {
    IsEOF(b.inner) && b.lines == []
  }

  // ---------------------------------------------------------------- one call

  /** Everything still to be delivered: the queued lines and those of the bytes to come. */
  function Pending(b: LineBuffer): Split {
    var sp := SplitLines(b.remainder + Content(b.inner));
    Split(b.lines + sp.lines, sp.tail)
  }

  /** Between calls neither the remainder nor a queued line contains an LF. */
  predicate Valid(b: LineBuffer) {
    && Streaming(b.inner)
    && LF !in b.remainder
    && forall k :: 0 <= k < |b.lines| ==> LF !in b.lines[k]
  }

  /** Filling reads some bytes and appends exactly those. */
  predicate Fills(inner: Conn, remainder: string, f: Filled) {
    !f.threw ==>
      && Streaming(f.inner)
      && remainder <= f.remainder
      && Advanced(inner, f.remainder[|remainder|..], f.inner)
      && Effort(f.inner) <= Effort(inner)
      && (!IsEOF(inner) && LF !in remainder ==> Effort(f.inner) < Effort(inner))
  }

  lemma {:induction false} FillConserves(inner: Conn, remainder: string)
    requires Streaming(inner)
    ensures Fills(inner, remainder, Fill(inner, remainder))
    ensures Roomy(inner) ==> !Fill(inner, remainder).threw && Roomy(Fill(inner, remainder).inner)
    decreases Effort(inner)
  {
    if LF in remainder || IsEOF(inner) {
    } else {
      var o := Receive(inner, SIZE_MAX);
      ReceiveDelivers(inner, SIZE_MAX);
      if Roomy(inner) { RoomyNeverThrows(inner, SIZE_MAX); }
      if o.reply.Data? && o.reply.bytes != "" {
        var bytes := o.reply.bytes;
        FillConserves(o.conn, remainder + bytes);
        FillStep(inner, remainder, o.conn, bytes, Fill(o.conn, remainder + bytes));
      }
    }
  }

  lemma FillStep(inner: Conn, remainder: string, next: Conn, bytes: string, f: Filled)
    requires Advanced(inner, bytes, next) && Effort(next) < Effort(inner)
    requires Fills(next, remainder + bytes, f)
    ensures Fills(inner, remainder, f)
  {
    if !f.threw {
      var more := f.remainder[|remainder + bytes|..];
      assert f.remainder == (remainder + bytes) + more;
      assert f.remainder[|remainder|..] == bytes + more;
      AdvancedFurther(inner, bytes, next, more, f.inner);
    }
  }

  lemma QueueConserves(f: Filled)
    requires Streaming(f.inner)
    ensures Valid(Queue(f))
    ensures Pending(Queue(f)) == SplitLines(f.remainder + Content(f.inner))
  {
    TailHasNoLF(f.remainder);
    LinesHaveNoLF(f.remainder);
    SplitAppend(f.remainder, Content(f.inner));
  }

  lemma PopConserves(b: LineBuffer)
    ensures PopLine(b).buffer.inner == b.inner && PopLine(b).buffer.remainder == b.remainder
    ensures b.lines != [] ==>
              && PopLine(b).reply == Data(b.lines[0] + [LF])
              && Pending(b) == Split([b.lines[0]] + Pending(PopLine(b).buffer).lines, Pending(PopLine(b).buffer).tail)
  {
    if b.lines != [] {
      var next := SplitLines(b.remainder + Content(b.inner)).lines;
      assert b.lines == [b.lines[0]] + b.lines[1..];
      assert b.lines + next == [b.lines[0]] + (b.lines[1..] + next);
    }
  }

  /** What one answer delivers: nothing, or one line without its LF. */
  function Delivered(reply: Reply): seq<string> {
    if reply.Overflow? || reply.bytes == "" then [] else [reply.bytes[..|reply.bytes| - 1]]
  }

  /** Nothing, or one line whose only LF is its last byte. */
  predicate OneLine(bytes: string) {
    bytes == "" || (bytes[|bytes| - 1] == LF && LF !in bytes[..|bytes| - 1])
  }

  /** A Receive that does not throw takes the answered line off the front of what is pending. */
  predicate Steps(b: LineBuffer, o: LineOutcome) {
    o.reply.Data? ==>
      && Valid(o.buffer)
      && Pending(b) == Split(Delivered(o.reply) + Pending(o.buffer).lines, Pending(o.buffer).tail)
      && OneLine(o.reply.bytes)
      && (Effort(o.buffer.inner) < Effort(b.inner)
          || (Effort(o.buffer.inner) == Effort(b.inner)
              && |o.buffer.lines| <= |b.lines| && (!AtEOF(b) ==> |o.buffer.lines| < |b.lines|)))
  }

  lemma PopSteps(b: LineBuffer)
    requires Valid(b)
    ensures PopLine(b).reply.Data? && Valid(PopLine(b).buffer)
    ensures Pending(b) == Split(Delivered(PopLine(b).reply) + Pending(PopLine(b).buffer).lines,
                                Pending(PopLine(b).buffer).tail)
    ensures OneLine(PopLine(b).reply.bytes)
    ensures |PopLine(b).buffer.lines| == if b.lines == [] then 0 else |b.lines| - 1
  {
    PopConserves(b);
    if b.lines != [] {
      assert (b.lines[0] + [LF])[..|b.lines[0]|] == b.lines[0];
    } else {
      assert [] + Pending(b).lines == Pending(b).lines;
    }
  }

  lemma FilledContent(b: LineBuffer, f: Filled)
    requires !f.threw && Fills(b.inner, b.remainder, f)
    ensures f.remainder + Content(f.inner) == b.remainder + Content(b.inner)
  {
    assert f.remainder == b.remainder + f.remainder[|b.remainder|..];
  }

  lemma ReceiveLineSteps(b: LineBuffer)
    requires Valid(b)
    ensures Steps(b, ReceiveLine(b))
    ensures Roomy(b.inner) ==> ReceiveLine(b).reply.Data? && Roomy(ReceiveLine(b).buffer.inner)
  {
    if b.lines != [] {
      PopSteps(b);
    } else {
      var f := Fill(b.inner, b.remainder);
      FillConserves(b.inner, b.remainder);
      if !f.threw {
        QueueConserves(f);
        PopSteps(Queue(f));
        FilledContent(b, f);
        assert [] + SplitLines(b.remainder + Content(b.inner)).lines == Pending(b).lines;
        if IsEOF(b.inner) {
          NoLF(b.remainder);
        }
      }
    }
  }

  // ---------------------------------------------------------------- exactly how far one call reads

  /** As many Receives without a limit. */
  function Asks(n: nat): seq<U64> {
    seq(n, _ => SIZE_MAX)
  }

  /** After n Receives there is an LF, the end is reached, the last answer was empty, or one of them threw. */
  predicate Stops(inner: Conn, remainder: string, n: nat) {
    var t := ReceiveAll(inner, Asks(n));
    || !t.ok || LF in remainder + t.bytes || IsEOF(t.conn)
    || (n > 0 && t.bytes == ReceiveAll(inner, Asks(n - 1)).bytes)
  }

  predicate StopsFirst(inner: Conn, remainder: string, n: nat) {
    Stops(inner, remainder, n) && forall k :: 0 <= k < n ==> !Stops(inner, remainder, k)
  }

  lemma AskOnceMore(inner: Conn, n: nat)
    requires Receive(inner, SIZE_MAX).reply.Data?
    ensures var o := Receive(inner, SIZE_MAX); var t := ReceiveAll(o.conn, Asks(n));
      ReceiveAll(inner, Asks(n + 1)) == Tape(t.conn, o.reply.bytes + t.bytes, t.ok)
  {
    assert Asks(n + 1)[1..] == Asks(n);
  }

  lemma AskOnce(inner: Conn)
    ensures var o := Receive(inner, SIZE_MAX);
      ReceiveAll(inner, Asks(1)) == Tape(o.conn, if o.reply.Data? then o.reply.bytes else "", o.reply.Data?)
  {
    assert Asks(1)[1..] == [];
    if Receive(inner, SIZE_MAX).reply.Data? {
      var bytes := Receive(inner, SIZE_MAX).reply.bytes;
      assert bytes + "" == bytes;
    }
  }

  lemma StopsLater(inner: Conn, remainder: string, k: nat)
    requires Receive(inner, SIZE_MAX).reply.Data? && Receive(inner, SIZE_MAX).reply.bytes != ""
    ensures var o := Receive(inner, SIZE_MAX);
      Stops(inner, remainder, k + 1) <==> Stops(o.conn, remainder + o.reply.bytes, k)
  {
    var o := Receive(inner, SIZE_MAX);
    var t := ReceiveAll(o.conn, Asks(k));
    AskOnceMore(inner, k);
    assert (remainder + o.reply.bytes) + t.bytes == remainder + (o.reply.bytes + t.bytes);
    if k > 0 {
      AskOnceMore(inner, k - 1);
      SamePrefix(o.reply.bytes, t.bytes, ReceiveAll(o.conn, Asks(k - 1)).bytes);
    } else {
      assert ReceiveAll(inner, Asks(0)).bytes == "" && t.bytes == "";
    }
  }

  lemma SamePrefix(a: string, b: string, c: string)
    ensures a + b == a + c <==> b == c
  {
    assert (a + b)[|a|..] == b && (a + c)[|a|..] == c;
  }

  /** Filling is making n Receives, or as many of them as do not throw. */
  predicate FilledBy(inner: Conn, remainder: string, n: nat)
    requires Streaming(inner)
  {
    var t := ReceiveAll(inner, Asks(n));
    Fill(inner, remainder) == Filled(t.conn, remainder + t.bytes, !t.ok)
  }

  lemma FilledAtOnce(inner: Conn, remainder: string)
    requires Streaming(inner) && (LF in remainder || IsEOF(inner))
    ensures StopsFirst(inner, remainder, 0) && FilledBy(inner, remainder, 0)
  {
    assert remainder + "" == remainder;
  }

  lemma FilledByOne(inner: Conn, remainder: string)
    requires Streaming(inner) && LF !in remainder && !IsEOF(inner)
    requires Receive(inner, SIZE_MAX).reply.Data? ==> Receive(inner, SIZE_MAX).reply.bytes == ""
    ensures StopsFirst(inner, remainder, 1) && FilledBy(inner, remainder, 1)
  {
    AskOnce(inner);
    assert remainder + "" == remainder;
    assert !Stops(inner, remainder, 0);
  }

  lemma FilledByMore(inner: Conn, remainder: string, m: nat)
    requires Streaming(inner) && LF !in remainder && !IsEOF(inner)
    requires Receive(inner, SIZE_MAX).reply.Data? && Receive(inner, SIZE_MAX).reply.bytes != ""
    requires var o := Receive(inner, SIZE_MAX);
      Streaming(o.conn) && FilledBy(o.conn, remainder + o.reply.bytes, m) && StopsFirst(o.conn, remainder + o.reply.bytes, m)
    ensures StopsFirst(inner, remainder, m + 1) && FilledBy(inner, remainder, m + 1)
  {
    var o := Receive(inner, SIZE_MAX);
    var t := ReceiveAll(o.conn, Asks(m));
    StopsOneLater(inner, remainder, m);
    AskOnceMore(inner, m);
    assert (remainder + o.reply.bytes) + t.bytes == remainder + (o.reply.bytes + t.bytes);
  }

  lemma {:induction false} FillReads(inner: Conn, remainder: string) returns (n: nat)
    requires Streaming(inner)
    ensures StopsFirst(inner, remainder, n) && FilledBy(inner, remainder, n)
    decreases Effort(inner)
  {
    var o := Receive(inner, SIZE_MAX);
    if LF in remainder || IsEOF(inner) {
      n := 0;
      FilledAtOnce(inner, remainder);
    } else if o.reply.Overflow? || o.reply.bytes == "" {
      n := 1;
      FilledByOne(inner, remainder);
    } else {
      ReceiveDelivers(inner, SIZE_MAX);
      var m := FillReads(o.conn, remainder + o.reply.bytes);
      n := m + 1;
      FilledByMore(inner, remainder, m);
    }
  }

  lemma StopsOneLater(inner: Conn, remainder: string, m: nat)
    requires Receive(inner, SIZE_MAX).reply.Data? && Receive(inner, SIZE_MAX).reply.bytes != ""
    requires LF !in remainder && !IsEOF(inner)
    requires StopsFirst(Receive(inner, SIZE_MAX).conn, remainder + Receive(inner, SIZE_MAX).reply.bytes, m)
    ensures StopsFirst(inner, remainder, m + 1)
  {
    StopsLater(inner, remainder, m);
    forall k | 0 <= k < m + 1 ensures !Stops(inner, remainder, k) {
      if k > 0 {
        StopsLater(inner, remainder, k - 1);
      } else {
        assert remainder + "" == remainder;
      }
    }
  }

  /** The call made n Receives, took what they gave behind the remainder, and split it. */
  predicate ReadsFor(b: LineBuffer, o: LineOutcome, n: nat) {
    var t := ReceiveAll(b.inner, Asks(n));
    && o.buffer.inner == t.conn && (o.reply.Overflow? <==> !t.ok)
    && if t.ok then SplitLines(b.remainder + t.bytes) == Split(Delivered(o.reply) + o.buffer.lines, o.buffer.remainder)
       else o.buffer.remainder == b.remainder + t.bytes && o.buffer.lines == []
  }

  /**
   With nothing queued one call makes exactly as many Receives without a limit as it takes to have an LF,
   to reach the end, to be given nothing, or to be thrown at; and what they give is split behind the
   remainder, the first line being the answer.
   */
  lemma ReceiveLineReads(b: LineBuffer) returns (n: nat)
    requires Streaming(b.inner) && b.lines == []
    ensures StopsFirst(b.inner, b.remainder, n) && ReadsFor(b, ReceiveLine(b), n)
  {
    n := FillReads(b.inner, b.remainder);
    var f := Fill(b.inner, b.remainder);
    if !f.threw { FirstIsAnswered(Queue(f)); }
  }

  lemma FirstIsAnswered(b: LineBuffer)
    ensures PopLine(b).reply.Data? && PopLine(b).buffer.inner == b.inner && PopLine(b).buffer.remainder == b.remainder
    ensures Delivered(PopLine(b).reply) + PopLine(b).buffer.lines == b.lines
  {
    if b.lines != [] {
      assert (b.lines[0] + [LF])[..|b.lines[0]|] == b.lines[0];
    }
  }

  lemma NoLineMeansNoLF(s: string)
    requires SplitLines(s).lines == []
    ensures LF !in s && SplitLines(s).tail == s
  {
  }

  /** An empty answer means no LF so far, and that the connection is at its end or its last Receive gave nothing. */
  lemma EmptyMeansNothingThere(b: LineBuffer) returns (n: nat)
    requires Streaming(b.inner) && b.lines == [] && ReceiveLine(b).reply == Data("")
    ensures var o := ReceiveLine(b); var t := ReceiveAll(b.inner, Asks(n));
      && o == LineOutcome(LineBuffer(t.conn, b.remainder + t.bytes, []), Data(""))
      && t.ok && LF !in b.remainder + t.bytes
      && (IsEOF(t.conn) || (n > 0 && t.bytes == ReceiveAll(b.inner, Asks(n - 1)).bytes))
  {
    n := ReceiveLineReads(b);
    var t := ReceiveAll(b.inner, Asks(n));
    assert ReceiveLine(b).buffer.lines == [];
    NoLineMeansNoLF(b.remainder + t.bytes);
  }

  // ---------------------------------------------------------------- runs

  /** The lines a number of calls delivered, and the buffer after them; ok until one throws. */
  datatype Reading = Reading(buffer: LineBuffer, lines: seq<string>, ok: bool)

  function ReadLines(b: LineBuffer, calls: nat): Reading
    requires Valid(b)
    decreases calls
  {
    if calls == 0 then Reading(b, [], true)
    else
      ReceiveLineSteps(b);
      var o := ReceiveLine(b);
      if o.reply.Overflow? then Reading(o.buffer, [], false)
      else
        var r := ReadLines(o.buffer, calls - 1);
        Reading(r.buffer, Delivered(o.reply) + r.lines, r.ok)
  }

  /** Queued lines are handed out in order, one a call, and nothing is read meanwhile. */
  lemma {:induction false} QueuedLinesFirst(b: LineBuffer)
    requires Valid(b)
    ensures ReadLines(b, |b.lines|) == Reading(LineBuffer(b.inner, b.remainder, []), b.lines, true)
    decreases |b.lines|
  {
    if b.lines != [] {
      var o := ReceiveLine(b);
      ReceiveLineSteps(b);
      assert o == LineOutcome(LineBuffer(b.inner, b.remainder, b.lines[1..]), Data(b.lines[0] + [LF]));
      assert (b.lines[0] + [LF])[..|b.lines[0]|] == b.lines[0];
      QueuedLinesFirst(o.buffer);
      assert [b.lines[0]] + b.lines[1..] == b.lines;
    }
  }

  /** The history of a buffer: these bytes were read from the connection, these lines handed out. */
  predicate History(b: LineBuffer, consumed: string, delivered: seq<string>) {
    SplitLines(consumed) == Split(delivered + b.lines, b.remainder)
  }

  /** The bytes read from before to after. */
  function Read(before: Conn, after: Conn): string {
    if Position(after) < Position(before) then "" else Take(Content(before), Position(after) - Position(before))
  }

  lemma ReadIs(before: Conn, bytes: string, after: Conn)
    requires Advanced(before, bytes, after)
    ensures Read(before, after) == bytes
  {
  }

  lemma ReceiveLineHistory(b: LineBuffer, consumed: string, delivered: seq<string>)
    requires Valid(b) && History(b, consumed, delivered) && ReceiveLine(b).reply.Data?
    ensures var o := ReceiveLine(b); var bytes := Read(b.inner, o.buffer.inner);
      && Advanced(b.inner, bytes, o.buffer.inner)
      && History(o.buffer, consumed + bytes, delivered + Delivered(o.reply))
  {
    if b.lines != [] {
      ReadIs(b.inner, "", b.inner);
      assert consumed + "" == consumed;
      PopHistory(b, consumed, delivered);
    } else {
      var f := Fill(b.inner, b.remainder);
      FillConserves(b.inner, b.remainder);
      FillHistory(b, consumed, delivered, f);
      PopHistory(Queue(f), consumed + Read(b.inner, f.inner), delivered);
    }
  }

  lemma FillHistory(b: LineBuffer, consumed: string, delivered: seq<string>, f: Filled)
    requires History(b, consumed, delivered) && b.lines == []
    requires !f.threw && Fills(b.inner, b.remainder, f)
    ensures Advanced(b.inner, Read(b.inner, f.inner), f.inner)
    ensures History(Queue(f), consumed + Read(b.inner, f.inner), delivered)
  {
    var bytes := f.remainder[|b.remainder|..];
    ReadIs(b.inner, bytes, f.inner);
    assert f.remainder == b.remainder + bytes;
    assert delivered + [] == delivered;
    SplitAppend(consumed, bytes);
  }

  lemma PopHistory(b: LineBuffer, consumed: string, delivered: seq<string>)
    requires History(b, consumed, delivered)
    ensures History(PopLine(b).buffer, consumed, delivered + Delivered(PopLine(b).reply))
  {
    if b.lines != [] {
      assert (b.lines[0] + [LF])[..|b.lines[0]|] == b.lines[0];
      assert (delivered + [b.lines[0]]) + b.lines[1..] == delivered + b.lines;
    } else {
      assert delivered + [] == delivered;
    }
  }

  /** A reading that started with this history extends it by what it read and delivered. */
  predicate Extends(b: LineBuffer, consumed: string, delivered: seq<string>, r: Reading) {
    r.ok ==>
      var bytes := Read(b.inner, r.buffer.inner);
      && Valid(r.buffer)
      && Advanced(b.inner, bytes, r.buffer.inner)
      && History(r.buffer, consumed + bytes, delivered + r.lines)
  }

  lemma ExtendsStep(a: LineBuffer, b: LineBuffer, consumed: string, delivered: seq<string>, more: seq<string>, r: Reading)
    requires Advanced(a.inner, Read(a.inner, b.inner), b.inner)
    requires Extends(b, consumed + Read(a.inner, b.inner), delivered + more, r)
    ensures Extends(a, consumed, delivered, Reading(r.buffer, more + r.lines, r.ok))
  {
    if r.ok {
      var now, later := Read(a.inner, b.inner), Read(b.inner, r.buffer.inner);
      AdvancedFurther(a.inner, now, b.inner, later, r.buffer.inner);
      ReadIs(a.inner, now + later, r.buffer.inner);
      assert (consumed + now) + later == consumed + (now + later);
      assert (delivered + more) + r.lines == delivered + (more + r.lines);
    }
  }

  lemma {:induction false} ReadLinesHistory(b: LineBuffer, calls: nat, consumed: string, delivered: seq<string>)
    requires Valid(b) && History(b, consumed, delivered)
    ensures Roomy(b.inner) ==> ReadLines(b, calls).ok
    ensures Extends(b, consumed, delivered, ReadLines(b, calls))
    decreases calls
  {
    if calls == 0 {
      ReadIs(b.inner, "", b.inner);
      assert consumed + "" == consumed && delivered + [] == delivered;
    } else {
      ReceiveLineSteps(b);
      var o := ReceiveLine(b);
      if o.reply.Data? {
        ReceiveLineHistory(b, consumed, delivered);
        var now := Read(b.inner, o.buffer.inner);
        ReadLinesHistory(o.buffer, calls - 1, consumed + now, delivered + Delivered(o.reply));
        ExtendsStep(b, o.buffer, consumed, delivered, Delivered(o.reply), ReadLines(o.buffer, calls - 1));
      }
    }
  }

  /**
   Chunking does not matter: after any number of calls the lines delivered and queued are the
   lines of the bytes read, and the remainder is what follows the last LF of those bytes.
   */
  lemma ChunkingDoesNotMatter(c: Conn, calls: nat)
    requires Streaming(c)
    ensures Roomy(c) ==> ReadLines(Fresh(c), calls).ok
    ensures ReadLines(Fresh(c), calls).ok ==>
              var r := ReadLines(Fresh(c), calls); var consumed := Read(c, r.buffer.inner);
              && Advanced(c, consumed, r.buffer.inner)
              && SplitLines(consumed) == Split(r.lines + r.buffer.lines, r.buffer.remainder)
  {
    NoLF("");
    ReadLinesHistory(Fresh(c), calls, "", []);
    if ReadLines(Fresh(c), calls).ok {
      FromTheStart(Fresh(c), ReadLines(Fresh(c), calls));
    }
  }

  lemma FromTheStart(b: LineBuffer, r: Reading)
    requires Extends(b, "", [], r) && r.ok
    ensures var consumed := Read(b.inner, r.buffer.inner);
      && Advanced(b.inner, consumed, r.buffer.inner)
      && History(r.buffer, consumed, r.lines)
  {
    assert "" + Read(b.inner, r.buffer.inner) == Read(b.inner, r.buffer.inner);
    assert [] + r.lines == r.lines;
  }

  /** Every byte read was delivered, or is queued with its LF, or remains, or is the CR of a CRLF. */
  lemma NoByteLost(c: Conn, calls: nat)
    requires Streaming(c)
    ensures ReadLines(Fresh(c), calls).ok ==>
              var r := ReadLines(Fresh(c), calls); var consumed := Read(c, r.buffer.inner);
              Position(r.buffer.inner) - Position(c)
              == LineBytes(r.lines) + LineBytes(r.buffer.lines) + |r.buffer.remainder| + CountCRLF(consumed)
  {
    ChunkingDoesNotMatter(c, calls);
    var r := ReadLines(Fresh(c), calls);
    if r.ok {
      Accounting(Read(c, r.buffer.inner));
      LineBytesAppend(r.lines, r.buffer.lines);
    }
  }

  /**
   When IsEOF is true after some calls, every complete line of the whole stream was delivered,
   and only what follows its last LF is withheld.
   */
  lemma EOFMeansAllDelivered(c: Conn, calls: nat)
    requires Streaming(c)
    ensures var r := ReadLines(Fresh(c), calls);
      r.ok && AtEOF(r.buffer) ==> SplitLines(Content(c)) == Split(r.lines, r.buffer.remainder)
  {
    ChunkingDoesNotMatter(c, calls);
    var r := ReadLines(Fresh(c), calls);
    if r.ok && AtEOF(r.buffer) {
      AtEndOfValid(c, calls);
      var consumed := Read(c, r.buffer.inner);
      assert consumed + "" == consumed;
      assert r.lines + [] == r.lines;
    }
  }

  lemma AtEndOfValid(c: Conn, calls: nat)
    requires Streaming(c) && ReadLines(Fresh(c), calls).ok && AtEOF(ReadLines(Fresh(c), calls).buffer)
    ensures Content(ReadLines(Fresh(c), calls).buffer.inner) == ""
  {
    NoLF("");
    ReadLinesHistory(Fresh(c), calls, "", []);
    AtEnd(ReadLines(Fresh(c), calls).buffer.inner);
  }

  // ---------------------------------------------------------------- reading to the end

  /** The number of calls after which IsEOF is true: reading on always gets there. */
  function CallsToEnd(b: LineBuffer): nat
    requires Valid(b)
    decreases Effort(b.inner), |b.lines|
  {
    if AtEOF(b) then 0
    else
      ReceiveLineSteps(b);
      var o := ReceiveLine(b);
      if o.reply.Overflow? then 1 else 1 + CallsToEnd(o.buffer)
  }

  function ReadToEnd(c: Conn): Reading
    requires Streaming(c)
  {
    ReadLines(Fresh(c), CallsToEnd(Fresh(c)))
  }

  /** What a reading of some calls is after its first. */
  lemma NextReading(b: LineBuffer, calls: nat)
    requires Valid(b) && calls > 0
    ensures var o := ReceiveLine(b); var r := ReadLines(b, calls);
      if o.reply.Overflow? then r.buffer == o.buffer && !r.ok
      else Valid(o.buffer) && r.buffer == ReadLines(o.buffer, calls - 1).buffer && r.ok == ReadLines(o.buffer, calls - 1).ok
  {
    ReceiveLineSteps(b);
  }

  /** One call fewer to the end, if it does not throw. */
  lemma OneCallNearer(b: LineBuffer, calls: nat) returns (next: LineBuffer)
    requires Valid(b) && !AtEOF(b) && calls == CallsToEnd(b)
    ensures calls > 0
    ensures ReadLines(b, calls).ok ==>
      && Valid(next) && CallsToEnd(next) == calls - 1
      && ReadLines(next, calls - 1).ok && ReadLines(next, calls - 1).buffer == ReadLines(b, calls).buffer
      && (Effort(next.inner) < Effort(b.inner) || (Effort(next.inner) == Effort(b.inner) && |next.lines| < |b.lines|))
  {
    ReceiveLineSteps(b);
    NextReading(b, calls);
    next := ReceiveLine(b).buffer;
  }

  lemma {:induction false} EndIsReached(b: LineBuffer, calls: nat)
    requires Valid(b) && calls == CallsToEnd(b)
    ensures ReadLines(b, calls).ok ==> AtEOF(ReadLines(b, calls).buffer)
    decreases Effort(b.inner), |b.lines|
  {
    if !AtEOF(b) {
      var next := OneCallNearer(b, calls);
      if ReadLines(b, calls).ok {
        EndIsReached(next, calls - 1);
      }
    }
  }

  /** Read until EOF, a connection yields exactly the complete lines of its content. */
  lemma ReadToEndExact(c: Conn)
    requires Streaming(c)
    ensures Roomy(c) ==> ReadToEnd(c).ok
    ensures ReadToEnd(c).ok ==>
              && AtEOF(ReadToEnd(c).buffer)
              && Split(ReadToEnd(c).lines, ReadToEnd(c).buffer.remainder) == SplitLines(Content(c))
  {
    EndIsReached(Fresh(c), CallsToEnd(Fresh(c)));
    ChunkingDoesNotMatter(c, CallsToEnd(Fresh(c)));
    EOFMeansAllDelivered(c, CallsToEnd(Fresh(c)));
  }

  // ---------------------------------------------------------------- over a window

  lemma {:induction false} FillStaysWithin(inner: Conn, remainder: string)
    requires inner.Range? && Streaming(inner)
    ensures Within(inner, Fill(inner, remainder).inner, Fill(inner, remainder).threw)
    decreases Effort(inner)
  {
    if LF !in remainder && !IsEOF(inner) {
      var o := Receive(inner, SIZE_MAX);
      ReceiveDelivers(inner, SIZE_MAX);
      ReceiveStaysWithin(inner, SIZE_MAX);
      if o.reply.Data? && o.reply.bytes != "" {
        FillStaysWithin(o.conn, remainder + o.reply.bytes);
        var f := Fill(o.conn, remainder + o.reply.bytes);
        WithinFurther(inner, o.conn, f.inner, f.threw);
      }
    }
  }

  lemma LineStaysWithin(b: LineBuffer)
    requires b.inner.Range? && Streaming(b.inner)
    ensures Within(b.inner, ReceiveLine(b).buffer.inner, ReceiveLine(b).reply.Overflow?)
  {
    if b.lines == [] {
      FillStaysWithin(b.inner, b.remainder);
    }
  }

  lemma {:induction false} LinesStayWithin(b: LineBuffer, calls: nat)
    requires Valid(b) && b.inner.Range?
    ensures Within(b.inner, ReadLines(b, calls).buffer.inner, !ReadLines(b, calls).ok)
    decreases calls
  {
    if calls > 0 {
      NextReading(b, calls);
      LineStaysWithin(b);
      var o := ReceiveLine(b);
      if o.reply.Data? {
        LinesStayWithin(o.buffer, calls - 1);
        var r := ReadLines(o.buffer, calls - 1);
        WithinFurther(b.inner, o.buffer.inner, r.buffer.inner, !r.ok);
      }
    }
  }

  /**
   A line buffer over a range reader of size bytes delivers exactly the complete lines of the
   first size bytes, whatever the chunking, and does not move the source past the last of them, in no
   call up to and including the first that throws.
   */
  lemma LinesOfAWindow(c: Conn, size: U64, calls: nat)
    requires Streaming(c)
    ensures var r := ReadToEnd(Range(c, size, 0));
      (Roomy(c) ==> r.ok) && (r.ok ==> r.lines == SplitLines(Take(Content(c), size)).lines)
    ensures Position(ReadLines(Fresh(Range(c, size, 0)), calls).buffer.inner) <= Position(c) + size
  {
    WindowContent(c, size, 0);
    LinesOfContent(Range(c, size, 0), Take(Content(c), size));
    BoundOfAWindow(c, size, calls);
  }

  lemma LinesOfContent(c: Conn, content: string)
    requires Streaming(c) && Content(c) == content
    ensures Roomy(c) ==> ReadToEnd(c).ok
    ensures ReadToEnd(c).ok ==> ReadToEnd(c).lines == SplitLines(content).lines
  {
    ReadToEndExact(c);
  }

  lemma BoundOfAWindow(c: Conn, size: U64, calls: nat)
    requires Streaming(c)
    ensures Position(ReadLines(Fresh(Range(c, size, 0)), calls).buffer.inner) <= Position(c) + size
  {
    LinesStayWithin(Fresh(Range(c, size, 0)), calls);
  }

  /**
   Lines written by a peer, with LF or CRLF in any mixture and arriving in any pieces, are read
   back exactly if and only if none contains an LF and none that ends in CR is ended by a bare LF.
   */
  lemma RoundTripOverAnyConnection(c: Conn, lines: seq<string>, ends: seq<Ending>)
    requires |lines| == |ends| && Streaming(c) && Roomy(c) && Content(c) == Written(lines, ends)
    ensures (ReadToEnd(c).lines == lines && ReadToEnd(c).buffer.remainder == "")
       <==> forall i :: 0 <= i < |lines| ==> Faithful(lines[i], ends[i])
  {
    ReadToEndExact(c);
    RoundTrip(lines, ends);
  }
}
