/**
 The decorators as the objects they are: fields updated in place, one object wrapping another.
 Each method is proved to do what the functions of Streams and LineBuffers say; the wrapped_
 pointers never change, so what an object may touch is fixed when it is made.
 */
module Decorators {
  import opened Lines
  import opened Streams
  import opened LineBuffers
  import RangeReaders
  import Acknowledgements

  /** A Connection* to any of the classes that pass on a stream of bytes. */
  datatype Handle =
    | SourceHandle(source: SourceConnection)
    | RangeHandle(range: RangeReaderDecorator)
    | AckHandle(ack: AcknowledgementDecorator)
  {
    /** The objects of the stack under this handle. */
    ghost function Repr(): set<object> {
      match this
      case SourceHandle(s) => {s}
      case RangeHandle(r) => r.Repr
      case AckHandle(a) => a.Repr
    }

    /** Every object of the stack is separate from those it wraps. */
    ghost predicate Shaped()
      decreases Repr(), 1
    {
      match this
      case SourceHandle(_) => true
      case RangeHandle(r) => r.Shaped()
      case AckHandle(a) => a.Shaped()
    }

    ghost function Value(): Conn
      requires Shaped()
      reads Repr()
      decreases Repr(), 1
    {
      match this
      case SourceHandle(s) => s.Value()
      case RangeHandle(r) => r.Value()
      case AckHandle(a) => a.Value()
    }

    /** The virtual Connection::Receive. */
    method Receive(maxlen: U64) returns (reply: Reply)
      requires Shaped()
      modifies Repr()
      ensures Outcome(Value(), reply) == Streams.Receive(old(Value()), maxlen)
      decreases Repr(), 1
    {
      match this
      case SourceHandle(s) => reply := s.Receive(maxlen);
      case RangeHandle(r) => reply := r.Receive(maxlen);
      case AckHandle(a) => reply := a.Receive(maxlen);
    }

    /** The virtual Connection::IsEOF. */
    method IsEOF() returns (eof: bool)
      requires Shaped()
      ensures eof == Streams.IsEOF(Value())
      decreases Repr(), 1
    {
      match this
      case SourceHandle(s) => eof := s.eof;
      case RangeHandle(r) => eof := r.IsEOF();
      case AckHandle(a) => eof := a.IsEOF();
    }
  }

  /**
   A connection that is not a decorator. It reads at most a unit at a time; what the reads
   find is decided outside.
   */
  class SourceConnection {
    const unit: Positive
    ghost var delivered: string
    var rest: string
    var eof: bool
    var script: seq<Arrival>

    ghost function Value(): Conn
      reads this
    {
      Source(delivered, rest, eof, unit, script)
    }

    constructor (rest: string, unit: Positive, script: seq<Arrival>)
      ensures Value() == Source("", rest, false, unit, script)
    {
      this.unit := unit;
      this.rest := rest;
      this.script := script;
      delivered := "";
      eof := false;
    }

    method Receive(maxlen: U64) returns (reply: Reply)
      modifies this
      ensures Outcome(Value(), reply) == Streams.Receive(old(Value()), maxlen)
    {
      var len := maxlen;
      if maxlen == 0 || maxlen > unit {
        len := unit;
      }
      var found := Arrival(len, true);
      if script != [] {
        found := script[0];
        script := script[1..];
      }
      var k := Min(Min(found.size, len), |rest|);
      var data := rest[..k];
      eof := eof || (found.closes && k == |rest|);
      rest := rest[k..];
      delivered := delivered + data;
      reply := Data(data);
    }
  }

  class RangeReaderDecorator {
    const wrapped: Handle
    const maxSize: U64
    var offset: U64
    ghost const Repr: set<object>

    ghost predicate Shaped()
      decreases Repr, 0
    {
      this !in wrapped.Repr() && Repr == {this} + wrapped.Repr() && wrapped.Shaped()
    }

    ghost function Value(): Conn
      requires Shaped()
      reads Repr
      decreases Repr, 0
    {
      Range(wrapped.Value(), maxSize, offset)
    }

    constructor (wrapped: Handle, maxSize: U64)
      requires wrapped.Shaped()
      ensures Shaped() && this.wrapped == wrapped && Repr == {this} + wrapped.Repr()
      ensures Value() == Range(wrapped.Value(), maxSize, 0)
    {
      this.wrapped := wrapped;
      this.maxSize := maxSize;
      offset := 0;
      Repr := {this} + wrapped.Repr();
    }

    method Receive(len: U64) returns (reply: Reply)
      requires Shaped()
      modifies Repr
      ensures Outcome(Value(), reply) == Streams.Receive(old(Value()), len)
      decreases Repr, 0
    {
      var toread := len;
      if offset >= maxSize {
        return Data("");
      }
      if toread == 0 || toread > maxSize - offset {
        toread := maxSize - offset;
      }
      reply := wrapped.Receive(toread);
      if reply.Overflow? {
        return;
      }
      var eof := wrapped.IsEOF();
      if eof {
        offset := maxSize;
      } else {
        offset := Wrap(offset + |reply.bytes|);
      }
    }

    method IsEOF() returns (eof: bool)
      requires Shaped()
      ensures eof == Streams.IsEOF(Value())
      decreases Repr, 0
    {
      if offset >= maxSize {
        return true;
      }
      eof := wrapped.IsEOF();
    }

    /** The body of the loop in EatRemainingData. */
    method EatOnce(ghost end: Conn, ghost ok: bool) returns (threw: bool)
      requires Shaped() && offset < maxSize && !Streams.IsEOF(wrapped.Value())
      requires RangeReaders.DrainsTo(wrapped.Value(), maxSize, offset, end, ok)
      modifies Repr
      ensures threw ==> wrapped.Value() == end && !ok
      ensures !threw ==> RangeReaders.DrainsTo(wrapped.Value(), maxSize, offset, end, ok)
                         && Effort(wrapped.Value()) < Effort(old(wrapped.Value()))
    {
      var toread := maxSize - offset;
      ghost var before := wrapped.Value();
      var reply := wrapped.Receive(toread);
      RangeReaders.DrainRound(before, maxSize, offset, end, ok, Outcome(wrapped.Value(), reply));
      if reply.Overflow? {
        return true;
      }
      offset := Wrap(offset + |reply.bytes|);
      threw := false;
    }

    /** The part of Shutdown between Lock and the shutdown of the wrapped connection. */
    method EatRemainingData() returns (ok: bool)
      requires Shaped() && Streaming(Value())
      modifies Repr
      ensures RangeReaders.DrainsTo(old(wrapped.Value()), maxSize, old(offset), wrapped.Value(), ok)
    {
      ghost var end := RangeReaders.Drain(wrapped.Value(), maxSize, offset);
      assert RangeReaders.DrainsTo(wrapped.Value(), maxSize, offset, end.conn, end.ok);
      var eof := wrapped.IsEOF();
      while offset < maxSize && !eof
        invariant eof == Streams.IsEOF(wrapped.Value())
        invariant RangeReaders.DrainsTo(wrapped.Value(), maxSize, offset, end.conn, end.ok)
        decreases Effort(wrapped.Value())
      {
        var threw := EatOnce(end.conn, end.ok);
        if threw {
          return false;
        }
        eof := wrapped.IsEOF();
      }
      RangeReaders.DrainStops(wrapped.Value(), maxSize, offset, end.conn, end.ok);
      ok := true;
    }
  }

  class AcknowledgementDecorator {
    const wrapped: Handle
    const maxBuffer: U64
    var autoAck: bool
    var buffer: string
    ghost const Repr: set<object>

    ghost predicate Shaped()
      decreases Repr, 0
    {
      this !in wrapped.Repr() && Repr == {this} + wrapped.Repr() && wrapped.Shaped()
    }

    ghost function Value(): Conn
      requires Shaped()
      reads Repr
      decreases Repr, 0
    {
      Ack(wrapped.Value(), maxBuffer, autoAck, buffer)
    }

    constructor (wrapped: Handle, maxBuffer: U64)
      requires wrapped.Shaped()
      ensures Shaped() && this.wrapped == wrapped && Repr == {this} + wrapped.Repr()
      ensures Value() == Ack(wrapped.Value(), maxBuffer, false, "")
    {
      this.wrapped := wrapped;
      this.maxBuffer := maxBuffer;
      autoAck := false;
      buffer := "";
      Repr := {this} + wrapped.Repr();
    }

    method Receive(maxlen: U64) returns (reply: Reply)
      requires Shaped()
      modifies Repr
      ensures Outcome(Value(), reply) == Streams.Receive(old(Value()), maxlen)
      decreases Repr, 0
    {
      var len := Wrap(maxlen - |buffer|);
      reply := wrapped.Receive(if maxlen > |buffer| then len else 0);
      if reply.Overflow? {
        return;
      }
      if |reply.bytes| > 0 {
        buffer := buffer + reply.bytes;
      } else {
        assert buffer + reply.bytes == buffer;
      }
      if |buffer| > maxBuffer {
        return Overflow;
      }
      if autoAck {
        reply := Data(buffer);
        buffer := "";
        return;
      }
      reply := Data(buffer);
    }

    method Acknowledge(bytes: U64) returns (done: bool)
      requires Shaped()
      modifies this
      ensures (Value(), done) == Acknowledgements.Acknowledge(old(Value()), bytes)
    {
      if bytes > |buffer| {
        return false;
      }
      buffer := buffer[bytes..];
      done := true;
    }

    method SetAutoAck(on: bool)
      requires Shaped()
      modifies this
      ensures Value() == Ack(old(wrapped.Value()), maxBuffer, on, old(buffer))
    {
      autoAck := on;
    }

    method IsEOF() returns (eof: bool)
      requires Shaped()
      ensures eof == Streams.IsEOF(Value())
      decreases Repr, 0
    {
      eof := wrapped.IsEOF();
      eof := eof && |buffer| == 0;
    }
  }

  class LineBufferDecorator {
    const wrapped: Handle
    var remainder: string
    var remainingLines: seq<string>
    ghost const Repr: set<object>

    ghost predicate Shaped() {
      this !in wrapped.Repr() && Repr == {this} + wrapped.Repr() && wrapped.Shaped()
    }

    ghost function Value(): LineBuffer
      requires Shaped()
      reads Repr
    {
      LineBuffer(wrapped.Value(), remainder, remainingLines)
    }

    constructor (wrapped: Handle)
      requires wrapped.Shaped()
      ensures Shaped() && this.wrapped == wrapped
      ensures Value() == Fresh(wrapped.Value())
    {
      this.wrapped := wrapped;
      remainder := "";
      remainingLines := [];
      Repr := {this} + wrapped.Repr();
    }

    method Receive() returns (reply: Reply)
      requires Shaped() && Streaming(Value().inner)
      modifies Repr
      ensures LineOutcome(Value(), reply) == ReceiveLine(old(Value()))
    {
      if |remainingLines| == 0 {
        var threw := FillRemainder();
        if threw {
          return Overflow;
        }
        SplitRemainder();
        if |remainingLines| == 0 {
          return Data("");
        }
      }
      var ret := remainingLines[0];
      remainingLines := remainingLines[1..];
      reply := Data(ret + [LF]);
    }

    /** The first loop of Receive. */
    method FillRemainder() returns (threw: bool)
      requires Shaped() && Streaming(Value().inner)
      modifies Repr
      ensures Filled(Value().inner, remainder, threw) == Fill(old(Value().inner), old(remainder))
      ensures remainingLines == old(remainingLines)
    {
      threw := false;
      var eof := wrapped.IsEOF();
      while LF !in remainder && !eof
        invariant Streaming(wrapped.Value()) && eof == Streams.IsEOF(wrapped.Value())
        invariant remainingLines == old(remainingLines)
        invariant Fill(wrapped.Value(), remainder) == Fill(old(wrapped.Value()), old(remainder))
        decreases Effort(wrapped.Value())
      {
        ReceiveDelivers(wrapped.Value(), SIZE_MAX);
        var data := wrapped.Receive(SIZE_MAX);
        if data.Overflow? {
          return true;
        }
        if |data.bytes| > 0 {
          remainder := remainder + data.bytes;
        } else {
          return false;
        }
        eof := wrapped.IsEOF();
      }
    }

    /** The second loop of Receive. */
    method SplitRemainder()
      modifies `remainder, `remainingLines
      ensures remainder == SplitLines(old(remainder)).tail
      ensures remainingLines == old(remainingLines) + SplitLines(old(remainder)).lines
    {
      var sz := FindLF(remainder);
      while sz < |remainder|
        invariant sz == FindLF(remainder)
        invariant SplitLines(remainder).tail == SplitLines(old(remainder)).tail
        invariant remainingLines + SplitLines(remainder).lines == old(remainingLines) + SplitLines(old(remainder)).lines
        decreases |remainder|
      {
        var line := if sz > 0 && remainder[sz - 1] == CR then remainder[..sz - 1] else remainder[..sz];
        assert line == Chomp(remainder[..sz]);
        ghost var more := SplitLines(remainder[sz + 1..]).lines;
        assert remainingLines + ([line] + more) == (remainingLines + [line]) + more;
        remainingLines := remainingLines + [line];
        remainder := remainder[sz + 1..];
        sz := FindLF(remainder);
      }
    }

    method IsEOF() returns (eof: bool)
      requires Shaped()
      ensures eof == AtEOF(Value())
    {
      eof := wrapped.IsEOF();
      eof := eof && |remainingLines| == 0;
    }
  }
}
