/**
 The pure meaning of line splitting: what LineBufferDecorator::Receive makes of a
 string of bytes, whatever the pieces those bytes arrived in.
 */
module Lines {

  const LF: char := '\n'
  const CR: char := '\r'

  /** The complete lines of a string, stripped of LF and CRLF, and what follows the last LF. */
  datatype Split = Split(lines: seq<string>, tail: string)

  /** The position of the first LF, or the length of the string when there is none. */
  function FindLF(s: string): (i: nat)
    ensures i <= |s|
    ensures forall j :: 0 <= j < i ==> s[j] != LF
    ensures i < |s| ==> s[i] == LF
  {
    if s == [] || s[0] == LF then 0 else 1 + FindLF(s[1..])
  }

  predicate EndsWithCR(s: string) {
    s != [] && s[|s| - 1] == CR
  }

  /** A line without the one CR that may precede its LF. */
  function Chomp(s: string): string {
    if EndsWithCR(s) then s[..|s| - 1] else s
  }

  function SplitLines(s: string): Split
    decreases |s|
  {
    var i := FindLF(s);
    if i == |s| then Split([], s)
    else
      var rest := SplitLines(s[i + 1..]);
      Split([Chomp(s[..i])] + rest.lines, rest.tail)
  }

  lemma FindLFIs(s: string, i: nat)
    requires i <= |s|
    requires forall j :: 0 <= j < i ==> s[j] != LF
    requires i < |s| ==> s[i] == LF
    ensures FindLF(s) == i
  {
  }

  lemma NoLF(s: string)
    requires LF !in s
    ensures SplitLines(s) == Split([], s)
  {
    FindLFIs(s, |s|);
  }

  /** The bytes kept back never contain an LF. */
  lemma {:induction false} TailHasNoLF(s: string)
    ensures LF !in SplitLines(s).tail
    decreases |s|
  {
    var i := FindLF(s);
    if i < |s| {
      TailHasNoLF(s[i + 1..]);
      assert SplitLines(s).tail == SplitLines(s[i + 1..]).tail;
    }
  }

  /** No line ever contains an LF. */
  lemma {:induction false} LinesHaveNoLF(s: string)
    ensures forall k :: 0 <= k < |SplitLines(s).lines| ==> LF !in SplitLines(s).lines[k]
    decreases |s|
  {
    var i := FindLF(s);
    if i < |s| {
      LinesHaveNoLF(s[i + 1..]);
    }
  }

  lemma SplitFirst(s: string, i: nat)
    requires i < |s| && s[i] == LF && forall j :: 0 <= j < i ==> s[j] != LF
    ensures SplitLines(s).lines == [Chomp(s[..i])] + SplitLines(s[i + 1..]).lines
    ensures SplitLines(s).tail == SplitLines(s[i + 1..]).tail
  {
    FindLFIs(s, i);
  }

  /** What the decorator does with more bytes: it splits the kept tail and the new bytes together. */
  function Resume(sp: Split, more: string): Split {
    var next := SplitLines(sp.tail + more);
    Split(sp.lines + next.lines, next.tail)
  }

  lemma ResumePrepend(first: seq<string>, sp: Split, more: string)
    ensures Resume(Split(first + sp.lines, sp.tail), more)
         == Split(first + Resume(sp, more).lines, Resume(sp, more).tail)
  {
    var next := SplitLines(sp.tail + more).lines;
    assert (first + sp.lines) + next == first + (sp.lines + next);
  }

  /** Splitting piece by piece, carrying the tail over, is splitting the whole. */
  lemma {:induction false} SplitAppend(a: string, b: string)
    ensures SplitLines(a + b) == Resume(SplitLines(a), b)
    decreases |a|
  {
    var i := FindLF(a);
    if i < |a| {
      SplitAppend(a[i + 1..], b);
      SplitAppendFirst(a, b, i);
      ResumePrepend([Chomp(a[..i])], SplitLines(a[i + 1..]), b);
    } else {
      ResumeNothing(a, b);
    }
  }

  lemma ResumeNothing(a: string, b: string)
    requires FindLF(a) == |a|
    ensures SplitLines(a + b) == Resume(SplitLines(a), b)
  {
    assert [] + SplitLines(a + b).lines == SplitLines(a + b).lines;
  }

  /** Taking a apart before a position in it does not see what is appended. */
  lemma AppendedSlices(a: string, b: string, i: nat)
    requires i < |a|
    ensures (a + b)[..i] == a[..i] && (a + b)[i + 1..] == a[i + 1..] + b
    ensures (a + b)[i] == a[i] && forall j :: 0 <= j < i ==> (a + b)[j] == a[j]
  {
  }

  lemma SplitAppendFirst(a: string, b: string, i: nat)
    requires i < |a| && a[i] == LF && forall j :: 0 <= j < i ==> a[j] != LF
    ensures SplitLines(a).lines == [Chomp(a[..i])] + SplitLines(a[i + 1..]).lines
    ensures SplitLines(a).tail == SplitLines(a[i + 1..]).tail
    ensures SplitLines(a + b).lines == [Chomp(a[..i])] + SplitLines(a[i + 1..] + b).lines
    ensures SplitLines(a + b).tail == SplitLines(a[i + 1..] + b).tail
  {
    SplitFirst(a, i);
    AppendedSlices(a, b, i);
    SplitFirst(a + b, i);
  }

  // ---------------------------------------------------------------- round trip

  datatype Ending = BareLF | CRLF

  function Terminator(e: Ending): string {
    if e.CRLF? then [CR, LF] else [LF]
  }

  /** The lines as a peer writes them, each with its own kind of line ending. */
  function Written(lines: seq<string>, ends: seq<Ending>): string
    requires |lines| == |ends|
  {
    if lines == [] then "" else lines[0] + Terminator(ends[0]) + Written(lines[1..], ends[1..])
  }

  /** The line survives being written with this ending and split again. */
  predicate Faithful(line: string, e: Ending) {
    LF !in line && (e.CRLF? || !EndsWithCR(line))
  }

  function CountLF(s: string): nat {
    if s == [] then 0 else (if s[0] == LF then 1 else 0) + CountLF(s[1..])
  }

  lemma {:induction false} CountLFAppend(a: string, b: string)
    ensures CountLF(a + b) == CountLF(a) + CountLF(b)
  {
    if a == [] {
      assert a + b == b;
    } else {
      assert (a + b)[1..] == a[1..] + b;
      CountLFAppend(a[1..], b);
    }
  }

  lemma {:induction false} CountLFZero(s: string)
    ensures CountLF(s) == 0 <==> LF !in s
  {
    if s != [] {
      CountLFZero(s[1..]);
      assert s == [s[0]] + s[1..];
    }
  }

  /** One line is recognised for every LF, no more and no fewer. */
  lemma {:induction false} OneLinePerLF(s: string)
    ensures |SplitLines(s).lines| == CountLF(s)
    decreases |s|
  {
    var i := FindLF(s);
    if i == |s| {
      CountLFZero(s);
    } else {
      assert s == s[..i] + s[i..];
      CountLFAppend(s[..i], s[i..]);
      CountLFZero(s[..i]);
      assert s[i..][1..] == s[i + 1..];
      OneLinePerLF(s[i + 1..]);
    }
  }

  lemma {:induction false} CountLFWritten(lines: seq<string>, ends: seq<Ending>)
    requires |lines| == |ends|
    ensures CountLF(Written(lines, ends)) >= |lines|
  {
    if lines != [] {
      var t, w := Terminator(ends[0]), Written(lines[1..], ends[1..]);
      CountLFAppend(lines[0] + t, w);
      CountLFAppend(lines[0], t);
      assert t[1..] == [] || t[1..] == [LF];
      CountLFWritten(lines[1..], ends[1..]);
    }
  }

  /** Splitting a written line off the front of the text. */
  lemma SplitWrittenLine(line: string, e: Ending, rest: string)
    requires LF !in line
    ensures SplitLines(line + Terminator(e) + rest)
         == Split([Chomp(if e.CRLF? then line + [CR] else line)] + SplitLines(rest).lines, SplitLines(rest).tail)
  {
    var s := line + Terminator(e) + rest;
    var i := if e.CRLF? then |line| + 1 else |line|;
    assert s[..i] == if e.CRLF? then line + [CR] else line;
    FindLFIs(s, i);
    assert s[i + 1..] == rest;
  }

  /**
   What a peer writes line by line is read back line by line exactly when no line contains
   an LF and no line ending in CR is terminated by a bare LF.
   */
  lemma {:induction false} RoundTrip(lines: seq<string>, ends: seq<Ending>)
    requires |lines| == |ends|
    ensures SplitLines(Written(lines, ends)) == Split(lines, "")
       <==> forall i :: 0 <= i < |lines| ==> Faithful(lines[i], ends[i])
  {
    if lines == [] {
      assert FindLF("") == 0;
    } else {
      var line, e := lines[0], ends[0];
      var w := Written(lines[1..], ends[1..]);
      if LF in line {
        CountLFZero(line);
        CountLFAppend(line + Terminator(e), w);
        CountLFAppend(line, Terminator(e));
        assert Terminator(e)[1..] == [] || Terminator(e)[1..] == [LF];
        CountLFWritten(lines[1..], ends[1..]);
        OneLinePerLF(Written(lines, ends));
        assert !Faithful(lines[0], ends[0]);
      } else {
        SplitWrittenLine(line, e, w);
        var first := Chomp(if e.CRLF? then line + [CR] else line);
        assert first == line <==> Faithful(line, e);
        RoundTrip(lines[1..], ends[1..]);
        RestIsFaithful(lines, ends);
        SplitHead(first, SplitLines(w), lines);
      }
    }
  }

  lemma RestIsFaithful(lines: seq<string>, ends: seq<Ending>)
    requires |lines| == |ends| > 0
    ensures (forall i :: 0 <= i < |lines| ==> Faithful(lines[i], ends[i]))
       <==> Faithful(lines[0], ends[0]) && forall i :: 0 <= i < |lines[1..]| ==> Faithful(lines[1..][i], ends[1..][i])
  {
    if forall i :: 0 <= i < |lines[1..]| ==> Faithful(lines[1..][i], ends[1..][i]) {
      forall i | 1 <= i < |lines| ensures Faithful(lines[i], ends[i]) {
        assert Faithful(lines[1..][i - 1], ends[1..][i - 1]);
      }
    }
  }

  lemma SplitHead(first: string, rest: Split, lines: seq<string>)
    requires lines != []
    ensures Split([first] + rest.lines, rest.tail) == Split(lines, "")
       <==> first == lines[0] && rest == Split(lines[1..], "")
  {
    assert lines == [lines[0]] + lines[1..];
    assert ([first] + rest.lines)[1..] == rest.lines;
    assert ([first] + rest.lines)[0] == first;
  }

  // ---------------------------------------------------------------- accounting

  /** The number of CRLF pairs. */
  function CountCRLF(s: string): nat {
    if |s| < 2 then 0
    else (if s[0] == CR && s[1] == LF then 1 else 0) + CountCRLF(s[1..])
  }

  /** The number of bytes the caller receives for these lines, one LF each included. */
  function LineBytes(lines: seq<string>): nat {
    if lines == [] then 0 else |lines[0]| + 1 + LineBytes(lines[1..])
  }

  lemma {:induction false} LineBytesAppend(a: seq<string>, b: seq<string>)
    ensures LineBytes(a + b) == LineBytes(a) + LineBytes(b)
  {
    if a == [] {
      assert a + b == b;
    } else {
      assert (a + b)[1..] == a[1..] + b;
      LineBytesAppend(a[1..], b);
    }
  }

  lemma {:induction false} CountCRLFNoLF(s: string)
    requires LF !in s
    ensures CountCRLF(s) == 0
  {
    if |s| >= 2 {
      assert s[1] in s;
      CountCRLFNoLF(s[1..]);
    }
  }

  lemma {:induction false} CountCRLFFirstLine(s: string, i: nat)
    requires i < |s| && s[i] == LF && forall j :: 0 <= j < i ==> s[j] != LF
    ensures CountCRLF(s) == (if EndsWithCR(s[..i]) then 1 else 0) + CountCRLF(s[i + 1..])
  {
    if i == 0 {
    } else {
      assert s[1..][..i - 1] == s[..i][1..];
      assert s[1..][i..] == s[i + 1..];
      CountCRLFFirstLine(s[1..], i - 1);
    }
  }

  /** Nothing is lost but one CR per CRLF. */
  lemma {:induction false} Accounting(s: string)
    ensures |s| == LineBytes(SplitLines(s).lines) + |SplitLines(s).tail| + CountCRLF(s)
    decreases |s|
  {
    var i := FindLF(s);
    if i == |s| {
      CountCRLFNoLF(s);
    } else {
      var line, rest := s[..i], s[i + 1..];
      CountCRLFFirstLine(s, i);
      Accounting(rest);
      assert SplitLines(s).lines == [Chomp(line)] + SplitLines(rest).lines;
      LineBytesAppend([Chomp(line)], SplitLines(rest).lines);
      assert LineBytes([Chomp(line)]) == |Chomp(line)| + 1;
    }
  }
}
