/**
 * streamWriter of wrapper/io_streams.go with no filter configured: each Write emits
 * the chunk it was given and one event per line it completes.
 */
module StreamWriter {
  import opened Bytes
  import opened Lists

  const NEWLINE: Byte := 10
  const RETURN: Byte := 13

  datatype Event = Raw(bytes: seq<Byte>, offset: nat) | Line(text: seq<Byte>, offset: nat)

  // ---- how a byte stream reads ------------------------------------------------------------

  /** What follows the last newline. */
  function Tail(s: seq<Byte>): seq<Byte> {
    if s == [] || Last(s) == NEWLINE then [] else Tail(Front(s)) + [Last(s)]
  }

  /** The stretches that end in a newline, without it. */
  function Split(s: seq<Byte>): seq<seq<Byte>> {
    if s == [] then []
    else if Last(s) == NEWLINE then Split(Front(s)) + [Tail(Front(s))]
    else Split(Front(s))
  }

  /** The line without the one carriage return it may end in. */
  function TrimReturn(line: seq<Byte>): (r: seq<Byte>)
    ensures if exists front: seq<Byte> :: line == front + [RETURN] then line == r + [RETURN] else line == r
  {
    if line != [] && Last(line) == RETURN then Front(line) else line
  }

  /** Lines, each put back before its newline. */
  function Joined(lines: seq<seq<Byte>>): seq<Byte> {
    if lines == [] then [] else Joined(Front(lines)) + Last(lines) + [NEWLINE]
  }

  /** Split and Tail cut the stream at its newlines and lose nothing. */
  lemma {:induction false} SplitIsExact(s: seq<Byte>)
    ensures Joined(Split(s)) + Tail(s) == s
  {
    if s != [] {
      var f, b := Front(s), Last(s);
      SplitIsExact(f);
      assert s == f + [b];
      if b == NEWLINE {
        assert Joined(Split(s)) + [] == Joined(Split(s));
      } else {
        assert Joined(Split(f)) + (Tail(f) + [b]) == Joined(Split(f)) + Tail(f) + [b];
      }
    }
  }

  /** Nothing Split or Tail yields has a newline in it. */
  lemma {:induction false} SplitHasNoNewline(s: seq<Byte>)
    ensures NEWLINE !in Tail(s)
    ensures forall line :: line in Split(s) ==> NEWLINE !in line
  {
    if s != [] { SplitHasNoNewline(Front(s)); }
  }

  lemma SplitOne(s: seq<Byte>, b: Byte)
    ensures Split(s + [b]) == (if b == NEWLINE then Split(s) + [Tail(s)] else Split(s))
    ensures Tail(s + [b]) == (if b == NEWLINE then [] else Tail(s) + [b])
  {
  }

  lemma Assoc<T>(a: seq<T>, b: seq<T>, x: T)
    ensures a + (b + [x]) == (a + b) + [x]
  {
  }

  /** One byte more of what follows s. */
  lemma SplitExtendsOne(s: seq<Byte>, u: seq<Byte>, b: Byte)
    requires Split(s + u) == Split(s) + Split(Tail(s) + u) && Tail(s + u) == Tail(Tail(s) + u)
    ensures Split(s + (u + [b])) == Split(s) + Split(Tail(s) + (u + [b]))
    ensures Tail(s + (u + [b])) == Tail(Tail(s) + (u + [b]))
  {
    Assoc(s, u, b);
    Assoc(Tail(s), u, b);
    SplitOne(s + u, b);
    SplitOne(Tail(s) + u, b);
    Assoc(Split(s), Split(Tail(s) + u), Tail(Tail(s) + u));
  }

  /** Reading more of the stream completes lines from the tail on. */
  lemma {:induction false} SplitExtends(s: seq<Byte>, t: seq<Byte>)
    ensures Split(s + t) == Split(s) + Split(Tail(s) + t)
    ensures Tail(s + t) == Tail(Tail(s) + t)
    decreases |t|
  {
    if t == [] {
      assert s + t == s && Tail(s) + t == Tail(s);
      TailHasNoLines(s);
    } else {
      SplitExtends(s, Front(t));
      SplitExtendsOne(s, Front(t), Last(t));
      assert t == Front(t) + [Last(t)];
    }
  }

  lemma {:induction false} TailHasNoLines(s: seq<Byte>)
    ensures Split(Tail(s)) == [] && Tail(Tail(s)) == Tail(s)
  {
    if s != [] && Last(s) != NEWLINE {
      TailHasNoLines(Front(s));
      SplitOne(Tail(Front(s)), Last(s));
    }
  }

  lemma SplitHead(line: seq<Byte>, rest: seq<Byte>)
    requires NEWLINE !in line
    ensures Split(line + [NEWLINE] + rest) == [line] + Split(rest)
    ensures Tail(line + [NEWLINE] + rest) == Tail(rest)
  {
    Unbroken(line);
    SplitOne(line, NEWLINE);
    SplitExtends(line + [NEWLINE], rest);
    assert [] + rest == rest && [] + [line] == [line];
  }

  /** With the first newline of s at i. */
  lemma SplitFirst(s: seq<Byte>, i: nat)
    requires i < |s| && NEWLINE !in s[..i] && s[i] == NEWLINE
    ensures Split(s) == [s[..i]] + Split(s[i + 1..]) && Tail(s) == Tail(s[i + 1..])
  {
    assert s == s[..i] + [NEWLINE] + s[i + 1..];
    SplitHead(s[..i], s[i + 1..]);
  }

  lemma {:induction false} Unbroken(s: seq<Byte>)
    requires NEWLINE !in s
    ensures Split(s) == [] && Tail(s) == s
  {
    if s != [] {
      assert Last(s) in s;
      assert forall b :: b in Front(s) ==> b in s;
      Unbroken(Front(s));
    }
  }

  // ---- one Write --------------------------------------------------------------------------

  /** One event a line, each line's offset after the lines before it. */
  function LineEvents(lines: seq<seq<Byte>>, offset: nat): (events: seq<Event>)
    ensures |events| == |lines|
  {
    seq(|lines|, k requires 0 <= k < |lines| => Line(TrimReturn(lines[k]), offset + |Joined(lines[..k])|))
  }

  datatype State = State(offset: nat, lineBuf: seq<Byte>, emitted: seq<Event>)

  const START := State(0, [], [])

  function AfterWrite(s: State, p: seq<Byte>): State {
    if p == [] then s
    else State(s.offset + |p|, Tail(s.lineBuf + p),
               s.emitted + [Raw(p, s.offset)] + LineEvents(Split(s.lineBuf + p), s.offset))
  }

  class Writer {
    var offset: nat
    var lineBuf: seq<Byte>
    var emitted: seq<Event>

    constructor ()
      ensures View() == START
    {
      offset, lineBuf, emitted := 0, [], [];
    }

    ghost function View(): State
      reads this
    {
      State(offset, lineBuf, emitted)
    }

    method Write(p: seq<Byte>) returns (n: nat)
      modifies this
      ensures n == |p|
      ensures View() == AfterWrite(old(View()), p)
    {
      if |p| == 0 {
        return 0;
      }
      var chunkOffset := offset;
      offset := offset + |p|;
      emitted := emitted + [Raw(p, chunkOffset)];
      lineBuf := lineBuf + p;
      EmitCompleteLines(chunkOffset);
      return |p|;
    }

    /** Write's loop: one event per newline in the buffer. */
    method EmitCompleteLines(chunkOffset: nat)
      modifies this`lineBuf, this`emitted
      ensures lineBuf == Tail(old(lineBuf))
      ensures emitted == old(emitted) + LineEvents(Split(old(lineBuf)), chunkOffset)
    {
      ghost var done: seq<seq<Byte>> := [];
      assert emitted + LineEvents(done, chunkOffset) == emitted && done + Split(lineBuf) == Split(lineBuf);
      var lineStart: nat := chunkOffset;
      var i: nat := FirstNewline(lineBuf);
      while i < |lineBuf|
        invariant i <= |lineBuf| && NEWLINE !in lineBuf[..i] && (i < |lineBuf| ==> lineBuf[i] == NEWLINE)
        invariant done + Split(lineBuf) == Split(old(lineBuf)) && Tail(lineBuf) == Tail(old(lineBuf))
        invariant lineStart == chunkOffset + |Joined(done)|
        invariant emitted == old(emitted) + LineEvents(done, chunkOffset)
        decreases |lineBuf|
      {
        ConsumeLine(done, lineBuf, i, chunkOffset);
        Assoc(old(emitted), LineEvents(done, chunkOffset), Line(TrimReturn(lineBuf[..i]), lineStart));
        done := done + [lineBuf[..i]];
        emitted := emitted + [Line(TrimReturn(lineBuf[..i]), lineStart)];
        lineStart := lineStart + i + 1;
        lineBuf := lineBuf[i + 1..];
        i := FirstNewline(lineBuf);
      }
      assert lineBuf[..i] == lineBuf;
      Unbroken(lineBuf);
      assert done + [] == done;
    }
  }

  /** One round of Write's loop. */
  lemma ConsumeLine(done: seq<seq<Byte>>, buffer: seq<Byte>, i: nat, offset: nat)
    requires i < |buffer| && NEWLINE !in buffer[..i] && buffer[i] == NEWLINE
    ensures var line := buffer[..i]; var rest := buffer[i + 1..];
      && done + [line] + Split(rest) == done + Split(buffer) && Tail(rest) == Tail(buffer)
      && |Joined(done + [line])| == |Joined(done)| + i + 1
      && LineEvents(done + [line], offset) == LineEvents(done, offset) + [Line(TrimReturn(line), offset + |Joined(done)|)]
  {
    SplitFirst(buffer, i);
    LineEventsGrow(done, buffer[..i], offset);
    assert done + [buffer[..i]] + Split(buffer[i + 1..]) == done + ([buffer[..i]] + Split(buffer[i + 1..]));
  }

  lemma LineEventsGrow(lines: seq<seq<Byte>>, line: seq<Byte>, offset: nat)
    ensures LineEvents(lines + [line], offset)
         == LineEvents(lines, offset) + [Line(TrimReturn(line), offset + |Joined(lines)|)]
  {
    var more := lines + [line];
    assert more[..|lines|] == lines;
    forall k | 0 <= k < |lines| ensures more[..k] == lines[..k] {}
  }

  /** bytes.IndexByte for a newline; the length when there is none. */
  method FirstNewline(s: seq<Byte>) returns (i: nat)
    ensures i <= |s| && NEWLINE !in s[..i] && (i < |s| ==> s[i] == NEWLINE)
  {
    i := 0;
    while i < |s| && s[i] != NEWLINE
      invariant i <= |s| && NEWLINE !in s[..i]
    {
      i := i + 1;
    }
  }

  // ---- any sequence of Writes -----------------------------------------------------------------

  function AfterAll(chunks: seq<seq<Byte>>): State {
    if chunks == [] then START else AfterWrite(AfterAll(Front(chunks)), Last(chunks))
  }

  function Concat(chunks: seq<seq<Byte>>): seq<Byte> {
    if chunks == [] then [] else Concat(Front(chunks)) + Last(chunks)
  }

  /** The text of the line events. */
  function Lines(events: seq<Event>): seq<seq<Byte>> {
    if events == [] then []
    else if Last(events).Line? then Lines(Front(events)) + [Last(events).text]
    else Lines(Front(events))
  }

  /** The bytes of the raw events, one after another. */
  function RawBytes(events: seq<Event>): seq<Byte> {
    if events == [] then []
    else if Last(events).Raw? then RawBytes(Front(events)) + Last(events).bytes
    else RawBytes(Front(events))
  }

  function Trimmed(lines: seq<seq<Byte>>): seq<seq<Byte>> {
    seq(|lines|, i requires 0 <= i < |lines| => TrimReturn(lines[i]))
  }

  lemma TrimmedConcat(a: seq<seq<Byte>>, b: seq<seq<Byte>>)
    ensures Trimmed(a + b) == Trimmed(a) + Trimmed(b)
  {
  }

  lemma OneLine(events: seq<Event>, lines: seq<seq<Byte>>, line: seq<Byte>, offset: nat)
    ensures Lines(events + LineEvents(lines + [line], offset)) == Lines(events + LineEvents(lines, offset)) + [TrimReturn(line)]
    ensures RawBytes(events + LineEvents(lines + [line], offset)) == RawBytes(events + LineEvents(lines, offset))
  {
    var last := Line(TrimReturn(line), offset + |Joined(lines)|);
    LineEventsGrow(lines, line, offset);
    assert events + LineEvents(lines + [line], offset) == (events + LineEvents(lines, offset)) + [last];
  }

  /** What a Write's events say. */
  lemma {:induction false} EmitLines(emitted: seq<Event>, lines: seq<seq<Byte>>, offset: nat)
    ensures Lines(emitted + LineEvents(lines, offset)) == Lines(emitted) + Trimmed(lines)
    ensures RawBytes(emitted + LineEvents(lines, offset)) == RawBytes(emitted)
  {
    if lines == [] {
      assert emitted + LineEvents(lines, offset) == emitted;
      assert Lines(emitted) + Trimmed(lines) == Lines(emitted);
    } else {
      var rest, last := Front(lines), Last(lines);
      EmitLines(emitted, rest, offset);
      OneLine(emitted, rest, last, offset);
      assert lines == rest + [last];
      assert Lines(emitted) + Trimmed(rest) + [TrimReturn(last)] == Lines(emitted) + (Trimmed(rest) + [TrimReturn(last)]);
    }
  }

  /** However the stream was chunked: the lines are its newline split with one carriage
      return trimmed off each, the buffer is its newline-free tail, the raw events hold
      it byte for byte, and the offset is its length. */
  lemma {:induction false} WritesReadTheStream(chunks: seq<seq<Byte>>)
    ensures var s := AfterAll(chunks); var stream := Concat(chunks);
      && Lines(s.emitted) == Trimmed(Split(stream))
      && s.lineBuf == Tail(stream)
      && RawBytes(s.emitted) == stream
      && s.offset == |stream|
  {
    if chunks != [] {
      WritesReadTheStream(Front(chunks));
      var stream := Concat(Front(chunks));
      if Last(chunks) == [] {
        assert stream + [] == stream;
      } else {
        WriteReads(AfterAll(Front(chunks)), stream, Last(chunks));
      }
    }
  }

  lemma WriteReads(s: State, stream: seq<Byte>, p: seq<Byte>)
    requires p != [] && s.lineBuf == Tail(stream) && s.offset == |stream|
    requires Lines(s.emitted) == Trimmed(Split(stream)) && RawBytes(s.emitted) == stream
    ensures var t := AfterWrite(s, p);
      && Lines(t.emitted) == Trimmed(Split(stream + p)) && t.lineBuf == Tail(stream + p)
      && RawBytes(t.emitted) == stream + p
  {
    SplitExtends(stream, p);
    EmitLines(s.emitted + [Raw(p, s.offset)], Split(s.lineBuf + p), s.offset);
    TrimmedConcat(Split(stream), Split(s.lineBuf + p));
  }

  /** Two chunkings of one stream give the same lines and leave the same buffer. */
  lemma ChunkingDoesNotMatter(a: seq<seq<Byte>>, b: seq<seq<Byte>>)
    requires Concat(a) == Concat(b)
    ensures Lines(AfterAll(a).emitted) == Lines(AfterAll(b).emitted)
    ensures AfterAll(a).lineBuf == AfterAll(b).lineBuf
  {
    WritesReadTheStream(a);
    WritesReadTheStream(b);
  }

  /** Every raw event's offset is the number of bytes before it. */
  lemma {:induction false} RawOffsetsAreExact(chunks: seq<seq<Byte>>, k: nat)
    requires k < |AfterAll(chunks).emitted| && AfterAll(chunks).emitted[k].Raw?
    ensures AfterAll(chunks).emitted[k].offset == |RawBytes(AfterAll(chunks).emitted[..k])|
  {
    var s := AfterAll(Front(chunks));
    var t := AfterAll(chunks);
    if Last(chunks) == [] || k < |s.emitted| {
      RawOffsetsAreExact(Front(chunks), k);
      assert t.emitted[..k] == s.emitted[..k];
    } else {
      WritesReadTheStream(Front(chunks));
      assert t.emitted[..|s.emitted|] == s.emitted;
    }
  }

  // ---- line offsets --------------------------------------------------------------------------

  /** Where the k-th line of a stream starts: after the lines before it. */
  function LineStart(stream: seq<Byte>, k: nat): nat
    requires k < |Split(stream)|
  {
    |Joined(Split(stream)[..k])|
  }

  lemma {:induction false} JoinedConcat(a: seq<seq<Byte>>, b: seq<seq<Byte>>)
    ensures |Joined(a + b)| == |Joined(a)| + |Joined(b)|
  {
    if b == [] {
      assert a + b == a;
    } else {
      JoinedConcat(a, Front(b));
      assert a + b == (a + Front(b)) + [Last(b)];
    }
  }

  /** A Write that comes after `before` was read finds its tail buffered and its length
      as the offset. It reports each line it completes at the line's true start plus
      the bytes that were buffered: exactly if and only if nothing was. */
  lemma LineOffsetsAreApproximate(before: seq<Byte>, p: seq<Byte>, k: nat)
    requires k < |Split(Tail(before) + p)|
    ensures |Split(before)| + k < |Split(before + p)|
    ensures var reported := LineEvents(Split(Tail(before) + p), |before|)[k].offset;
      var start := LineStart(before + p, |Split(before)| + k);
      reported == start + |Tail(before)| && (reported == start <==> Tail(before) == [])
  {
    var done, next := Split(before), Split(Tail(before) + p);
    SplitExtends(before, p);
    Prefix(done, next, k);
    JoinedConcat(done, next[..k]);
    SplitIsExact(before);
    assert |Joined(done)| + |Tail(before)| == |before|;
  }

  lemma TwoLines(x: Byte, y: Byte)
    requires x != NEWLINE && y != NEWLINE
    ensures Split([x] + [NEWLINE, y, NEWLINE]) == [[x], [y]] && Tail([x] + [NEWLINE, y, NEWLINE]) == []
  {
    LoneLine(y);
    SplitHead([x], [y, NEWLINE]);
    assert [x] + [NEWLINE] + [y, NEWLINE] == [x] + [NEWLINE, y, NEWLINE];
  }

  lemma LoneLine(y: Byte)
    requires y != NEWLINE
    ensures Split([y, NEWLINE]) == [[y]] && Tail([y, NEWLINE]) == []
  {
    Unbroken([y]);
    SplitOne([y], NEWLINE);
    assert [y] + [NEWLINE] == [y, NEWLINE];
  }

  lemma TwoLineEvents(x: Byte, y: Byte, offset: nat)
    requires x != RETURN && y != RETURN
    ensures LineEvents([[x], [y]], offset) == [Line([x], offset), Line([y], offset + 2)]
    ensures |Joined([[x], [y]][..1])| == 2
  {
    assert [[x], [y]][..0] == [] && [[x], [y]][..1] == [[x]] && Front([[x]]) == [];
    assert Joined([[x]]) == [] + [x] + [NEWLINE];
  }

  /** A line that began in its own Write is reported a byte late all the same, if a byte was
      buffered when the Write began: a byte is written, then a newline and a line of its own. */
  lemma LaterLinesAreOffToo(x: Byte, y: Byte)
    requires x != NEWLINE && x != RETURN && y != NEWLINE && y != RETURN
    ensures var stream := [x] + [NEWLINE, y, NEWLINE];
      && AfterAll([[x], [NEWLINE, y, NEWLINE]]).emitted
        == [Raw([x], 0)] + [Raw([NEWLINE, y, NEWLINE], 1)] + [Line([x], 1), Line([y], 3)]
      && Split(stream) == [[x], [y]] && LineStart(stream, 1) == 2
  {
    TwoLines(x, y);
    TwoLineEvents(x, y, 1);
    OneByteBuffered(x);
    assert Front([[x], [NEWLINE, y, NEWLINE]]) == [[x]];
  }

  lemma OneByteBuffered(x: Byte)
    requires x != NEWLINE
    ensures AfterAll([[x]]) == State(1, [x], [Raw([x], 0)])
  {
    Unbroken([x]);
    assert Front([[x]]) == [] && [] + [x] == [x] && LineEvents([], 0) == [];
  }

  lemma Prefix<T>(a: seq<T>, b: seq<T>, k: nat)
    requires k <= |b|
    ensures (a + b)[..|a| + k] == a + b[..k]
  {
  }
}
