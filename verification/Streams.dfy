/** The stream adapters of the Docker client. A container's output arrives in
    chunks of any size; what reaches the sink must not depend on the cuts. */
module Streams {
  import opened Wrappers

  // ---- Lines of a stream -------------------------------------------------------

  /** Where the first newline is. */
  function NewlineAt(s: string): (i: Option<nat>)
    ensures i.Some? ==> i.value < |s| && s[i.value] == '\n' && '\n' !in s[..i.value]
    ensures i.None? ==> '\n' !in s
  {
    if s == "" then None
    else if s[0] == '\n' then Some(0)
    else
      match NewlineAt(s[1..])
      case None => assert s == [s[0]] + s[1..]; None
      case Some(i) => assert s[..i + 1] == [s[0]] + s[1..][..i]; Some(i + 1)
  }

  function Unlines(lines: seq<string>): string {
    if lines == [] then "" else lines[0] + "\n" + Unlines(lines[1..])
  }

  /** `lines` are the complete lines of `s` and `rest` what follows them. */
  ghost predicate Splits(s: string, lines: seq<string>, rest: string) {
    s == Unlines(lines) + rest && '\n' !in rest && forall l | l in lines :: '\n' !in l
  }

  lemma FirstLineEnds(line: string, more: string)
    requires '\n' !in line
    ensures NewlineAt(line + "\n" + more) == Some(|line|)
  {
    var s := line + "\n" + more;
    assert s[..|line|] == line;
    NewlineIs(s, |line|);
  }

  lemma {:induction false} NewlineIs(s: string, k: nat)
    requires k < |s| && s[k] == '\n' && '\n' !in s[..k]
    ensures NewlineAt(s) == Some(k)
  {
    if k > 0 {
      assert s[0] == s[..k][0];
      assert s[1..][..k - 1] == s[..k][1..];
      NewlineIs(s[1..], k - 1);
    }
  }

  /** There is one way to cut a stream into complete lines and a rest. */
  lemma {:induction false} SplitIsUnique(s: string, lines: seq<string>, rest: string, lines': seq<string>,
                                         rest': string)
    requires Splits(s, lines, rest) && Splits(s, lines', rest')
    ensures lines == lines' && rest == rest'
  {
    if lines == [] {
      NoLineNoNewline(s, lines, rest);
      if lines' != [] {
        LeadingLine(s, lines', rest');
      }
    } else {
      LeadingLine(s, lines, rest);
      if lines' == [] {
        NoLineNoNewline(s, lines', rest');
      } else {
        LeadingLine(s, lines', rest');
        SplitIsUnique(s[|lines[0]| + 1..], lines[1..], rest, lines'[1..], rest');
        assert lines == [lines[0]] + lines[1..] && lines' == [lines'[0]] + lines'[1..];
      }
    }
  }

  lemma NoLineNoNewline(s: string, lines: seq<string>, rest: string)
    requires Splits(s, lines, rest) && lines == []
    ensures '\n' !in s && s == rest
  {}

  lemma LeadingLine(s: string, lines: seq<string>, rest: string)
    requires Splits(s, lines, rest) && lines != []
    ensures NewlineAt(s) == Some(|lines[0]|) && s[..|lines[0]|] == lines[0]
    ensures Splits(s[|lines[0]| + 1..], lines[1..], rest)
    ensures '\n' in s
  {
    var more := Unlines(lines[1..]) + rest;
    assert s == lines[0] + "\n" + more;
    FirstLineEnds(lines[0], more);
    assert s[|lines[0]|] == '\n';
  }

  // ---- Delivery --------------------------------------------------------------------

  datatype LogLine = LogLine(stream: string, text: string)

  /** What has been delivered, what is buffered, and whether the sink went along. */
  datatype Delivery = Delivery(lines: seq<string>, buf: string, ok: bool)

  /** The sink's answer to the last of the lines it has been given. */
  type Answer = seq<string> -> bool

  /** Delivers the complete lines of `buf` until none is left or the sink stops. */
  function Drain(accepts: Answer, lines: seq<string>, buf: string): Delivery
    decreases |buf|
  {
    match NewlineAt(buf)
    case None => Delivery(lines, buf, true)
    case Some(i) =>
      var given := lines + [buf[..i]];
      if accepts(given) then Drain(accepts, given, buf[i + 1..]) else Delivery(given, buf[i + 1..], false)
  }

  /** Writes the chunks one by one, up to the write the sink stops. */
  function Feed(accepts: Answer, lines: seq<string>, buf: string, chunks: seq<string>): Delivery
    decreases |chunks|
  {
    if chunks == [] then Delivery(lines, buf, true)
    else
      var d := Drain(accepts, lines, buf + chunks[0]);
      if d.ok then Feed(accepts, d.lines, d.buf, chunks[1..]) else d
  }

  function Concat(chunks: seq<string>): string {
    if chunks == [] then "" else chunks[0] + Concat(chunks[1..])
  }

  /** More input changes nothing that has been delivered, and is delivered as if
      it had been there from the start. */
  lemma {:induction false} DrainInTwo(accepts: Answer, lines: seq<string>, buf: string, more: string)
    ensures var first, whole := Drain(accepts, lines, buf), Drain(accepts, lines, buf + more);
      if first.ok then whole == Drain(accepts, first.lines, first.buf + more)
      else whole == first.(buf := first.buf + more)
    decreases |buf|
  {
    match NewlineAt(buf)
    case None =>
    case Some(i) =>
      assert buf + more == buf[..i] + "\n" + (buf[i + 1..] + more);
      FirstLineEnds(buf[..i], buf[i + 1..] + more);
      assert (buf + more)[..i] == buf[..i] && (buf + more)[i + 1..] == buf[i + 1..] + more;
      DrainInTwo(accepts, lines + [buf[..i]], buf[i + 1..], more);
  }

  /** Chunk by chunk or all at once: the same lines, the same verdict, and,
      while the sink goes along, the same buffer. */
  lemma {:induction false} FeedIsDrain(accepts: Answer, lines: seq<string>, buf: string, chunks: seq<string>)
    requires '\n' !in buf
    ensures var d, whole := Feed(accepts, lines, buf, chunks), Drain(accepts, lines, buf + Concat(chunks));
      d.lines == whole.lines && d.ok == whole.ok && (d.ok ==> d.buf == whole.buf) && d.buf <= whole.buf
    decreases |chunks|
  {
    if chunks == [] {
      assert buf + "" == buf;
    } else {
      var more := Concat(chunks[1..]);
      assert buf + Concat(chunks) == buf + chunks[0] + more;
      DrainInTwo(accepts, lines, buf + chunks[0], more);
      var d := Drain(accepts, lines, buf + chunks[0]);
      if d.ok {
        DrainLeavesNoLine(accepts, lines, buf + chunks[0]);
        FeedIsDrain(accepts, d.lines, d.buf, chunks[1..]);
      }
    }
  }

  lemma {:induction false} DrainLeavesNoLine(accepts: Answer, lines: seq<string>, buf: string)
    ensures var d := Drain(accepts, lines, buf); d.ok ==> '\n' !in d.buf
    decreases |buf|
  {
    if NewlineAt(buf).Some? {
      var i := NewlineAt(buf).value;
      DrainLeavesNoLine(accepts, lines + [buf[..i]], buf[i + 1..]);
    }
  }

  /** The cuts of a stream are invisible to the sink. */
  lemma ChunkingIsInvisible(accepts: Answer, chunks: seq<string>, others: seq<string>)
    requires Concat(chunks) == Concat(others)
    ensures var d, e := Feed(accepts, [], "", chunks), Feed(accepts, [], "", others);
      d.lines == e.lines && d.ok == e.ok && (d.ok ==> d.buf == e.buf)
  {
    FeedIsDrain(accepts, [], "", chunks);
    FeedIsDrain(accepts, [], "", others);
  }

  lemma {:induction false} UnlinesJoin(xs: seq<string>, line: string)
    ensures Unlines(xs + [line]) == Unlines(xs) + line + "\n"
  {
    if xs == [] {
      assert [line][1..] == [];
    } else {
      assert (xs + [line])[1..] == xs[1..] + [line];
      UnlinesJoin(xs[1..], line);
    }
  }

  /** Nothing is lost and nothing invented, whether the sink stops or not. */
  lemma {:induction false} DrainConserves(accepts: Answer, lines: seq<string>, buf: string)
    requires forall l | l in lines :: '\n' !in l
    ensures var d := Drain(accepts, lines, buf);
      Unlines(d.lines) + d.buf == Unlines(lines) + buf && lines <= d.lines && forall l | l in d.lines :: '\n' !in l
    decreases |buf|
  {
    if NewlineAt(buf).Some? {
      var i := NewlineAt(buf).value;
      var line, rest := buf[..i], buf[i + 1..];
      UnlinesJoin(lines, line);
      assert buf == line + "\n" + rest;
      assert Unlines(lines) + buf == Unlines(lines + [line]) + rest;
      if accepts(lines + [line]) {
        DrainConserves(accepts, lines + [line], rest);
      }
    }
  }

  /** As long as the sink goes along, it receives exactly the complete lines of
      everything written, however it was cut. */
  lemma FeedDeliversLines(accepts: Answer, chunks: seq<string>)
    ensures var d := Feed(accepts, [], "", chunks);
      if d.ok then Splits(Concat(chunks), d.lines, d.buf)
      else Unlines(d.lines) + d.buf <= Concat(chunks) && !accepts(d.lines)
  {
    hide Feed, Drain, Concat, NewlineAt;
    FeedIsDrain(accepts, [], "", chunks);
    assert "" + Concat(chunks) == Concat(chunks);
    DrainConserves(accepts, [], Concat(chunks));
    DrainLeavesNoLine(accepts, [], Concat(chunks));
    NothingBefore(Concat(chunks));
    var d, whole := Feed(accepts, [], "", chunks), Drain(accepts, [], Concat(chunks));
    if !d.ok {
      StoppedByLast(accepts, [], Concat(chunks));
      PrefixAfter(Unlines(d.lines), d.buf, whole.buf);
    }
  }

  lemma PrefixAfter(a: string, x: string, y: string)
    requires x <= y
    ensures a + x <= a + y
  {}

  lemma NothingBefore(s: string)
    ensures Unlines([]) + s == s
  {}

  lemma {:induction false} StoppedByLast(accepts: Answer, lines: seq<string>, buf: string)
    ensures var d := Drain(accepts, lines, buf); !d.ok ==> d.lines != [] && !accepts(d.lines)
    decreases |buf|
  {
    if NewlineAt(buf).Some? {
      var i := NewlineAt(buf).value;
      StoppedByLast(accepts, lines + [buf[..i]], buf[i + 1..]);
    }
  }

  // ---- The writer --------------------------------------------------------------------

  function Texts(ls: seq<LogLine>): seq<string> {
    seq(|ls|, i requires 0 <= i < |ls| => ls[i].text)
  }

  /** The receiving end, with a record of what it was given. */
  class Sink {
    const accepts: Answer
    var got: seq<LogLine>

    constructor (accepts: Answer)
      ensures this.accepts == accepts && got == []
    {
      this.accepts := accepts;
      got := [];
    }

    method Receive(l: LogLine) returns (ok: bool)
      modifies this
      ensures got == old(got) + [l] && ok == accepts(Texts(got))
    {
      got := got + [l];
      ok := accepts(Texts(got));
    }
  }

  class LineWriter {
    const stream: string
    const sink: Sink
    var buf: string

    constructor (stream: string, sink: Sink)
      ensures this.stream == stream && this.sink == sink && buf == ""
    {
      this.stream := stream;
      this.sink := sink;
      buf := "";
    }

    /** Appends the chunk and hands over every complete line. */
    method Write(p: string) returns (n: nat, ok: bool)
      modifies this, sink
      ensures n == |p|
      ensures Delivery(Texts(sink.got), buf, ok) == old(Drain(sink.accepts, Texts(sink.got), buf + p))
      ensures old(sink.got) <= sink.got && forall i | |old(sink.got)| <= i < |sink.got| :: sink.got[i].stream == stream
    {
      n, ok := |p|, true;
      ghost var start, given := Texts(sink.got), buf + p;
      buf := buf + p;
      while true
        invariant ok
        invariant old(sink.got) <= sink.got
        invariant forall i | |old(sink.got)| <= i < |sink.got| :: sink.got[i].stream == stream
        invariant Drain(sink.accepts, Texts(sink.got), buf) == Drain(sink.accepts, start, given)
        decreases |buf|
      {
        var i := NewlineAt(buf);
        if i.None? {
          break;
        }
        var line := buf[..i.value];
        buf := buf[i.value + 1..];
        assert Texts(sink.got + [LogLine(stream, line)]) == Texts(sink.got) + [line];
        ok := sink.Receive(LogLine(stream, line));
        if !ok {
          return;
        }
      }
    }
  }

  // ---- The bounded buffer ----------------------------------------------------------------

  const STDERR_LIMIT: nat := 16384

  /** The last `n` bytes of `s`, or all of it. */
  function Last(s: string, n: nat): (t: string)
    ensures |t| == if |s| <= n then |s| else n
  {
    if |s| <= n then s else s[|s| - n..]
  }

  /** What was dropped before stays dropped: keeping the tail of a tail is
      keeping the tail of everything. */
  lemma LastOfLast(s: string, p: string, n: nat)
    ensures Last(Last(s, n) + p, n) == Last(s + p, n)
  {
    var kept := Last(s, n);
    assert |s| > n ==> s + p == s[..|s| - n] + (kept + p);
  }

  /** Writing in chunks keeps what writing at once keeps. */
  function Kept(held: string, chunks: seq<string>): string
    decreases |chunks|
  {
    if chunks == [] then held else Kept(Last(held + chunks[0], STDERR_LIMIT), chunks[1..])
  }

  lemma {:induction false} KeepsTheTail(s: string, chunks: seq<string>)
    ensures Kept(Last(s, STDERR_LIMIT), chunks) == Last(s + Concat(chunks), STDERR_LIMIT)
    decreases |chunks|
  {
    if chunks == [] {
      assert s + "" == s;
    } else {
      LastOfLast(s, chunks[0], STDERR_LIMIT);
      KeepsTheTail(s + chunks[0], chunks[1..]);
      assert s + Concat(chunks) == s + chunks[0] + Concat(chunks[1..]);
    }
  }

  /** Whatever the writes, the buffer holds the last bytes of the whole stream. */
  lemma BufferHoldsTheTail(chunks: seq<string>)
    ensures Kept("", chunks) == Last(Concat(chunks), STDERR_LIMIT)
    ensures |Kept("", chunks)| == if |Concat(chunks)| <= 16384 then |Concat(chunks)| else 16384
  {
    KeepsTheTail("", chunks);
    assert "" + Concat(chunks) == Concat(chunks);
  }

  class BoundedBuffer {
    var buf: string
    ghost var written: string

    ghost predicate Valid()
      reads this
    {
      buf == Last(written, STDERR_LIMIT)
    }

    constructor ()
      ensures Valid() && written == ""
    {
      buf := "";
      written := "";
    }

    method Write(p: string) returns (n: nat)
      requires Valid()
      modifies this
      ensures Valid() && written == old(written) + p && n == |p|
      ensures buf == Kept(old(buf), [p])
    {
      LastOfLast(written, p, STDERR_LIMIT);
      buf := buf + p;
      var over := |buf| - STDERR_LIMIT;
      if over > 0 {
        buf := buf[over..];
      }
      written := written + p;
      n := |p|;
    }

    method Read() returns (s: string)
      requires Valid()
      ensures s == Last(written, STDERR_LIMIT)
    {
      s := buf;
    }
  }
}
