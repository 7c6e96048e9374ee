/**
 * The Docker log source: demultiplex frames into two accumulators, peel the timestamp off each
 * complete line and write it to that stream's pipe as one CRI log line.
 */
module LogSource {
  import opened Bytes
  import opened Lines
  import opened Framing
  import opened Wrappers

  const STDOUT_NAME: seq<byte> := [115, 116, 100, 111, 117, 116]
  const STDERR_NAME: seq<byte> := [115, 116, 100, 101, 114, 114]
  const FULL: seq<byte> := [SP, 70, SP]

  /**
   * The timestamp parser, and the clock as the stamps given to the successive lines of a
   * stream that carry none of their own.
   */
  datatype Clock = Clock(isStamp: seq<byte> -> bool, now: nat -> seq<byte>)

  predicate NoSpace(s: seq<byte>) { forall j :: 0 <= j < |s| ==> s[j] != SP }

  /** Formatted times contain neither spaces nor newlines. */
  ghost predicate ValidClock(c: Clock) { forall n :: Clean(c.now(n)) && NoSpace(c.now(n)) }

  function IndexSP(s: seq<byte>): (i: int)
    ensures -1 <= i < |s|
    ensures i < 0 ==> NoSpace(s)
    ensures i >= 0 ==> s[i] == SP && forall j :: 0 <= j < i ==> s[j] != SP
  {
    if s == [] then -1
    else if s[0] == SP then 0
    else
      var i := IndexSP(s[1..]);
      assert forall j :: 1 <= j < |s| ==> s[j] == s[1..][j - 1];
      if i < 0 then -1 else i + 1
  }

  datatype Entry = Entry(stamp: seq<byte>, msg: seq<byte>)

  /** The text before the first space of the line is a timestamp. */
  predicate Stamped(line: seq<byte>, c: Clock) { IndexSP(line) >= 0 && c.isStamp(line[..IndexSP(line)]) }

  /** The stamp and message of a line: Docker's own stamp if the line starts with one. */
  function Peel(line: seq<byte>, c: Clock, n: nat): Entry {
    var i := IndexSP(line);
    var e := if i >= 0 && c.isStamp(line[..i]) then Entry(line[..i], line[i + 1..]) else Entry(c.now(n), line);
    if e.msg != [] && e.msg[|e.msg| - 1] == NL then e else Entry(e.stamp, e.msg + [NL])
  }

  function Print(e: Entry, name: seq<byte>): seq<byte> { e.stamp + [SP] + name + FULL + e.msg }

  /** Reads a CRI line back. */
  function ReadBack(s: seq<byte>, name: seq<byte>): Option<Entry> {
    var i := IndexSP(s);
    var k := i + 1 + |name| + |FULL|;
    if i >= 0 && k <= |s| && s[i + 1..k] == name + FULL then Some(Entry(s[..i], s[k..])) else None
  }

  /**
   * What peeling does to a complete line. If the text before its first space is a timestamp,
   * stamp and message put back together are the line; otherwise the stamp is the clock's and the
   * message the whole line. Either way the message keeps the newline, so the branch that would
   * add one is never taken.
   */
  lemma PeelLine(line: seq<byte>, c: Clock, n: nat)
    requires IsLine(line) && ValidClock(c)
    ensures var e := Peel(line, c, n);
      && IsLine(e.msg) && Clean(e.stamp) && NoSpace(e.stamp)
      && (if Stamped(line, c)
          then e.stamp == line[..IndexSP(line)] && e.stamp + [SP] + e.msg == line
          else e == Entry(c.now(n), line))
  {
    if Stamped(line, c) {
      PeelStamped(line, c, n);
    } else {
      assert Clean(c.now(n));
    }
  }

  lemma PeelStamped(line: seq<byte>, c: Clock, n: nat)
    requires IsLine(line) && Stamped(line, c)
    ensures var e, i := Peel(line, c, n), IndexSP(line);
      IsLine(e.msg) && e.stamp == line[..i] && e.stamp + [SP] + e.msg == line && Clean(e.stamp) && NoSpace(e.stamp)
  {
    var i := IndexSP(line);
    assert line[|line| - 1] == NL != SP;
    LineTail(line, i + 1);
    Halves(line, i);
    assert line[i..] == [SP] + line[i + 1..];
    Assoc(line[..i], [SP], line[i + 1..]);
  }

  lemma LineTail(line: seq<byte>, k: nat)
    requires IsLine(line) && k < |line|
    ensures IsLine(line[k..])
  {
  }

  lemma FirstSP(a: seq<byte>, b: seq<byte>)
    requires NoSpace(a)
    ensures IndexSP(a + [SP] + b) == |a|
  {
    var s, i := a + [SP] + b, IndexSP(a + [SP] + b);
    assert s[|a|] == SP && forall j :: 0 <= j < |a| ==> s[j] == a[j];
  }

  lemma PrintReadBack(e: Entry, name: seq<byte>)
    requires NoSpace(e.stamp)
    ensures ReadBack(Print(e, name), name) == Some(e)
  {
    var s, k := Print(e, name), |e.stamp| + 1 + |name| + |FULL|;
    assert s == e.stamp + [SP] + (name + FULL + e.msg);
    FirstSP(e.stamp, name + FULL + e.msg);
    assert s[..|e.stamp|] == e.stamp && s[|e.stamp| + 1..k] == name + FULL && s[k..] == e.msg;
  }

  /** A formatted line is a line again: one newline, at the end. */
  lemma PrintIsLine(e: Entry, name: seq<byte>)
    requires Clean(e.stamp) && Clean(name) && IsLine(e.msg)
    ensures IsLine(Print(e, name))
  {
    var head := e.stamp + [SP] + name + FULL;
    assert Clean(head);
    assert Print(e, name) == head + e.msg;
  }

  lemma StreamNames()
    ensures STDOUT_NAME == Ascii("stdout") && STDERR_NAME == Ascii("stderr") && FULL == Ascii(" F ")
  {
  }

  lemma AsciiJoin(a: string, b: string)
    ensures Ascii(a + b) == Ascii(a) + Ascii(b)
  {
  }

  lemma NameSpelled(name: string)
    ensures [SP] + Ascii(name) + FULL == Ascii(" " + name + " F ")
  {
    StreamNames();
    assert [SP] == Ascii(" ");
    AsciiJoin(" ", name);
    AsciiJoin(" " + name, " F ");
  }

  lemma PrintSpelled(e: Entry, name: string)
    ensures Print(e, Ascii(name)) == e.stamp + Ascii(" " + name + " F ") + e.msg
  {
    NameSpelled(name);
    Assoc(e.stamp, [SP], Ascii(name));
    Assoc(e.stamp, [SP] + Ascii(name), FULL);
  }

  /** How a CRI line is spelled: stamp, name of the stream, the tag of a full line, message. */
  lemma LineSpelled(line: seq<byte>, c: Clock, n: nat, name: string)
    requires IsLine(line) && ValidClock(c)
    ensures var e := Peel(line, c, n);
      && Print(e, Ascii(name)) == e.stamp + Ascii(" " + name + " F ") + e.msg
      && e.msg != [] && e.msg[|e.msg| - 1] == Ascii("\n")[0]
      && forall j :: 0 <= j < |e.msg| - 1 ==> e.msg[j] != Ascii("\n")[0]
  {
    PeelLine(line, c, n);
    PrintSpelled(Peel(line, c, n), name);
  }

  /** A line of one stream does not read back as one of another whose name is as long. */
  lemma NamesTellApart(e: Entry, name: seq<byte>, other: seq<byte>)
    requires NoSpace(e.stamp) && |name| == |other| && name != other
    ensures ReadBack(Print(e, name), other).None?
  {
    var s, k := Print(e, name), |e.stamp| + 1 + |name| + |FULL|;
    assert s == e.stamp + [SP] + (name + FULL + e.msg);
    FirstSP(e.stamp, name + FULL + e.msg);
    assert s[|e.stamp| + 1..k] == name + FULL;
    assert (name + FULL)[..|name|] == name && (other + FULL)[..|name|] == other;
  }

  // ---- whole streams -------------------------------------------------------

  function Format(line: seq<byte>, c: Clock, n: nat, name: seq<byte>): seq<byte> { Print(Peel(line, c, n), name) }

  /** The CRI lines of a stream's complete lines. */
  function FormatAll(lines: seq<seq<byte>>, c: Clock, name: seq<byte>): (r: seq<seq<byte>>)
    ensures |r| == |lines|
  {
    seq(|lines|, n requires 0 <= n < |lines| => Format(lines[n], c, n, name))
  }

  /** Everything written to a stream's pipe when its payload bytes are s. */
  function Piped(s: seq<byte>, c: Clock, name: seq<byte>): seq<byte> {
    Concat(FormatAll(SplitLines(s).lines, c, name))
  }

  lemma FormatOne(lines: seq<seq<byte>>, l: seq<byte>, c: Clock, name: seq<byte>)
    ensures Concat(FormatAll(lines + [l], c, name)) == Concat(FormatAll(lines, c, name)) + Format(l, c, |lines|, name)
  {
    assert FormatAll(lines + [l], c, name) == FormatAll(lines, c, name) + [Format(l, c, |lines|, name)];
    ConcatOne(FormatAll(lines, c, name), Format(l, c, |lines|, name));
  }

  /** Emits the complete lines of an accumulator to a pipe that holds a stream's earlier lines. */
  method Flush(accum: seq<byte>, into: seq<byte>, before: nat, c: Clock, name: seq<byte>, ghost earlier: seq<seq<byte>>)
    returns (pipe: seq<byte>, rest: seq<byte>, count: nat)
    requires before == |earlier| && into == Concat(FormatAll(earlier, c, name))
    ensures rest == SplitLines(accum).rest && count == before + |SplitLines(accum).lines|
    ensures pipe == Concat(FormatAll(earlier + SplitLines(accum).lines, c, name))
  {
    pipe, rest, count := into, accum, before;
    ghost var lines: seq<seq<byte>> := [];
    assert earlier + [] == earlier;
    while true
      invariant SplitLines(accum) == Split(lines + SplitLines(rest).lines, SplitLines(rest).rest)
      invariant count == |earlier + lines| && pipe == Concat(FormatAll(earlier + lines, c, name))
      decreases |rest|
    {
      var i := IndexNL(rest);
      if i < 0 {
        assert lines + [] == lines;
        return;
      }
      var line := rest[..i + 1];
      FlushStep(accum, lines, rest, i + 1);
      FormatOne(earlier + lines, line, c, name);
      assert earlier + (lines + [line]) == earlier + lines + [line];
      pipe := pipe + Format(line, c, count, name);
      rest, count, lines := rest[i + 1..], count + 1, lines + [line];
    }
  }

  lemma FlushStep(accum: seq<byte>, lines: seq<seq<byte>>, rest: seq<byte>, n: nat)
    requires n == IndexNL(rest) + 1 > 0
    requires SplitLines(accum) == Split(lines + SplitLines(rest).lines, SplitLines(rest).rest)
    ensures SplitLines(accum) == Split((lines + [rest[..n]]) + SplitLines(rest[n..]).lines, SplitLines(rest[n..]).rest)
  {
    Assoc(lines, [rest[..n]], SplitLines(rest[n..]).lines);
  }

  /** One stream of the demultiplexer: its accumulator, what its pipe holds, lines so far. */
  datatype Stream = Stream(accum: seq<byte>, pipe: seq<byte>, count: nat)

  ghost predicate Carries(x: Stream, s: seq<byte>, c: Clock, name: seq<byte>) {
    x == Stream(SplitLines(s).rest, Piped(s, c, name), |SplitLines(s).lines|)
  }

  method Feed(x: Stream, payload: seq<byte>, c: Clock, name: seq<byte>, ghost s: seq<byte>) returns (y: Stream)
    requires Carries(x, s, c, name)
    ensures Carries(y, s + payload, c, name)
  {
    SplitAppend(s, payload);
    var pipe, rest, count := Flush(x.accum + payload, x.pipe, x.count, c, name, SplitLines(s).lines);
    y := Stream(rest, pipe, count);
  }

  /** The state of the demultiplexer after some frames. */
  ghost predicate Demuxed(x: Stream, y: Stream, fs: seq<Frame>, c: Clock) {
    && Carries(x, Select(fs, Except(STDERR)), c, STDOUT_NAME)
    && Carries(y, Select(fs, Only(STDERR)), c, STDERR_NAME)
  }

  /** Handles one frame: type 2 is stderr, every other type stdout, and empty frames are skipped. */
  method Route(x: Stream, y: Stream, f: Frame, c: Clock, ghost done: seq<Frame>) returns (x': Stream, y': Stream)
    requires Demuxed(x, y, done, c)
    ensures Demuxed(x', y', done + [f], c)
  {
    x', y' := x, y;
    SelectStep(done, f, Except(STDERR));
    SelectStep(done, f, Only(STDERR));
    if |f.payload| == 0 {
      assert Select(done, Except(STDERR)) + f.payload == Select(done, Except(STDERR));
      assert Select(done, Only(STDERR)) + f.payload == Select(done, Only(STDERR));
    } else if f.kind == STDERR {
      y' := Feed(y, f.payload, c, STDERR_NAME, Select(done, Only(STDERR)));
    } else {
      x' := Feed(x, f.payload, c, STDOUT_NAME, Select(done, Except(STDERR)));
    }
  }

  lemma DemuxStart(c: Clock)
    ensures Demuxed(Stream([], [], 0), Stream([], [], 0), [], c)
  {
    assert SplitLines([]) == Split([], []);
  }

  /** Both pipes after the container's log stream has ended; unterminated fragments are dropped. */
  method Demux(input: seq<byte>, c: Clock) returns (out: seq<byte>, err: seq<byte>)
    ensures out == Piped(Select(Parse(input).frames, Except(2)), c, Ascii("stdout"))
    ensures err == Piped(Select(Parse(input).frames, Only(2)), c, Ascii("stderr"))
  {
    StreamNames();
    var x, y := Stream([], [], 0), Stream([], [], 0);
    var unread := input;
    ghost var done: seq<Frame> := [];
    DemuxStart(c);
    while |unread| >= 8
      invariant Parse(input) == Parsed(done + Parse(unread).frames, Parse(unread).rest)
      invariant Demuxed(x, y, done, c)
      decreases |unread|
    {
      var size := Value(unread[4..8]);
      if |unread| - 8 < size {
        break;
      }
      var f := Frame(unread[0], unread[1..4], unread[8..8 + size]);
      ParseStep(input, done, unread);
      x, y := Route(x, y, f, c, done);
      done, unread := done + [f], unread[8 + size..];
    }
    ParseDone(input, done, unread);
    out, err := x.pipe, y.pipe;
  }

  // ---- the two demultiplexers ----------------------------------------------

  ghost predicate OnlyKnown(fs: seq<Frame>) {
    forall k :: 0 <= k < |fs| && fs[k].kind !in {STDOUT, STDERR} ==> fs[k].payload == []
  }

  /**
   * The log source and the stream proxy read the same stdout bytes exactly when frames of any
   * other type are empty: the proxy discards those and the log source files them under stdout.
   */
  lemma {:induction false} SameStdout(fs: seq<Frame>)
    ensures |Select(fs, Except(STDERR))| >= |Sink(true, fs, STDOUT)|
    ensures Select(fs, Except(STDERR)) == Sink(true, fs, STDOUT) <==> OnlyKnown(fs)
  {
    if fs != [] {
      var n := |fs| - 1;
      SameStdout(fs[..n]);
      assert OnlyKnown(fs) <==> OnlyKnown(fs[..n]) && (fs[n].kind !in {STDOUT, STDERR} ==> fs[n].payload == []) by {
        assert fs == fs[..n] + [fs[n]];
      }
      var a, b := Select(fs[..n], Except(STDERR)), Sink(true, fs[..n], STDOUT);
      if fs[n].kind == STDOUT {
        if a + fs[n].payload == b + fs[n].payload {
          assert a == (a + fs[n].payload)[..|a|] && b == (b + fs[n].payload)[..|b|];
        }
      }
    }
  }
}
