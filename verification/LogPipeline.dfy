/**
 * The log source and the pump composed: from Docker frames, through a pipe read in arbitrary
 * chunks, to the lines that reach the log file.
 */
module LogPipeline {
  import opened Bytes
  import opened Lines
  import opened Framing
  import opened LogSource
  import opened Pump
  import opened Wrappers

  /** The CRI lines for the complete lines among a stream's payload bytes. */
  function Expected(s: seq<byte>, c: Clock, name: seq<byte>): seq<seq<byte>> {
    FormatAll(SplitLines(s).lines, c, name)
  }

  predicate Fits(lines: seq<seq<byte>>) { forall k :: 0 <= k < |lines| ==> |lines[k]| <= 65536 }

  lemma ExpectedAreLines(s: seq<byte>, c: Clock, name: seq<byte>)
    requires ValidClock(c) && Clean(name)
    ensures AllLines(Expected(s, c, name))
  {
    SplitSound(s);
    var lines := SplitLines(s).lines;
    forall k | 0 <= k < |lines|
      ensures IsLine(Expected(s, c, name)[k])
    {
      PeelLine(lines[k], c, k);
      PrintIsLine(Peel(lines[k], c, k), name);
    }
  }

  /** Lines that all fit leave a newline in every window of MAX_LINE bytes. */
  lemma {:induction false} NearestNL(lines: seq<seq<byte>>, i: nat) returns (j: nat)
    requires AllLines(lines) && Fits(lines) && i < |Concat(lines)|
    ensures i <= j < i + MAX_LINE && j < |Concat(lines)| && Concat(lines)[j] == NL
  {
    var l := lines[0];
    if i < |l| {
      j := |l| - 1;
    } else {
      var k := NearestNL(lines[1..], i - |l|);
      j := k + |l|;
    }
  }

  lemma FitsNoLong(lines: seq<seq<byte>>, i: int)
    requires AllLines(lines) && Fits(lines)
    ensures !Long(Concat(lines), i)
  {
    var s := Concat(lines);
    if 0 <= i && i + MAX_LINE <= |s| {
      var j := NearestNL(lines, i);
      assert s[i..i + MAX_LINE][j - i] == NL;
    }
  }

  lemma {:induction false} UnfitIsLong(lines: seq<seq<byte>>, k: nat)
    requires AllLines(lines) && k < |lines| && |lines[k]| > MAX_LINE
    ensures HasLong(Concat(lines))
  {
    var s, tail := Concat(lines), Concat(lines[1..]);
    if k == 0 {
      assert Long(s, 0);
    } else {
      UnfitIsLong(lines[1..], k - 1);
      var i :| Long(tail, i);
      var j := i + |lines[0]|;
      assert s[j..j + MAX_LINE] == tail[i..i + MAX_LINE];
      assert Long(s, j);
    }
  }

  lemma PipeSplits(s: seq<byte>, c: Clock, name: seq<byte>)
    requires ValidClock(c) && Clean(name)
    ensures SplitLines(Piped(s, c, name)) == Split(Expected(s, c, name), [])
    ensures Fits(Expected(s, c, name)) <==> !HasLong(Piped(s, c, name))
  {
    var lines, pipe := Expected(s, c, name), Piped(s, c, name);
    ExpectedAreLines(s, c, name);
    assert Concat(lines) + [] == pipe;
    SplitUnique(pipe, lines, []);
    if Fits(lines) {
      forall i ensures !Long(pipe, i) { FitsNoLong(lines, i); }
    } else {
      var k :| 0 <= k < |lines| && |lines[k]| > MAX_LINE;
      UnfitIsLong(lines, k);
    }
  }

  /**
   * The pump passes every CRI line on whole, wherever its reads fall, exactly when each of them
   * is at most MAX_LINE bytes long.
   */
  lemma PassedWhole(s: seq<byte>, c: Clock, name: seq<byte>)
    requires ValidClock(c) && Clean(name)
    ensures Emits(Piped(s, c, name), Expected(s, c, name)) <==> Fits(Expected(s, c, name))
  {
    PipeSplits(s, c, name);
    SplitsAtNewlines(Piped(s, c, name));
  }

  /** One run of a stream: the frames that carry it, how the connection breaks off, the reads, the clock. */
  datatype Passage = Passage(frames: seq<Frame>, cut: seq<byte>, chunks: seq<seq<byte>>, clock: Clock)

  /** The pump's reads are some chunking of what the log source writes to the pipe. */
  ghost predicate ValidPassage(p: Passage, pick: byte -> bool, name: seq<byte>) {
    && ValidFrames(p.frames) && Incomplete(p.cut) && ValidClock(p.clock) && Reads(p.chunks)
    && Concat(p.chunks) == Piped(Select(Parse(Encoded(p.frames) + p.cut).frames, pick), p.clock, name)
  }

  /** A passage whose lines all fit emits exactly one CRI line per complete line of its stream. */
  lemma PassageEmits(p: Passage, pick: byte -> bool, name: seq<byte>)
    requires ValidPassage(p, pick, name) && Clean(name) && Fits(Expected(Select(p.frames, pick), p.clock, name))
    ensures PumpAll(p.chunks) == Split(Expected(Select(p.frames, pick), p.clock, name), [])
    ensures AllLines(PumpAll(p.chunks).lines)
  {
    var s := Select(p.frames, pick);
    ParseEncoded(p.frames, p.cut);
    PipeSplits(s, p.clock, name);
    PumpIsSplit(p.chunks);
    ExpectedAreLines(s, p.clock, name);
  }

  /** The same line seen by two clocks: the same message, and the same stamp if it carries one. */
  lemma PeelTwice(line: seq<byte>, c: Clock, c': Clock, n: nat)
    requires c.isStamp == c'.isStamp && IsLine(line) && ValidClock(c) && ValidClock(c')
    ensures Peel(line, c, n).msg == Peel(line, c', n).msg
    ensures Stamped(line, c) ==> Peel(line, c, n) == Peel(line, c', n)
  {
    PeelLine(line, c, n);
    PeelLine(line, c', n);
  }

  /**
   * Framing independence: whatever frames carry a stream's bytes, however each connection breaks
   * off, wherever the pump's reads fall and whatever the clock says, one line comes out per
   * complete line that went in, with the same message, and the same altogether if stamped.
   */
  lemma {:induction false} FramingIndependence(p: Passage, q: Passage, pick: byte -> bool, name: seq<byte>, k: nat)
    requires ValidPassage(p, pick, name) && ValidPassage(q, pick, name) && Clean(name)
    requires Select(p.frames, pick) == Select(q.frames, pick) && p.clock.isStamp == q.clock.isStamp
    requires Fits(Expected(Select(p.frames, pick), p.clock, name))
    requires Fits(Expected(Select(q.frames, pick), q.clock, name))
    ensures var lines, out, out' := SplitLines(Select(p.frames, pick)).lines, PumpAll(p.chunks), PumpAll(q.chunks);
      && |out.lines| == |out'.lines| == |lines| && out.rest == out'.rest == [] && AllLines(out.lines)
      && (k < |lines| ==>
            var entry, entry' := ReadBack(out.lines[k], name), ReadBack(out'.lines[k], name);
            && entry.Some? && entry'.Some? && entry.value.msg == entry'.value.msg
            && (Stamped(lines[k], p.clock) ==> out.lines[k] == out'.lines[k]))
  {
    var s := Select(p.frames, pick);
    PassageEmits(p, pick, name);
    PassageEmits(q, pick, name);
    if k < |SplitLines(s).lines| {
      SplitSound(s);
      PeelTwice(SplitLines(s).lines[k], p.clock, q.clock, k);
      LineReadsBack(s, p.clock, name, k);
      LineReadsBack(s, q.clock, name, k);
    }
  }

  /** Each line that comes out reads back as the stamp and message peeled off the line that went in. */
  lemma LineReadsBack(s: seq<byte>, c: Clock, name: seq<byte>, k: nat)
    requires ValidClock(c) && k < |SplitLines(s).lines|
    ensures ReadBack(Expected(s, c, name)[k], name) == Some(Peel(SplitLines(s).lines[k], c, k))
  {
    SplitSound(s);
    PeelLine(SplitLines(s).lines[k], c, k);
    PrintReadBack(Peel(SplitLines(s).lines[k], c, k), name);
  }

  /** Each line that comes out names its own stream and not the other. */
  lemma LinesNameTheirStream(s: seq<byte>, c: Clock, k: nat)
    requires ValidClock(c) && k < |SplitLines(s).lines|
    ensures ReadBack(Expected(s, c, Ascii("stderr"))[k], Ascii("stdout")).None?
    ensures ReadBack(Expected(s, c, Ascii("stdout"))[k], Ascii("stderr")).None?
  {
    SplitSound(s);
    var e := Peel(SplitLines(s).lines[k], c, k);
    PeelLine(SplitLines(s).lines[k], c, k);
    assert Ascii("stderr")[3] != Ascii("stdout")[3];
    NamesTellApart(e, Ascii("stderr"), Ascii("stdout"));
    NamesTellApart(e, Ascii("stdout"), Ascii("stderr"));
  }

  /** Each line that comes out is spelled stamp, name of the stream, full-line tag, message. */
  lemma LinesSpelled(s: seq<byte>, c: Clock, name: string, k: nat)
    requires ValidClock(c) && k < |SplitLines(s).lines|
    ensures var e := Peel(SplitLines(s).lines[k], c, k);
      Expected(s, c, Ascii(name))[k] == e.stamp + Ascii(" " + name + " F ") + e.msg
  {
    SplitSound(s);
    LineSpelled(SplitLines(s).lines[k], c, k, name);
  }
}
