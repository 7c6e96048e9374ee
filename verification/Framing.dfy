/**
 * Docker's multiplexed stream format: an 8-byte header, whose first byte names the stream and
 * whose last four give the payload size, then the payload. Parsing undoes framing.
 */
module Framing {
  import opened Bytes
  import opened Lines
  import opened Wrappers

  const STDOUT: byte := 1
  const STDERR: byte := 2
  const LIMIT := 0x1_0000_0000

  datatype Frame = Frame(kind: byte, pad: seq<byte>, payload: seq<byte>)

  predicate ValidFrame(f: Frame) { |f.pad| == 3 && |f.payload| < LIMIT }

  predicate ValidFrames(fs: seq<Frame>) { forall k :: 0 <= k < |fs| ==> ValidFrame(fs[k]) }

  /** A 32-bit size, most significant byte first. */
  function Size(n: nat): seq<byte>
    requires n < LIMIT
  {
    var a := n / 256;
    var b := a / 256;
    [(b / 256) as byte, (b % 256) as byte, (a % 256) as byte, (n % 256) as byte]
  }

  lemma SizeRoundTrip(n: nat)
    requires n < LIMIT
    ensures Value(Size(n)) == n
  {
    ValueOfFour(Size(n));
  }

  lemma SizeOfValue(s: seq<byte>)
    requires |s| == 4
    ensures Value(s) < LIMIT && Size(Value(s)) == s
  {
    ValueOfFour(s);
    SizeRoundTrip(Value(s));
    ValueInjective(Size(Value(s)), s);
  }

  function Header(f: Frame): seq<byte>
    requires ValidFrame(f)
  {
    [f.kind] + f.pad + Size(|f.payload|)
  }

  function Encode(f: Frame): seq<byte>
    requires ValidFrame(f)
  {
    Header(f) + f.payload
  }

  /** The wire format: type, three bytes that mean nothing, the size in four bytes, the payload. */
  lemma WireFormat(f: Frame)
    requires ValidFrame(f)
    ensures var s := Encode(f);
      && |s| == 8 + |f.payload| && s[0] == f.kind && s[1..4] == f.pad && s[8..] == f.payload
      && s[4] as nat * 16777216 + s[5] as nat * 65536 + s[6] as nat * 256 + s[7] as nat == |f.payload|
  {
    var s := Encode(f);
    assert s[4..8] == Size(|f.payload|);
    SizeRoundTrip(|f.payload|);
    ValueOfFour(s[4..8]);
  }

  function Encoded(fs: seq<Frame>): seq<byte>
    requires ValidFrames(fs)
  {
    if fs == [] then [] else Encode(fs[0]) + Encoded(fs[1..])
  }

  /** The size the header at the front of s announces. */
  function Announced(s: seq<byte>): nat
    requires |s| >= 8
  {
    Value(s[4..8])
  }

  /** The stream ends before the next frame does. */
  predicate Incomplete(s: seq<byte>) { |s| < 8 || |s| < 8 + Announced(s) }

  function FirstFrame(s: seq<byte>): Frame
    requires !Incomplete(s)
  {
    Frame(s[0], s[1..4], s[8..8 + Announced(s)])
  }

  function AfterFirst(s: seq<byte>): seq<byte>
    requires !Incomplete(s)
  {
    s[8 + Announced(s)..]
  }

  datatype Parsed = Parsed(frames: seq<Frame>, rest: seq<byte>)

  function Parse(s: seq<byte>): Parsed
    decreases |s|
  {
    if Incomplete(s) then Parsed([], s)
    else
      var p := Parse(AfterFirst(s));
      Parsed([FirstFrame(s)] + p.frames, p.rest)
  }

  lemma ParseCons(s: seq<byte>, f: Frame, t: seq<byte>)
    requires !Incomplete(s) && FirstFrame(s) == f && AfterFirst(s) == t
    ensures Parse(s) == Parsed([f] + Parse(t).frames, Parse(t).rest)
  {
  }

  lemma EncodeFirst(f: Frame, tail: seq<byte>)
    requires ValidFrame(f)
    ensures var s := Encode(f) + tail;
      !Incomplete(s) && FirstFrame(s) == f && AfterFirst(s) == tail
  {
    var s, n := Encode(f) + tail, |f.payload|;
    assert s[4..8] == Size(n);
    SizeRoundTrip(n);
    assert s[1..4] == f.pad && s[8..8 + n] == f.payload && s[8 + n..] == tail;
  }

  lemma FirstDecodes(s: seq<byte>)
    requires !Incomplete(s)
    ensures ValidFrame(FirstFrame(s)) && Encode(FirstFrame(s)) + AfterFirst(s) == s
  {
    var f := FirstFrame(s);
    SizeOfValue(s[4..8]);
    assert Header(f) == s[..8];
    assert s == s[..8] + s[8..8 + Announced(s)] + AfterFirst(s);
  }

  lemma EncodedFirst(fs: seq<Frame>, tail: seq<byte>)
    requires ValidFrames(fs) && fs != []
    ensures var s := Encoded(fs) + tail;
      !Incomplete(s) && FirstFrame(s) == fs[0] && AfterFirst(s) == Encoded(fs[1..]) + tail
  {
    EncodeFirst(fs[0], Encoded(fs[1..]) + tail);
    Assoc(Encode(fs[0]), Encoded(fs[1..]), tail);
  }

  /** Parsing inverts framing, whatever incomplete frame the stream breaks off in. */
  lemma {:induction false} ParseEncoded(fs: seq<Frame>, tail: seq<byte>)
    requires ValidFrames(fs) && Incomplete(tail)
    ensures Parse(Encoded(fs) + tail) == Parsed(fs, tail)
  {
    if fs == [] {
      assert Encoded(fs) + tail == tail;
    } else {
      EncodedFirst(fs, tail);
      ParseEncoded(fs[1..], tail);
      ParseCons(Encoded(fs) + tail, fs[0], Encoded(fs[1..]) + tail);
      assert [fs[0]] + fs[1..] == fs;
    }
  }

  lemma {:induction false} ParseEnds(s: seq<byte>)
    ensures ValidFrames(Parse(s).frames) && Incomplete(Parse(s).rest)
    decreases |s|
  {
    if !Incomplete(s) {
      ParseEnds(AfterFirst(s));
      FirstDecodes(s);
    }
  }

  lemma EncodedCons(f: Frame, fs: seq<Frame>, rest: seq<byte>)
    requires ValidFrame(f) && ValidFrames(fs)
    ensures ValidFrames([f] + fs) && Encoded([f] + fs) + rest == Encode(f) + (Encoded(fs) + rest)
  {
    assert ([f] + fs)[1..] == fs;
    Assoc(Encode(f), Encoded(fs), rest);
  }

  /** Every byte stream is some frames followed by an incomplete one, and parsing finds them. */
  lemma {:induction false} ParseSound(s: seq<byte>)
    ensures ValidFrames(Parse(s).frames) && Encoded(Parse(s).frames) + Parse(s).rest == s
    decreases |s|
  {
    ParseEnds(s);
    if Incomplete(s) {
      assert Encoded([]) + s == s;
    } else {
      var p := Parse(AfterFirst(s));
      ParseSound(AfterFirst(s));
      FirstDecodes(s);
      EncodedCons(FirstFrame(s), p.frames, p.rest);
    }
  }

  lemma ParseStep(s: seq<byte>, done: seq<Frame>, here: seq<byte>)
    requires Parse(s) == Parsed(done + Parse(here).frames, Parse(here).rest) && !Incomplete(here)
    ensures var next := AfterFirst(here);
      Parse(s) == Parsed((done + [FirstFrame(here)]) + Parse(next).frames, Parse(next).rest)
  {
    Assoc(done, [FirstFrame(here)], Parse(AfterFirst(here)).frames);
  }

  /** The payload bytes of the frames a predicate selects, in order. */
  function Select(fs: seq<Frame>, pick: byte -> bool): seq<byte> {
    if fs == [] then []
    else
      var n := |fs| - 1;
      if pick(fs[n].kind) then Select(fs[..n], pick) + fs[n].payload else Select(fs[..n], pick)
  }

  lemma SelectStep(fs: seq<Frame>, f: Frame, pick: byte -> bool)
    ensures Select(fs + [f], pick) == if pick(f.kind) then Select(fs, pick) + f.payload else Select(fs, pick)
  {
    assert (fs + [f])[..|fs|] == fs;
  }

  function Only(kind: byte): byte -> bool { k => k == kind }

  function Except(kind: byte): byte -> bool { k => k != kind }

  // ---- the exec and attach proxy -------------------------------------------

  /** What one sink has received: nothing when it was not asked for. */
  function Sink(on: bool, fs: seq<Frame>, kind: byte): seq<byte> {
    if on then Select(fs, Only(kind)) else []
  }

  lemma SinkStep(on: bool, fs: seq<Frame>, f: Frame, kind: byte)
    ensures Sink(on, fs + [f], kind)
      == if on && f.kind == kind then Sink(on, fs, kind) + f.payload else Sink(on, fs, kind)
  {
    SelectStep(fs, f, Only(kind));
  }

  lemma ParseDone(s: seq<byte>, done: seq<Frame>, here: seq<byte>)
    requires Parse(s) == Parsed(done + Parse(here).frames, Parse(here).rest) && Incomplete(here)
    ensures Parse(s) == Parsed(done, here)
  {
    assert done + [] == done;
  }

  /**
   * The two sinks: which were asked for, and how the write of a frame's payload goes, counting
   * frames from zero. A write that fails may still have delivered some bytes.
   */
  datatype Sinks = Sinks(stdout: bool, stderr: bool, fault: nat -> Option<nat>)
  {
    predicate Wants(f: Frame) { (f.kind == 1 && stdout) || (f.kind == 2 && stderr) }

    /** Payloads nobody asked for are discarded, which never fails. */
    predicate Fails(f: Frame, k: nat) { Wants(f) && fault(k).Some? }

    /** What a failed write of a frame delivered to the sink of the given kind. */
    function Partial(f: Frame, k: nat, kind: byte): seq<byte>
      requires Fails(f, k)
    {
      if f.kind == kind then f.payload[..Min(fault(k).value, |f.payload|)] else []
    }
  }

  function Min(a: nat, b: nat): nat { if a < b then a else b }

  /** Every frame was written without a fault, and this is what the sinks have received. */
  ghost predicate Delivered(sinks: Sinks, fs: seq<Frame>, out: seq<byte>, err: seq<byte>) {
    && (forall k :: 0 <= k < |fs| ==> !sinks.Fails(fs[k], k))
    && out == Sink(sinks.stdout, fs, 1) && err == Sink(sinks.stderr, fs, 2)
  }

  /** Writes one payload to the sink its frame names, if that was asked for. */
  method Write(sinks: Sinks, f: Frame, k: nat, out: seq<byte>, err: seq<byte>, ghost seen: seq<Frame>)
    returns (out': seq<byte>, err': seq<byte>, ok: bool)
    requires Delivered(sinks, seen, out, err) && k == |seen|
    ensures ok <==> !sinks.Fails(f, k)
    ensures ok ==> Delivered(sinks, seen + [f], out', err')
    ensures !ok ==> out' == out + sinks.Partial(f, k, 1) && err' == err + sinks.Partial(f, k, 2)
  {
    out', err', ok := out, err, true;
    SinkStep(sinks.stdout, seen, f, STDOUT);
    SinkStep(sinks.stderr, seen, f, STDERR);
    if sinks.Wants(f) {
      var fault := sinks.fault(k);
      ok := fault.None?;
      var written := if ok then f.payload else f.payload[..Min(fault.value, |f.payload|)];
      if f.kind == STDOUT {
        out' := out + written;
      } else {
        err' := err + written;
      }
    }
  }

  /**
   * The non-tty output loop of the stream proxy. input is everything the connection delivers
   * before it ends; broken says that it ended with an error instead of end-of-file. The loop
   * stops at the end of the input or at the first write that fails. done counts the frames
   * written before that, and o and e are what the sinks had received by then.
   */
  method Proxy(input: seq<byte>, broken: bool, sinks: Sinks)
    returns (out: seq<byte>, err: seq<byte>, failed: bool, ghost done: nat, ghost o: seq<byte>, ghost e: seq<byte>)
    ensures var fs := Parse(input).frames;
      && done <= |fs| && Delivered(sinks, fs[..done], o, e)
      && if done == |fs| then
           out == o && err == e && (failed <==> broken || Parse(input).rest != [])
         else
           && failed && sinks.Fails(fs[done], done)
           && out == o + sinks.Partial(fs[done], done, 1)
           && err == e + sinks.Partial(fs[done], done, 2)
  {
    out, err, failed := [], [], false;
    var unread, count := input, 0;
    ghost var seen: seq<Frame> := [];
    while |unread| >= 8
      invariant Parse(input) == Parsed(seen + Parse(unread).frames, Parse(unread).rest)
      invariant Delivered(sinks, seen, out, err) && count == |seen|
      decreases |unread|
    {
      var size := Value(unread[4..8]);
      if |unread| - 8 < size {
        ParseDone(input, seen, unread);
        assert seen[..count] == seen;
        return out, err, true, count, out, err;
      }
      var f := Frame(unread[0], unread[1..4], unread[8..8 + size]);
      ParseStep(input, seen, unread);
      var ok;
      o, e := out, err;
      out, err, ok := Write(sinks, f, count, out, err, seen);
      if !ok {
        assert Parse(input).frames[..count] == seen && Parse(input).frames[count] == f;
        return out, err, true, count, o, e;
      }
      seen, unread, count := seen + [f], unread[8 + size..], count + 1;
    }
    ParseDone(input, seen, unread);
    assert seen[..count] == seen;
    // a header cut short is an error; no byte of it is a clean end, unless the read broke
    return out, err, broken || unread != [], count, out, err;
  }
}
