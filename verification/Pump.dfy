/**
 * The bounded line splitter of a container's log stream: it reads in chunks, emits a line at
 * every newline, and force-flushes a buffer that grew too long without one.
 */
module Pump {
  import opened Bytes
  import opened Lines

  const MAX_LINE := 65536
  const CHUNK := 4096

  /** What successive reads return. */
  predicate Reads(chunks: seq<seq<byte>>) {
    forall k :: 0 <= k < |chunks| ==> 0 < |chunks[k]| <= 4096
  }

  /** Where the next line of a buffer ends: at a newline, at its end if too long, or nowhere. */
  function LineEnd(buf: seq<byte>): (n: nat)
    ensures n <= |buf|
  {
    var i := IndexNL(buf);
    if i >= 0 then i + 1 else if |buf| < MAX_LINE then 0 else |buf|
  }

  function Cut(buf: seq<byte>): Split
    decreases |buf|
  {
    var n := LineEnd(buf);
    if n == 0 then Split([], buf) else Cut(buf[n..]).Cons(buf[..n])
  }

  /** The lines emitted after a series of reads, and what is left in the buffer. */
  function PumpAll(chunks: seq<seq<byte>>): Split {
    if chunks == [] then Split([], [])
    else
      var n := |chunks| - 1;
      var p := PumpAll(chunks[..n]);
      var c := Cut(p.rest + chunks[n]);
      Split(p.lines + c.lines, c.rest)
  }

  /** The first n writes to the tap succeed. */
  ghost predicate TapOk(tap: nat -> bool, n: nat) { forall k: nat :: k < n ==> tap(k) }

  /** The last of these lines is the first one whose write to the tap failed. */
  ghost predicate TapBroke(tap: nat -> bool, lines: seq<seq<byte>>) {
    lines != [] && TapOk(tap, |lines| - 1) && !tap(|lines| - 1)
  }

  lemma CutStep(total: seq<seq<byte>>, emitted: seq<seq<byte>>, buf: seq<byte>, n: nat)
    requires 0 < n == LineEnd(buf) && total == emitted + Cut(buf).lines
    ensures Cut(buf).rest == Cut(buf[n..]).rest && total == (emitted + [buf[..n]]) + Cut(buf[n..]).lines
  {
    Assoc(emitted, [buf[..n]], Cut(buf[n..]).lines);
  }

  /** The inner loop: emit lines until the buffer holds only a short fragment or the tap breaks. */
  method Drain(earlier: seq<seq<byte>>, full: seq<byte>, tap: nat -> bool)
    returns (lines: seq<seq<byte>>, buf: seq<byte>, ended: bool)
    requires TapOk(tap, |earlier|)
    ensures !ended ==> lines == earlier + Cut(full).lines && buf == Cut(full).rest && TapOk(tap, |lines|)
    ensures ended ==> lines <= earlier + Cut(full).lines && TapBroke(tap, lines)
  {
    ghost var total := earlier + Cut(full).lines;
    lines, buf, ended := earlier, full, false;
    while true
      invariant total == lines + Cut(buf).lines && Cut(full).rest == Cut(buf).rest && TapOk(tap, |lines|)
      decreases |buf|
    {
      var i := IndexNL(buf);
      if i < 0 {
        if |buf| < MAX_LINE {
          assert lines + [] == lines;
          return lines, buf, false;
        }
        i := |buf| - 1;
      }
      CutStep(total, lines, buf, i + 1);
      lines, buf := lines + [buf[..i + 1]], buf[i + 1..];
      if !tap(|lines| - 1) {
        return lines, buf, true;
      }
    }
  }

  /** The pump: lines go to the log file and to a tap, and a failed write to the tap ends it. */
  method Run(chunks: seq<seq<byte>>, tap: nat -> bool) returns (lines: seq<seq<byte>>, buf: seq<byte>)
    ensures lines <= PumpAll(chunks).lines
    ensures (Split(lines, buf) == PumpAll(chunks) && TapOk(tap, |lines|)) || TapBroke(tap, lines)
  {
    lines, buf := [], [];
    for k := 0 to |chunks|
      invariant Split(lines, buf) == PumpAll(chunks[..k]) && TapOk(tap, |lines|)
    {
      assert chunks[..k + 1][..k] == chunks[..k];
      var ended;
      lines, buf, ended := Drain(lines, buf + chunks[k], tap);
      PumpPrefix(chunks, k + 1);
      if ended {
        return;
      }
    }
    assert chunks[..|chunks|] == chunks;
  }

  // ---- conservation and bounds ---------------------------------------------

  /** A line cut without a newline because the buffer had reached the limit. */
  predicate Forced(l: seq<byte>) { Clean(l) && |l| >= 65536 }

  predicate WellCut(r: Split, limit: nat) {
    && (forall k :: 0 <= k < |r.lines| ==> (IsLine(r.lines[k]) || Forced(r.lines[k])) && |r.lines[k]| <= limit)
    && Clean(r.rest) && |r.rest| < 65536
  }

  lemma LineEndShape(buf: seq<byte>)
    requires LineEnd(buf) > 0
    ensures IsLine(buf[..LineEnd(buf)]) || Forced(buf[..LineEnd(buf)])
  {
  }

  lemma WellCutCons(r: Split, l: seq<byte>, limit: nat)
    requires WellCut(r, limit) && (IsLine(l) || Forced(l)) && |l| <= limit
    ensures WellCut(r.Cons(l), limit)
  {
  }

  lemma {:induction false} CutShape(buf: seq<byte>, limit: nat)
    requires |buf| <= limit
    ensures WellCut(Cut(buf), limit)
    decreases |buf|
  {
    var n := LineEnd(buf);
    if n > 0 {
      CutShape(buf[n..], limit);
      LineEndShape(buf);
      WellCutCons(Cut(buf[n..]), buf[..n], limit);
    }
  }

  lemma {:induction false} CutConserves(buf: seq<byte>)
    ensures Concat(Cut(buf).lines) + Cut(buf).rest == buf
    decreases |buf|
  {
    var n := LineEnd(buf);
    if n > 0 {
      CutConserves(buf[n..]);
      SplitCons(buf[..n], Cut(buf[n..]));
      Halves(buf, n);
    }
  }

  /** Every line ends at its only newline or was forced, and none is longer than 69631 bytes. */
  lemma {:induction false} PumpShape(chunks: seq<seq<byte>>)
    requires Reads(chunks)
    ensures WellCut(PumpAll(chunks), 69631)
  {
    if chunks != [] {
      var n := |chunks| - 1;
      PumpShape(chunks[..n]);
      CutShape(PumpAll(chunks[..n]).rest + chunks[n], MAX_LINE - 1 + CHUNK);
    }
  }

  /** Nothing is lost or invented: lines and residual buffer together are the bytes read. */
  lemma {:induction false} PumpConserves(chunks: seq<seq<byte>>)
    ensures Concat(PumpAll(chunks).lines) + PumpAll(chunks).rest == Concat(chunks)
  {
    if chunks != [] {
      var n := |chunks| - 1;
      var p := PumpAll(chunks[..n]);
      PumpConserves(chunks[..n]);
      CutConserves(p.rest + chunks[n]);
      Rejoin(p, chunks[n], Cut(p.rest + chunks[n]), Concat(chunks[..n]));
      ConcatOne(chunks[..n], chunks[n]);
      assert chunks == chunks[..n] + [chunks[n]];
    }
  }

  // ---- independence of the read boundaries ---------------------------------

  /** A stretch of MAX_LINE bytes without a newline. */
  predicate Long(s: seq<byte>, i: int) { 0 <= i && i + MAX_LINE <= |s| && Clean(s[i..i + MAX_LINE]) }

  ghost predicate HasLong(s: seq<byte>) { exists i :: Long(s, i) }

  lemma {:induction false} ForcedIsLong(lines: seq<seq<byte>>, rest: seq<byte>, k: nat)
    requires k < |lines| && Forced(lines[k])
    ensures HasLong(Concat(lines) + rest)
  {
    var s, tail := Concat(lines) + rest, Concat(lines[1..]) + rest;
    assert s == lines[0] + tail;
    if k == 0 {
      assert Long(s, 0);
    } else {
      ForcedIsLong(lines[1..], rest, k - 1);
      var i :| Long(tail, i);
      var j := i + |lines[0]|;
      assert s[j..j + MAX_LINE] == tail[i..i + MAX_LINE];
      assert Long(s, j);
    }
  }

  /** Without a long stretch the pump splits exactly at newlines, however the reads fall. */
  lemma PumpIsSplit(chunks: seq<seq<byte>>)
    requires Reads(chunks) && !HasLong(Concat(chunks))
    ensures PumpAll(chunks) == SplitLines(Concat(chunks))
  {
    var r := PumpAll(chunks);
    PumpShape(chunks);
    PumpConserves(chunks);
    forall k | 0 <= k < |r.lines|
      ensures IsLine(r.lines[k])
    {
      if Forced(r.lines[k]) { ForcedIsLong(r.lines, r.rest, k); }
    }
    SplitUnique(Concat(chunks), r.lines, r.rest);
  }

  lemma {:induction false} PumpPrefix(chunks: seq<seq<byte>>, m: nat)
    requires m <= |chunks|
    ensures PumpAll(chunks[..m]).lines <= PumpAll(chunks).lines
  {
    if m < |chunks| {
      var n := |chunks| - 1;
      PumpPrefix(chunks[..n], m);
      assert chunks[..n][..m] == chunks[..m];
    } else {
      assert chunks[..m] == chunks;
    }
  }

  function Singles(s: seq<byte>): seq<seq<byte>> { seq(|s|, i requires 0 <= i < |s| => [s[i]]) }

  lemma {:induction false} SinglesConcat(s: seq<byte>)
    ensures Concat(Singles(s)) == s && Reads(Singles(s))
  {
    if s != [] {
      SinglesConcat(s[1..]);
      assert Singles(s)[1..] == Singles(s[1..]);
      assert s == [s[0]] + s[1..];
    }
  }

  lemma {:induction false} LinesEndInNL(lines: seq<seq<byte>>)
    requires AllLines(lines) && lines != []
    ensures Concat(lines) != [] && Concat(lines)[|Concat(lines)| - 1] == NL
  {
    if |lines| == 1 {
      assert Concat(lines) == lines[0] + Concat([]) == lines[0];
    } else {
      LinesEndInNL(lines[1..]);
    }
  }

  /** The fragment left by a split reaches back at least over any newline-free ending. */
  lemma RestCovers(s: seq<byte>, i: nat)
    requires i <= |s| && forall j :: i <= j < |s| ==> s[j] != NL
    ensures |SplitLines(s).rest| >= |s| - i
  {
    var r := SplitLines(s);
    SplitSound(s);
    if r.lines != [] {
      LinesEndInNL(r.lines);
      var n := |Concat(r.lines)|;
      assert s[n - 1] == NL;
    }
  }

  /** A pump that has read up to the end of a long stretch has broken a line without a newline. */
  lemma LongForces(chunks: seq<seq<byte>>, i: nat)
    requires Reads(chunks) && Long(Concat(chunks), i) && i + MAX_LINE == |Concat(chunks)|
    ensures !AllLines(PumpAll(chunks).lines)
  {
    var s, p := Concat(chunks), PumpAll(chunks);
    PumpShape(chunks);
    PumpConserves(chunks);
    forall j | i <= j < |s| ensures s[j] != NL { assert s[i..i + MAX_LINE][j - i] == s[j]; }
    RestCovers(s, i);
    if AllLines(p.lines) { SplitUnique(s, p.lines, p.rest); }
  }

  /** With a long stretch some placing of the reads breaks a line where there is no newline. */
  lemma LongBreaks(s: seq<byte>)
    requires HasLong(s)
    ensures exists chunks :: Reads(chunks) && Concat(chunks) == s && PumpAll(chunks).lines != SplitLines(s).lines
  {
    var i :| Long(s, i);
    var m := i + MAX_LINE;
    var chunks := Singles(s);
    SinglesConcat(s);
    SinglesConcat(s[..m]);
    assert chunks[..m] == Singles(s[..m]);
    assert s[..m][i..m] == s[i..m];
    LongForces(chunks[..m], i);
    PumpPrefix(chunks, m);
    SplitSound(s);
  }

  /** Wherever the reads of a stream fall, the pump emits these lines. */
  ghost predicate Emits(s: seq<byte>, lines: seq<seq<byte>>) {
    forall chunks :: Reads(chunks) && Concat(chunks) == s ==> PumpAll(chunks).lines == lines
  }

  /** The pump splits at newlines wherever the reads fall exactly when no stretch is too long. */
  lemma SplitsAtNewlines(s: seq<byte>)
    ensures Emits(s, SplitLines(s).lines) <==> !HasLong(s)
  {
    if HasLong(s) {
      LongBreaks(s);
    } else {
      forall chunks | Reads(chunks) && Concat(chunks) == s
        ensures PumpAll(chunks).lines == SplitLines(s).lines
      {
        PumpIsSplit(chunks);
      }
    }
  }

  /** Only the very end of the stream, if anything, is a stretch that is too long. */
  ghost predicate LongOnlyAtEnd(s: seq<byte>) { forall i :: Long(s, i) ==> i + MAX_LINE == |s| }

  /** Splitting at newlines, then flushing the fragment if it is too long. */
  function Flushed(r: Split): Split {
    if |r.rest| < MAX_LINE then r else Split(r.lines + [r.rest], [])
  }

  lemma {:induction false} CutIsFlushed(buf: seq<byte>)
    ensures Cut(buf) == Flushed(SplitLines(buf))
    decreases |buf|
  {
    var i := IndexNL(buf);
    if i >= 0 {
      CutIsFlushed(buf[i + 1..]);
      var r := SplitLines(buf[i + 1..]);
      assert [buf[..i + 1]] + (r.lines + [r.rest]) == ([buf[..i + 1]] + r.lines) + [r.rest];
    } else if |buf| >= MAX_LINE {
      assert buf[|buf|..] == [] && Cut([]) == Split([], []) && buf[..|buf|] == buf;
    }
  }

  lemma PrefixLong(s: seq<byte>, m: nat, j: int)
    requires m <= |s| && Long(s[..m], j)
    ensures Long(s, j)
  {
    assert s[..m][j..j + MAX_LINE] == s[j..j + MAX_LINE];
  }

  /** With a long stretch at most at the end, what comes out does not depend on the reads. */
  lemma EndFlushed(chunks: seq<seq<byte>>)
    requires Reads(chunks) && LongOnlyAtEnd(Concat(chunks))
    ensures PumpAll(chunks) == Flushed(SplitLines(Concat(chunks)))
  {
    var s := Concat(chunks);
    if chunks != [] {
      var n := |chunks| - 1;
      var t, x := Concat(chunks[..n]), chunks[n];
      ConcatOne(chunks[..n], x);
      assert chunks == chunks[..n] + [x] && s[..|t|] == t;
      forall j | Long(t, j) ensures false { PrefixLong(s, |t|, j); }
      PumpIsSplit(chunks[..n]);
      SplitAppend(t, x);
      CutIsFlushed(SplitLines(t).rest + x);
      var q := SplitLines(SplitLines(t).rest + x);
      Assoc(SplitLines(t).lines, q.lines, [q.rest]);
    }
  }

  lemma {:induction false} FirstLong(s: seq<byte>, i: nat) returns (j: nat)
    requires Long(s, i)
    ensures j <= i && Long(s, j) && forall k :: 0 <= k < j ==> !Long(s, k)
    decreases i
  {
    if k: nat :| k < i && Long(s, k) {
      j := FirstLong(s, k);
    } else {
      j := i;
    }
  }

  /** What the pump holds one byte before it reaches the end of the first long stretch. */
  lemma NearlyLong(s: seq<byte>, i: nat)
    requires Long(s, i) && forall k :: 0 <= k < i ==> !Long(s, k)
    ensures var p := PumpAll(Singles(s[..i + MAX_LINE - 1]));
      |p.rest| == MAX_LINE - 1 && Clean(p.rest)
  {
    var t := s[..i + MAX_LINE - 1];
    SinglesConcat(t);
    PumpShape(Singles(t));
    forall j | Long(t, j) ensures false { PrefixLong(s, |t|, j); }
    PumpIsSplit(Singles(t));
    forall j | i <= j < |t| ensures t[j] != NL { assert s[i..i + MAX_LINE][j - i] == t[j]; }
    RestCovers(t, i);
  }

  /** One more read that brings a buffer to the limit empties it in one line. */
  lemma ReadForces(chunks: seq<seq<byte>>, x: seq<byte>)
    requires var p := PumpAll(chunks); Clean(p.rest) && |p.rest| == MAX_LINE - 1
    requires x != [] && Clean(x[..|x| - 1]) && (|x| == 1 ==> Clean(x))
    ensures PumpAll(chunks + [x]).lines == PumpAll(chunks).lines + [PumpAll(chunks).rest + x]
  {
    var buf := PumpAll(chunks).rest + x;
    assert (chunks + [x])[..|chunks|] == chunks;
    assert forall j :: MAX_LINE - 1 <= j < |buf| - 1 ==> buf[j] == x[..|x| - 1][j - (MAX_LINE - 1)];
    assert LineEnd(buf) == |buf|;
    assert buf[|buf|..] == [] && Cut([]) == Split([], []) && buf[..|buf|] == buf;
  }

  /** The stream read byte by byte, except that the read from m takes n bytes. */
  function Skewed(s: seq<byte>, m: nat, n: nat): seq<seq<byte>>
    requires m + n <= |s|
  {
    Singles(s[..m]) + [s[m..m + n]] + Singles(s[m + n..])
  }

  lemma SkewedReads(s: seq<byte>, m: nat, n: nat)
    requires m + n <= |s| && 0 < n <= CHUNK
    ensures Reads(Skewed(s, m, n)) && Concat(Skewed(s, m, n)) == s
  {
    SinglesConcat(s[..m]);
    SinglesConcat(s[m + n..]);
    ConcatAppend(Singles(s[..m]) + [s[m..m + n]], Singles(s[m + n..]));
    ConcatOne(Singles(s[..m]), s[m..m + n]);
    assert s == s[..m] + s[m..m + n] + s[m + n..];
  }

  /** A read of n bytes at the end of the first long stretch makes a line of that much more. */
  lemma SkewedLine(s: seq<byte>, i: nat, n: nat)
    requires Long(s, i) && forall k :: 0 <= k < i ==> !Long(s, k)
    requires 1 <= n <= 2 && i + MAX_LINE - 1 + n <= |s|
    ensures var m := i + MAX_LINE - 1;
      var p, all := PumpAll(Singles(s[..m])), PumpAll(Skewed(s, m, n)).lines;
      |p.lines| < |all| && |all[|p.lines|]| == MAX_LINE - 1 + n
  {
    var m := i + MAX_LINE - 1;
    var head, x := Singles(s[..m]), s[m..m + n];
    NearlyLong(s, i);
    assert s[m] == s[i..i + MAX_LINE][MAX_LINE - 1];
    ReadForces(head, x);
    PumpPrefix(Skewed(s, m, n), |head| + 1);
    assert Skewed(s, m, n)[..|head| + 1] == head + [x];
  }

  /** A long stretch with more behind it is broken in different places by different reads. */
  lemma ReadsMatter(s: seq<byte>, i: nat, lines: seq<seq<byte>>)
    requires Long(s, i) && i + MAX_LINE < |s|
    ensures !Emits(s, lines)
  {
    var j := FirstLong(s, i);
    var m := j + MAX_LINE - 1;
    SkewedReads(s, m, 1);
    SkewedReads(s, m, 2);
    SkewedLine(s, j, 1);
    SkewedLine(s, j, 2);
  }

  /**
   * What the pump emits is independent of where its reads fall exactly when nothing follows the
   * first MAX_LINE bytes in a row without a newline, and then those bytes come out as one line.
   */
  lemma ReadIndependence(s: seq<byte>)
    ensures (exists lines :: Emits(s, lines)) <==> LongOnlyAtEnd(s)
    ensures LongOnlyAtEnd(s) ==> Emits(s, Flushed(SplitLines(s)).lines)
  {
    if LongOnlyAtEnd(s) {
      forall chunks | Reads(chunks) && Concat(chunks) == s
        ensures PumpAll(chunks).lines == Flushed(SplitLines(s)).lines
      {
        EndFlushed(chunks);
      }
      assert Emits(s, Flushed(SplitLines(s)).lines);
    } else {
      var i :| Long(s, i) && i + MAX_LINE != |s|;
      forall lines ensures !Emits(s, lines) { ReadsMatter(s, i, lines); }
    }
  }

  /** A text of one character. */
  function Repeated(b: byte, n: nat): seq<byte> { seq(n, i requires 0 <= i < n => b) }

  /** The bound on lines is the best one: some reads do make a line of 69631 bytes. */
  lemma BoundReached() returns (chunks: seq<seq<byte>>)
    ensures Reads(chunks) && |PumpAll(chunks).lines| == 1 && |PumpAll(chunks).lines[0]| == 69631
  {
    var s, x := Repeated(97, MAX_LINE - 1), Repeated(97, CHUNK);
    assert forall i :: !Long(s, i);
    SinglesConcat(s);
    PumpIsSplit(Singles(s));
    assert Clean(s) && PumpAll(Singles(s)) == Split([], s);
    ReadForces(Singles(s), x);
    chunks := Singles(s) + [x];
  }
}
