/** Newline-terminated lines: what it means to split a byte stream into them. */
module Lines {
  import opened Bytes

  function Concat(parts: seq<seq<byte>>): seq<byte> {
    if parts == [] then [] else parts[0] + Concat(parts[1..])
  }

  lemma Assoc<T>(a: seq<T>, b: seq<T>, c: seq<T>)
    ensures (a + b) + c == a + (b + c)
  {
  }

  lemma Halves<T>(s: seq<T>, n: nat)
    requires n <= |s|
    ensures s[..n] + s[n..] == s
  {
  }

  lemma {:induction false} ConcatAppend(a: seq<seq<byte>>, b: seq<seq<byte>>)
    ensures Concat(a + b) == Concat(a) + Concat(b)
  {
    if a == [] {
      assert a + b == b;
    } else {
      assert (a + b)[1..] == a[1..] + b;
      ConcatAppend(a[1..], b);
      Assoc(a[0], Concat(a[1..]), Concat(b));
    }
  }

  lemma ConcatOne(a: seq<seq<byte>>, x: seq<byte>)
    ensures Concat(a + [x]) == Concat(a) + x
  {
    ConcatAppend(a, [x]);
    assert Concat([x]) == x + Concat([]) == x;
  }

  lemma ConcatCons(x: seq<byte>, a: seq<seq<byte>>)
    ensures Concat([x] + a) == x + Concat(a)
  {
    assert ([x] + a)[1..] == a;
  }

  /** No newline. */
  predicate Clean(s: seq<byte>) { forall j :: 0 <= j < |s| ==> s[j] != NL }

  /** A line ends at its only newline. */
  predicate IsLine(s: seq<byte>) {
    s != [] && s[|s| - 1] == NL && forall j :: 0 <= j < |s| - 1 ==> s[j] != NL
  }

  predicate AllLines(ls: seq<seq<byte>>) {
    forall k :: 0 <= k < |ls| ==> IsLine(ls[k])
  }

  /** Position of the first newline, or -1. */
  function IndexNL(s: seq<byte>): (i: int)
    ensures -1 <= i < |s|
    ensures i < 0 ==> Clean(s)
    ensures i >= 0 ==> s[i] == NL && forall j :: 0 <= j < i ==> s[j] != NL
  {
    if s == [] then -1
    else if s[0] == NL then 0
    else
      var i := IndexNL(s[1..]);
      assert forall j :: 1 <= j < |s| ==> s[j] == s[1..][j - 1];
      if i < 0 then -1 else i + 1
  }

  datatype Split = Split(lines: seq<seq<byte>>, rest: seq<byte>)
  {
    function Cons(l: seq<byte>): Split { Split([l] + lines, rest) }
  }

  lemma SplitCons(l: seq<byte>, r: Split)
    ensures Concat(r.Cons(l).lines) + r.Cons(l).rest == l + (Concat(r.lines) + r.rest)
  {
    ConcatCons(l, r.lines);
    Assoc(l, Concat(r.lines), r.rest);
  }

  /** The complete lines of a stream, and the unterminated fragment after the last of them. */
  function SplitLines(s: seq<byte>): Split
    decreases |s|
  {
    var i := IndexNL(s);
    if i < 0 then Split([], s) else SplitLines(s[i + 1..]).Cons(s[..i + 1])
  }

  lemma {:induction false} SplitShape(s: seq<byte>)
    ensures AllLines(SplitLines(s).lines) && Clean(SplitLines(s).rest)
    decreases |s|
  {
    var i := IndexNL(s);
    if i >= 0 {
      SplitShape(s[i + 1..]);
      assert IsLine(s[..i + 1]);
    }
  }

  lemma {:induction false} SplitConserves(s: seq<byte>)
    ensures Concat(SplitLines(s).lines) + SplitLines(s).rest == s
    decreases |s|
  {
    var i := IndexNL(s);
    if i >= 0 {
      SplitConserves(s[i + 1..]);
      SplitCons(s[..i + 1], SplitLines(s[i + 1..]));
      Halves(s, i + 1);
    }
  }

  lemma SplitSound(s: seq<byte>)
    ensures AllLines(SplitLines(s).lines) && Clean(SplitLines(s).rest)
    ensures Concat(SplitLines(s).lines) + SplitLines(s).rest == s
  {
    SplitShape(s);
    SplitConserves(s);
  }

  lemma FirstNL(l: seq<byte>, tail: seq<byte>)
    requires IsLine(l)
    ensures IndexNL(l + tail) == |l| - 1
  {
    var s, i := l + tail, IndexNL(l + tail);
    assert s[|l| - 1] == NL && forall j :: 0 <= j < |l| - 1 ==> s[j] != NL;
  }

  /** There is only one way to cut a stream into lines and a newline-free rest. */
  lemma {:induction false} SplitUnique(s: seq<byte>, lines: seq<seq<byte>>, rest: seq<byte>)
    requires AllLines(lines) && Clean(rest) && Concat(lines) + rest == s
    ensures SplitLines(s) == Split(lines, rest)
    decreases |lines|
  {
    if lines != [] {
      var l, tail := lines[0], Concat(lines[1..]) + rest;
      assert s == l + tail;
      FirstNL(l, tail);
      assert s[..|l|] == l && s[|l|..] == tail;
      SplitUnique(tail, lines[1..], rest);
      assert lines == [l] + lines[1..];
    }
  }

  /** Feeding a stream in two parts: the fragment left by the first is finished by the second. */
  lemma SplitAppend(a: seq<byte>, b: seq<byte>)
    ensures var p, q := SplitLines(a), SplitLines(SplitLines(a).rest + b);
      SplitLines(a + b) == Split(p.lines + q.lines, q.rest)
  {
    var p := SplitLines(a);
    var q := SplitLines(p.rest + b);
    SplitSound(a);
    SplitSound(p.rest + b);
    Rejoin(p, b, q, a);
    SplitUnique(a + b, p.lines + q.lines, q.rest);
  }

  lemma Rejoin(p: Split, b: seq<byte>, q: Split, a: seq<byte>)
    requires Concat(p.lines) + p.rest == a && Concat(q.lines) + q.rest == p.rest + b
    ensures Concat(p.lines + q.lines) + q.rest == a + b
  {
    ConcatAppend(p.lines, q.lines);
    Assoc(Concat(p.lines), Concat(q.lines), q.rest);
    Assoc(Concat(p.lines), p.rest, b);
  }
}
