/**
 * Creating a container under a name that may be taken: on a conflict the tag builder is cloned,
 * its attempt counter bumped, and the name rebuilt.
 */
module Retry {
  import opened Decimal

  const NAME := "name"
  const ATTEMPT := "attempt"
  const SANDBOX_CONFIG := "sandbox-config"

  /** The pod name and namespace a sandbox-config blob decodes to. */
  type Decoder = string -> (string, string)

  class TagBuilder {
    const prefix: string
    var tags: map<string, string>

    constructor (prefix: string, tags: map<string, string>)
      ensures this.prefix == prefix && this.tags == tags
    {
      this.prefix := prefix;
      this.tags := tags;
    }

    function Key(key: string): string { prefix + "." + key }

    function Get(key: string): string
      reads this
    {
      if Key(key) in tags then tags[Key(key)] else ""
    }

    function Attempt(): nat
      reads this
    {
      Parse32(Get(ATTEMPT))
    }

    /** A copy that can be changed without affecting this builder. */
    method Clone() returns (c: TagBuilder)
      ensures fresh(c) && c.prefix == prefix && c.tags == tags
    {
      c := new TagBuilder(prefix, tags);
    }

    method IncrementAttempt()
      modifies this
      ensures tags == old(tags)[Key(ATTEMPT) := Print(old(Attempt()) + 1)]
    {
      var current := Parse32(Get(ATTEMPT));
      tags := tags[Key(ATTEMPT) := Print(current + 1)];
    }

    /** The name Build gives a container. */
    function ContainerName(decode: Decoder): string
      reads this
    {
      var pod := decode(Get(SANDBOX_CONFIG));
      Get(NAME) + "-" + Get(ATTEMPT) + "." + pod.0 + "." + pod.1
    }
  }

  /** A container's name at some attempt, with everything else fixed. */
  function NameAt(name: string, pod: (string, string), attempt: nat): string {
    name + "-" + Print(attempt) + "." + pod.0 + "." + pod.1
  }

  /** Different attempts have different names. */
  lemma NameInjective(name: string, pod: (string, string), m: nat, n: nat)
    requires NameAt(name, pod, m) == NameAt(name, pod, n)
    ensures m == n
  {
    var tail := "." + pod.0 + "." + pod.1;
    var p, q := name + "-" + Print(m) + tail, name + "-" + Print(n) + tail;
    assert NameAt(name, pod, m) == p && NameAt(name, pod, n) == q;
    assert p[|name| + 1..|p| - |tail|] == Print(m) && q[|name| + 1..|q| - |tail|] == Print(n);
    PrintInjective(m, n);
  }

  /** The attempt after one more conflict: it stops growing once it no longer fits 32 bits. */
  function Bumped(a: nat): nat { if a <= MAX32 then a + 1 else MAX32 + 1 }

  /** The attempt number of the i-th try. */
  function AttemptAt(first: nat, i: nat): nat { if i == 0 then first else Bumped(AttemptAt(first, i - 1)) }

  lemma {:induction false} AttemptAtValue(first: nat, i: nat)
    requires first <= MAX32
    ensures AttemptAt(first, i) == if first + i <= MAX32 then first + i else MAX32 + 1
  {
    if i > 0 { AttemptAtValue(first, i - 1); }
  }

  /** Some name the loop can still reach is free. */
  ghost predicate Reachable(name: string, pod: (string, string), first: nat, taken: set<string>) {
    exists n: nat :: first <= n <= MAX32 + 1 && NameAt(name, pod, n) !in taken
  }

  /** How the runtime answers a create call. */
  datatype Answer = Created | Conflict | Refused

  ghost predicate Labelled(tb: TagBuilder, name: string, decode: Decoder, pod: (string, string), attempt: nat)
    reads tb
  {
    && tb.Get(NAME) == name && decode(tb.Get(SANDBOX_CONFIG)) == pod && tb.Get(ATTEMPT) == Print(attempt)
  }

  lemma KeysDiffer(tb: TagBuilder)
    ensures tb.Key(NAME) != tb.Key(ATTEMPT) && tb.Key(SANDBOX_CONFIG) != tb.Key(ATTEMPT)
  {
    assert |NAME| != |ATTEMPT| && |SANDBOX_CONFIG| != |ATTEMPT|;
  }

  /** The names of all attempts from lo up to but not including hi are taken. */
  ghost predicate AllTaken(name: string, pod: (string, string), lo: nat, hi: nat, taken: set<string>) {
    forall n: nat :: lo <= n < hi ==> NameAt(name, pod, n) in taken
  }

  lemma OneMoreTaken(name: string, pod: (string, string), lo: nat, hi: nat, taken: set<string>)
    requires AllTaken(name, pod, lo, hi, taken) && NameAt(name, pod, hi) in taken
    ensures AllTaken(name, pod, lo, hi + 1, taken)
  {
  }

  lemma NotFree(name: string, pod: (string, string), n: nat, free: nat, taken: set<string>)
    requires NameAt(name, pod, n) in taken && NameAt(name, pod, free) !in taken
    ensures n != free
  {
  }

  /**
   * The retry loop, started at attempt a. Names in taken conflict; for any other name the runtime
   * may still refuse for another reason. The loop ends at the first free name.
   */
  method CreateContainer(
      tb0: TagBuilder, decode: Decoder, taken: set<string>, refuses: string -> bool,
      ghost base: string, ghost pod: (string, string), ghost a: nat)
    returns (answer: Answer, tb: TagBuilder, name: string, tries: nat)
    requires Labelled(tb0, base, decode, pod, a) && a <= MAX32 && Reachable(base, pod, a, taken)
    ensures tries >= 1 && a + tries - 1 <= MAX32 + 1
    ensures Labelled(tb, base, decode, pod, a + tries - 1) && name == NameAt(base, pod, a + tries - 1)
    ensures name !in taken && AllTaken(base, pod, a, a + tries - 1, taken)
    ensures answer == if refuses(name) then Refused else Created
  {
    tb, tries := tb0, 1;
    ghost var free: nat :| a <= free <= MAX32 + 1 && NameAt(base, pod, free) !in taken;
    name := tb.ContainerName(decode);
    while name in taken
      invariant tries >= 1 && a + tries - 1 <= free
      invariant Labelled(tb, base, decode, pod, a + tries - 1) && name == NameAt(base, pod, a + tries - 1)
      invariant AllTaken(base, pod, a, a + tries - 1, taken)
      decreases free - (a + tries - 1)
    {
      NotFree(base, pod, a + tries - 1, free, taken);
      OneMoreTaken(base, pod, a, a + tries - 1, taken);
      tb, name := NextTry(tb, decode, base, pod, a + tries - 1);
      tries := tries + 1;
    }
    answer := if refuses(name) then Refused else Created;
  }

  /** One turn of the loop: a fresh copy with the next attempt, and the name it builds. */
  method NextTry(tb: TagBuilder, decode: Decoder, ghost base: string, ghost pod: (string, string), ghost a: nat)
    returns (next: TagBuilder, name: string)
    requires Labelled(tb, base, decode, pod, a)
    ensures fresh(next) && Labelled(next, base, decode, pod, Bumped(a)) && name == NameAt(base, pod, Bumped(a))
    ensures next.prefix == tb.prefix && next.tags == tb.tags[tb.prefix + ".attempt" := Print(Bumped(a))]
    ensures tb.tags == old(tb.tags)
  {
    LabelMatchesName(a);
    next := tb.Clone();
    assert next.Key(ATTEMPT) == next.prefix + ".attempt";
    KeysDiffer(next);
    next.IncrementAttempt();
    name := next.ContainerName(decode);
  }

  /** With k of a container's names taken, one of the first k + 1 is free. */
  lemma {:induction false} FreeWithin(name: string, pod: (string, string), first: nat, taken: set<string>)
    returns (n: nat)
    ensures first <= n <= first + |taken| && NameAt(name, pod, n) !in taken
    decreases |taken|
  {
    var here := NameAt(name, pod, first);
    n := first;
    if here in taken {
      n := FreeWithin(name, pod, first + 1, taken - {here});
      if NameAt(name, pod, n) == here { NameInjective(name, pod, n, first); }
    }
  }

  /** While the attempt stays under 2^32 the loop ends, within one try more than the container has names taken. */
  lemma EndsWithin(name: string, pod: (string, string), first: nat, taken: set<string>, own: set<string>, tries: nat)
    requires forall n: nat :: NameAt(name, pod, n) in taken ==> NameAt(name, pod, n) in own
    requires first + |own| <= MAX32 + 1
    ensures Reachable(name, pod, first, taken)
    ensures tries >= 1 && AllTaken(name, pod, first, first + tries - 1, taken) ==> tries <= |own| + 1
  {
    var n := FreeWithin(name, pod, first, own);
  }

  /**
   * Otherwise the loop never ends: if every name up to attempt 2^32 is taken, each try, however
   * late, is of a taken name, because the counter is read back as at most 2^32 - 1.
   */
  lemma SpinsForever(name: string, pod: (string, string), first: nat, taken: set<string>, i: nat)
    requires first <= MAX32 && !Reachable(name, pod, first, taken)
    ensures NameAt(name, pod, AttemptAt(first, i)) in taken
  {
    AttemptAtValue(first, i);
    assert first <= AttemptAt(first, i) <= MAX32 + 1;
  }

  /** The attempt read back from the labels is the one in the name exactly while it fits 32 bits. */
  lemma LabelMatchesName(attempt: nat)
    ensures Parse32(Print(attempt)) == attempt <==> attempt < 0x1_0000_0000
    ensures Parse32(Print(attempt)) + 1 == Bumped(attempt)
  {
    ParsePrint(attempt);
  }

  /** No name is tried twice as long as the counter keeps growing. */
  lemma NeverTwice(name: string, pod: (string, string), first: nat, i: nat, j: nat)
    requires first <= MAX32 && i < j && first + j <= MAX32 + 1
    ensures NameAt(name, pod, AttemptAt(first, i)) != NameAt(name, pod, AttemptAt(first, j))
  {
    AttemptAtValue(first, i);
    AttemptAtValue(first, j);
    if NameAt(name, pod, AttemptAt(first, i)) == NameAt(name, pod, AttemptAt(first, j)) {
      NameInjective(name, pod, AttemptAt(first, i), AttemptAt(first, j));
    }
  }

  /** How a name is spelled: container, attempt, pod, namespace. */
  lemma NameSpelled()
    ensures NameAt("web", ("front", "default"), 12) == "web-12.front.default"
  {
    assert Print(12) == Print(1) + [Digit(2)] == "12";
    var s := "web" + "-" + "12" + "." + "front" + "." + "default";
    assert s == "web-12.front.default";
  }

  /** The labels a name is built from are read under the driver's prefix. */
  lemma LabelKeys(tb: TagBuilder)
    ensures tb.Key(NAME) == tb.prefix + ".name" && tb.Key(ATTEMPT) == tb.prefix + ".attempt"
    ensures tb.Key(SANDBOX_CONFIG) == tb.prefix + ".sandbox-config"
  {
    assert "." + NAME == ".name" && "." + ATTEMPT == ".attempt" && "." + SANDBOX_CONFIG == ".sandbox-config";
  }
}
