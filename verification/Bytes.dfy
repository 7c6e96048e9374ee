/** Octets, big-endian numbers, octet masks and the two in-place carry loops of the allocator. */
module Bytes {

  newtype byte = x: int | 0 <= x < 256

  const NL: byte := 10
  const SP: byte := 32

  /** The bytes of a text of ASCII characters. */
  function Ascii(s: string): (b: seq<byte>)
    ensures |b| == |s|
  {
    seq(|s|, i requires 0 <= i < |s| => (s[i] as int % 256) as byte)
  }

  function Pow256(n: nat): (p: nat)
    ensures p > 0
  {
    if n == 0 then 1 else 256 * Pow256(n - 1)
  }

  /** The number a byte string denotes, most significant byte first. */
  function Value(s: seq<byte>): nat {
    if s == [] then 0 else s[0] as nat * Pow256(|s| - 1) + Value(s[1..])
  }

  lemma ValueOfFour(s: seq<byte>)
    requires |s| == 4
    ensures Value(s) == ((s[0] as nat * 256 + s[1] as nat) * 256 + s[2] as nat) * 256 + s[3] as nat
    ensures Value(s) < 0x1_0000_0000 == Pow256(4)
  {
    assert Pow256(1) == 256 && Pow256(2) == 65536 && Pow256(3) == 16777216;
    assert s[1..][1..] == s[2..] && s[2..][1..] == s[3..] && s[3..][1..] == [];
    assert Value(s[3..]) == s[3] as nat;
    assert Value(s[2..]) == s[2] as nat * 256 + Value(s[3..]);
    assert Value(s[1..]) == s[1] as nat * 65536 + Value(s[2..]);
  }

  lemma MulMono(a: nat, b: nat, p: nat)
    requires a <= b
    ensures a * p <= b * p
  {
  }

  lemma {:induction false} ValueBound(s: seq<byte>)
    ensures Value(s) < Pow256(|s|)
  {
    if s != [] {
      ValueBound(s[1..]);
      MulMono(s[0] as nat, 255, Pow256(|s| - 1));
    }
  }

  lemma {:induction false} PowSum(m: nat, n: nat)
    ensures Pow256(m + n) == Pow256(m) * Pow256(n)
  {
    if m > 0 {
      PowSum(m - 1, n);
    }
  }

  lemma {:induction false} ValueConcat(s: seq<byte>, t: seq<byte>)
    ensures Value(s + t) == Value(s) * Pow256(|t|) + Value(t)
  {
    if s == [] {
      assert s + t == t;
    } else {
      assert (s + t)[1..] == s[1..] + t;
      ValueConcat(s[1..], t);
      PowSum(|s| - 1, |t|);
      Distribute(s[0] as nat, Pow256(|s| - 1), Pow256(|t|), Value(s[1..]));
    }
  }

  lemma Distribute(b: nat, p: nat, q: nat, v: nat)
    ensures b * (p * q) + v * q == (b * p + v) * q
  {
  }

  /** Division with remainder is unique. */
  lemma DivModUnique(x: nat, p: nat, q: nat, r: nat)
    requires x == q * p + r && r < p
    ensures x / p == q && x % p == r
  {
    var k := x / p;
    assert x == k * p + x % p;
    if q < k {
      MulMono(q + 1, k, p);
    } else if k < q {
      MulMono(k + 1, q, p);
    }
  }

  lemma ModSmall(x: nat, p: nat)
    requires x < p
    ensures x % p == x
  {
    DivModUnique(x, p, 0, x);
  }

  lemma ModWrap(x: nat, p: nat)
    requires x < p
    ensures (x + p) % p == x
  {
    DivModUnique(x + p, p, 1, x);
  }

  /** Equal-length byte strings with the same value are the same string. */
  lemma {:induction false} ValueInjective(s: seq<byte>, t: seq<byte>)
    requires |s| == |t| && Value(s) == Value(t)
    ensures s == t
  {
    if s != [] {
      ValueBound(s[1..]);
      ValueBound(t[1..]);
      var p := Pow256(|s| - 1);
      DivModUnique(Value(s), p, s[0] as nat, Value(s[1..]));
      DivModUnique(Value(t), p, t[0] as nat, Value(t[1..]));
      ValueInjective(s[1..], t[1..]);
      assert s == [s[0]] + s[1..] && t == [t[0]] + t[1..];
    }
  }

  // ---- in-place arithmetic -------------------------------------------------

  /** Digits j.. of now, plus carry at weight j, amount to digits j.. of was plus amount. */
  ghost predicate Carried(was: seq<byte>, now: seq<byte>, j: nat, carry: nat, amount: nat) {
    && j <= |was| == |now|
    && was[..j] == now[..j]
    && Value(was[j..]) + amount == Value(now[j..]) + carry * Pow256(|now| - j)
  }

  lemma CarryDigit(b: nat, carry: nat, p: nat, w: nat, v: nat, amount: nat)
    requires w + amount == v + carry * p
    ensures b * p + w + amount == ((b + carry) % 256) * p + v + ((b + carry) / 256) * (256 * p)
  {
    var q, r := (b + carry) / 256, (b + carry) % 256;
    assert b + carry == 256 * q + r;
    assert b * p + carry * p == (b + carry) * p == q * (256 * p) + r * p;
  }

  lemma CarryStep(was: seq<byte>, now: seq<byte>, j: nat, carry: nat, amount: nat)
    requires Carried(was, now, j + 1, carry, amount)
    ensures var sum := now[j] as nat + carry;
      Carried(was, now[j := (sum % 256) as byte], j, sum / 256, amount)
  {
    var sum := now[j] as nat + carry;
    var next := now[j := (sum % 256) as byte];
    assert now[j] == now[..j + 1][j] == was[..j + 1][j] == was[j];
    assert next[..j] == now[..j + 1][..j] == was[..j];
    assert was[j..] == [was[j]] + was[j + 1..] && next[j..] == [next[j]] + now[j + 1..];
    CarryDigit(now[j] as nat, carry, Pow256(|now| - j - 1), Value(was[j + 1..]), Value(now[j + 1..]), amount);
  }

  /** Changing digits j.. changes the value by what those digits change. */
  lemma SharedPrefix(was: seq<byte>, now: seq<byte>, j: nat)
    requires j <= |was| == |now| && was[..j] == now[..j]
    ensures Value(now) - Value(now[j..]) == Value(was) - Value(was[j..])
  {
    assert was == was[..j] + was[j..] && now == now[..j] + now[j..];
    ValueConcat(was[..j], was[j..]);
    ValueConcat(now[..j], now[j..]);
  }

  lemma CarriedOut(was: seq<byte>, now: seq<byte>, carry: nat, amount: nat)
    requires Carried(was, now, 0, carry, amount)
    ensures Value(now) == (Value(was) + amount) % Pow256(|now|)
  {
    var p := Pow256(|now|);
    assert was[0..] == was && now[0..] == now;
    ValueBound(now);
    DivModUnique(Value(was) + amount, p, carry, Value(now));
  }

  lemma Absorbed(was: seq<byte>, now: seq<byte>, j: nat, amount: nat)
    requires Carried(was, now, j, 0, amount)
    ensures Value(now) == (Value(was) + amount) % Pow256(|now|)
  {
    ValueBound(now);
    SharedPrefix(was, now, j);
    assert Value(was) + amount == Value(now);
    ModSmall(Value(now), Pow256(|now|));
  }

  /** 32-bit unsigned truncation. */
  function Wrap32(x: nat): (r: nat)
    ensures x < 0x1_0000_0000 ==> r == x
  {
    x % 0x1_0000_0000
  }

  /**
   * The ripple-carry loop that advances the allocator's high-water mark. Its sums are 32-bit;
   * the bound on amount is what keeps them from wrapping.
   */
  method AddInPlace(a: array<byte>, amount: nat)
    requires amount <= 0xFFFF_FF00
    modifies a
    ensures Value(a[..]) == (Value(old(a[..])) + amount) % Pow256(a.Length)
  {
    var carry: nat := amount;
    var j := a.Length;
    ghost var was := a[..];
    while j > 0 && carry > 0
      invariant 0 <= j <= a.Length && carry <= 0xFFFF_FF00
      invariant Carried(was, a[..], j, carry, amount)
    {
      j := j - 1;
      ghost var now := a[..];
      CarryStep(was, now, j, carry, amount);
      var sum := Wrap32(a[j] as nat + carry);
      a[j] := (sum % 256) as byte;
      carry := sum / 256;
      assert a[..] == now[j := a[j]];
    }
    if carry == 0 {
      Absorbed(was, a[..], j, amount);
    } else {
      CarriedOut(was, a[..], carry, amount);
    }
  }

  /** Digits j.. of now are digits j.. of was less one, owing a borrow at weight j. */
  ghost predicate Borrowed(was: seq<byte>, now: seq<byte>, j: nat, borrow: bool) {
    && j <= |was| == |now|
    && was[..j] == now[..j]
    && Value(was[j..]) + (if borrow then Pow256(|now| - j) else 0) == Value(now[j..]) + 1
  }

  lemma BorrowStep(was: seq<byte>, now: seq<byte>, j: nat)
    requires Borrowed(was, now, j + 1, true)
    ensures var d := if now[j] == 0 then 0xFF else now[j] - 1;
      Borrowed(was, now[j := d], j, d == 0xFF)
  {
    var next := now[j := if now[j] == 0 then 0xFF else now[j] - 1];
    var b, p := now[j] as int, Pow256(|now| - j - 1);
    assert now[j] == now[..j + 1][j] == was[..j + 1][j] == was[j];
    assert next[..j] == now[..j + 1][..j] == was[..j];
    assert was[j..] == [was[j]] + was[j + 1..] && next[j..] == [next[j]] + now[j + 1..];
    assert (b - 1) * p == b * p - p;
  }

  lemma BorrowSettled(was: seq<byte>, now: seq<byte>, j: nat, borrow: bool)
    requires Borrowed(was, now, j, borrow) && (j == 0 || !borrow)
    ensures Value(now) == (Value(was) + Pow256(|now|) - 1) % Pow256(|now|)
  {
    ValueBound(now);
    if borrow {
      assert was[0..] == was && now[0..] == now;
      assert Value(was) + Pow256(|now|) - 1 == Value(now);
      ModSmall(Value(now), Pow256(|now|));
    } else {
      SharedPrefix(was, now, j);
      assert Value(was) - 1 == Value(now);
      ModWrap(Value(now), Pow256(|now|));
    }
  }

  /** The borrow loop that steps an address down by one. */
  method DecrementInPlace(a: array<byte>)
    modifies a
    ensures Value(a[..]) == (Value(old(a[..])) + Pow256(a.Length) - 1) % Pow256(a.Length)
  {
    var j := a.Length;
    var borrow := true;
    ghost var was := a[..];
    while j > 0 && borrow
      invariant 0 <= j <= a.Length
      invariant Borrowed(was, a[..], j, borrow)
    {
      j := j - 1;
      ghost var now := a[..];
      BorrowStep(was, now, j);
      a[j] := if a[j] == 0 then 0xFF else a[j] - 1;
      borrow := a[j] == 0xFF;
      assert a[..] == now[j := a[j]];
    }
    BorrowSettled(was, a[..], j, borrow);
  }
}

/** Bitwise operations on n-bit numbers, and what a /28 mask does to an octet. */
module Octets {

  function And(n: nat, a: nat, b: nat): nat {
    if n == 0 then 0 else 2 * And(n - 1, a / 2, b / 2) + (if a % 2 == 1 && b % 2 == 1 then 1 else 0)
  }

  function Or(n: nat, a: nat, b: nat): nat {
    if n == 0 then 0 else 2 * Or(n - 1, a / 2, b / 2) + (if a % 2 == 1 || b % 2 == 1 then 1 else 0)
  }

  function Ones(n: nat): nat {
    if n == 0 then 0 else 2 * Ones(n - 1) + 1
  }

  function Not(n: nat, a: nat): int { Ones(n) - a }

  lemma {:induction false} Identities(n: nat, a: nat)
    requires a <= Ones(n)
    ensures And(n, a, Ones(n)) == a && Or(n, a, 0) == a
  {
    if n > 0 { Identities(n - 1, a / 2); }
  }

  lemma {:induction false} AndBound(n: nat, a: nat, b: nat)
    ensures And(n, a, b) <= Ones(n)
  {
    if n > 0 { AndBound(n - 1, a / 2, b / 2); }
  }

  lemma {:induction false} OrBound(n: nat, a: nat, b: nat)
    ensures Or(n, a, b) <= Ones(n)
  {
    if n > 0 { OrBound(n - 1, a / 2, b / 2); }
  }

  lemma LowBit(n: nat, a: nat, b: nat)
    ensures And(n + 1, a, 2 * b) == 2 * And(n, a / 2, b)
    ensures Or(n + 1, a, 2 * b + 1) == 2 * Or(n, a / 2, b) + 1
  {
  }

  /** 0xFF keeps an octet and 0xF0 clears its low nibble; or-ing the complement sets that nibble. */
  lemma MaskOctet(b: nat)
    requires b < 256
    ensures And(8, b, 0xFF) == b && And(8, b, 0xF0) == b / 16 * 16
    ensures Or(8, b, Not(8, 0xFF)) == b && Or(8, b, Not(8, 0xF0)) == b / 16 * 16 + 15
  {
    assert Ones(3) == 7 && Ones(4) == 15 && Ones(6) == 63 && Ones(8) == 255;
    Identities(8, b);
    Identities(4, b / 16);
    LowBit(7, b, 120); LowBit(6, b / 2, 60); LowBit(5, b / 4, 30); LowBit(4, b / 8, 15);
    LowBit(7, b, 7); LowBit(6, b / 2, 3); LowBit(5, b / 4, 1); LowBit(4, b / 8, 0);
    assert b / 2 / 2 == b / 4 && b / 4 / 2 == b / 8 && b / 8 / 2 == b / 16;
  }
}
