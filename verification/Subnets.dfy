/** IPv4 addresses as byte strings, and the /28 blocks the allocator carves out of them. */
module Subnets {
  import opened Bytes
  import opened Wrappers
  import Octets

  type IPv4 = s: seq<byte> | |s| == 4 witness [0, 0, 0, 0]

  const SPACE := 0x1_0000_0000
  const BLOCKS := 0x1000_0000
  const MASK28: IPv4 := [0xFF, 0xFF, 0xFF, 0xF0]

  function AndByte(a: byte, b: byte): byte {
    Octets.AndBound(8, a as nat, b as nat);
    assert Octets.Ones(3) == 7 && Octets.Ones(6) == 63;
    Octets.And(8, a as nat, b as nat) as byte
  }

  function OrNotByte(a: byte, mask: byte): byte {
    assert Octets.Ones(3) == 7 && Octets.Ones(6) == 63 && Octets.Ones(8) == 255;
    Octets.OrBound(8, a as nat, Octets.Not(8, mask as nat));
    Octets.Or(8, a as nat, Octets.Not(8, mask as nat)) as byte
  }

  function Masked(ip: IPv4): IPv4 {
    [AndByte(ip[0], MASK28[0]), AndByte(ip[1], MASK28[1]), AndByte(ip[2], MASK28[2]), AndByte(ip[3], MASK28[3])]
  }

  lemma MaskByte(b: byte)
    ensures AndByte(b, 0xFF) == b && AndByte(b, 0xF0) as int == b as int / 16 * 16
    ensures OrNotByte(b, 0xFF) == b && OrNotByte(b, 0xF0) as int == b as int / 16 * 16 + 15
  {
    Octets.MaskOctet(b as nat);
  }

  lemma LastOctet(ip: IPv4)
    ensures Value(ip) == Value(ip[..3]) * 256 + ip[3] as nat
  {
    assert ip == ip[..3] + [ip[3]];
    ValueConcat(ip[..3], [ip[3]]);
    assert Pow256(1) == 256 && Value([ip[3]]) == ip[3] as nat;
  }

  lemma RoundDown(h: nat, d: nat)
    ensures (h * 256 + d) / 16 * 16 == h * 256 + d / 16 * 16
  {
  }

  /** Replacing the low nibble of the last octet replaces the value modulo 16. */
  lemma LowNibble(ip: IPv4, m: IPv4, low: nat)
    requires m[..3] == ip[..3] && m[3] as int == ip[3] as int / 16 * 16 + low
    ensures Value(m) == Value(ip) / 16 * 16 + low
  {
    LastOctet(ip);
    LastOctet(m);
    RoundDown(Value(ip[..3]), ip[3] as nat);
  }

  /** Masking an address with /28 rounds it down to a multiple of 16. */
  lemma MaskedValue(ip: IPv4)
    ensures Value(Masked(ip)) == Value(ip) / 16 * 16
  {
    MaskByte(ip[0]);
    MaskByte(ip[1]);
    MaskByte(ip[2]);
    MaskByte(ip[3]);
    LowNibble(ip, Masked(ip), 0);
  }

  /** The map key of the block an address falls in. */
  method MaskedKey(ip: IPv4) returns (key: nat)
    ensures key == Value(ip) / 16 * 16
  {
    MaskedValue(ip);
    key := Value(Masked(ip));
  }

  /** The 4-byte form of an address, as net.IP.To4: IPv4, or IPv4 mapped into IPv6. */
  function To4(ip: seq<byte>): Option<IPv4> {
    if |ip| == 4 then Some(ip)
    else if |ip| == 16 && (forall i :: 0 <= i < 10 ==> ip[i] == 0) && ip[10] == 0xFF && ip[11] == 0xFF then
      Some(ip[12..])
    else None
  }

  const MAPPED: seq<byte> := [0, 0, 0, 0, 0, 0, 0, 0, 0, 0, 0xFF, 0xFF]

  /** A 4-byte address and its 16-byte mapped form are the same address, and nothing else is one. */
  lemma To4Exact(ip: seq<byte>, v4: IPv4)
    ensures To4(ip) == Some(v4) <==> ip == v4 || ip == MAPPED + v4
  {
    assert (MAPPED + v4)[12..] == v4;
    if |ip| == 16 {
      assert ip == ip[..12] + ip[12..];
      assert ip[..12] == MAPPED <==> (forall i :: 0 <= i < 10 ==> ip[i] == 0) && ip[10] == 0xFF == ip[11];
    }
  }

  predicate IsBlock(k: nat) { k < SPACE && k % 16 == 0 }

  predicate Contains(k: nat, addr: nat) { k <= addr < k + 16 }

  /** The base of the i-th block cut from a reserved address, wrapping at the end of the space. */
  function Base(reserved: nat, i: nat): (k: nat)
    ensures IsBlock(k)
  {
    (reserved / 16 * 16 + 16 * i) % SPACE
  }

  /** Which block in cutting order has base k. */
  function Slot(reserved: nat, k: nat): (i: nat)
    requires reserved < SPACE && k < SPACE
    ensures i < BLOCKS
  {
    ((k - reserved / 16 * 16) % SPACE) / 16
  }

  lemma SlotOfBase(reserved: nat, i: nat)
    requires reserved < SPACE && i < BLOCKS
    ensures Slot(reserved, Base(reserved, i)) == i
  {
  }

  lemma BaseOfSlot(reserved: nat, k: nat)
    requires reserved < SPACE && IsBlock(k)
    ensures Base(reserved, Slot(reserved, k)) == k
  {
  }

  /** The high-water mark after i blocks, as an address. */
  function Mark(reserved: nat, i: nat): nat { (reserved + 16 * i) % SPACE }

  /** The block at the high-water mark is the next one in cutting order. */
  lemma MarkBlock(reserved: nat, i: nat)
    ensures Mark(reserved, i) / 16 * 16 == Base(reserved, i)
  {
  }

  lemma MarkStart(reserved: nat)
    requires reserved < SPACE
    ensures Mark(reserved, 0) == reserved && Base(reserved, 0) == reserved / 16 * 16
  {
  }

  lemma MarkNext(reserved: nat, i: nat)
    ensures (Mark(reserved, i) + 16) % SPACE == Mark(reserved, i + 1)
  {
  }

  /** Every address lies in exactly one block, the one its masked form names. */
  lemma BlockOf(addr: nat, k: nat)
    requires IsBlock(k)
    ensures Contains(k, addr) <==> k == addr / 16 * 16
  {
  }

  lemma Broadcast(ip: IPv4, all: IPv4)
    requires forall i :: 0 <= i < 4 ==> all[i] == OrNotByte(ip[i], MASK28[i])
    ensures Value(all) == Value(ip) / 16 * 16 + 15 < SPACE == Pow256(4)
  {
    MaskByte(ip[0]);
    MaskByte(ip[1]);
    MaskByte(ip[2]);
    MaskByte(ip[3]);
    LowNibble(ip, all, 15);
    ValueOfFour(all);
  }

  /** Or-s the complement of the /28 mask into an address, giving its broadcast address. */
  method SetHostBits(a: array<byte>, ghost ip: IPv4)
    requires a[..] == ip
    modifies a
    ensures Value(a[..]) == Value(ip) / 16 * 16 + 15 < SPACE == Pow256(4)
  {
    for j := 0 to a.Length
      invariant forall i :: 0 <= i < j ==> a[i] == OrNotByte(ip[i], MASK28[i])
      invariant forall i :: j <= i < a.Length ==> a[i] == ip[i]
    {
      a[j] := OrNotByte(a[j], MASK28[j]);
    }
    Broadcast(ip, a[..]);
  }

  /** The last address of a block short of the broadcast address. */
  function Pinned(ip: IPv4): (g: IPv4)
    ensures Value(g) == Value(ip) / 16 * 16 + 14
  {
    var g := [ip[0], ip[1], ip[2], ((ip[3] as nat / 16) * 16 + 14) as byte];
    ValueOfFour(g);
    LowNibble(ip, g, 14);
    g
  }

  /** The gateway asked for the default network: every host bit set, then one less. */
  method PinnedGateway(ip: IPv4) returns (gateway: array<byte>)
    ensures fresh(gateway) && gateway[..] == Pinned(ip)
  {
    gateway := new byte[4](i requires 0 <= i < 4 => ip[i]);
    SetHostBits(gateway, ip);
    ModWrap(Value(gateway[..]) - 1, SPACE);
    DecrementInPlace(gateway);
    ValueInjective(gateway[..], Pinned(ip));
  }
}
