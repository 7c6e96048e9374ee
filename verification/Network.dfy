/**
 * The allocator object: a map from block base to entry, the bytes of the next address to cut,
 * and the default network. Its methods are proved to take exactly the steps of module Allocator.
 *
 * The container runtime is an environment. Each call to it is a parameter saying how it went,
 * with the networks it grants masked to their prefix, as parsing a CIDR string does. Map keys
 * are dotted strings in the source; the 32-bit value used here names the same address.
 */
module Network {
  import opened Bytes
  import opened Subnets
  import opened Wrappers
  import opened Allocator

  /** What came of creating a network and reading it back. */
  datatype Reply = CreateFailed | LookupFailed | Granted(id: Id, gateway: seq<byte>)

  /**
   * What the runtime answers during one call: the probe network, the default one, given the
   * gateway it was asked to have, and a fresh one.
   */
  datatype Answers = Answers(probe: Option<IPv4>, first: IPv4 -> Reply, next: Reply)
  {
    /** The answer for the default network, whose gateway is pinned high in the probed block. */
    function First(): Reply { if probe.None? then CreateFailed else first(Pinned(probe.value)) }
  }

  datatype Outcome = Failed | Allocated(net: Option<AllocatedNetwork>)

  class NetworkImpl {
    var defaultDone: bool
    var defaultNet: Option<AllocatedNetwork>
    var networks: map<nat, AllocatedNetwork>
    var nextIP: array<byte>
    ghost var reserved: nat
    ghost var home: nat
    ghost var cut: nat

    /** The abstract state, once the default network exists. */
    ghost function Ledger(): State
      reads this
    {
      State(reserved, home, cut, networks, None)
    }

    ghost predicate Valid()
      reads this, nextIP
    {
      && (defaultNet.None? ==> networks == map[])
      && (defaultNet.Some? ==>
            && defaultDone
            && Inv(Ledger())
            && home in networks
            && defaultNet.value == networks[home].(owner := None)
            && nextIP.Length == 4
            && Value(nextIP[..]) == Mark(reserved, cut))
    }

    /** A handle some call returned earlier: the entry of its block, perhaps with an old owner. */
    ghost predicate Issued(h: AllocatedNetwork)
      reads this
    {
      h.base in networks && h == networks[h.base].(owner := h.owner)
    }

    constructor ()
      ensures Valid() && !defaultDone && defaultNet.None?
    {
      defaultDone, defaultNet, networks := false, None, map[];
      nextIP := new byte[0];
    }

    /** Records the default network at a probed address and puts the high-water mark past it. */
    method Record(ip: IPv4, id: Id, gateway: seq<byte>)
      requires defaultDone && defaultNet.None?
      modifies this
      ensures Valid() && defaultDone && Initial(Ledger()) && fresh(nextIP) && reserved == Value(ip)
      ensures defaultNet == Some(AllocatedNetwork(id, gateway, home, None))
    {
      ValueOfFour(ip);
      var key := MaskedKey(ip);
      var net := AllocatedNetwork(id, gateway, key, None);
      networks, defaultNet := map[key := net], Some(net);
      nextIP := new byte[4](i requires 0 <= i < 4 => ip[i]);
      assert nextIP[..] == ip;
      reserved, home, cut := Value(ip), key, 0;
      MarkStart(reserved);
      Advance();
      InitialInv(Ledger());
    }

    /** Asks for a network with the gateway pinned high and records what the runtime reports. */
    method CreateDefault(ip: IPv4, answer: IPv4 -> Reply)
      requires Valid() && defaultDone && defaultNet.None?
      modifies this
      ensures Valid() && defaultDone && (defaultNet.Some? <==> answer(Pinned(ip)).Granted?)
      ensures defaultNet.Some? ==>
        && Initial(Ledger()) && fresh(nextIP) && reserved == Value(ip)
        && defaultNet.value == AllocatedNetwork(answer(Pinned(ip)).id, answer(Pinned(ip)).gateway, home, None)
    {
      var gateway := PinnedGateway(ip);
      var reply := answer(gateway[..]);
      if reply.Granted? {
        Record(ip, reply.id, reply.gateway);
      }
    }

    /** Creates the default network on the first call, whatever comes of it, and never again. */
    method Default(env: Answers) returns (r: Option<AllocatedNetwork>)
      requires Valid()
      modifies this
      ensures Valid() && defaultDone && r == defaultNet
      ensures old(defaultDone) ==>
        defaultNet == old(defaultNet) && nextIP == old(nextIP) && Ledger() == old(Ledger())
      ensures !old(defaultDone) ==> (r.Some? <==> env.First().Granted?)
      ensures !old(defaultDone) && r.Some? ==> Probed(Ledger(), env) && fresh(nextIP)
    {
      if defaultDone {
        return defaultNet;
      }
      defaultDone, defaultNet, networks := true, None, map[];
      if env.probe.Some? {
        CreateDefault(env.probe.value, env.first);
      }
      r := defaultNet;
    }

    /**
     * Rewrites the owner of a handle's entry and returns the entry it replaced. The guard looks
     * at the owner the handle was issued with, not at the owner the map holds now.
     */
    method WithSandboxUID(h: AllocatedNetwork, uid: Option<UID>) returns (r: Option<AllocatedNetwork>)
      requires Valid() && defaultNet.Some? && Issued(h)
      modifies `networks
      ensures Valid()
      ensures var refused := h.owner.Some? && uid.Some? && h.owner != uid;
        && (refused ==> r.None? && networks == old(networks))
        && (!refused ==> r == Some(old(networks)[h.base]) && Ledger() == old(Ledger()).WithOwner(h.base, uid))
    {
      if h.owner.Some? && uid.Some? && h.owner.value != uid.value {
        return None;
      }
      r := Some(networks[h.base]);
      networks := networks[h.base := h.(owner := uid)];
      assert networks == old(networks)[h.base := old(networks)[h.base].(owner := uid)];
      OwnerInv(old(Ledger()), h.base, uid);
    }

    /** Gives the block back: a Release step. */
    method Deallocate(h: AllocatedNetwork) returns (ok: bool)
      requires Valid() && defaultNet.Some? && Issued(h)
      modifies `networks
      ensures Valid() && ok && Step(old(Ledger()), Release(h.base), Ledger())
      ensures networks[h.base].owner.None?
      ensures forall k :: k in old(networks) && k != h.base ==> k in networks && networks[k] == old(networks)[k]
    {
      var r := WithSandboxUID(h, None);
      ok := r.Some?;
    }

    /** Some free block other than the default network, if there is one. */
    method FindFree(defaultId: Id) returns (r: Option<AllocatedNetwork>)
      requires Valid() && defaultNet.Some? && defaultId == defaultNet.value.id
      ensures r.None? <==> Ledger().Free() == {}
      ensures r.Some? ==> r.value.base in Ledger().Free() && networks[r.value.base] == r.value
    {
      r := None;
      var todo := networks.Keys;
      while todo != {}
        invariant todo <= networks.Keys && Ledger().Free() <= todo
        decreases todo
      {
        var k :| k in todo;
        todo := todo - {k};
        var net := networks[k];
        assert net.id == defaultId <==> k == home;
        if net.id != defaultId && net.owner.None? {
          assert k in Ledger().Free();
          return Some(net);
        }
      }
    }

    /** Files the block at the high-water mark under a new owner: a Commit step. */
    method Cut(uid: UID, id: Id, gateway: seq<byte>) returns (r: Option<AllocatedNetwork>)
      requires Valid() && defaultNet.Some? && Unused(Ledger(), id)
      modifies this, nextIP
      ensures Valid() && defaultNet == old(defaultNet) && nextIP == old(nextIP)
      ensures Ledger() == Committed(old(Ledger()).(pending := Some(uid)), id, gateway)
      ensures r == Handed(old(Ledger()), uid, id, gateway)
    {
      var key := NextBlock();
      ghost var asked := Ledger().(pending := Some(uid));
      ghost var next := Committed(asked, id, gateway);
      CommitInv(asked, id, gateway);
      CommitKeepsHome(asked, id, gateway);
      var entry := if key in networks then networks[key] else AllocatedNetwork(id, gateway, key, None);
      if entry.owner.Some? && entry.owner.value != uid {
        networks, r := networks[key := entry], None;
      } else {
        networks, r := networks[key := entry.(owner := Some(uid))], Some(entry);
      }
      assert networks == next.blocks;
      Advance();
      assert Ledger() == next;
    }

    /**
     * Allocates for a sandbox. A file-sourced pod joins the default network; otherwise a free
     * block is reclaimed, and only when there is none is the next one cut.
     */
    method FromConfig(uid: UID, fromFile: bool, env: Answers) returns (r: Outcome)
      requires Valid()
      requires env.next.Granted? && defaultNet.Some? ==> Unused(Ledger(), env.next.id)
      requires env.next.Granted? && env.First().Granted? ==> env.next.id != env.First().id
      modifies this, nextIP
      ensures Valid() && defaultDone && (defaultNet.None? ==> r.Failed?)
      ensures old(defaultDone) ==> defaultNet == old(defaultNet)
      ensures defaultNet.Some? ==> exists s ::
        && (if old(defaultDone) then s == old(Ledger()) else Probed(s, env))
        && FromConfigSteps(s, Ledger(), uid, fromFile, env.next, r)
        && Outcomes(s, Ledger(), uid, fromFile, env.next, r)
    {
      var d := Default(env);
      if d.None? {
        return Failed;
      }
      ghost var s := Ledger();
      assert if old(defaultDone) then s == old(Ledger()) else Probed(s, env);
      if fromFile {
        var h := WithSandboxUID(d.value, Some(uid));
        r := Allocated(h);
      } else {
        var free := FindFree(d.value.id);
        if free.Some? {
          var h := WithSandboxUID(free.value, Some(uid));
          assert Step(s, Reclaim(free.value.base, uid), Ledger());
          r := Allocated(h);
        } else if env.next.Granted? {
          var h := Cut(uid, env.next.id, env.next.gateway);
          r := Allocated(h);
        } else {
          r := Failed;
        }
      }
      assert FromConfigSteps(s, Ledger(), uid, fromFile, env.next, r);
      OutcomesHold(s, Ledger(), uid, fromFile, env.next, r);
    }

    /** The base under which the block at the high-water mark is filed. */
    method NextBlock() returns (key: nat)
      requires Valid() && defaultNet.Some?
      ensures key == Base(reserved, cut)
    {
      var ip: IPv4 := nextIP[..];
      MarkBlock(reserved, cut);
      key := MaskedKey(ip);
    }

    /** Moves the high-water mark past one more block. */
    method Advance()
      requires nextIP.Length == 4 && Value(nextIP[..]) == Mark(reserved, cut)
      modifies nextIP, `cut
      ensures cut == old(cut) + 1 && Value(nextIP[..]) == Mark(reserved, cut)
    {
      MarkNext(reserved, cut);
      AddInPlace(nextIP, 16);
      assert Pow256(4) == SPACE by { ValueOfFour(nextIP[..]); }
      cut := cut + 1;
    }

    /** The network an address belongs to, found by masking the address and one map lookup. */
    method FromIP(ip: seq<byte>) returns (r: Option<AllocatedNetwork>)
      requires Valid()
      ensures To4(ip).None? ==> r.None?
      ensures To4(ip).Some? ==>
        var addr := Value(To4(ip).value);
        && (r.None? <==> forall k :: k in networks ==> !Contains(k, addr))
        && (r.Some? ==> forall k :: k in networks ==> (Contains(k, addr) <==> networks[k] == r.value))
    {
      var v4 := To4(ip);
      if v4.None? {
        return None;
      }
      var key := MaskedKey(v4.value);
      forall k | k in networks
        ensures Contains(k, Value(v4.value)) <==> k == key
      {
        BlockOf(Value(v4.value), k);
      }
      r := if key in networks then Some(networks[key]) else None;
    }
  }

  /** The first state: the default network alone, where the probe was and as the runtime reports it. */
  ghost predicate Probed(s: State, env: Answers) {
    && env.probe.Some? && env.First().Granted?
    && Initial(s) && s.reserved == Value(env.probe.value)
    && s.blocks[s.home] == AllocatedNetwork(env.First().id, env.First().gateway, s.home, None)
  }

  /** The handle a fresh allocation returns: the entry as it was before the owner went in. */
  ghost function Handed(s: State, uid: UID, id: Id, gateway: seq<byte>): Option<AllocatedNetwork> {
    var k := s.NextKey();
    if k !in s.blocks then Some(AllocatedNetwork(id, gateway, k, None))
    else if s.blocks[k].owner.Some? && s.blocks[k].owner.value != uid then None
    else Some(s.blocks[k])
  }

  /** The steps one allocation is made of, and what it hands back for each. */
  ghost predicate FromConfigSteps(s: State, t: State, uid: UID, fromFile: bool, next: Reply, r: Outcome) {
    if fromFile then
      Step(s, Static(uid), t) && r == Allocated(Some(s.blocks[s.home]))
    else if s.Free() != {} then
      exists k :: Step(s, Reclaim(k, uid), t) && r == Allocated(Some(s.blocks[k]))
    else
      var asked := s.(pending := Some(uid));
      && Step(s, Scan(uid), asked)
      && (if next.Granted? then
            && Step(asked, Commit(next.id, next.gateway), t)
            && r == Allocated(Handed(s, uid, next.id, next.gateway))
          else
            Step(asked, Abort, t) && r == Failed)
  }

  /** Every entry but one is as it was. */
  ghost predicate OnlyAt(s: State, t: State, k: nat) {
    k in t.blocks && forall j :: j in s.blocks && j != k ==> j in t.blocks && t.blocks[j] == s.blocks[j]
  }

  /**
   * What an allocation means for its caller. It succeeds unless a new block is needed and the
   * runtime does not grant one. A file-sourced pod then owns the default network. Any other pod
   * owns the block it was handed, which nobody held before, unless the address space is used up;
   * a new block is recorded as the runtime reports it. No other entry changes.
   */
  ghost predicate Outcomes(s: State, t: State, uid: UID, fromFile: bool, next: Reply, r: Outcome) {
    && (r.Failed? <==> !fromFile && s.Free() == {} && !next.Granted?)
    && (r.Failed? || r.net.None? ==> t.blocks == s.blocks)
    && (r.Allocated? && r.net.None? ==> s.cut >= BLOCKS)
    && (r.Allocated? && r.net.Some? ==>
          var h := r.net.value;
          && OnlyAt(s, t, h.base) && t.blocks[h.base] == h.(owner := Some(uid))
          && (fromFile ==> h.base == s.home)
          && (!fromFile ==> Gives(s, t, h.base, uid) || s.cut >= BLOCKS)
          && (h.base !in s.blocks ==> next.Granted? && h == AllocatedNetwork(next.id, next.gateway, h.base, None)))
  }

  lemma CommitOutcome(s: State, t: State, uid: UID, next: Reply, r: Outcome)
    requires Inv(s) && s.pending.None? && s.Free() == {} && next.Granted? && Unused(s, next.id)
    requires t == Committed(s.(pending := Some(uid)), next.id, next.gateway)
    requires r == Allocated(Handed(s, uid, next.id, next.gateway))
    ensures Outcomes(s, t, uid, false, next, r)
  {
    CommitInv(s.(pending := Some(uid)), next.id, next.gateway);
    DefaultRecorded(s);
  }

  lemma OutcomesHold(s: State, t: State, uid: UID, fromFile: bool, next: Reply, r: Outcome)
    requires Inv(s) && s.pending.None? && FromConfigSteps(s, t, uid, fromFile, next, r)
    ensures Outcomes(s, t, uid, fromFile, next, r)
  {
    if !fromFile && s.Free() == {} && next.Granted? {
      CommitOutcome(s, t, uid, next, r);
    }
  }

  lemma CommitKeepsHome(s: State, id: Id, gateway: seq<byte>)
    requires s.home in s.blocks && s.pending.Some?
    ensures var t := Committed(s, id, gateway);
      s.home in t.blocks && t.blocks[s.home].(owner := None) == s.blocks[s.home].(owner := None)
  {
  }

  lemma OwnerInv(s: State, k: nat, owner: Option<UID>)
    requires Inv(s) && k in s.blocks
    ensures Inv(s.WithOwner(k, owner))
  {
  }
}
