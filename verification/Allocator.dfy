/**
 * The subnet allocator as a state machine: which steps it can take, and what holds in every
 * state of every run. Module Network ties the mutating class to these steps.
 */
module Allocator {
  import opened Subnets
  import opened Wrappers
  import Bytes

  type UID = string
  type Id = string

  /** A handle. Handles are immutable; ownership lives in the map entry, not in old copies. */
  datatype AllocatedNetwork = AllocatedNetwork(id: Id, gateway: seq<Bytes.byte>, base: nat, owner: Option<UID>)

  /**
   * reserved is the address the first network was pinned to and home the base of its block,
   * cut counts the blocks cut so far, and pending is the allocation that has scanned the map
   * but not yet stored a block.
   */
  datatype State = State(
    reserved: nat, home: nat, cut: nat, blocks: map<nat, AllocatedNetwork>, pending: Option<UID>)
  {
    function NextKey(): nat { Base(reserved, cut) }

    /** Blocks other than the default network whose owner is gone. */
    function Free(): set<nat> {
      set k | k in blocks && k != home && blocks[k].owner.None?
    }

    function Held(): set<nat> {
      set k | k in blocks && k != home && blocks[k].owner.Some?
    }

    /** How many blocks besides the default one have ever been recorded. */
    function Created(): int { |blocks| - 1 }

    /** Blocks in use, counting the allocation that is under way. */
    function Demand(): nat { |Held()| + (if pending.Some? then 1 else 0) }

    function WithOwner(k: nat, owner: Option<UID>): State
      requires k in blocks
    {
      this.(blocks := blocks[k := blocks[k].(owner := owner)])
    }
  }

  datatype Event =
    | Static(uid: UID)                                // a file-sourced pod joins the default network
    | Reclaim(key: nat, uid: UID)                     // a free block gets a new owner
    | Scan(uid: UID)                                  // no free block: ask the runtime for the next one
    | Commit(id: Id, gateway: seq<Bytes.byte>)        // the runtime granted it
    | Abort                                           // the runtime refused or the lookup failed
    | Release(key: nat)                               // Deallocate, from any goroutine

  /** The state after the runtime granted the block at the high-water mark. */
  function Committed(s: State, id: Id, gateway: seq<Bytes.byte>): State
    requires s.pending.Some?
  {
    var k, uid := s.NextKey(), s.pending.value;
    var entry := if k in s.blocks then s.blocks[k] else AllocatedNetwork(id, gateway, k, None);
    var kept := entry.owner.Some? && entry.owner.value != uid;
    var owned := if kept then entry else entry.(owner := Some(uid));
    s.(cut := s.cut + 1, blocks := s.blocks[k := owned], pending := None)
  }

  ghost predicate Step(s: State, e: Event, t: State) {
    match e
    case Static(uid) => s.home in s.blocks && t == s.WithOwner(s.home, Some(uid))
    case Reclaim(k, uid) => s.pending.None? && k in s.Free() && t == s.WithOwner(k, Some(uid))
    case Scan(uid) => s.pending.None? && s.Free() == {} && t == s.(pending := Some(uid))
    case Commit(id, gw) => s.pending.Some? && Unused(s, id) && t == Committed(s, id, gw)
    case Abort => s.pending.Some? && t == s.(pending := None)
    case Release(k) => k in s.blocks && t == s.WithOwner(k, None)
  }

  /** Network identifiers granted by the runtime are new. */
  ghost predicate Unused(s: State, id: Id) {
    forall k :: k in s.blocks ==> s.blocks[k].id != id
  }

  ghost predicate Initial(s: State) {
    && s.reserved < SPACE && s.home == Base(s.reserved, 0) && s.cut == 1 && s.pending.None?
    && s.blocks.Keys == {s.home}
    && s.blocks[s.home].base == s.home
    && s.blocks[s.home].owner.None?
  }

  /** The recorded blocks are exactly the first cut blocks, each filed under its own base. */
  ghost predicate Inv(s: State) {
    && s.reserved < SPACE && s.home == Base(s.reserved, 0) && s.cut >= 1
    && (forall k: nat :: k in s.blocks <==> IsBlock(k) && Slot(s.reserved, k) < s.cut)
    && (forall k :: k in s.blocks ==> s.blocks[k].base == k)
    && (forall j, k :: j in s.blocks && k in s.blocks && s.blocks[j].id == s.blocks[k].id ==> j == k)
  }

  lemma InitialInv(s: State)
    requires Initial(s)
    ensures Inv(s)
  {
    SlotOfBase(s.reserved, 0);
    forall k: nat | IsBlock(k) && Slot(s.reserved, k) < 1
      ensures k in s.blocks
    {
      BaseOfSlot(s.reserved, k);
    }
  }

  lemma DefaultRecorded(s: State)
    requires Inv(s)
    ensures s.home in s.blocks
  {
    SlotOfBase(s.reserved, 0);
  }

  lemma StepInv(s: State, e: Event, t: State)
    requires Inv(s) && Step(s, e, t)
    ensures Inv(t)
  {
    if e.Commit? {
      CommitInv(s, e.id, e.gateway);
    }
  }

  lemma CommitInv(s: State, id: Id, gateway: seq<Bytes.byte>)
    requires Inv(s) && s.pending.Some? && Unused(s, id)
    ensures Inv(Committed(s, id, gateway))
    ensures s.NextKey() in s.blocks <==> s.cut >= BLOCKS
  {
    var r, k := s.reserved, s.NextKey();
    if s.cut < BLOCKS {
      SlotOfBase(r, s.cut);
    }
    forall j: nat | IsBlock(j) && Slot(r, j) == s.cut
      ensures j == k
    {
      BaseOfSlot(r, j);
    }
  }

  /** The recorded bases are exactly the first cut ones (all of them once the space is used up). */
  lemma Layout(s: State, k: nat)
    requires Inv(s)
    ensures k in s.blocks <==> exists i: nat :: i < s.cut && i < BLOCKS && k == Base(s.reserved, i)
  {
    if k in s.blocks {
      BaseOfSlot(s.reserved, k);
    }
    forall i: nat | i < s.cut && i < BLOCKS && k == Base(s.reserved, i)
      ensures k in s.blocks
    {
      SlotOfBase(s.reserved, i);
    }
  }

  /** No address lies in two recorded blocks. */
  lemma Disjoint(s: State, j: nat, k: nat, addr: nat)
    requires Inv(s) && j in s.blocks && k in s.blocks && Contains(j, addr) && Contains(k, addr)
    ensures j == k
  {
    BlockOf(addr, j);
    BlockOf(addr, k);
  }

  /** Only a release takes a held block away from its owner; no allocation ever does. */
  lemma OwnersKept(s: State, e: Event, t: State)
    requires Inv(s) && Step(s, e, t)
    ensures forall k :: k in s.Held() && e != Release(k) ==> k in t.Held() && t.blocks[k] == s.blocks[k]
  {
    DefaultRecorded(s);
  }

  // ---- runs ----------------------------------------------------------------

  /** A history of the allocator, most recent state outermost. */
  datatype Trace = Start(state: State) | Then(prev: Trace, event: Event, state: State)

  ghost predicate Run(r: Trace) {
    match r
    case Start(s) => Initial(s)
    case Then(p, e, s) => Run(p) && Step(p.state, e, s)
  }

  /** Block k passes to uid: nobody held it before and uid does now. */
  predicate Passes(s: State, t: State, k: nat, uid: UID) {
    k !in s.Held() && k in t.Held() && t.blocks[k].owner == Some(uid)
  }

  /** Block k passes to uid and no other entry changes. */
  ghost predicate Gives(s: State, t: State, k: nat, uid: UID) {
    Passes(s, t, k, uid) && forall j :: j in s.blocks && j != k ==> j in t.blocks && t.blocks[j] == s.blocks[j]
  }

  /** Whoever asks for a block and gets one owns a block afterwards that nobody held before. */
  lemma AllocationGives(s: State, e: Event, t: State) returns (k: nat)
    requires Inv(s) && Step(s, e, t) && (e.Reclaim? || (e.Commit? && s.cut < BLOCKS))
    ensures Gives(s, t, k, if e.Reclaim? then e.uid else s.pending.value)
  {
    if e.Reclaim? {
      k := e.key;
    } else {
      k := s.NextKey();
      DefaultRecorded(s);
      CommitInv(s, e.id, e.gateway);
    }
  }

  /** The run goes on from an earlier moment without a release of block k. */
  ghost predicate NoReleaseSince(r: Trace, from: Trace, k: nat) {
    r == from || (r.Then? && r.event != Release(k) && NoReleaseSince(r.prev, from, k))
  }

  /** A held block stays with its owner until it is released. */
  lemma {:induction false} HeldUntilReleased(r: Trace, from: Trace, k: nat)
    requires Run(r) && NoReleaseSince(r, from, k) && k in from.state.Held()
    ensures k in r.state.Held() && r.state.blocks[k] == from.state.blocks[k]
  {
    if r != from {
      HeldUntilReleased(r.prev, from, k);
      RunInv(r.prev);
      OwnersKept(r.prev.state, r.event, r.state);
    }
  }

  /** Over every run, a block that was given to someone is not given again before it is released. */
  lemma {:induction false} NeverGivenTwice(first: Trace, k: nat, a: UID, later: Trace, j: nat, b: UID)
    requires Run(later) && first.Then? && later.Then? && NoReleaseSince(later.prev, first, k)
    requires Passes(first.prev.state, first.state, k, a) && Passes(later.prev.state, later.state, j, b)
    ensures j != k
  {
    HeldUntilReleased(later.prev, first, k);
  }

  function Max(a: int, b: int): int { if a < b then b else a }

  /** The most blocks held at once in any state of the run. */
  function PeakHeld(r: Trace): int {
    match r
    case Start(s) => |s.Held()|
    case Then(p, _, s) => Max(PeakHeld(p), |s.Held()|)
  }

  function PeakDemand(r: Trace): int {
    match r
    case Start(s) => s.Demand()
    case Then(p, _, s) => Max(PeakDemand(p), s.Demand())
  }

  lemma {:induction false} RunInv(r: Trace)
    requires Run(r)
    ensures Inv(r.state)
  {
    match r
    case Start(s) => InitialInv(s);
    case Then(p, e, s) =>
      RunInv(p);
      StepInv(p.state, e, s);
  }

  /** The non-default blocks split into held and free ones. */
  lemma HeldAndFree(s: State)
    requires s.home in s.blocks
    ensures s.Created() == |s.Held()| + |s.Free()|
  {
    assert s.blocks.Keys == {s.home} + (s.Held() + s.Free());
  }

  /** Storing an owned block under a new key adds one held block and frees none. */
  lemma StoreCounts(s: State, k: nat, net: AllocatedNetwork, t: State)
    requires s.home in s.blocks && k !in s.blocks && net.owner.Some?
    requires t.home == s.home && t.blocks == s.blocks[k := net]
    ensures t.Created() == s.Created() + 1 && t.Free() == s.Free()
    ensures t.Held() == s.Held() + {k} && |t.Held()| == |s.Held()| + 1
  {
    assert t.blocks.Keys == s.blocks.Keys + {k};
    assert t.Held() == s.Held() + {k};
    assert t.Free() == s.Free();
  }

  lemma CommitCounts(s: State, id: Id, gw: seq<Bytes.byte>)
    requires Inv(s) && s.pending.Some? && Unused(s, id)
    ensures var t := Committed(s, id, gw);
      && (s.cut < BLOCKS ==> t.Created() == s.Created() + 1 && t.Free() == s.Free() && |t.Held()| == |s.Held()| + 1)
      && (s.cut >= BLOCKS ==> t.Created() == s.Created() && t.Free() <= s.Free())
  {
    var t, k := Committed(s, id, gw), s.NextKey();
    DefaultRecorded(s);
    CommitInv(s, id, gw);
    if k !in s.blocks {
      StoreCounts(s, k, t.blocks[k], t);
    } else {
      assert t.blocks.Keys == s.blocks.Keys;
    }
  }

  lemma OwnerCounts(s: State, k: nat, owner: Option<UID>)
    requires k in s.blocks
    ensures s.WithOwner(k, owner).Created() == s.Created()
    ensures k == s.home ==> s.WithOwner(k, owner).Held() == s.Held() && s.WithOwner(k, owner).Free() == s.Free()
  {
    assert s.WithOwner(k, owner).blocks.Keys == s.blocks.Keys;
  }

  lemma StepCounts(s: State, e: Event, t: State)
    requires Inv(s) && Step(s, e, t)
    ensures t.Created() == s.Created() + (if e.Commit? && s.cut < BLOCKS then 1 else 0)
    ensures e.Commit? && s.cut < BLOCKS ==> t.Free() == s.Free() && |t.Held()| == |s.Held()| + 1
    ensures e.Commit? && s.cut >= BLOCKS ==> t.Free() <= s.Free()
    ensures e.Static? || e.Scan? || e.Abort? ==> t.Held() == s.Held() && t.Free() == s.Free()
  {
    match e
    case Static(uid) => OwnerCounts(s, s.home, Some(uid));
    case Reclaim(k, uid) => OwnerCounts(s, k, Some(uid));
    case Release(k) => OwnerCounts(s, k, None);
    case Commit(id, gw) => CommitCounts(s, id, gw);
    case Scan(_) =>
    case Abort =>
  }

  lemma InitialCounts(s: State)
    requires Initial(s)
    ensures s.Created() == 0 == |s.Held()|
  {
    assert s.Held() == {} && |s.blocks.Keys| == 1;
  }

  /** A step that starts from a perfect count keeps it unless it cuts a block while one is free. */
  lemma ReuseStep(s: State, e: Event, t: State, peak: int)
    requires Inv(s) && Step(s, e, t) && s.Created() == peak
    ensures t.Created() == Max(peak, |t.Held()|) <==> !CutsBesideFree(s, e)
    ensures CutsBesideFree(s, e) ==> t.Created() == Max(peak, |t.Held()|) + 1
  {
    StepInv(s, e, t);
    DefaultRecorded(s);
    DefaultRecorded(t);
    StepCounts(s, e, t);
    HeldAndFree(s);
    HeldAndFree(t);
  }

  lemma DemandStep(s: State, e: Event, t: State, peak: int)
    requires Inv(s) && Step(s, e, t)
    requires s.Created() <= peak && (s.pending.Some? ==> s.Created() < peak)
    ensures |t.Held()| <= t.Created() <= Max(peak, t.Demand()) && s.Created() <= t.Created()
    ensures t.pending.Some? ==> t.Created() < Max(peak, t.Demand())
  {
    StepInv(s, e, t);
    DefaultRecorded(s);
    DefaultRecorded(t);
    StepCounts(s, e, t);
    HeldAndFree(s);
    HeldAndFree(t);
  }

  /** The runtime grants a new block although by now another one is free. */
  predicate CutsBesideFree(s: State, e: Event) { e.Commit? && s.cut < BLOCKS && s.Free() != {} }

  ghost predicate NeverCutsBesideFree(r: Trace) {
    r.Then? ==> NeverCutsBesideFree(r.prev) && !CutsBesideFree(r.prev.state, r.event)
  }

  /** In every state so far the blocks created are as many as were ever held at once. */
  ghost predicate ReusesPerfectly(r: Trace) {
    r.state.Created() == PeakHeld(r) && (r.Then? ==> ReusesPerfectly(r.prev))
  }

  /** Reuse is perfect throughout a run exactly when no block was ever cut beside a free one. */
  lemma {:induction false} CreatedIsPeak(r: Trace)
    requires Run(r)
    ensures ReusesPerfectly(r) <==> NeverCutsBesideFree(r)
  {
    match r
    case Start(s) => InitialCounts(s);
    case Then(p, e, s) =>
      CreatedIsPeak(p);
      RunInv(p);
      if ReusesPerfectly(p) {
        ReuseStep(p.state, e, s, PeakHeld(p));
      }
  }

  /** The block was released after the scan of the allocation that is under way. */
  predicate ReleasedSinceScan(r: Trace, k: nat) {
    r.Then? && !r.event.Scan? && (r.event == Release(k) || ReleasedSinceScan(r.prev, k))
  }

  /** What is free while an allocation is under way is what was released since its scan. */
  lemma {:induction false} FreeIsReleased(r: Trace, k: nat)
    requires Run(r) && r.state.pending.Some?
    ensures k in r.state.Free() <==> k != r.state.home && ReleasedSinceScan(r, k)
  {
    if !r.event.Scan? {
      FreeIsReleased(r.prev, k);
    }
  }

  /** Releases wait for the allocation under way: none lands between a scan and its commit. */
  ghost predicate Serial(r: Trace) {
    r.Then? ==> Serial(r.prev) && (r.event.Release? ==> r.prev.state.pending.None?)
  }

  /** If releases are serialised with allocations no block is cut beside a free one. */
  lemma {:induction false} SerialReuses(r: Trace)
    requires Run(r) && Serial(r)
    ensures NeverCutsBesideFree(r) && ReusesPerfectly(r)
    ensures r.state.pending.Some? ==> r.state.Free() == {}
  {
    if r.Then? {
      SerialReuses(r.prev);
      RunInv(r.prev);
      StepCounts(r.prev.state, r.event, r.state);
    }
    CreatedIsPeak(r);
  }

  /** In every run, serial or not, created lies between the peak in use and the peak demand. */
  lemma {:induction false} CreatedBounds(r: Trace)
    requires Run(r)
    ensures PeakHeld(r) <= r.state.Created() <= PeakDemand(r)
    ensures r.state.pending.Some? ==> r.state.Created() < PeakDemand(r)
  {
    match r
    case Start(s) => InitialCounts(s);
    case Then(p, e, s) =>
      CreatedBounds(p);
      RunInv(p);
      DemandStep(p.state, e, s, PeakDemand(p));
  }

  /**
   * Deallocate does not take the allocation lock: in any run with perfect reuse so far, a held
   * block released while an allocation is pending makes the grant cut one block too many.
   */
  lemma LateReleaseOvershoots(r: Trace, k: nat, id: Id, gw: seq<Bytes.byte>)
    requires Run(r) && ReusesPerfectly(r) && Unused(r.state, id)
    requires r.state.pending.Some? && k in r.state.Held() && r.state.cut < BLOCKS
    ensures var t := r.state.WithOwner(k, None);
      var late := Then(Then(r, Release(k), t), Commit(id, gw), Committed(t, id, gw));
      Run(late) && late.state.Created() == PeakHeld(late) + 1
  {
    var s, t := r.state, r.state.WithOwner(k, None);
    var freed := Then(r, Release(k), t);
    RunInv(r);
    RunInv(freed);
    assert k in t.Free();
    ReuseStep(s, Release(k), t, PeakHeld(r));
    ReuseStep(t, Commit(id, gw), Committed(t, id, gw), PeakHeld(freed));
  }

  /** The default network alone, at the bottom of the address space. */
  const EMPTY := State(0, 0, 1, map[0 := AllocatedNetwork("d", [], 0, None)], None)

  /** One more pod owning the next block. */
  const ONE := State(0, 0, 2, EMPTY.blocks[16 := AllocatedNetwork("1", [], 16, Some("a"))], None)

  lemma OnePod() returns (r: Trace)
    ensures Run(r) && Serial(r) && r.state == ONE
  {
    var asked := EMPTY.(pending := Some("a"));
    assert Base(0, 0) == 0 && Base(0, 1) == 16 && EMPTY.Free() == {};
    var granted := Committed(asked, "1", []);
    assert granted.blocks == ONE.blocks;
    r := Then(Then(Start(EMPTY), Scan("a"), asked), Commit("1", []), granted);
    assert Step(EMPTY, Scan("a"), asked) && Step(asked, Commit("1", []), granted);
  }

  lemma SecondAsked() returns (r: Trace)
    ensures Run(r) && Serial(r) && r.state == ONE.(pending := Some("b"))
  {
    var one := OnePod();
    r := Then(one, Scan("b"), ONE.(pending := Some("b")));
    assert ONE.Free() == {};
  }

  /** Such a run exists: two pods, one released while the other's block is being created. */
  lemma OvershootExists()
    ensures exists r :: Run(r) && r.state.Created() == PeakHeld(r) + 1
  {
    var r := SecondAsked();
    SerialReuses(r);
    assert 16 in r.state.Held() && r.state.blocks.Keys == {0, 16};
    LateReleaseOvershoots(r, 16, "2", []);
  }
}
