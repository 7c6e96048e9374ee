/**
 * Claiming and releasing persistent volumes as claim events come in. The API server is a map of
 * volumes; its calls succeed. Events carry a claim as the informer last saw it, which may be out
 * of date.
 */
module Volumes {
  import opened Wrappers
  import opened Names

  /** A claim is named by namespace and name. */
  datatype ClaimKey = ClaimKey(namespace: string, name: string)

  datatype Claim = Claim(key: ClaimKey, storageClass: Option<string>, volume: string, deleting: bool)

  /** Where a volume lives, whether it is a local one, and whether its data outlives its claim. */
  datatype Volume = Volume(node: string, local: bool, retain: bool)

  /** This node, the label prefix, and how names are lower-cased. */
  datatype Node = Node(name: string, prefix: string, lower: char -> char)

  /** The name Build gives a claim's volume; the claim's unique id is only a label. */
  function VolumeName(n: Node, k: ClaimKey): string {
    Normalize("pvc-" + k.namespace + "-" + k.name, n.lower) + "." + Normalize(n.prefix, n.lower)
  }

  type Catalog = map<string, Volume>

  /** Volumes in the API server and, by the same names, data volumes in the container runtime. */
  datatype World = World(volumes: Catalog, data: set<string>)

  predicate Mine(n: Node, v: Volume) { v.local && v.node == n.name }

  /** ClaimVolume acts on claims that name neither a class nor a volume. */
  predicate Unclaimed(c: Claim) { c.storageClass.None? && c.volume == "" }

  /** ReleaseVolume acts on claims bound to the volume derived from them. */
  predicate Bound(n: Node, c: Claim) { c.storageClass == Some("") && c.volume == VolumeName(n, c.key) }

  function Claimed(n: Node, w: World, c: Claim): World {
    if Unclaimed(c) then w.(volumes := w.volumes[VolumeName(n, c.key) := Volume(n.name, true, false)]) else w
  }

  function Released(n: Node, w: World, c: Claim): World {
    var name := VolumeName(n, c.key);
    if Bound(n, c) && name in w.volumes && Mine(n, w.volumes[name]) then
      World(w.volumes - {name}, if w.volumes[name].retain then w.data else w.data - {name})
    else w
  }

  datatype Event = Event(claim: Claim, deleted: bool)

  predicate IsRelease(e: Event) { e.deleted || e.claim.deleting }

  function Reconciled(n: Node, w: World, e: Event): World {
    if IsRelease(e) then Released(n, w, e.claim) else Claimed(n, w, e.claim)
  }

  function Replay(n: Node, w: World, events: seq<Event>): World {
    if events == [] then w
    else Reconciled(n, Replay(n, w, events[..|events| - 1]), events[|events| - 1])
  }

  /** The reconciler and the state it changes. */
  class Backend {
    const node: Node
    var world: World

    constructor (node: Node, world: World)
      ensures this.node == node && this.world == world
    {
      this.node, this.world := node, world;
    }

    method Reconcile(e: Event)
      modifies this
      ensures world == Reconciled(node, old(world), e)
    {
      var name := VolumeName(node, e.claim.key);
      if IsRelease(e) {
        if Bound(node, e.claim) && name in world.volumes && Mine(node, world.volumes[name]) {
          var data := if world.volumes[name].retain then world.data else world.data - {name};
          world := World(world.volumes - {name}, data);
        }
      } else if Unclaimed(e.claim) {
        world := world.(volumes := world.volumes[name := Volume(node.name, true, false)]);
      }
    }

    /** The informer delivers events one after the other. */
    method Handle(events: seq<Event>)
      modifies this
      ensures world == Replay(node, old(world), events)
    {
      for i := 0 to |events|
        invariant world == Replay(node, old(world), events[..i])
      {
        assert events[..i + 1][..i] == events[..i];
        Reconcile(events[i]);
      }
      assert events[..|events|] == events;
    }
  }

  /** The event shows a live claim that names neither a class nor a volume. */
  predicate Takes(e: Event, k: ClaimKey) {
    e.claim.key == k && !e.deleted && !e.claim.deleting && e.claim.storageClass.None? && e.claim.volume == ""
  }

  /** The event shows the claim deleted, or about to be. */
  predicate Drops(e: Event, k: ClaimKey) { e.claim.key == k && (e.deleted || e.claim.deleting) }

  /** The event shows the claim deleted after it was bound to the volume derived from it. */
  predicate DropsBound(n: Node, e: Event, k: ClaimKey) {
    Drops(e, k) && e.claim.storageClass == Some("") && e.claim.volume == VolumeName(n, k)
  }

  /** The claim was taken by some event and nothing of the given kind has happened since. */
  ghost predicate TakenSince(events: seq<Event>, k: ClaimKey, ends: Event -> bool) {
    exists i :: 0 <= i < |events| && Takes(events[i], k) && forall j :: i < j < |events| ==> !ends(events[j])
  }

  function Dropping(k: ClaimKey): Event -> bool { e => Drops(e, k) }

  function DroppingBound(n: Node, k: ClaimKey): Event -> bool { e => DropsBound(n, e, k) }

  /** The claim was taken and has not been deleted since. */
  ghost predicate Owed(events: seq<Event>, k: ClaimKey) { TakenSince(events, k, Dropping(k)) }

  /** The claim was taken and no deletion since has shown it bound. */
  ghost predicate Unreleased(n: Node, events: seq<Event>, k: ClaimKey) { TakenSince(events, k, DroppingBound(n, k)) }

  /** There is a local volume of that name on this node. */
  predicate Holds(n: Node, w: World, name: string) {
    name in w.volumes && w.volumes[name].local && w.volumes[name].node == n.name
  }

  /** Different claims have different volume names. */
  ghost predicate Distinct(n: Node, keys: iset<ClaimKey>) {
    forall j, k :: j in keys && k in keys && VolumeName(n, j) == VolumeName(n, k) ==> j == k
  }

  ghost predicate About(events: seq<Event>, keys: iset<ClaimKey>) {
    forall i :: 0 <= i < |events| ==> events[i].claim.key in keys
  }

  /** At the start this node holds none of the claims' volumes. */
  ghost predicate Fresh(n: Node, w: World, keys: iset<ClaimKey>) {
    forall k :: k in keys ==> !Holds(n, w, VolumeName(n, k))
  }

  /** The volumes follow the claim: after every event its volume is held exactly if it is owed. */
  ghost predicate Follows(n: Node, w: World, events: seq<Event>, k: ClaimKey) {
    && (Holds(n, Replay(n, w, events), VolumeName(n, k)) <==> Owed(events, k))
    && (events != [] ==> Follows(n, w, events[..|events| - 1], k))
  }

  /** Each deletion that ends a claim, being the first since it was last taken, carries the bound spec. */
  ghost predicate Prompt(n: Node, events: seq<Event>, k: ClaimKey) {
    forall j :: 0 <= j < |events| && Drops(events[j], k) && Owed(events[..j], k) ==> DropsBound(n, events[j], k)
  }

  lemma TakenOne(events: seq<Event>, e: Event, k: ClaimKey, ends: Event -> bool)
    ensures TakenSince(events + [e], k, ends) <==> Takes(e, k) || (TakenSince(events, k, ends) && !ends(e))
  {
    var all := events + [e];
    if Takes(e, k) {
      assert Takes(all[|events|], k);
    } else if TakenSince(events, k, ends) && !ends(e) {
      var i :| 0 <= i < |events| && Takes(events[i], k) && forall j :: i < j < |events| ==> !ends(events[j]);
      assert Takes(all[i], k);
    } else if TakenSince(all, k, ends) {
      var i :| 0 <= i < |all| && Takes(all[i], k) && forall j :: i < j < |all| ==> !ends(all[j]);
      assert !ends(all[|events|]) && Takes(events[i], k);
      forall j | i < j < |events| ensures !ends(events[j]) { assert all[j] == events[j]; }
    }
  }

  lemma PromptOne(n: Node, events: seq<Event>, e: Event, k: ClaimKey)
    ensures Prompt(n, events + [e], k)
      <==> Prompt(n, events, k) && (Drops(e, k) && Owed(events, k) ==> DropsBound(n, e, k))
  {
    var all := events + [e];
    assert all[..|events|] == events;
    assert forall j :: 0 <= j < |events| ==> all[j] == events[j] && all[..j] == events[..j];
    if Prompt(n, all, k) {
      assert Drops(all[|events|], k) && Owed(all[..|events|], k) ==> DropsBound(n, e, k);
    }
  }

  /** What one event does to whether a claim's volume is held, if names are distinct. */
  lemma HoldsOne(n: Node, w: World, e: Event, keys: iset<ClaimKey>, k: ClaimKey)
    requires Distinct(n, keys) && e.claim.key in keys && k in keys
    ensures Holds(n, Reconciled(n, w, e), VolumeName(n, k))
      <==> Takes(e, k) || (Holds(n, w, VolumeName(n, k)) && !DropsBound(n, e, k))
  {
  }

  lemma ReplayOne(n: Node, w: World, events: seq<Event>, e: Event)
    ensures Replay(n, w, events + [e]) == Reconciled(n, Replay(n, w, events), e)
  {
    assert (events + [e])[..|events|] == events;
  }

  /**
   * Over every sequence of events on claims with distinct derived names: this node holds, at
   * every moment, exactly the volumes of claims taken and not deleted since, if and only if each
   * deletion that ends a claim shows it bound to its volume.
   */
  lemma {:induction false} VolumesFollowClaims(n: Node, w: World, events: seq<Event>, keys: iset<ClaimKey>, k: ClaimKey)
    requires Distinct(n, keys) && About(events, keys) && k in keys && Fresh(n, w, keys)
    ensures Follows(n, w, events, k) <==> Prompt(n, events, k)
  {
    if events != [] {
      var m := |events| - 1;
      var p, e := events[..m], events[m];
      assert events == p + [e];
      VolumesFollowClaims(n, w, p, keys, k);
      ReplayOne(n, w, p, e);
      HoldsOne(n, Replay(n, w, p), e, keys, k);
      TakenOne(p, e, k, Dropping(k));
      PromptOne(n, p, e, k);
    }
  }

  /**
   * Which volumes are held at the end, whatever the deletions show: a volume outlives its claim
   * exactly when every deletion since the claim was last taken came with an outdated spec.
   */
  lemma {:induction false} HeldUntilBound(n: Node, w: World, events: seq<Event>, keys: iset<ClaimKey>, k: ClaimKey)
    requires Distinct(n, keys) && About(events, keys) && k in keys && Fresh(n, w, keys)
    ensures Holds(n, Replay(n, w, events), VolumeName(n, k)) <==> Unreleased(n, events, k)
  {
    if events != [] {
      var m := |events| - 1;
      var p, e := events[..m], events[m];
      assert events == p + [e];
      HeldUntilBound(n, w, p, keys, k);
      ReplayOne(n, w, p, e);
      HoldsOne(n, Replay(n, w, p), e, keys, k);
      TakenOne(p, e, k, DroppingBound(n, k));
    }
  }

  /** Any deletion seen through a claim that is not shown bound leaves the volume of that claim behind. */
  lemma StaleDeleteLeaks(n: Node, w: World, events: seq<Event>, e: Event, keys: iset<ClaimKey>)
    requires Distinct(n, keys) && About(events, keys) && e.claim.key in keys && Fresh(n, w, keys)
    requires var k := e.claim.key; Owed(events, k) && Drops(e, k) && !DropsBound(n, e, k)
    ensures !Owed(events + [e], e.claim.key)
    ensures Holds(n, Replay(n, w, events + [e]), VolumeName(n, e.claim.key))
  {
    var k := e.claim.key;
    TakenOne(events, e, k, Dropping(k));
    TakenOne(events, e, k, DroppingBound(n, k));
    var i :| 0 <= i < |events| && Takes(events[i], k) && forall j :: i < j < |events| ==> !Dropping(k)(events[j]);
    assert forall j :: i < j < |events| ==> !DroppingBound(n, k)(events[j]);
    HeldUntilBound(n, w, events + [e], keys, k);
  }

  // ---- the data ------------------------------------------------------------

  /** The claim was taken and a deletion since has shown it bound. */
  ghost predicate Ended(n: Node, events: seq<Event>, k: ClaimKey) {
    exists i, j :: 0 <= i < j < |events| && Takes(events[i], k) && DropsBound(n, events[j], k)
  }

  lemma EndedOne(n: Node, events: seq<Event>, e: Event, k: ClaimKey)
    requires Ended(n, events + [e], k)
    ensures Ended(n, events, k) || (DropsBound(n, e, k) && Unreleased(n, events, k))
  {
    var all := events + [e];
    var i, j :| 0 <= i < j < |all| && Takes(all[i], k) && DropsBound(n, all[j], k);
    assert Takes(events[i], k) && (j < |events| ==> all[j] == events[j]);
    if !Ended(n, events, k) {
      assert forall m :: i < m < |events| ==> !DroppingBound(n, k)(events[m]);
    }
  }

  /** A volume this node made for a claim is one whose data goes with the claim. */
  lemma MadeOne(n: Node, w: World, e: Event, keys: iset<ClaimKey>, k: ClaimKey)
    requires Distinct(n, keys) && e.claim.key in keys && k in keys
    ensures var name, t := VolumeName(n, k), Reconciled(n, w, e);
      && (Takes(e, k) ==> name in t.volumes && t.volumes[name] == Volume(n.name, true, false))
      && (!Takes(e, k) && !DropsBound(n, e, k) ==> SameAt(w, t, name))
      && (name !in w.data ==> name !in t.data)
  {
  }

  /** A deletion that shows a claim bound removes this node's volume and its data, and nothing else. */
  lemma ReleaseRemoves(n: Node, w: World, e: Event, name: string)
    requires var v := VolumeName(n, e.claim.key);
      DropsBound(n, e, e.claim.key) && Holds(n, w, v) && !w.volumes[v].retain
    ensures var v, t := VolumeName(n, e.claim.key), Reconciled(n, w, e);
      && v !in t.volumes && v !in t.data && (name != v ==> SameAt(w, t, name))
  {
  }

  /**
   * Over every sequence of events on claims with distinct derived names, whatever there was
   * before: the data of a claim that was taken and then deleted while shown bound is gone.
   */
  lemma {:induction false} DataGoesWithClaim(n: Node, w: World, events: seq<Event>, keys: iset<ClaimKey>, k: ClaimKey)
    requires Distinct(n, keys) && About(events, keys) && k in keys
    ensures var name, t := VolumeName(n, k), Replay(n, w, events);
      && (Unreleased(n, events, k) ==> name in t.volumes && t.volumes[name] == Volume(n.name, true, false))
      && (Ended(n, events, k) ==> name !in t.data)
  {
    if events != [] {
      var m := |events| - 1;
      var p, e := events[..m], events[m];
      assert events == p + [e];
      DataGoesWithClaim(n, w, p, keys, k);
      ReplayOne(n, w, p, e);
      TakenOne(p, e, k, DroppingBound(n, k));
      MadeOne(n, Replay(n, w, p), e, keys, k);
      if Ended(n, events, k) {
        EndedOne(n, p, e, k);
        if DropsBound(n, e, k) && Unreleased(n, p, k) {
          ReleaseRemoves(n, Replay(n, w, p), e, VolumeName(n, k));
        }
      }
    }
  }

  // ---- what is left alone --------------------------------------------------

  /** What both worlds have under a name is the same. */
  predicate SameAt(w: World, t: World, name: string) {
    && (name in t.volumes <==> name in w.volumes)
    && (name in w.volumes ==> t.volumes[name] == w.volumes[name])
    && (name in t.data <==> name in w.data)
  }

  /** The event shows a bound claim deleted whose volume has the name. */
  predicate Deletes(n: Node, e: Event, name: string) {
    DropsBound(n, e, e.claim.key) && e.claim.volume == name
  }

  ghost predicate NoneDerives(n: Node, events: seq<Event>, name: string) {
    forall i :: 0 <= i < |events| ==> VolumeName(n, events[i].claim.key) != name
  }

  ghost predicate NoneDeletes(n: Node, events: seq<Event>, name: string) {
    forall i :: 0 <= i < |events| ==> !Deletes(n, events[i], name)
  }

  predicate StillThere(w: World, t: World, name: string) {
    (name in w.volumes ==> name in t.volumes) && (name in w.data <==> name in t.data)
  }

  lemma OneUntouched(n: Node, w: World, e: Event, name: string)
    ensures VolumeName(n, e.claim.key) != name ==> SameAt(w, Reconciled(n, w, e), name)
    ensures !Deletes(n, e, name) ==> StillThere(w, Reconciled(n, w, e), name)
  {
  }

  /**
   * Over every sequence of events, names derived from none of its claims keep their volume and
   * data, and neither volume nor data is lost without a deletion that names it.
   */
  lemma {:induction false} OthersUntouched(n: Node, w: World, events: seq<Event>, name: string)
    ensures NoneDerives(n, events, name) ==> SameAt(w, Replay(n, w, events), name)
    ensures NoneDeletes(n, events, name) ==> StillThere(w, Replay(n, w, events), name)
  {
    if events != [] {
      var m := |events| - 1;
      var p := events[..m];
      OthersUntouched(n, w, p, name);
      OneUntouched(n, Replay(n, w, p), events[m], name);
      assert forall i :: 0 <= i < m ==> p[i] == events[i];
      assert NoneDerives(n, events, name) ==> NoneDerives(n, p, name) && VolumeName(n, events[m].claim.key) != name;
      assert NoneDeletes(n, events, name) ==> NoneDeletes(n, p, name) && !Deletes(n, events[m], name);
    }
  }

  /** No event but a deletion takes a volume away, and none takes away another node's or retained data. */
  lemma Kept(n: Node, w: World, e: Event, name: string)
    ensures var t := Reconciled(n, w, e);
      && (name in w.volumes && !Holds(n, w, name) ==> name in t.volumes)
      && (name in w.data && (name in w.volumes ==> w.volumes[name].retain) ==> name in t.data)
  {
  }

  /** Repeating an event changes nothing further. */
  lemma Repeated(n: Node, w: World, e: Event)
    ensures Reconciled(n, Reconciled(n, w, e), e) == Reconciled(n, w, e)
  {
    var t := Reconciled(n, w, e);
    if !IsRelease(e) && Unclaimed(e.claim) {
      assert t.volumes[VolumeName(n, e.claim.key) := Volume(n.name, true, false)] == t.volumes;
    }
  }

  // ---- when names are not distinct -----------------------------------------

  function Take(k: ClaimKey): Event { Event(Claim(k, None, "", false), false) }

  function Drop(n: Node, k: ClaimKey): Event { Event(Claim(k, Some(""), VolumeName(n, k), false), true) }

  /** If two claims share a derived name, deleting one takes away the volume the other is owed. */
  lemma SharedNameLoses(n: Node, w: World, j: ClaimKey, k: ClaimKey)
    requires j != k && VolumeName(n, j) == VolumeName(n, k)
    ensures var events := [Take(j), Take(k), Drop(n, j)];
      Owed(events, k) && !Holds(n, Replay(n, w, events), VolumeName(n, k)) && Prompt(n, events, k)
  {
    TakenOne([Take(j)], Take(k), k, Dropping(k));
    TakenOne([Take(j), Take(k)], Drop(n, j), k, Dropping(k));
    ReplayOne(n, w, [], Take(j));
    ReplayOne(n, w, [Take(j)], Take(k));
    ReplayOne(n, w, [Take(j), Take(k)], Drop(n, j));
    assert [] + [Take(j)] == [Take(j)] && [Take(j)] + [Take(k)] == [Take(j), Take(k)];
    assert [Take(j), Take(k)] + [Drop(n, j)] == [Take(j), Take(k), Drop(n, j)];
  }

  /** Every sequence of events in which deletions show their claims bound leaves each claim what it is owed. */
  ghost predicate AlwaysFollow(n: Node, w: World, keys: iset<ClaimKey>) {
    forall events, k :: About(events, keys) && k in keys && Prompt(n, events, k) ==> Follows(n, w, events, k)
  }

  lemma SharedNameBreaks(n: Node, w: World, keys: iset<ClaimKey>, j: ClaimKey, k: ClaimKey)
    requires j in keys && k in keys && j != k && VolumeName(n, j) == VolumeName(n, k)
    ensures !AlwaysFollow(n, w, keys)
  {
    var events := [Take(j), Take(k), Drop(n, j)];
    SharedNameLoses(n, w, j, k);
    assert About(events, keys) && Prompt(n, events, k) && !Follows(n, w, events, k);
  }

  /** Distinct names are what it takes for the volumes to follow the claims. */
  lemma DistinctNamesNeeded(n: Node, w: World, keys: iset<ClaimKey>)
    requires Fresh(n, w, keys)
    ensures AlwaysFollow(n, w, keys) <==> Distinct(n, keys)
  {
    if Distinct(n, keys) {
      forall events, k | About(events, keys) && k in keys && Prompt(n, events, k)
        ensures Follows(n, w, events, k)
      {
        VolumesFollowClaims(n, w, events, keys, k);
      }
    } else {
      var j, k :| j in keys && k in keys && VolumeName(n, j) == VolumeName(n, k) && j != k;
      SharedNameBreaks(n, w, keys, j, k);
    }
  }

  lemma LabelWithDash(a: string, b: string)
    requires IsLabel(a) && IsLabel(b) && a != [] && b != []
    ensures IsLabel(a + "-" + b)
  {
    var s := a + "-" + b;
    assert forall i :: 0 <= i < |a| ==> s[i] == a[i];
    assert forall i :: |a| < i < |s| ==> s[i] == b[i - |a| - 1];
    assert s[|a| - 1] == Last(a) && s[|s| - 1] == Last(b);
  }

  /** Every derived name is two labels joined by a dot. */
  lemma VolumeNameShape(n: Node, k: ClaimKey)
    requires LowerCases(n.lower)
    ensures exists a, b :: IsLabel(a) && IsLabel(b) && VolumeName(n, k) == a + "." + b
  {
    NormalizeLabels("pvc-" + k.namespace + "-" + k.name, n.lower);
    NormalizeLabels(n.prefix, n.lower);
  }

  /** The name of a volume spells out prefix, namespace and name when these are labels themselves. */
  lemma VolumeNameSpelled(n: Node, k: ClaimKey)
    requires LowerCases(n.lower) && IsLabel(k.namespace) && IsLabel(k.name) && IsLabel(n.prefix)
    requires k.namespace != [] && k.name != []
    ensures VolumeName(n, k) == "pvc-" + k.namespace + "-" + k.name + "." + n.prefix
  {
    LabelWithDash("pvc", k.namespace);
    assert "pvc" + "-" + k.namespace == "pvc-" + k.namespace;
    LabelWithDash("pvc-" + k.namespace, k.name);
    NormalizeLabels("pvc-" + k.namespace + "-" + k.name, n.lower);
    NormalizeLabels(n.prefix, n.lower);
  }

  /** Such claims exist: the dash between namespace and name is not told apart from theirs. */
  lemma NamesCollide(n: Node)
    ensures VolumeName(n, ClaimKey("a", "b-c")) == VolumeName(n, ClaimKey("a-b", "c"))
  {
    assert "pvc-" + "a" + "-" + "b-c" == "pvc-a-b-c" == "pvc-" + "a-b" + "-" + "c";
  }
}
