/**
 * Listing containers and sandboxes: CRI filters are pushed down to the runtime as label and
 * status filters, and only the label selector is applied afterwards.
 */
module Listing {
  import opened Wrappers

  datatype DockerState = Created | Running | Paused | Restarting | Removing | Exited | Dead

  datatype CriState = CriCreated | CriRunning | CriExited | CriUnknown

  type Labels = map<string, string>

  /** Reading a missing key of a Go map gives the empty string. */
  function Lookup(m: Labels, k: string): string { if k in m then m[k] else "" }

  datatype Item = Item(id: string, labels: Labels, state: DockerState)

  /** A label pair is among some labels. */
  predicate Carries(m: Labels, k: string, v: string) { k in m && m[k] == v }

  /**
   * The driver's label prefix and name, the CRI labels packed into a set of runtime labels, and
   * which identifiers the runtime takes a wanted identifier to match.
   */
  datatype Driver = Driver(
    prefix: string, name: string, unpack: Labels -> Labels, idMatches: (string, string) -> bool)
  {
    function Key(k: string): string { prefix + "." + k }
  }

  /** An identifier matches itself. */
  ghost predicate ValidDriver(d: Driver) { forall id :: d.idMatches(id, id) }

  // ---- the runtime's own filters -------------------------------------------

  predicate HasLabels(labels: set<(string, string)>, c: Item) {
    forall p :: p in labels ==> Carries(c.labels, p.0, p.1)
  }

  /**
   * All label pairs must be present; any one of the states will do, and no state means all. An
   * empty identifier matches every item.
   */
  datatype Query = Query(id: string, labels: set<(string, string)>, states: set<DockerState>)
  {
    predicate Accepts(d: Driver, c: Item) {
      (id == "" || d.idMatches(id, c.id)) && HasLabels(labels, c) && (states == {} || c.state in states)
    }
  }

  function Collect<R>(s: seq<Item>, pick: Item -> bool, view: Item -> R): seq<R> {
    if s == [] then []
    else
      var n := |s| - 1;
      if pick(s[n]) then Collect(s[..n], pick, view) + [view(s[n])] else Collect(s[..n], pick, view)
  }

  lemma CollectOne<R>(s: seq<Item>, c: Item, pick: Item -> bool, view: Item -> R)
    ensures Collect(s + [c], pick, view)
      == if pick(c) then Collect(s, pick, view) + [view(c)] else Collect(s, pick, view)
  {
    assert (s + [c])[..|s|] == s;
  }

  /** What is collected is the view of exactly the items picked. */
  lemma {:induction false} CollectMembers<R>(s: seq<Item>, pick: Item -> bool, view: Item -> R, r: R)
    ensures r in Collect(s, pick, view) <==> exists c :: c in s && pick(c) && view(c) == r
  {
    if s != [] {
      var n := |s| - 1;
      CollectMembers(s[..n], pick, view, r);
      assert s == s[..n] + [s[n]];
      assert s[n] in s;
    }
  }

  /** A wider pick gives a longer list, and the same list exactly when it picks nothing more. */
  lemma {:induction false} CollectSame<R>(s: seq<Item>, wide: Item -> bool, narrow: Item -> bool, view: Item -> R)
    requires forall c :: narrow(c) ==> wide(c)
    ensures |Collect(s, narrow, view)| <= |Collect(s, wide, view)|
    ensures Collect(s, wide, view) == Collect(s, narrow, view) <==> forall c :: c in s && wide(c) ==> narrow(c)
  {
    if s != [] {
      var n := |s| - 1;
      var x, p := s[n], s[..n];
      CollectSame(p, wide, narrow, view);
      assert s == p + [x];
      if narrow(x) {
        Snoc(Collect(p, wide, view), Collect(p, narrow, view), view(x));
      }
    }
  }

  lemma Snoc<R>(a: seq<R>, b: seq<R>, x: R)
    ensures a + [x] == b + [x] <==> a == b
  {
    if a + [x] == b + [x] {
      assert a == (a + [x])[..|a|] && b == (b + [x])[..|b|];
    }
  }

  /** The loop over the labels of a selector. */
  method MatchLabels(d: Driver, labels: Labels, selector: Labels) returns (ok: bool)
    ensures ok <==> Matches(d, labels, selector)
  {
    var unpacked := d.unpack(labels);
    var todo := selector.Keys;
    while todo != {}
      invariant todo <= selector.Keys
      invariant forall k :: k in selector && k !in todo ==>
        Lookup(unpacked, k) == selector[k] || Lookup(labels, k) == selector[k]
      decreases todo
    {
      var k :| k in todo;
      if Lookup(unpacked, k) != selector[k] && Lookup(labels, k) != selector[k] {
        return false;
      }
      todo := todo - {k};
    }
    ok := true;
  }

  predicate Matches(d: Driver, labels: Labels, selector: Labels) {
    forall k :: k in selector ==> Lookup(d.unpack(labels), k) == selector[k] || Lookup(labels, k) == selector[k]
  }

  /** What a selector means on a CRI record: each pair is among its labels. */
  predicate Selects(selector: Labels, labels: Labels) {
    forall k :: k in selector ==> Carries(labels, k, selector[k])
  }

  // ---- containers ----------------------------------------------------------

  datatype ContainerFilter = ContainerFilter(id: string, state: Option<CriState>, sandbox: string, selector: Labels)

  datatype Container = Container(id: string, sandbox: string, state: CriState, labels: Labels)

  function StateView(s: DockerState): CriState {
    match s
    case Created => CriCreated
    case Running => CriRunning
    case _ => CriExited
  }

  function ViewOf(d: Driver, c: Item): Container {
    Container(c.id, Lookup(c.labels, d.Key("sandbox-uid")), StateView(c.state), d.unpack(c.labels))
  }

  function ContainerView(d: Driver): Item -> Container { c => ViewOf(d, c) }

  function Managed(d: Driver, kind: string): set<(string, string)> {
    {(d.Key("managed-by"), d.name), (d.Key("type"), kind)}
  }

  function StatesFor(s: Option<CriState>): set<DockerState> {
    match s
    case Some(CriCreated) => {Created}
    case Some(CriRunning) => {Running}
    case Some(CriExited) => {Restarting, Paused, Removing, Exited, Dead}
    case _ => {}
  }

  function ContainerQuery(d: Driver, f: ContainerFilter): Query {
    Query(
      f.id,
      Managed(d, "container") + (if f.sandbox == "" then {} else {(d.Key("sandbox-uid"), f.sandbox)}),
      StatesFor(f.state))
  }

  predicate IsListed(d: Driver, f: ContainerFilter, c: Item) {
    ContainerQuery(d, f).Accepts(d, c) && Matches(d, c.labels, f.selector)
  }

  function Listed(d: Driver, f: ContainerFilter): Item -> bool { c => IsListed(d, f, c) }

  /** Listing everything managed and filtering the CRI records afterwards. */
  predicate Wants(f: ContainerFilter, r: Container) {
    (f.id == "" || f.id == r.id) && InState(f, r) && InSandbox(f, r) && Selects(f.selector, r.labels)
  }

  predicate InState(f: ContainerFilter, r: Container) { f.state.None? || f.state.value == r.state }

  predicate InSandbox(f: ContainerFilter, r: Container) { f.sandbox == "" || f.sandbox == r.sandbox }

  predicate IsFiltered(d: Driver, f: ContainerFilter, c: Item) {
    HasLabels(Managed(d, "container"), c) && Wants(f, ViewOf(d, c))
  }

  function Filtered(d: Driver, f: ContainerFilter): Item -> bool { c => IsFiltered(d, f, c) }

  method ListContainers(d: Driver, all: seq<Item>, f: ContainerFilter) returns (result: seq<Container>)
    ensures result == Collect(all, Listed(d, f), ContainerView(d))
  {
    result := [];
    var q := ContainerQuery(d, f);
    for i := 0 to |all|
      invariant result == Collect(all[..i], Listed(d, f), ContainerView(d))
    {
      var c := all[i];
      assert all[..i + 1] == all[..i] + [c];
      CollectOne(all[..i], c, Listed(d, f), ContainerView(d));
      if q.Accepts(d, c) {
        var ok := MatchLabels(d, c.labels, f.selector);
        if ok {
          result := result + [ContainerView(d)(c)];
        }
      }
    }
    assert all[..|all|] == all;
  }

  // ---- what is listed ------------------------------------------------------

  /** The item is one of this driver's, of the given kind. */
  predicate IsManaged(d: Driver, c: Item, kind: string) {
    Carries(c.labels, d.prefix + ".managed-by", d.name) && Carries(c.labels, d.prefix + ".type", kind)
  }

  lemma ManagedExact(d: Driver, c: Item, kind: string)
    ensures HasLabels(Managed(d, kind), c) <==> IsManaged(d, c, kind)
  {
    var p, q := (d.Key("managed-by"), d.name), (d.Key("type"), kind);
    assert p.0 == d.prefix + ".managed-by" && q.0 == d.prefix + ".type";
    assert p in Managed(d, kind) && q in Managed(d, kind);
  }

  /** The record describes the item. */
  predicate Describes(d: Driver, r: Container, c: Item) {
    && r.id == c.id && r.sandbox == Lookup(c.labels, d.prefix + ".sandbox-uid") && r.labels == d.unpack(c.labels)
    && (r.state.CriCreated? <==> c.state.Created?) && (r.state.CriRunning? <==> c.state.Running?)
    && !r.state.CriUnknown?
  }

  /**
   * Every record listed describes a container of this driver, of the wanted sandbox and in the
   * wanted state; without a filter every container of this driver is listed.
   */
  lemma ContainersListed(d: Driver, all: seq<Item>, f: ContainerFilter, r: Container)
    requires r in Collect(all, Listed(d, f), ContainerView(d))
    ensures exists c :: c in all && IsManaged(d, c, "container") && Describes(d, r, c)
    ensures f.sandbox != "" ==> r.sandbox == f.sandbox
    ensures f.state.Some? && f.state.value != CriUnknown ==> r.state == f.state.value
  {
    CollectMembers(all, Listed(d, f), ContainerView(d), r);
    var c :| c in all && IsListed(d, f, c) && ViewOf(d, c) == r;
    SandboxExact(d, f, c);
    ManagedExact(d, c, "container");
    if f.state != Some(CriUnknown) { StatesExact(f, c.state); }
    assert d.Key("sandbox-uid") == d.prefix + ".sandbox-uid";
    assert Describes(d, r, c);
  }

  lemma AllContainersListed(d: Driver, c: Item)
    ensures IsListed(d, ContainerFilter("", None, "", map[]), c) <==> IsManaged(d, c, "container")
  {
    ManagedExact(d, c, "container");
    SandboxExact(d, ContainerFilter("", None, "", map[]), c);
  }

  /** An empty value is wanted under a key that either set of labels lacks. */
  predicate EmptyMatch(view: Labels, raw: Labels, k: string, v: string) { v == "" && (k !in view || k !in raw) }

  /**
   * The CRI record lacks some pair of the selector, and each pair it lacks is made up for by an
   * equal raw runtime label, or by an empty wanted value and a missing key.
   */
  predicate RawMatch(d: Driver, c: Item, selector: Labels) {
    var view := d.unpack(c.labels);
    && (exists k :: k in selector && !Carries(view, k, selector[k]))
    && forall k :: k in selector && !Carries(view, k, selector[k]) ==>
         Carries(c.labels, k, selector[k]) || EmptyMatch(view, c.labels, k, selector[k])
  }

  /** A raw match is exactly what the driver accepts beyond what the selector means. */
  lemma RawMatchExact(d: Driver, c: Item, selector: Labels)
    ensures Matches(d, c.labels, selector) <==> Selects(selector, d.unpack(c.labels)) || RawMatch(d, c, selector)
    ensures !(Selects(selector, d.unpack(c.labels)) && RawMatch(d, c, selector))
  {
    var view := d.unpack(c.labels);
    forall k | k in selector
      ensures var v := selector[k];
        Lookup(view, k) == v || Lookup(c.labels, k) == v
        <==> Carries(view, k, v) || Carries(c.labels, k, v) || EmptyMatch(view, c.labels, k, v)
    {
    }
  }

  lemma StatesExact(f: ContainerFilter, s: DockerState)
    requires f.state != Some(CriUnknown)
    ensures (StatesFor(f.state) == {} || s in StatesFor(f.state)) <==> (f.state.None? || f.state.value == StateView(s))
  {
  }

  lemma SandboxExact(d: Driver, f: ContainerFilter, c: Item)
    ensures HasLabels(ContainerQuery(d, f).labels, c)
      <==> HasLabels(Managed(d, "container"), c) && (f.sandbox == "" || f.sandbox == ViewOf(d, c).sandbox)
  {
    if f.sandbox != "" {
      var p := (d.Key("sandbox-uid"), f.sandbox);
      assert p in ContainerQuery(d, f).labels;
    }
  }

  /** The runtime takes the item for the wanted one although its identifier is another. */
  predicate LooseId(d: Driver, id: string, c: Item) { id != "" && id != c.id && d.idMatches(id, c.id) }

  predicate ExactId(id: string, c: Item) { id == "" || id == c.id }

  /**
   * What push-down lists besides: an item of the wanted sandbox that answers the rest of the
   * filter, but only loosely in one respect, or when the unknown state is asked for.
   */
  predicate Surplus(d: Driver, f: ContainerFilter, c: Item) {
    var r, unknown := ViewOf(d, c), f.state == Some(CriUnknown);
    && InSandbox(f, r)
    && (ExactId(f.id, c) || LooseId(d, f.id, c))
    && (InState(f, r) || unknown)
    && (Selects(f.selector, r.labels) || RawMatch(d, c, f.selector))
    && (LooseId(d, f.id, c) || unknown || RawMatch(d, c, f.selector))
  }

  lemma ListedIff(d: Driver, f: ContainerFilter, c: Item)
    requires ValidDriver(d)
    ensures IsFiltered(d, f, c) ==> IsListed(d, f, c)
    ensures IsListed(d, f, c) && !IsFiltered(d, f, c) <==> HasLabels(Managed(d, "container"), c) && Surplus(d, f, c)
  {
    SandboxExact(d, f, c);
    RawMatchExact(d, c, f.selector);
    if f.state != Some(CriUnknown) {
      StatesExact(f, c.state);
    }
  }

  /**
   * Push-down gives the list that filtering afterwards would, exactly when no managed container
   * is there only because the unknown state adds no filter, because the runtime matches
   * identifiers loosely, or because of a raw label or a missing key.
   */
  lemma PushDown(d: Driver, all: seq<Item>, f: ContainerFilter)
    requires ValidDriver(d)
    ensures Collect(all, Listed(d, f), ContainerView(d)) == Collect(all, Filtered(d, f), ContainerView(d))
      <==> forall c :: c in all && HasLabels(Managed(d, "container"), c) ==> !Surplus(d, f, c)
  {
    forall c
      ensures IsFiltered(d, f, c) ==> IsListed(d, f, c)
      ensures IsListed(d, f, c) && !IsFiltered(d, f, c) <==> HasLabels(Managed(d, "container"), c) && Surplus(d, f, c)
    {
      ListedIff(d, f, c);
    }
    CollectSame(all, Listed(d, f), Filtered(d, f), ContainerView(d));
  }

  // ---- ways to list too much -------------------------------------

  /** A driver whose containers carry no CRI labels and whose runtime matches identifier prefixes. */
  const PLAIN := Driver("p", "n", (_: Labels) => map[], (want: string, id: string) => want <= id)

  const MANAGED: Labels := map["p.managed-by" := "n", "p.type" := "container"]

  lemma PlainManaged(c: Item)
    requires Carries(c.labels, "p.managed-by", "n") && Carries(c.labels, "p.type", "container")
    ensures HasLabels(Managed(PLAIN, "container"), c)
  {
    assert PLAIN.Key("managed-by") == "p.managed-by" && PLAIN.Key("type") == "p.type";
  }

  lemma SurplusListed(f: ContainerFilter, c: Item)
    requires Carries(c.labels, "p.managed-by", "n") && Carries(c.labels, "p.type", "container") && Surplus(PLAIN, f, c)
    ensures IsListed(PLAIN, f, c) && !IsFiltered(PLAIN, f, c)
  {
    PlainManaged(c);
    ListedIff(PLAIN, f, c);
  }

  /** A selector for one pair lists a container that has the pair only as a raw runtime label. */
  lemma RawLabelListed()
    ensures exists d, f, c, k, v ::
      && ValidDriver(d) && f == ContainerFilter("", None, "", map[k := v]) && v != ""
      && IsListed(d, f, c) && !IsFiltered(d, f, c) && Carries(c.labels, k, v) && k !in d.unpack(c.labels)
  {
    var f := ContainerFilter("", None, "", map["k" := "v"]);
    var c := Item("1", MANAGED["k" := "v"], Running);
    assert "k" in f.selector && !Carries(PLAIN.unpack(c.labels), "k", "v");
    SurplusListed(f, c);
    assert ValidDriver(PLAIN);
  }

  /** A selector for an empty value lists a container that has no label of that name at all. */
  lemma MissingKeyListed()
    ensures exists d, f, c, k ::
      && ValidDriver(d) && f == ContainerFilter("", None, "", map[k := ""])
      && IsListed(d, f, c) && !IsFiltered(d, f, c) && k !in c.labels && k !in d.unpack(c.labels)
  {
    var f := ContainerFilter("", None, "", map["k" := ""]);
    var c := Item("1", MANAGED, Running);
    assert "k" in f.selector && !Carries(PLAIN.unpack(c.labels), "k", "");
    SurplusListed(f, c);
    assert ValidDriver(PLAIN);
  }

  /** A wanted identifier lists a container whose identifier only starts like it. */
  lemma LooseIdListed()
    ensures exists d: Driver, f: ContainerFilter, c: Item ::
      && ValidDriver(d) && f == ContainerFilter(f.id, None, "", map[]) && f.id != c.id
      && IsListed(d, f, c) && !IsFiltered(d, f, c)
  {
    var f, c := ContainerFilter("a", None, "", map[]), Item("ab", MANAGED, Running);
    SurplusListed(f, c);
    assert ValidDriver(PLAIN) && f.id != c.id;
  }

  /** Asked for containers in the unknown state, the driver lists containers in every state. */
  lemma UnknownListsAll(d: Driver, f: ContainerFilter, c: Item)
    requires f.state == Some(CriUnknown)
    ensures IsListed(d, f, c) <==> IsListed(d, f.(state := None), c)
    ensures !IsFiltered(d, f, c)
  {
  }

  // ---- sandboxes -----------------------------------------------------------

  datatype SandboxFilter = SandboxFilter(id: string, ready: Option<bool>, selector: Labels)

  datatype Sandbox = Sandbox(id: string, uid: string, ready: bool, labels: Labels)

  function SandboxOf(d: Driver, c: Item): Sandbox {
    Sandbox(c.id, Lookup(c.labels, d.Key("uid")), c.state.Running?, d.unpack(c.labels))
  }

  function SandboxStates(ready: Option<bool>): set<DockerState> {
    match ready
    case None => {}
    case Some(true) => {Running}
    case Some(false) => {Created, Restarting, Paused, Removing, Exited, Dead}
  }

  predicate SandboxListed(d: Driver, f: SandboxFilter, c: Item) {
    Query(f.id, Managed(d, "sandbox"), SandboxStates(f.ready)).Accepts(d, c) && Matches(d, c.labels, f.selector)
  }

  predicate SandboxFiltered(d: Driver, f: SandboxFilter, c: Item) {
    && HasLabels(Managed(d, "sandbox"), c)
    && (f.id == "" || f.id == SandboxOf(d, c).id)
    && (f.ready.None? || f.ready.value == SandboxOf(d, c).ready)
    && Selects(f.selector, SandboxOf(d, c).labels)
  }

  /** What push-down lists besides: there is no unknown state here. */
  predicate SandboxSurplus(d: Driver, f: SandboxFilter, c: Item) {
    && (f.ready.None? || f.ready.value == SandboxOf(d, c).ready)
    && (ExactId(f.id, c) || LooseId(d, f.id, c))
    && (Selects(f.selector, SandboxOf(d, c).labels) || RawMatch(d, c, f.selector))
    && (LooseId(d, f.id, c) || RawMatch(d, c, f.selector))
  }

  lemma SandboxIff(d: Driver, f: SandboxFilter, c: Item)
    requires ValidDriver(d)
    ensures SandboxFiltered(d, f, c) ==> SandboxListed(d, f, c)
    ensures SandboxListed(d, f, c) && !SandboxFiltered(d, f, c)
      <==> HasLabels(Managed(d, "sandbox"), c) && SandboxSurplus(d, f, c)
  {
    RawMatchExact(d, c, f.selector);
  }

  function PodListed(d: Driver, f: SandboxFilter): Item -> bool { c => SandboxListed(d, f, c) }

  function PodFiltered(d: Driver, f: SandboxFilter): Item -> bool { c => SandboxFiltered(d, f, c) }

  function SandboxView(d: Driver): Item -> Sandbox { c => SandboxOf(d, c) }

  method ListPodSandbox(d: Driver, all: seq<Item>, f: SandboxFilter) returns (result: seq<Sandbox>)
    ensures result == Collect(all, PodListed(d, f), SandboxView(d))
  {
    result := [];
    var q := Query(f.id, Managed(d, "sandbox"), SandboxStates(f.ready));
    for i := 0 to |all|
      invariant result == Collect(all[..i], PodListed(d, f), SandboxView(d))
    {
      var c := all[i];
      assert all[..i + 1] == all[..i] + [c];
      CollectOne(all[..i], c, PodListed(d, f), SandboxView(d));
      if q.Accepts(d, c) {
        var ok := MatchLabels(d, c.labels, f.selector);
        if ok {
          result := result + [SandboxOf(d, c)];
        }
      }
    }
    assert all[..|all|] == all;
  }

  /** For sandboxes push-down differs from filtering afterwards only by loose identifiers and labels. */
  lemma SandboxPushDown(d: Driver, all: seq<Item>, f: SandboxFilter)
    requires ValidDriver(d)
    ensures Collect(all, PodListed(d, f), SandboxView(d)) == Collect(all, PodFiltered(d, f), SandboxView(d))
      <==> forall c :: c in all && HasLabels(Managed(d, "sandbox"), c) ==> !SandboxSurplus(d, f, c)
  {
    forall c
      ensures SandboxFiltered(d, f, c) ==> SandboxListed(d, f, c)
      ensures SandboxListed(d, f, c) && !SandboxFiltered(d, f, c)
        <==> HasLabels(Managed(d, "sandbox"), c) && SandboxSurplus(d, f, c)
    {
      SandboxIff(d, f, c);
    }
    CollectSame(all, PodListed(d, f), PodFiltered(d, f), SandboxView(d));
  }

  /** Every record listed describes a sandbox of this driver in the wanted state. */
  lemma SandboxesListed(d: Driver, all: seq<Item>, f: SandboxFilter, r: Sandbox)
    requires r in Collect(all, PodListed(d, f), SandboxView(d))
    ensures exists c ::
      && c in all && IsManaged(d, c, "sandbox")
      && r == Sandbox(c.id, Lookup(c.labels, d.prefix + ".uid"), c.state == Running, d.unpack(c.labels))
    ensures f.ready.Some? ==> r.ready == f.ready.value
  {
    CollectMembers(all, PodListed(d, f), SandboxView(d), r);
    var c :| c in all && SandboxListed(d, f, c) && SandboxOf(d, c) == r;
    ManagedExact(d, c, "sandbox");
    assert d.Key("uid") == d.prefix + ".uid";
  }

  lemma AllSandboxesListed(d: Driver, c: Item)
    ensures SandboxListed(d, SandboxFilter("", None, map[]), c) <==> IsManaged(d, c, "sandbox")
  {
    ManagedExact(d, c, "sandbox");
  }

  /** Nothing is listed both as a container and as a sandbox. */
  lemma NeverBoth(d: Driver, f: ContainerFilter, g: SandboxFilter, c: Item)
    ensures !(IsListed(d, f, c) && SandboxListed(d, g, c))
  {
    SandboxExact(d, f, c);
    ManagedExact(d, c, "container");
    ManagedExact(d, c, "sandbox");
  }
}
