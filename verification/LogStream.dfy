/**
 * Start, Stop and Destroy of a log stream, interleaved with the pumps of every run so far.
 *
 * Each step is one critical section or one atomic flag operation of the source. Start checks the
 * destroyed flag before it takes the lock, and Stop wins its compare-and-swap before it takes
 * the lock, so both have a step outside it. Start stores the started flag and then clears the
 * stopped flag; Stop reads both without the lock, so in the first Start, the only one to change
 * the started flag, these are two steps with the lock held in between. A pump is the list of
 * lines it will emit; when its loop ends it calls Stop, like anyone else.
 */
module LogStream {
  import opened Wrappers

  type Line = string

  /** One pump: the lines it emits, how many it has emitted, and whether its loop is still running. */
  datatype Feed = Feed(lines: seq<Line>, next: nat, live: bool)

  datatype Entry = Entry(pump: nat, line: Line)

  /** A call of Stop: by a pump or by anyone else, and how many starts there had been by then. */
  datatype Call = Call(pump: Option<nat>, issued: nat)

  /** Stop calls that have not tried the swap yet, and those that won it but do not hold the lock yet. */
  datatype Calls = Calls(waiting: multiset<Call>, stopping: multiset<Call>)
  {
    function Issue(c: Call): Calls { this.(waiting := waiting + multiset{c}) }

    function Win(c: Call): Calls { Calls(waiting - multiset{c}, stopping + multiset{c}) }

    function Lose(c: Call): Calls { this.(waiting := waiting - multiset{c}) }

    function Finish(c: Call): Calls { this.(stopping := stopping - multiset{c}) }

    predicate Has(c: Call) { c in waiting || c in stopping }
  }

  const NONE := Calls(multiset{}, multiset{})

  /**
   * A log file and what has been written to it. It was opened by the start of the given number,
   * which owns the pumps numbered base, for stdout, and base + 1, for stderr.
   */
  datatype File = File(run: nat, base: nat, open: bool, content: seq<Entry>)
  {
    predicate Owns(p: nat) { p == base || p == base + 1 }

    /** The call is by a pump of this run, or was made by someone else after this run's start. */
    predicate OwnCall(c: Call) { if c.pump.Some? then Owns(c.pump.value) else c.issued >= run }
  }

  datatype State = State(
    hasPath: bool, started: bool, stopped: bool, destroyed: bool,
    entering: nat,              // Start calls past the destroyed check, not yet holding the lock
    starts: nat,                // Start critical sections run
    calls: Calls,               // Stop calls under way
    stops: nat,                 // stop bodies run
    logFile: Option<nat>,       // index of the current file
    files: seq<File>, feeds: seq<Feed>)

  datatype Event =
    | Enter
    | Mark
    | Begin(fileOk: bool, sourceOk: bool, out: seq<Line>, err: seq<Line>)
    | CallStop
    | Win(call: Call)
    | Lose(call: Call)
    | Body(call: Call)
    | Emit(pump: nat)
    | Exit(pump: nat)
    | Destroy

  predicate Live(s: State, p: nat) { p < |s.feeds| && s.feeds[p].live }

  ghost predicate AnyLive(s: State) { exists p: nat :: Live(s, p) }

  predicate HasLine(s: State, p: nat) { Live(s, p) && s.feeds[p].next < |s.feeds[p].lines| }

  predicate FileKnown(s: State) { s.logFile.Some? ==> s.logFile.value < |s.files| }

  /**
   * The critical section of Start from the clearing of the stopped flag on. A directory, open or
   * source failure leaves no live pump.
   */
  function Begun(s: State, fileOk: bool, sourceOk: bool, out: seq<Line>, err: seq<Line>): State
    requires s.entering > 0
  {
    s.(
      entering := s.entering - 1, starts := s.starts + 1, stopped := false,
      feeds := s.feeds + [Feed(out, 0, sourceOk), Feed(err, 0, sourceOk)],
      files := if fileOk then s.files + [File(s.starts + 1, |s.feeds|, true, [])] else s.files,
      logFile := if fileOk then Some(|s.files|) else s.logFile)
  }

  /** The body of Stop: close the current file, if any, and forget it. */
  function Stopped(s: State, c: Call): State
    requires FileKnown(s)
  {
    var s' := s.(calls := s.calls.Finish(c), stops := s.stops + 1, logFile := None);
    if s.logFile.None? then s'
    else s'.(files := s.files[s.logFile.value := s.files[s.logFile.value].(open := false)])
  }

  /** The loop of a pump ends, and its deferred call of Stop begins. */
  function Exited(s: State, p: nat): State
    requires p < |s.feeds|
  {
    s.(feeds := s.feeds[p := s.feeds[p].(live := false)], calls := s.calls.Issue(Call(Some(p), s.starts)))
  }

  function Won(s: State, c: Call): State {
    s.(stopped := true, calls := s.calls.Win(c))
  }

  function NextEntry(s: State, p: nat): Entry
    requires HasLine(s, p)
  {
    Entry(p, s.feeds[p].lines[s.feeds[p].next])
  }

  /** A pump writes its next line to whatever file is current. */
  function Emitted(s: State, p: nat): State
    requires HasLine(s, p) && FileKnown(s)
  {
    var s' := s.(feeds := s.feeds[p := s.feeds[p].(next := s.feeds[p].next + 1)]);
    if s.logFile.None? then s'
    else
      var h := s.logFile.value;
      s'.(files := s.files[h := s.files[h].(content := s.files[h].content + [NextEntry(s, p)])])
  }

  ghost predicate Step(s: State, e: Event, t: State) {
    match e
    case Enter => !s.destroyed && t == s.(entering := s.entering + 1)
    case Mark => s.entering > 0 && !s.started && t == s.(started := true)
    case Begin(fileOk, sourceOk, out, err) =>
      && s.entering > 0 && s.started && (if s.hasPath then sourceOk ==> fileOk else !fileOk)
      && t == Begun(s, fileOk, sourceOk, out, err)
    case CallStop => t == s.(calls := s.calls.Issue(Call(None, s.starts)))
    case Win(c) => c in s.calls.waiting && s.started && !s.stopped && t == Won(s, c)
    case Lose(c) => c in s.calls.waiting && (!s.started || s.stopped) && t == s.(calls := s.calls.Lose(c))
    // as long as there was no Start, a swap can only be won while the first one holds the lock
    case Body(c) => c in s.calls.stopping && s.starts > 0 && FileKnown(s) && t == Stopped(s, c)
    case Emit(p) => HasLine(s, p) && FileKnown(s) && t == Emitted(s, p)
    case Exit(p) => Live(s, p) && t == Exited(s, p)
    case Destroy => t == s.(destroyed := true)
  }

  function Initial(hasPath: bool): State {
    State(hasPath, false, false, false, 0, 0, NONE, 0, None, [], [])
  }

  datatype Trace = Start(hasPath: bool) | Then(prev: Trace, event: Event, next: State)
  {
    function Now(): State { if Start? then Initial(hasPath) else next }
  }

  ghost predicate Run(r: Trace) {
    r.Then? ==> Run(r.prev) && Step(r.prev.Now(), r.event, r.next)
  }

  // ---- what every run keeps ------------------------------------------------

  /** The current file is open. */
  ghost predicate FileInv(s: State) {
    && (s.logFile.Some? ==> s.logFile.value < |s.files| && s.files[s.logFile.value].open)
    && (!s.hasPath ==> s.logFile.None?)
  }

  /** Files refer to existing pumps, and no pump has emitted more lines than it has. */
  ghost predicate FeedInv(s: State) {
    && (forall h :: 0 <= h < |s.files| ==> s.files[h].base + 1 < |s.feeds|)
    && (forall p :: 0 <= p < |s.feeds| ==> s.feeds[p].next <= |s.feeds[p].lines|)
  }

  ghost predicate Inv(s: State) { FileInv(s) && FeedInv(s) }

  lemma FileInvStep(s: State, e: Event, t: State)
    requires FileInv(s) && Step(s, e, t)
    ensures FileInv(t)
  {
  }

  lemma FeedInvStep(s: State, e: Event, t: State)
    requires FileInv(s) && FeedInv(s) && Step(s, e, t)
    ensures FeedInv(t)
  {
  }

  lemma StepInv(s: State, e: Event, t: State)
    requires Inv(s) && Step(s, e, t)
    ensures Inv(t)
  {
    FileInvStep(s, e, t);
    FeedInvStep(s, e, t);
  }

  lemma {:induction false} RunInv(r: Trace)
    requires Run(r)
    ensures Inv(r.Now())
  {
    if r.Then? {
      RunInv(r.prev);
      StepInv(r.prev.Now(), r.event, r.next);
    }
  }

  /** What one step may do to one file: nothing once it is closed, and Stop closes the current one. */
  predicate FileStep(f: File, current: bool, e: Event, g: File) {
    && (!f.open ==> g == f)
    && f.base == g.base && f.content <= g.content && f.run == g.run
    && (f.open && !g.open <==> e.Body? && current)
  }

  lemma FileStepHolds(s: State, e: Event, t: State, h: nat)
    requires FileInv(s) && Step(s, e, t) && h < |s.files|
    ensures h < |t.files| && FileStep(s.files[h], s.logFile == Some(h), e, t.files[h])
  {
    match e
    case Body(_) =>
    case Emit(p) => assert s.logFile == Some(h) ==> t.files[h].content == s.files[h].content + [NextEntry(s, p)];
    case Begin(_, _, _, _) =>
    case Exit(_) => case Enter => case Mark => case CallStop => case Win(_) => case Lose(_) => case Destroy =>
  }

  /**
   * No step of any run writes to a closed file or reopens one, and a file is closed exactly by a
   * stop body that finds it current.
   */
  lemma ClosedStaysPut(r: Trace, h: nat)
    requires Run(r) && r.Then? && h < |r.prev.Now().files|
    ensures h < |r.next.files|
    ensures FileStep(r.prev.Now().files[h], r.prev.Now().logFile == Some(h), r.event, r.next.files[h])
  {
    RunInv(r.prev);
    FileStepHolds(r.prev.Now(), r.event, r.next, h);
  }

  /** The lines of one pump among the entries of a file, in order. */
  function Project(c: seq<Entry>, p: nat): seq<Line> {
    if c == [] then []
    else
      var n := |c| - 1;
      if c[n].pump == p then Project(c[..n], p) + [c[n].line] else Project(c[..n], p)
  }

  lemma ProjectOne(c: seq<Entry>, e: Entry, p: nat)
    ensures Project(c + [e], p) == if e.pump == p then Project(c, p) + [e.line] else Project(c, p)
  {
    assert (c + [e])[..|c|] == c;
  }

  function Sent(f: Feed): seq<Line>
    requires f.next <= |f.lines|
  {
    f.lines[..f.next]
  }

  /** What a file holds of a pump of its own run: all its lines so far while the file is current. */
  ghost predicate OwnLines(s: State, h: nat, p: nat)
    requires h < |s.files| && p < |s.feeds| && s.feeds[p].next <= |s.feeds[p].lines|
  {
    var kept := Project(s.files[h].content, p);
    kept <= Sent(s.feeds[p]) && (s.logFile == Some(h) ==> kept == Sent(s.feeds[p]))
  }

  lemma SentOne(f: Feed)
    requires f.next < |f.lines|
    ensures Sent(f.(next := f.next + 1)) == Sent(f) + [f.lines[f.next]]
  {
  }

  lemma OwnLinesEmit(s: State, q: nat, t: State, h: nat, p: nat)
    requires FileInv(s) && Step(s, Emit(q), t) && h < |s.files| && p < |s.feeds|
    requires s.feeds[p].next <= |s.feeds[p].lines| && OwnLines(s, h, p)
    ensures OwnLines(t, h, p)
  {
    SentOne(s.feeds[q]);
    ProjectOne(s.files[h].content, NextEntry(s, q), p);
  }

  lemma NewFile(s: State, e: Event, t: State, h: nat, p: nat)
    requires Step(s, e, t) && FileKnown(s) && |s.files| <= h < |t.files| && t.files[h].Owns(p)
    ensures p < |t.feeds| && t.feeds[p].next == 0 && t.files[h].content == []
  {
  }

  lemma OwnLinesStep(s: State, e: Event, t: State, h: nat, p: nat)
    requires Inv(s) && Step(s, e, t) && FeedInv(t) && h < |t.files| && t.files[h].Owns(p)
    requires h < |s.files| ==> s.files[h].Owns(p) && OwnLines(s, h, p)
    ensures OwnLines(t, h, p)
  {
    if h >= |s.files| {
      NewFile(s, e, t, h, p);
    } else if e.Emit? {
      OwnLinesEmit(s, e.pump, t, h, p);
    } else {
      Untouched(s, e, t, h, p);
    }
  }

  /** Steps other than Emit leave the lines of a file and of its pumps alone. */
  lemma Untouched(s: State, e: Event, t: State, h: nat, p: nat)
    requires FileInv(s) && FeedInv(s) && Step(s, e, t) && !e.Emit? && h < |s.files| && p < |s.feeds|
    ensures t.files[h].content == s.files[h].content && (t.logFile == Some(h) ==> s.logFile == Some(h))
    ensures t.feeds[p].lines == s.feeds[p].lines && t.feeds[p].next == s.feeds[p].next
  {
  }

  /** In every run, a file's lines from a pump of its own run are a prefix of what that pump emitted. */
  lemma {:induction false} OwnPrefixes(r: Trace, h: nat, p: nat)
    requires Run(r) && h < |r.Now().files| && r.Now().files[h].Owns(p)
    ensures Inv(r.Now()) && OwnLines(r.Now(), h, p)
  {
    RunInv(r);
    if r.Then? {
      RunInv(r.prev);
      if h < |r.prev.Now().files| {
        FileStepHolds(r.prev.Now(), r.event, r.next, h);
        OwnPrefixes(r.prev, h, p);
      }
      OwnLinesStep(r.prev.Now(), r.event, r.next, h, p);
    }
  }

  // ---- restarts: lines -----------------------------------------------------

  /** Some pump still has a line to write. */
  ghost predicate AnyLine(s: State) { exists p: nat :: HasLine(s, p) }

  /** Start is only run once no pump of an earlier run has a line left to write. */
  ghost predicate Quiet(r: Trace) {
    r.Then? ==> Quiet(r.prev) && (r.event.Begin? ==> !AnyLine(r.prev.Now()))
  }

  ghost predicate OwnedFile(f: File) {
    forall k :: 0 <= k < |f.content| ==> f.Owns(f.content[k].pump)
  }

  ghost predicate OwnOnly(s: State) {
    forall h :: 0 <= h < |s.files| ==> OwnedFile(s.files[h])
  }

  /** Only pumps of the run that opened the current file have lines left. */
  ghost predicate OwnPending(s: State) {
    s.logFile.Some? && FileKnown(s) ==> forall p: nat :: HasLine(s, p) ==> s.files[s.logFile.value].Owns(p)
  }

  lemma OwnOnlyStep(s: State, e: Event, t: State)
    requires FileInv(s) && FeedInv(s) && OwnOnly(s) && OwnPending(s) && Step(s, e, t)
    ensures OwnOnly(t)
  {
    forall h | 0 <= h < |t.files|
      ensures OwnedFile(t.files[h])
    {
      assert h < |s.files| ==> OwnedFile(s.files[h]);
    }
  }

  /** Lines left after a step were left before it, or are those of a new run. */
  lemma LineFrom(s: State, e: Event, t: State, p: nat)
    requires Step(s, e, t) && HasLine(t, p)
    ensures HasLine(s, p) || (e.Begin? && e.sourceOk && p in {|s.feeds|, |s.feeds| + 1})
  {
  }

  lemma OwnPendingStep(s: State, e: Event, t: State)
    requires FileInv(s) && OwnPending(s) && Step(s, e, t) && (e.Begin? ==> !AnyLine(s))
    ensures OwnPending(t)
  {
    forall p: nat | HasLine(t, p) && t.logFile.Some? && FileKnown(t)
      ensures t.files[t.logFile.value].Owns(p)
    {
      LineFrom(s, e, t, p);
    }
  }

  lemma {:induction false} QuietOwnOnly(r: Trace)
    requires Run(r) && Quiet(r)
    ensures OwnOnly(r.Now()) && OwnPending(r.Now())
  {
    if r.Then? {
      QuietOwnOnly(r.prev);
      RunInv(r.prev);
      OwnOnlyStep(r.prev.Now(), r.event, r.next);
      OwnPendingStep(r.prev.Now(), r.event, r.next);
    }
  }

  lemma QuietOwned(r: Trace, h: nat)
    requires Run(r) && Quiet(r) && h < |r.Now().files|
    ensures OwnedFile(r.Now().files[h])
  {
    QuietOwnOnly(r);
  }

  /** A file is a merge of prefixes of what its own pumps emitted, each in order. */
  ghost predicate Merge(s: State, h: nat)
    requires h < |s.files| && FeedInv(s)
  {
    OwnedFile(s.files[h]) && forall p: nat :: s.files[h].Owns(p) ==> OwnLines(s, h, p)
  }

  /** With quiet restarts each file is an order-preserving merge of whole lines of its own run. */
  lemma QuietMerge(r: Trace, h: nat)
    requires Run(r) && Quiet(r) && h < |r.Now().files|
    ensures FeedInv(r.Now()) && Merge(r.Now(), h)
  {
    RunInv(r);
    QuietOwned(r, h);
    forall p: nat | r.Now().files[h].Owns(p)
      ensures OwnLines(r.Now(), h, p)
    {
      OwnPrefixes(r, h, p);
    }
  }

  /** The run goes on from an earlier moment without another Start. */
  ghost predicate Since(r: Trace, from: Trace) {
    r == from || (r.Then? && !r.event.Begin? && Since(r.prev, from))
  }

  /** A Start that opens a log file. */
  ghost predicate Opens(r: Trace) { r.Then? && r.event.Begin? && r.event.fileOk }

  /** The file that Start opened. */
  function Opened(r: Trace): nat
    requires r.Then?
  {
    |r.prev.Now().files|
  }

  ghost predicate Mixed(r: Trace, h: nat) { h < |r.Now().files| && !OwnedFile(r.Now().files[h]) }

  /** A file all of whose lines, and all lines still to come, are those of its own run. */
  ghost predicate Unmixed(s: State, h: nat) {
    h < |s.files| && OwnedFile(s.files[h]) && forall p: nat :: HasLine(s, p) ==> s.files[h].Owns(p)
  }

  lemma UnmixedStep(s: State, e: Event, t: State, h: nat)
    requires FileInv(s) && Unmixed(s, h) && Step(s, e, t) && !e.Begin?
    ensures Unmixed(t, h)
  {
    forall p: nat | HasLine(t, p)
      ensures t.files[h].Owns(p)
    {
      LineFrom(s, e, t, p);
    }
  }

  lemma UnmixedBegin(s: State, e: Event, t: State)
    requires !AnyLine(s) && Step(s, e, t) && e.Begin? && e.fileOk
    ensures Unmixed(t, |s.files|)
  {
    forall p: nat | HasLine(t, p)
      ensures t.files[|s.files|].Owns(p)
    {
      LineFrom(s, e, t, p);
    }
  }

  lemma {:induction false} StaysUnmixed(r: Trace, from: Trace)
    requires Run(r) && Run(from) && Opens(from) && Since(r, from) && !AnyLine(from.prev.Now())
    ensures Unmixed(r.Now(), Opened(from))
  {
    if r == from {
      UnmixedBegin(from.prev.Now(), from.event, from.next);
    } else {
      StaysUnmixed(r.prev, from);
      RunInv(r.prev);
      UnmixedStep(r.prev.Now(), r.event, r.next, Opened(from));
    }
  }

  /** A line left by an earlier run can be the first line of the new run's file. */
  lemma StalePumpWrites(from: Trace, p: nat) returns (r: Trace)
    requires Run(from) && Opens(from) && HasLine(from.prev.Now(), p)
    ensures Run(r) && Since(r, from) && Mixed(r, Opened(from))
  {
    RunInv(from);
    var t := from.next;
    assert HasLine(t, p) && FileKnown(t);
    r := Then(from, Emit(p), Emitted(t, p));
    var f := r.Now().files[Opened(from)];
    assert f.content == [NextEntry(t, p)] && f.content[0].pump == p;
  }

  /**
   * Which restarts can mix runs: until the next Start, a line of another run can appear in the
   * new file exactly when some earlier pump has a line left when Start runs.
   */
  lemma RestartMixes(from: Trace)
    requires Run(from) && Opens(from)
    ensures (exists r :: Run(r) && Since(r, from) && Mixed(r, Opened(from))) <==> AnyLine(from.prev.Now())
  {
    if AnyLine(from.prev.Now()) {
      var p: nat :| HasLine(from.prev.Now(), p);
      var r := StalePumpWrites(from, p);
    } else {
      forall r | Run(r) && Since(r, from)
        ensures !Mixed(r, Opened(from))
      {
        StaysUnmixed(r, from);
      }
    }
  }

  // ---- restarts: stops -----------------------------------------------------

  /** No pump is running and no call of Stop is under way, not even one that already won its swap. */
  ghost predicate Calm(s: State) { !AnyLive(s) && s.calls == NONE }

  ghost predicate OwnCalls(s: State, f: File) {
    && (forall p: nat :: Live(s, p) ==> f.Owns(p))
    && (forall c :: s.calls.Has(c) ==> f.OwnCall(c))
    && f.run <= s.starts
  }

  /** Calls under way after a step were under way before it, or are made by it. */
  lemma CallFrom(s: State, e: Event, t: State, c: Call)
    requires Step(s, e, t) && (t.calls.Has(c))
    ensures s.calls.Has(c)
      || (c.issued == s.starts && if c.pump.Some? then Live(s, c.pump.value) else e.CallStop?)
  {
    CallsStep(s, e, t);
  }

  lemma LiveFrom(s: State, e: Event, t: State, p: nat)
    requires Step(s, e, t) && Live(t, p)
    ensures Live(s, p) || (e.Begin? && e.sourceOk && p in {|s.feeds|, |s.feeds| + 1})
  {
  }

  lemma StartsGrow(s: State, e: Event, t: State)
    requires Step(s, e, t)
    ensures s.starts <= t.starts && |s.feeds| <= |t.feeds|
  {
  }

  lemma OwnCallsStep(s: State, e: Event, t: State, f: File)
    requires OwnCalls(s, f) && Step(s, e, t) && !e.Begin?
    ensures OwnCalls(t, f)
  {
    StartsGrow(s, e, t);
    forall p: nat | Live(t, p) ensures f.Owns(p) { LiveFrom(s, e, t, p); }
    forall c | t.calls.Has(c) ensures f.OwnCall(c) { CallFrom(s, e, t, c); }
  }

  lemma CalmBegin(s: State, e: Event, t: State, f: File)
    requires Calm(s) && Step(s, e, t) && e.Begin? && f.run <= t.starts && (e.sourceOk ==> f.base == |s.feeds|)
    ensures OwnCalls(t, f)
  {
    forall p: nat | Live(t, p) ensures f.Owns(p) { LiveFrom(s, e, t, p); }
  }

  /** The last step closed the file, on a call from another run. */
  ghost predicate ClosedByOther(r: Trace, h: nat) {
    && r.Then? && r.event.Body? && r.prev.Now().logFile == Some(h)
    && h < |r.prev.Now().files| && !r.prev.Now().files[h].OwnCall(r.event.call)
  }

  lemma SameRun(f: File, g: File, s: State)
    requires f.run == g.run && f.base == g.base && OwnCalls(s, f)
    ensures OwnCalls(s, g)
  {
  }

  lemma {:induction false} CallsStayOwn(r: Trace, from: Trace)
    requires Run(r) && Run(from) && Opens(from) && Since(r, from) && Calm(from.prev.Now())
    ensures Opened(from) < |r.Now().files| && OwnCalls(r.Now(), r.Now().files[Opened(from)])
  {
    var h := Opened(from);
    if r == from {
      CalmBegin(from.prev.Now(), from.event, from.next, from.next.files[h]);
    } else {
      CallsStayOwn(r.prev, from);
      RunInv(r.prev);
      var s, t := r.prev.Now(), r.next;
      FileStepHolds(s, r.event, t, h);
      OwnCallsStep(s, r.event, t, s.files[h]);
      SameRun(s.files[h], t.files[h], t);
    }
  }

  /** A call that won its swap closes whatever file is current when it gets the lock. */
  lemma BodyCloses(r: Trace, from: Trace, h: nat, c: Call) returns (last: Trace)
    requires Run(r) && Since(r, from) && r.Now().logFile == Some(h) && c in r.Now().calls.stopping
    requires r.Now().starts > 0 && h < |r.Now().files| && !r.Now().files[h].OwnCall(c)
    ensures Run(last) && Since(last, from) && ClosedByOther(last, h)
  {
    RunInv(r);
    last := Then(r, Body(c), Stopped(r.Now(), c));
  }

  lemma WinCloses(r: Trace, from: Trace, h: nat, c: Call) returns (last: Trace)
    requires Run(r) && Since(r, from) && r.Now().logFile == Some(h) && c in r.Now().calls.waiting
    requires r.Now().starts > 0 && r.Now().started && !r.Now().stopped
    requires h < |r.Now().files| && !r.Now().files[h].OwnCall(c)
    ensures Run(last) && Since(last, from) && ClosedByOther(last, h)
  {
    last := BodyCloses(Then(r, Win(c), Won(r.Now(), c)), from, h, c);
  }

  /** Pumps and calls belong to starts that have happened. */
  ghost predicate CallInv(s: State) {
    forall c :: s.calls.Has(c) ==> c.issued <= s.starts && (c.pump.Some? ==> c.pump.value < |s.feeds|)
  }

  lemma CallInvStep(s: State, e: Event, t: State)
    requires CallInv(s) && Step(s, e, t)
    ensures CallInv(t)
  {
    StartsGrow(s, e, t);
    forall c | t.calls.Has(c)
      ensures c.issued <= t.starts && (c.pump.Some? ==> c.pump.value < |t.feeds|)
    {
      CallFrom(s, e, t, c);
    }
  }

  lemma {:induction false} CallRunInv(r: Trace)
    requires Run(r)
    ensures CallInv(r.Now())
  {
    if r.Then? {
      CallRunInv(r.prev);
      CallInvStep(r.prev.Now(), r.event, r.next);
    }
  }

  lemma SomeCall(calls: Calls) returns (c: Call)
    requires calls != NONE
    ensures calls.Has(c)
  {
    if calls.waiting != multiset{} {
      c :| c in calls.waiting;
    } else {
      c :| c in calls.stopping;
    }
  }

  lemma PumpCloses(from: Trace, p: nat) returns (r: Trace)
    requires Run(from) && Opens(from) && Live(from.prev.Now(), p)
    ensures Run(r) && Since(r, from) && ClosedByOther(r, Opened(from))
  {
    var t := from.next;
    var exited := Then(from, Exit(p), Exited(t, p));
    assert Step(t, Exit(p), Exited(t, p));
    r := WinCloses(exited, from, Opened(from), Call(Some(p), t.starts));
  }

  /** Anything left of an earlier run can close the new run's file. */
  lemma LeftoverCloses(from: Trace) returns (r: Trace)
    requires Run(from) && Opens(from) && !Calm(from.prev.Now())
    ensures Run(r) && Since(r, from) && ClosedByOther(r, Opened(from))
  {
    var s := from.prev.Now();
    if p: nat :| Live(s, p) {
      r := PumpCloses(from, p);
    } else {
      var c := SomeCall(s.calls);
      CallRunInv(from.prev);
      if c in s.calls.stopping {
        r := BodyCloses(from, from, Opened(from), c);
      } else {
        r := WinCloses(from, from, Opened(from), c);
      }
    }
  }

  /**
   * Which restarts can be stopped by what came before them: until the next Start, the new file
   * can be closed by a pump of another run, or by a call made before this run's Start, exactly
   * when a pump is running or a call of Stop under way when Start runs.
   */
  lemma RestartStops(from: Trace)
    requires Run(from) && Opens(from)
    ensures (exists r :: Run(r) && Since(r, from) && ClosedByOther(r, Opened(from))) <==> !Calm(from.prev.Now())
  {
    if Calm(from.prev.Now()) {
      forall r | Run(r) && Since(r, from)
        ensures !ClosedByOther(r, Opened(from))
      {
        if r != from { CallsStayOwn(r.prev, from); }
      }
    } else {
      var r := LeftoverCloses(from);
    }
  }

  /** Every Start waits until nothing of the earlier runs is left. */
  ghost predicate CalmRun(r: Trace) {
    r.Then? ==> CalmRun(r.prev) && (r.event.Begin? ==> Calm(r.prev.Now()))
  }

  ghost predicate OwnCurrent(s: State) {
    s.logFile.Some? && FileKnown(s) ==> OwnCalls(s, s.files[s.logFile.value])
  }

  lemma OwnCurrentStep(s: State, e: Event, t: State)
    requires FileInv(s) && OwnCurrent(s) && Step(s, e, t) && (e.Begin? ==> Calm(s))
    ensures OwnCurrent(t)
  {
    if t.logFile.Some? && FileKnown(t) {
      var h := t.logFile.value;
      if e.Begin? {
        CalmBegin(s, e, t, t.files[h]);
      } else {
        FileStepHolds(s, e, t, h);
        OwnCallsStep(s, e, t, s.files[h]);
        SameRun(s.files[h], t.files[h], t);
      }
    }
  }

  lemma {:induction false} CalmOwn(r: Trace)
    requires Run(r) && CalmRun(r)
    ensures OwnCurrent(r.Now())
  {
    if r.Then? {
      CalmOwn(r.prev);
      RunInv(r.prev);
      OwnCurrentStep(r.prev.Now(), r.event, r.next);
    }
  }

  /** With calm restarts a file is only ever closed by its own run's pumps or a later call of Stop. */
  lemma CalmCloses(r: Trace, h: nat)
    requires Run(r) && CalmRun(r)
    ensures !ClosedByOther(r, h)
  {
    if r.Then? {
      CalmOwn(r.prev);
      RunInv(r.prev);
    }
  }

  // ---- how often the stop body runs ----------------------------------------

  /** What a step does to the calls. */
  function NextCalls(s: State, e: Event): Calls {
    match e
    case CallStop => s.calls.Issue(Call(None, s.starts))
    case Exit(p) => s.calls.Issue(Call(Some(p), s.starts))
    case Win(c) => s.calls.Win(c)
    case Lose(c) => s.calls.Lose(c)
    case Body(c) => s.calls.Finish(c)
    case _ => s.calls
  }

  lemma CallsStep(s: State, e: Event, t: State)
    requires Step(s, e, t)
    ensures t.calls == NextCalls(s, e)
  {
  }

  lemma CallsCount(s: State, e: Event)
    requires e.Body? ==> e.call in s.calls.stopping
    ensures |NextCalls(s, e).stopping| ==
      |s.calls.stopping| + (if e.Win? then 1 else 0) - (if e.Body? then 1 else 0)
  {
  }

  lemma StopsStep(s: State, e: Event, t: State)
    requires Step(s, e, t)
    ensures t.stops == s.stops + (if e.Body? then 1 else 0)
    ensures e.Body? ==> e.call in s.calls.stopping && s.starts > 0
  {
  }

  lemma StartsStep(s: State, e: Event, t: State)
    requires Step(s, e, t)
    ensures t.starts == s.starts + (if e.Begin? then 1 else 0) && (s.started ==> t.started)
    ensures t.stopped == if e.Begin? then false else if e.Win? then true else s.stopped
    ensures (e.Begin? ==> s.started) && (e.Win? ==> s.started && !s.stopped)
  {
  }

  /** A Stop won its swap before the first Start had cleared the stopped flag. */
  predicate EarlyWin(r: Trace) {
    r.Then? && (EarlyWin(r.prev) || (r.event.Win? && r.prev.Now().starts == 0))
  }

  /** How many starts found the run before them not stopped. */
  function Overtaken(r: Trace): nat {
    if r.Start? then 0
    else Overtaken(r.prev) + (if r.event.Begin? && r.prev.Now().starts > 0 && !r.prev.Now().stopped then 1 else 0)
  }

  function Count(b: bool): nat { if b then 1 else 0 }

  /** Swaps won, and the one that can be won, against what paid for them. */
  ghost predicate Balanced(s: State, early: bool, overtaken: nat) {
    if s.starts == 0 then
      s.stops == 0 == overtaken && |s.calls.stopping| == Count(early) && (s.stopped <==> early)
    else
      s.started && s.stops + |s.calls.stopping| + Count(!s.stopped) + overtaken == s.starts + Count(early)
  }

  /**
   * In every run: stop bodies run, swaps won whose body is still to run, the swap that can be
   * won now and the starts that found nothing stopped add up to the starts, plus one if a swap
   * was won early.
   */
  lemma {:induction false} StopBalance(r: Trace)
    requires Run(r)
    ensures Balanced(r.Now(), EarlyWin(r), Overtaken(r))
  {
    if r.Then? {
      StopBalance(r.prev);
      StopsStep(r.prev.Now(), r.event, r.next);
      StartsStep(r.prev.Now(), r.event, r.next);
      CallsStep(r.prev.Now(), r.event, r.next);
      CallsCount(r.prev.Now(), r.event);
    }
  }

  /** Stop bodies run at most once per Start unless a swap was won early, and then at most once more. */
  lemma StopOncePerStart(r: Trace)
    requires Run(r)
    ensures r.Now().stops <= r.Now().starts + Count(EarlyWin(r))
  {
    StopBalance(r);
  }

  /** Runs the bodies of all calls that won their swap. */
  lemma {:induction false} RunBodies(r: Trace, from: Trace) returns (last: Trace)
    requires Run(r) && Since(r, from) && r.Now().starts > 0
    ensures Run(last) && Since(last, from) && last.Now().starts == r.Now().starts
    ensures last.Now().stops == r.Now().stops + |r.Now().calls.stopping|
    decreases |r.Now().calls.stopping|
  {
    last := r;
    var s := r.Now();
    if s.calls.stopping != multiset{} {
      var c :| c in s.calls.stopping;
      RunInv(r);
      var t := Stopped(s, c);
      var next := Then(r, Body(c), t);
      StopsStep(s, Body(c), t);
      StartsStep(s, Body(c), t);
      CallsStep(s, Body(c), t);
      CallsCount(s, Body(c));
      last := RunBodies(next, from);
    }
  }

  /** Wins the swap, if it can be won, by one more call. */
  lemma WinLast(r: Trace) returns (last: Trace)
    requires Run(r) && r.Now().starts > 0
    ensures Run(last) && Since(last, r) && last.Now().stopped && last.Now().starts == r.Now().starts
  {
    last := r;
    var s := r.Now();
    if !s.stopped {
      StopBalance(r);
      var c := Call(None, s.starts);
      var t := s.(calls := s.calls.Issue(c));
      var called := Then(r, CallStop, t);
      assert Run(called) && Since(called, r);
      last := Then(called, Win(c), Won(t, c));
    }
  }

  lemma {:induction false} SinceKeeps(r: Trace, from: Trace)
    requires Run(r) && Since(r, from) && from.Now().starts > 0
    ensures EarlyWin(r) == EarlyWin(from) && Overtaken(r) == Overtaken(from) && r.Now().starts == from.Now().starts
  {
    if r != from {
      SinceKeeps(r.prev, from);
      StartsStep(r.prev.Now(), r.event, r.next);
    }
  }

  lemma {:induction false} SinceOn(r: Trace, mid: Trace, from: Trace)
    requires Since(r, mid) && Since(mid, from)
    ensures Since(r, from)
  {
    if r != mid { SinceOn(r.prev, mid, from); }
  }

  /**
   * When there can be one stop body too many: once a Start has run, and until the next one, stop
   * bodies can come to outnumber the starts exactly when a swap was won early and every Start
   * since found the run before it stopped, which for a single Start is no condition.
   */
  lemma StopsCanExceed(from: Trace)
    requires Run(from) && from.Now().starts > 0
    ensures (exists r :: Run(r) && Since(r, from) && r.Now().stops > r.Now().starts)
      <==> EarlyWin(from) && Overtaken(from) == 0
    ensures from.Now().starts == 1 ==> Overtaken(from) == 0
  {
    OvertakenBound(from);
    if EarlyWin(from) && Overtaken(from) == 0 {
      var won := WinLast(from);
      StopBalance(won);
      SinceKeeps(won, from);
      var r := RunBodies(won, from);
    } else {
      forall r | Run(r) && Since(r, from)
        ensures r.Now().stops <= r.Now().starts
      {
        StopBalance(r);
        SinceKeeps(r, from);
      }
    }
  }

  lemma Extend(r: Trace, e: Event, t: State) returns (next: Trace)
    requires Run(r) && Step(r.Now(), e, t)
    ensures Run(next) && next == Then(r, e, t)
  {
    next := Then(r, e, t);
  }

  /** The first Start overtakes no run. */
  lemma {:induction false} OvertakenBound(r: Trace)
    requires Run(r)
    ensures Overtaken(r) == 0 || Overtaken(r) < r.Now().starts
  {
    if r.Then? {
      OvertakenBound(r.prev);
      StartsStep(r.prev.Now(), r.event, r.next);
    }
  }

  /** A call wins its swap between the two flag stores of the first Start. */
  lemma EarlyRun(hasPath: bool) returns (r: Trace)
    ensures Run(r) && EarlyWin(r) && Overtaken(r) == 0 && r.Now().starts == 1
  {
    var c := Call(None, 0);
    var s := Initial(hasPath).(entering := 1);
    r := Extend(Start(hasPath), Enter, s);
    s := s.(calls := NONE.Issue(c));
    r := Extend(r, CallStop, s);
    s := s.(started := true);
    r := Extend(r, Mark, s);
    r := Extend(r, Win(c), Won(s, c));
    StopBalance(r);
    s := Won(s, c);
    r := Extend(r, Begin(hasPath, true, [], []), Begun(s, hasPath, true, [], []));
  }

  /** One Start can be followed by two stop bodies. */
  lemma StoppedTwice(hasPath: bool)
    ensures exists r :: Run(r) && r.Now().starts == 1 && r.Now().stops == 2
  {
    var from := EarlyRun(hasPath);
    StopsCanExceed(from);
    var r :| Run(r) && Since(r, from) && r.Now().stops > r.Now().starts;
    SinceKeeps(r, from);
    StopOncePerStart(r);
  }

  // ---- starts and calls ----------------------------------------------------

  /** A Start that cannot open its file or its source leaves no new pump running; one that can, two. */
  lemma StartPumps(r: Trace, p: nat)
    requires Run(r) && r.Then? && r.event.Begin?
    ensures var n, e := |r.prev.Now().feeds|, r.event;
      Live(r.next, p) <==> Live(r.prev.Now(), p) || (e.sourceOk && (p == n || p == n + 1))
    ensures var n, e := |r.prev.Now().feeds|, r.event;
      e.sourceOk ==> |r.next.feeds| == n + 2 && r.next.feeds[n..] == [Feed(e.out, 0, true), Feed(e.err, 0, true)]
    ensures r.event.sourceOk && r.next.hasPath ==> r.event.fileOk
  {
  }

  /** How often something has happened. */
  function Times(r: Trace, p: Event -> bool): nat {
    if r.Start? then 0 else Times(r.prev, p) + (if p(r.event) then 1 else 0)
  }

  function Issues(): Event -> bool { (e: Event) => e.CallStop? || e.Exit? }

  function Losses(): Event -> bool { (e: Event) => e.Lose? }

  function Enters(): Event -> bool { (e: Event) => e.Enter? }

  function UnderWay(calls: Calls): nat { |calls.waiting| + |calls.stopping| }

  lemma UnderWayStep(s: State, e: Event)
    requires (e.Win? || e.Lose? ==> e.call in s.calls.waiting) && (e.Body? ==> e.call in s.calls.stopping)
    ensures UnderWay(NextCalls(s, e)) ==
      UnderWay(s.calls) + (if e.CallStop? || e.Exit? then 1 else 0) - (if e.Lose? || e.Body? then 1 else 0)
  {
  }

  lemma CallGuards(s: State, e: Event, t: State)
    requires Step(s, e, t)
    ensures (e.Win? || e.Lose? ==> e.call in s.calls.waiting) && (e.Body? ==> e.call in s.calls.stopping)
  {
  }

  /** In every run each call of Stop is under way, has lost its swap, or has run the body, once. */
  lemma {:induction false} CallsAccounted(r: Trace)
    requires Run(r)
    ensures Times(r, Issues()) == UnderWay(r.Now().calls) + Times(r, Losses()) + r.Now().stops
  {
    if r.Then? {
      CallsAccounted(r.prev);
      CallGuards(r.prev.Now(), r.event, r.next);
      CallsStep(r.prev.Now(), r.event, r.next);
      UnderWayStep(r.prev.Now(), r.event);
      StopsStep(r.prev.Now(), r.event, r.next);
    }
  }

  lemma EnterStep(s: State, e: Event, t: State)
    requires Step(s, e, t)
    ensures t.entering == s.entering + (if e.Enter? then 1 else 0) - (if e.Begin? then 1 else 0)
    ensures (t.destroyed <==> s.destroyed || e.Destroy?) && (e.Enter? ==> !s.destroyed)
  {
  }

  /** In every run the critical section of Start runs at most once per call. */
  lemma {:induction false} StartsAccounted(r: Trace)
    requires Run(r)
    ensures r.Now().starts + r.Now().entering == Times(r, Enters())
  {
    if r.Then? {
      StartsAccounted(r.prev);
      EnterStep(r.prev.Now(), r.event, r.next);
      StartsStep(r.prev.Now(), r.event, r.next);
    }
  }

  predicate Happened(r: Trace, e: Event) { r.Then? && (r.event == e || Happened(r.prev, e)) }

  lemma {:induction false} DestroyedIffHappened(r: Trace)
    requires Run(r)
    ensures r.Now().destroyed <==> Happened(r, Destroy)
  {
    if r.Then? {
      DestroyedIffHappened(r.prev);
      EnterStep(r.prev.Now(), r.event, r.next);
    }
  }

  /** Some call has won its swap since the last Start cleared the flag. */
  predicate WonSinceStart(r: Trace) { r.Then? && (r.event.Win? || (!r.event.Begin? && WonSinceStart(r.prev))) }

  lemma MarkStep(s: State, e: Event, t: State)
    requires Step(s, e, t)
    ensures (t.started <==> s.started || e.Mark?) && (e.Mark? ==> s.entering > 0)
    ensures e.Lose? ==> !s.started || s.stopped
  {
  }

  lemma {:induction false} FlagsMean(r: Trace)
    requires Run(r)
    ensures r.Now().started <==> Happened(r, Mark)
    ensures r.Now().stopped <==> WonSinceStart(r)
    ensures r.Now().started ==> r.Now().starts > 0 || r.Now().entering > 0
  {
    if r.Then? {
      FlagsMean(r.prev);
      MarkStep(r.prev.Now(), r.event, r.next);
      StartsStep(r.prev.Now(), r.event, r.next);
      EnterStep(r.prev.Now(), r.event, r.next);
    }
  }

  /** A call of Stop does nothing only if no Start has got as far as its flag, or another call has won since. */
  lemma LosesRightly(r: Trace)
    requires Run(r) && r.Then? && r.event.Lose?
    ensures !Happened(r.prev, Mark) || WonSinceStart(r.prev)
  {
    FlagsMean(r.prev);
    MarkStep(r.prev.Now(), r.event, r.next);
  }

  ghost predicate Continues(r: Trace, from: Trace) { r == from || (r.Then? && Continues(r.prev, from)) }

  /** A Start called after Destroy does nothing: only those already past its check can still run. */
  lemma {:induction false} DestroyedForGood(r: Trace, from: Trace)
    requires Run(r) && Run(from) && Continues(r, from) && Happened(from, Destroy)
    ensures Times(r, Enters()) == Times(from, Enters()) && r.Now().destroyed
    ensures r.Now().starts <= from.Now().starts + from.Now().entering
  {
    DestroyedIffHappened(from);
    StartsAccounted(r);
    StartsAccounted(from);
    if r != from {
      DestroyedForGood(r.prev, from);
      EnterStep(r.prev.Now(), r.event, r.next);
    }
  }

  // ---- reopening -----------------------------------------------------------

  /** A first run with one line on stdout was stopped, and a second Start is about to take the lock. */
  lemma Reopened(line: Line) returns (r: Trace)
    ensures Run(r) && r.Now().hasPath && r.Now().entering == 1 && r.Now().started && |r.Now().feeds| == 2
    ensures HasLine(r.Now(), 0) && NextEntry(r.Now(), 0).line == line
  {
    var c := Call(None, 1);
    var s := Initial(true).(entering := 1);
    r := Extend(Start(true), Enter, s);
    s := s.(started := true);
    r := Extend(r, Mark, s);
    s := Begun(s, true, true, [line], []);
    r := Extend(r, Begin(true, true, [line], []), s);
    s := s.(calls := NONE.Issue(c));
    r := Extend(r, CallStop, s);
    s := Won(s, c);
    r := Extend(r, Win(c), s);
    s := Stopped(s, c);
    r := Extend(r, Body(c), s);
    r := Extend(r, Enter, s.(entering := 1));
  }

  /** Reopening a log, which is Stop followed by Start, can write lines of two runs to one file. */
  lemma ReopenRace(line: Line, own: Line)
    ensures exists r, h ::
      && Run(r) && 0 <= h < |r.Now().files| && r.Now().files[h].base == 2
      && r.Now().files[h].content == [Entry(2, own), Entry(0, line)]
  {
    var r := Reopened(line);
    RunInv(r);
    var s := r.Now();
    var t := Begun(s, true, true, [own], []);
    var r1 := Then(r, Begin(true, true, [own], []), t);
    var r2 := Then(r1, Emit(2), Emitted(t, 2));
    var r3 := Then(r2, Emit(0), Emitted(r2.next, 0));
    assert Run(r1) && Run(r2);
    assert Run(r3);
    assert r3.Now().files[|s.files|].content == [Entry(2, own), Entry(0, line)];
  }
}
