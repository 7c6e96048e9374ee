/**
 * Startup and shutdown of the all-in-one process as a transition system over every interleaving:
 * seven start hooks and three component hooks gated by one-shot signals, two wait groups, the
 * goroutine that injects custom paths, the drain, and the final cancellation of storage.
 */
module Startup {

  datatype Hook =
    | UpdateKubeconfig | RecordEvents | NodeStartup | UntaintNode | UpdateStatus | UpdateRBAC | UpdateToken
    | ControllerManager | Scheduler | Kubelet

  predicate IsComponent(h: Hook) { h.ControllerManager? || h.Scheduler? || h.Kubelet? }

  predicate IsStart(h: Hook) { !IsComponent(h) }

  datatype Signal =
    | HostnameReady | KubeconfigReady | NodeReady | KubeletServer | PathsProvided | StartHooksDone | DrainDone

  /** The channel a hook's goroutine blocks on before its body runs. */
  function Gate(h: Hook): Signal {
    match h
    case UpdateKubeconfig => HostnameReady
    case UntaintNode => NodeReady
    case UpdateStatus => NodeReady
    case UpdateRBAC => PathsProvided
    case _ => KubeconfigReady
  }

  datatype Injector = Blocked | Adding | Finished

  /** The drain is missed if the server runs its stop hooks before it is among them. */
  datatype Drain = Unregistered | Registered | Draining | Drained | Missed

  datatype State = State(
    launched: set<Hook>, begun: set<Hook>, returned: set<Hook>,
    fired: set<Signal>,
    flags: bool,                      // the components' kubeconfig flags are set
    injector: Injector, paths: nat, total: nat,
    startWg: nat, runWg: nat,
    ctxDone: bool, drain: Drain, cancelled: set<Hook>,
    serverDone: bool, storageDone: bool)
  {
    predicate IsRunning(h: Hook) { h in begun && h !in returned }

    function Fire(x: Signal): State { this.(fired := fired + {x}) }
  }

  datatype Event =
    | Launch(h: Hook) | Open(h: Hook) | Return(h: Hook, ok: bool)
    | Hostname | StartKubelet | Ready
    | SetFlags | Publish
    | Wake | AddPath | Register | ClosePaths
    | FinishStart
    | Shutdown | RunStopHooks | EndDrain | CancelComponent(h: Hook)
    | ServerReturns | CancelStorage

  function Initial(total: nat): State {
    State({}, {}, {}, {}, false, Blocked, 0, total, 7, 3, false, Unregistered, {}, false, false)
  }

  /** A body returns: its deferred wait-group call runs, and an error cancels the process context. */
  function AfterReturn(s: State, h: Hook, ok: bool): State
    requires if IsStart(h) then s.startWg > 0 else s.runWg > 0
  {
    var s' := s.(returned := s.returned + {h}, ctxDone := s.ctxDone || !ok);
    if IsStart(h) then s'.(startWg := s.startWg - 1) else s'.(runWg := s.runWg - 1)
  }

  ghost predicate Step(s: State, e: Event, t: State) {
    match e
    // hook goroutines
    case Launch(h) => !s.serverDone && h !in s.launched && t == s.(launched := s.launched + {h})
    case Open(h) => h in s.launched && h !in s.begun && Gate(h) in s.fired && t == s.(begun := s.begun + {h})
    case Return(h, ok) =>
      && s.IsRunning(h) && (h == UpdateKubeconfig && ok ==> KubeconfigReady in s.fired)
      && (if IsStart(h) then s.startWg > 0 else s.runWg > 0) && t == AfterReturn(s, h, ok)
    // the environment
    case Hostname => HostnameReady !in s.fired && t == s.Fire(HostnameReady)
    case StartKubelet => s.IsRunning(Kubelet) && KubeletServer !in s.fired && t == s.Fire(KubeletServer)
    case Ready => KubeletServer in s.fired && NodeReady !in s.fired && t == s.Fire(NodeReady)
    // the body of update-kubeconfig
    case SetFlags => s.IsRunning(UpdateKubeconfig) && !s.flags && t == s.(flags := true)
    case Publish =>
      s.IsRunning(UpdateKubeconfig) && s.flags && KubeconfigReady !in s.fired && t == s.Fire(KubeconfigReady)
    // the goroutine that injects handlers
    case Wake => s.injector.Blocked? && (KubeletServer in s.fired || s.ctxDone) && t == s.(injector := Adding)
    case AddPath => s.injector.Adding? && s.paths < s.total && t == s.(paths := s.paths + 1)
    case Register =>
      s.injector.Adding? && s.paths == s.total && s.drain.Unregistered? && t == s.(drain := Registered)
    case ClosePaths =>
      && s.injector.Adding? && s.paths == s.total && !s.drain.Unregistered?
      && t == s.(injector := Finished).Fire(PathsProvided)
    // the goroutine that waits for the start hooks
    case FinishStart => s.startWg == 0 && StartHooksDone !in s.fired && t == s.Fire(StartHooksDone)
    // shutdown
    case Shutdown => t == s.(ctxDone := true)
    case RunStopHooks =>
      && s.ctxDone && !s.serverDone && (s.drain.Registered? || s.drain.Unregistered?)
      && t == s.(drain := if s.drain.Registered? then Draining else Missed)
    case EndDrain => s.drain.Draining? && t == s.(drain := Drained).Fire(DrainDone)
    case CancelComponent(h) =>
      IsComponent(h) && h in s.begun && DrainDone in s.fired && t == s.(cancelled := s.cancelled + {h})
    case ServerReturns => !s.drain.Draining? && t == s.(serverDone := true)
    case CancelStorage => s.serverDone && s.startWg == 0 && s.runWg == 0 && t == s.(storageDone := true)
  }

  datatype Trace = Begin(total: nat) | Then(prev: Trace, event: Event, next: State)
  {
    function Now(): State { if Begin? then Initial(total) else next }
  }

  ghost predicate Run(r: Trace) {
    r.Then? ==> Run(r.prev) && Step(r.prev.Now(), r.event, r.next)
  }

  // ---- safety --------------------------------------------------------------

  /** The start hooks, or components, whose bodies have not returned. */
  function StartLeft(returned: set<Hook>): set<Hook> { set h: Hook | IsStart(h) && h !in returned }

  function RunLeft(returned: set<Hook>): set<Hook> { set h: Hook | IsComponent(h) && h !in returned }

  /** Bodies run only behind their gates, and the wait groups count the bodies still to return. */
  ghost predicate HookInv(s: State) {
    && s.returned <= s.begun <= s.launched
    && (forall h :: h in s.begun ==> Gate(h) in s.fired)
    && s.startWg == |StartLeft(s.returned)| && s.runWg == |RunLeft(s.returned)|
  }

  /** What each signal of the startup guarantees. */
  ghost predicate StartInv(s: State) {
    && (KubeconfigReady in s.fired ==> s.flags)
    && (NodeReady in s.fired ==> KubeletServer in s.fired)
    && (KubeletServer in s.fired ==> Kubelet in s.begun)
    && (PathsProvided in s.fired <==> s.injector.Finished?)
    && s.paths <= s.total
    && (s.injector.Blocked? ==> s.paths == 0 && (s.drain.Unregistered? || s.drain.Missed?))
    && (s.injector.Finished? ==> s.paths == s.total && !s.drain.Unregistered?)
  }

  /** What the end of the startup, the drain and the cancellations guarantee. */
  ghost predicate StopInv(s: State) {
    && (StartHooksDone in s.fired ==> s.startWg == 0)
    && (DrainDone in s.fired <==> s.drain.Drained?)
    && (s.cancelled != {} ==> DrainDone in s.fired)
    && (s.storageDone ==> s.startWg == 0 && s.runWg == 0 && s.serverDone)
    && (s.drain.Draining? || s.drain.Drained? || s.drain.Missed? ==> s.ctxDone)
  }

  /** What must have begun before something else is done, and what the server waits for. */
  ghost predicate OrderInv(s: State) {
    && (s.flags ==> UpdateKubeconfig in s.begun)
    && (s.serverDone ==> !s.drain.Draining?)
    && (s.drain.Registered? || s.drain.Draining? || s.drain.Drained? ==> s.paths == s.total)
    && s.cancelled <= s.begun && forall h :: h in s.cancelled ==> IsComponent(h)
  }

  ghost predicate SignalInv(s: State) { StartInv(s) && StopInv(s) && OrderInv(s) }

  ghost predicate Inv(s: State) { HookInv(s) && SignalInv(s) }

  lemma LeftCounts(returned: set<Hook>, h: Hook)
    requires h !in returned
    ensures |StartLeft(returned + {h})| == |StartLeft(returned)| - (if IsStart(h) then 1 else 0)
    ensures |RunLeft(returned + {h})| == |RunLeft(returned)| - (if IsStart(h) then 0 else 1)
  {
    if IsStart(h) {
      assert StartLeft(returned) == StartLeft(returned + {h}) + {h};
      assert RunLeft(returned) == RunLeft(returned + {h});
    } else {
      assert RunLeft(returned) == RunLeft(returned + {h}) + {h};
      assert StartLeft(returned) == StartLeft(returned + {h});
    }
  }

  lemma InitialCounts()
    ensures |StartLeft({})| == 7 && |RunLeft({})| == 3
  {
    assert StartLeft({}) ==
      {UpdateKubeconfig, RecordEvents, NodeStartup, UntaintNode, UpdateStatus, UpdateRBAC, UpdateToken};
    assert RunLeft({}) == {ControllerManager, Scheduler, Kubelet};
  }

  lemma HookStep(s: State, e: Event, t: State)
    requires HookInv(s) && Step(s, e, t)
    ensures HookInv(t)
  {
    if e.Return? {
      LeftCounts(s.returned, e.h);
    }
  }

  lemma StartStep(s: State, e: Event, t: State)
    requires StartInv(s) && Step(s, e, t)
    ensures StartInv(t)
  {
  }

  lemma StopStep(s: State, e: Event, t: State)
    requires StopInv(s) && Step(s, e, t)
    ensures StopInv(t)
  {
  }

  lemma OrderStep(s: State, e: Event, t: State)
    requires OrderInv(s) && Step(s, e, t)
    ensures OrderInv(t)
  {
  }

  lemma {:induction false} RunInv(r: Trace)
    requires Run(r)
    ensures Inv(r.Now())
  {
    if r.Then? {
      RunInv(r.prev);
      HookStep(r.prev.Now(), r.event, r.next);
      StartStep(r.prev.Now(), r.event, r.next);
      StopStep(r.prev.Now(), r.event, r.next);
      OrderStep(r.prev.Now(), r.event, r.next);
    } else {
      InitialCounts();
    }
  }

  lemma StartReturned(s: State, h: Hook)
    requires HookInv(s) && IsStart(h)
    ensures s.startWg == 0 ==> h in s.returned
    ensures h !in s.returned ==> s.startWg > 0
  {
    if h !in s.returned { assert h in StartLeft(s.returned); }
  }

  lemma RunReturned(s: State, h: Hook)
    requires HookInv(s) && IsComponent(h)
    ensures s.runWg == 0 ==> h in s.returned
  {
    if h !in s.returned { assert h in RunLeft(s.returned); }
  }

  /** What has happened before the body of a hook runs. */
  predicate Prepared(s: State, h: Hook) {
    match h
    case UpdateKubeconfig => HostnameReady in s.fired
    case UntaintNode => NodeReady in s.fired && KubeletServer in s.fired && Kubelet in s.begun
    case UpdateStatus => NodeReady in s.fired && KubeletServer in s.fired && Kubelet in s.begun
    case UpdateRBAC => PathsProvided in s.fired && s.injector.Finished? && s.paths == s.total
    case RecordEvents | NodeStartup | UpdateToken => KubeconfigReady in s.fired && s.flags
    case ControllerManager | Scheduler | Kubelet => KubeconfigReady in s.fired && s.flags
  }

  /** What holds of every hook in every state of every interleaving of startup and shutdown. */
  lemma Safety(r: Trace, h: Hook)
    requires Run(r)
    ensures h in r.Now().begun ==> h in r.Now().launched && Prepared(r.Now(), h)
    ensures StartHooksDone in r.Now().fired && IsStart(h) ==> h in r.Now().returned
    ensures h in r.Now().cancelled ==> IsComponent(h) && h in r.Now().begun
    ensures h in r.Now().cancelled ==> r.Now().drain.Drained? && DrainDone in r.Now().fired && r.Now().ctxDone
    ensures r.Now().storageDone ==> h in r.Now().returned && r.Now().serverDone
    ensures r.Now().serverDone ==> !r.Now().drain.Draining?
    ensures var d := r.Now().drain; d.Registered? || d.Draining? || d.Drained? ==> r.Now().paths == r.Now().total
    ensures r.Now().flags || KubeconfigReady in r.Now().fired ==> UpdateKubeconfig in r.Now().begun
  {
    RunInv(r);
    SafetyOf(r.Now(), h);
  }

  lemma SafetyOf(s: State, h: Hook)
    requires Inv(s)
    ensures h in s.begun ==> h in s.launched && Prepared(s, h)
    ensures StartHooksDone in s.fired && IsStart(h) ==> h in s.returned
    ensures h in s.cancelled ==> IsComponent(h) && h in s.begun
    ensures h in s.cancelled ==> s.drain.Drained? && DrainDone in s.fired && s.ctxDone
    ensures s.storageDone ==> h in s.returned && s.serverDone
    ensures s.serverDone ==> !s.drain.Draining?
    ensures s.drain.Registered? || s.drain.Draining? || s.drain.Drained? ==> s.paths == s.total
    ensures s.flags || KubeconfigReady in s.fired ==> UpdateKubeconfig in s.begun
  {
    if IsStart(h) { StartReturned(s, h); } else { RunReturned(s, h); }
  }

  predicate Happened(r: Trace, e: Event) { r.Then? && (r.event == e || Happened(r.prev, e)) }

  lemma CancelsStep(s: State, e: Event, t: State)
    requires Step(s, e, t)
    ensures (s.ctxDone ==> t.ctxDone) && ((e.Return? && !e.ok) || e.Shutdown? ==> t.ctxDone)
  {
  }

  /** A body that fails cancels the process, as a request to shut down does. */
  lemma {:induction false} FailureCancels(r: Trace, h: Hook)
    requires Run(r)
    ensures Happened(r, Return(h, false)) || Happened(r, Shutdown) ==> r.Now().ctxDone
  {
    if r.Then? {
      FailureCancels(r.prev, h);
      CancelsStep(r.prev.Now(), r.event, r.next);
    }
  }

  // ---- startup runs to completion ------------------------------------------

  /** update-kubeconfig gave up, for instance because its context was cancelled while polling. */
  predicate GaveUp(s: State) { UpdateKubeconfig in s.returned && KubeconfigReady !in s.fired }

  /** The kubelet returned without ever having provided its server, so no node becomes ready. */
  predicate KubeletLost(s: State) { Kubelet in s.returned && KubeletServer !in s.fired }

  /** The API server returned before it had launched this hook, and nobody else will. */
  predicate Unlaunched(s: State, h: Hook) { s.serverDone && h !in s.launched }

  /** Some start hook never returns: for want of its gate, or because it was never launched. */
  ghost predicate StartDoomed(s: State) {
    GaveUp(s) || KubeletLost(s) || exists h :: Unlaunched(s, h) && (IsStart(h) || h == Kubelet)
  }

  /** Some hook never returns. */
  ghost predicate Doomed(s: State) { StartDoomed(s) || exists h :: Unlaunched(s, h) }

  /** Startup without errors and without a shutdown request. */
  predicate Healthy(e: Event) {
    match e
    case Return(h, ok) => ok && IsStart(h)
    case Shutdown | RunStopHooks | EndDrain | CancelComponent(_) | ServerReturns | CancelStorage => false
    case _ => true
  }

  ghost predicate HealthyRun(r: Trace) {
    Run(r) && (r.Then? ==> HealthyRun(r.prev) && Healthy(r.event))
  }

  /** What else holds while nothing has gone wrong. */
  ghost predicate HealthyInv(s: State) {
    && (forall h :: h in s.returned ==> IsStart(h))
    && (UpdateKubeconfig in s.returned ==> KubeconfigReady in s.fired)
    && (s.drain.Unregistered? || s.drain.Registered?)
    && !s.serverDone
  }

  lemma {:induction false} HealthyRunInv(r: Trace)
    requires HealthyRun(r)
    ensures Inv(r.Now()) && HealthyInv(r.Now())
  {
    RunInv(r);
    if r.Then? {
      HealthyRunInv(r.prev);
      HealthyStep(r.prev.Now(), r.event, r.next);
    }
  }

  lemma HealthyStep(s: State, e: Event, t: State)
    requires HealthyInv(s) && Step(s, e, t) && Healthy(e)
    ensures HealthyInv(t)
  {
  }

  /** How many steps of hooks, of signals and of the injector a startup has left. */
  function HooksLeft(s: State): int { (10 - |s.launched|) + (10 - |s.begun|) + (7 - |s.returned|) }

  function SignalsLeft(s: State): int { 6 - |s.fired| }

  function WiringLeft(s: State): int {
    (if s.flags then 0 else 1) + (if s.injector.Blocked? then 1 else 0)
    + (s.total - s.paths) + (if s.drain.Unregistered? then 1 else 0)
  }

  function Remaining(s: State): int { HooksLeft(s) + SignalsLeft(s) + WiringLeft(s) }

  predicate IsHookStep(e: Event) { e.Launch? || e.Open? || e.Return? }

  predicate IsWiringStep(e: Event) { e.SetFlags? || e.Wake? || e.AddPath? || e.Register? }

  lemma HooksCount(s: State, e: Event, t: State)
    requires Step(s, e, t)
    ensures HooksLeft(t) == HooksLeft(s) - (if IsHookStep(e) then 1 else 0)
  {
  }

  /** The signal a startup step fires, if any. */
  function Fires(e: Event): set<Signal> {
    match e
    case Hostname => {HostnameReady}
    case StartKubelet => {KubeletServer}
    case Ready => {NodeReady}
    case Publish => {KubeconfigReady}
    case ClosePaths => {PathsProvided}
    case FinishStart => {StartHooksDone}
    case _ => {}
  }

  lemma FiresOnce(s: State, e: Event, t: State)
    requires Step(s, e, t) && Healthy(e) && StartInv(s)
    ensures t.fired == s.fired + Fires(e) && Fires(e) !! s.fired
  {
  }

  lemma SignalsCount(s: State, e: Event, t: State)
    requires Step(s, e, t) && Healthy(e) && StartInv(s)
    ensures SignalsLeft(t) == SignalsLeft(s) - |Fires(e)|
  {
    FiresOnce(s, e, t);
  }

  lemma WiringCount(s: State, e: Event, t: State)
    requires Step(s, e, t) && Healthy(e)
    ensures WiringLeft(t) == WiringLeft(s) - (if IsWiringStep(e) then 1 else 0)
  {
  }

  lemma StepCounts(s: State, e: Event, t: State)
    requires Step(s, e, t) && Healthy(e) && SignalInv(s)
    ensures Remaining(t) == Remaining(s) - 1
  {
    HooksCount(s, e, t);
    SignalsCount(s, e, t);
    WiringCount(s, e, t);
  }

  lemma Subset<T>(a: set<T>, b: set<T>)
    requires a <= b
    ensures |a| <= |b|
    decreases b
  {
    if a != {} {
      var x :| x in a;
      Subset(a - {x}, b - {x});
    }
  }

  lemma RemainingBound(s: State)
    requires Inv(s)
    ensures Remaining(s) >= -4
    ensures HealthyInv(s) ==> Remaining(s) >= 0
  {
    InitialCounts();
    var all := StartLeft({}) + RunLeft({});
    forall h: Hook ensures h in all { assert IsStart(h) || IsComponent(h); }
    Subset(s.launched, all);
    Subset(s.begun, all);
    Subset(s.returned, all);
    if HealthyInv(s) { Subset(s.returned, StartLeft({})); }
    FiredBound(s);
  }

  lemma FiredBound(s: State)
    requires SignalInv(s)
    ensures |s.fired| <= 7
    ensures HealthyInv(s) ==> |s.fired| <= 6
  {
    var early := {HostnameReady, KubeconfigReady, NodeReady, KubeletServer, PathsProvided, StartHooksDone};
    forall x | x in s.fired ensures x in early + {DrainDone} { assert x in early || x.DrainDone?; }
    Subset(s.fired, early + {DrainDone});
    if HealthyInv(s) {
      forall x | x in s.fired ensures x in early { assert !x.DrainDone?; }
      Subset(s.fired, early);
    }
  }

  /** The step startup can always take next, chosen along the order in which signals depend on each other. */
  ghost predicate Enabled(s: State) { exists e, t :: Healthy(e) && Step(s, e, t) }

  lemma HookMoves(s: State, h: Hook)
    requires HookInv(s) && IsStart(h) && h !in s.returned && Gate(h) in s.fired && h != UpdateKubeconfig
    requires !Unlaunched(s, h)
    ensures Enabled(s)
  {
    StartReturned(s, h);
    if h !in s.launched {
      assert Step(s, Launch(h), s.(launched := s.launched + {h}));
    } else if h !in s.begun {
      assert Step(s, Open(h), s.(begun := s.begun + {h}));
    } else {
      assert Step(s, Return(h, true), AfterReturn(s, h, true));
    }
  }

  lemma KubeconfigMoves(s: State)
    requires Inv(s) && !GaveUp(s) && !Unlaunched(s, UpdateKubeconfig)
    requires (KubeconfigReady !in s.fired || UpdateKubeconfig !in s.returned)
    ensures Enabled(s)
  {
    var h := UpdateKubeconfig;
    StartReturned(s, h);
    if HostnameReady !in s.fired {
      assert Step(s, Hostname, s.Fire(HostnameReady));
    } else if h !in s.launched {
      assert Step(s, Launch(h), s.(launched := s.launched + {h}));
    } else if h !in s.begun {
      assert Step(s, Open(h), s.(begun := s.begun + {h}));
    } else if !s.flags {
      assert Step(s, SetFlags, s.(flags := true));
    } else if KubeconfigReady !in s.fired {
      assert Step(s, Publish, s.Fire(KubeconfigReady));
    } else {
      assert Step(s, Return(h, true), AfterReturn(s, h, true));
    }
  }

  lemma KubeletMoves(s: State)
    requires Inv(s) && !KubeletLost(s) && !Unlaunched(s, Kubelet)
    requires KubeconfigReady in s.fired && KubeletServer !in s.fired
    ensures Enabled(s)
  {
    if Kubelet !in s.launched {
      assert Step(s, Launch(Kubelet), s.(launched := s.launched + {Kubelet}));
    } else if Kubelet !in s.begun {
      assert Step(s, Open(Kubelet), s.(begun := s.begun + {Kubelet}));
    } else {
      assert Step(s, StartKubelet, s.Fire(KubeletServer));
    }
  }

  lemma InjectorMoves(s: State)
    requires Inv(s) && KubeletServer in s.fired && PathsProvided !in s.fired
    ensures Enabled(s)
  {
    if s.injector.Blocked? {
      assert Step(s, Wake, s.(injector := Adding));
    } else if s.paths < s.total {
      assert Step(s, AddPath, s.(paths := s.paths + 1));
    } else if s.drain.Unregistered? {
      assert Step(s, Register, s.(drain := Registered));
    } else {
      assert Step(s, ClosePaths, s.(injector := Finished).Fire(PathsProvided));
    }
  }

  /**
   * Startup never deadlocks: in every run, even after failures or a shutdown request, some
   * startup step is enabled until startHooksDone is closed, unless the startup is doomed.
   */
  lemma NoDeadlock(r: Trace)
    requires Run(r) && !StartDoomed(r.Now()) && StartHooksDone !in r.Now().fired
    ensures Enabled(r.Now())
  {
    var s := r.Now();
    RunInv(r);
    if KubeconfigReady !in s.fired || UpdateKubeconfig !in s.returned {
      KubeconfigMoves(s);
    } else if KubeletServer !in s.fired {
      KubeletMoves(s);
    } else if PathsProvided !in s.fired {
      InjectorMoves(s);
    } else if NodeReady !in s.fired {
      assert Step(s, Ready, s.Fire(NodeReady));
    } else if s.startWg == 0 {
      assert Step(s, FinishStart, s.Fire(StartHooksDone));
    } else {
      var h :| h in StartLeft(s.returned);
      HookMoves(s, h);
    }
  }

  function Length(r: Trace): nat { if r.Begin? then 0 else Length(r.prev) + 1 }

  function Total(r: Trace): nat { if r.Begin? then r.total else Total(r.prev) }

  /**
   * Startup always completes: a healthy run has at most 36 steps plus one per custom path, every
   * step uses up one of them, and a run that cannot be extended has closed startHooksDone.
   */
  lemma {:induction false} StartupCompletes(r: Trace)
    requires HealthyRun(r)
    ensures Length(r) + Remaining(r.Now()) == 36 + Total(r) && Remaining(r.Now()) >= 0
    ensures !Enabled(r.Now()) ==> StartHooksDone in r.Now().fired
  {
    HealthyRunInv(r);
    RemainingBound(r.Now());
    if StartHooksDone !in r.Now().fired {
      NoDeadlock(r);
    }
    if r.Then? {
      StartupCompletes(r.prev);
      HealthyRunInv(r.prev);
      StepCounts(r.prev.Now(), r.event, r.next);
    }
  }

  // ---- when shutdown can finish --------------------------------------------

  /**
   * What is assumed of a continuation. Orderly: a component returns only once it is cancelled,
   * not because it failed. Served: what needs an answer of the API server happens before it
   * returns.
   */
  datatype Mode = Mode(orderly: bool, served: bool)

  predicate IsOrderly(s: State, e: Event) { e.Return? && IsComponent(e.h) ==> e.h in s.cancelled }

  predicate IsServed(s: State, e: Event) { e.Publish? || e.Ready? ==> !s.serverDone }

  predicate Allowed(s: State, e: Event, m: Mode) {
    (m.orderly ==> IsOrderly(s, e)) && (m.served ==> IsServed(s, e))
  }

  /** The run goes on from an earlier moment in steps of the given mode. */
  ghost predicate Continues(r: Trace, from: Trace, m: Mode) {
    r == from || (r.Then? && Continues(r.prev, from, m) && Allowed(r.prev.Now(), r.event, m))
  }

  lemma {:induction false} ContinuesOn(r: Trace, mid: Trace, from: Trace, m: Mode)
    requires Continues(r, mid, m) && Continues(mid, from, m)
    ensures Continues(r, from, m)
  {
    if r != mid { ContinuesOn(r.prev, mid, from, m); }
  }

  lemma LostStep(s: State, e: Event, t: State)
    requires Step(s, e, t)
    ensures (GaveUp(s) ==> GaveUp(t)) && (KubeletLost(s) ==> KubeletLost(t))
    ensures forall h :: Unlaunched(s, h) ==> Unlaunched(t, h)
  {
  }

  lemma {:induction false} DoomedForever(r: Trace, from: Trace, m: Mode)
    requires Run(r) && Continues(r, from, m)
    ensures (StartDoomed(from.Now()) ==> StartDoomed(r.Now())) && (Doomed(from.Now()) ==> Doomed(r.Now()))
  {
    if r != from {
      DoomedForever(r.prev, from, m);
      LostStep(r.prev.Now(), r.event, r.next);
    }
  }

  /** A doomed startup waits for a start hook that never returns. */
  lemma StartDoomedWaits(s: State)
    requires Inv(s) && StartDoomed(s)
    ensures !s.storageDone && StartHooksDone !in s.fired
  {
    if GaveUp(s) {
      StartReturned(s, RecordEvents);
    } else if KubeletLost(s) {
      StartReturned(s, UntaintNode);
    } else {
      var h :| Unlaunched(s, h) && (IsStart(h) || h == Kubelet);
      StartReturned(s, if IsStart(h) then h else UntaintNode);
    }
  }

  lemma DoomedWaits(s: State)
    requires Inv(s) && Doomed(s)
    ensures !s.storageDone
  {
    if StartDoomed(s) {
      StartDoomedWaits(s);
    } else {
      var h :| Unlaunched(s, h);
      RunReturned(s, h);
    }
  }

  lemma HealthyKeepsHope(s: State, e: Event, t: State)
    requires Step(s, e, t) && Healthy(e)
    ensures GaveUp(t) ==> GaveUp(s)
    ensures KubeletLost(t) ==> KubeletLost(s)
    ensures s.launched <= t.launched && t.serverDone == s.serverDone
    ensures IsOrderly(s, e) && (DrainLost(t) ==> DrainLost(s)) && s.returned <= t.returned && s.fired <= t.fired
  {
  }

  lemma Extend(r: Trace, e: Event, t: State, from: Trace, m: Mode) returns (next: Trace)
    requires Run(r) && Continues(r, from, m) && Step(r.Now(), e, t) && Allowed(r.Now(), e, m)
    ensures Run(next) && Continues(next, from, m) && next.Now() == t
  {
    next := Then(r, e, t);
  }

  /** The API server returned before the node was ready. */
  predicate Unready(s: State) { s.serverDone && NodeReady !in s.fired }

  lemma {:induction false} UnreadyForever(r: Trace, from: Trace, m: Mode)
    requires Run(r) && Continues(r, from, m) && m.served && Unready(from.Now())
    ensures Unready(r.Now())
  {
    if r != from {
      UnreadyForever(r.prev, from, m);
      UnreadyStep(r.prev.Now(), r.event, r.next);
    }
  }

  lemma UnreadyStep(s: State, e: Event, t: State)
    requires Step(s, e, t) && IsServed(s, e) && Unready(s)
    ensures Unready(t)
  {
  }

  /** With the node ready nothing is left that needs an answer. */
  lemma ReadyServed(s: State, e: Event, t: State)
    requires Inv(s) && Step(s, e, t) && !Unready(s)
    ensures IsServed(s, e)
  {
    assert NodeReady in s.fired ==> Gate(Kubelet) in s.fired;
  }

  /** Nothing that could still be hoped for at s is lost at t. */
  ghost predicate KeepsHope(s: State, t: State) {
    && (Doomed(t) ==> Doomed(s)) && (StartDoomed(t) ==> StartDoomed(s)) && (DrainLost(t) ==> DrainLost(s))
    && (Unready(t) ==> Unready(s)) && s.returned <= t.returned
  }

  lemma StillHopeful(s: State, e: Event, t: State)
    requires Step(s, e, t) && Healthy(e)
    ensures KeepsHope(s, t)
  {
    HealthyKeepsHope(s, e, t);
    forall h | Unlaunched(t, h) ensures Unlaunched(s, h) { }
  }

  /** One more startup step. */
  lemma StartupStep(r: Trace, m: Mode) returns (next: Trace)
    requires Run(r) && !StartDoomed(r.Now()) && StartHooksDone !in r.Now().fired && (m.served ==> !Unready(r.Now()))
    ensures Run(next) && Continues(next, r, m) && KeepsHope(r.Now(), next.Now())
    ensures -4 <= Remaining(next.Now()) == Remaining(r.Now()) - 1
  {
    var s := r.Now();
    RunInv(r);
    NoDeadlock(r);
    var e, t :| Healthy(e) && Step(s, e, t);
    StillHopeful(s, e, t);
    HealthyKeepsHope(s, e, t);
    if m.served { ReadyServed(s, e, t); }
    StepCounts(s, e, t);
    next := Extend(r, e, t, r, m);
    RunInv(next);
    RemainingBound(t);
  }

  lemma HopeKept(s: State, t: State, u: State)
    requires KeepsHope(s, t) && KeepsHope(t, u)
    ensures KeepsHope(s, u)
  {
  }

  /** Startup steps alone lead every run that is not doomed to startHooksDone. */
  lemma {:induction false} FinishStartup(r: Trace, m: Mode) returns (last: Trace)
    requires Run(r) && !StartDoomed(r.Now()) && (m.served ==> !Unready(r.Now()))
    ensures Run(last) && Continues(last, r, m) && StartHooksDone in last.Now().fired && KeepsHope(r.Now(), last.Now())
    decreases Remaining(r.Now()) + 4
  {
    last := r;
    if StartHooksDone !in r.Now().fired {
      var next := StartupStep(r, m);
      last := FinishStartup(next, m);
      ContinuesOn(last, next, r, m);
      HopeKept(r.Now(), next.Now(), last.Now());
    }
  }

  // ---- the custom paths ----------------------------------------------------

  predicate IsInjector(e: Event) { e.Wake? || e.AddPath? || e.Register? || e.ClosePaths? }

  /** The run goes on by steps of the injector alone. */
  ghost predicate InjectorOnly(r: Trace, from: Trace) {
    r == from || (r.Then? && IsInjector(r.event) && InjectorOnly(r.prev, from))
  }

  lemma {:induction false} InjectorOn(r: Trace, mid: Trace, from: Trace)
    requires InjectorOnly(r, mid) && InjectorOnly(mid, from)
    ensures InjectorOnly(r, from)
  {
    if r != mid { InjectorOn(r.prev, mid, from); }
  }

  lemma InjectorStep(r: Trace, e: Event, t: State) returns (next: Trace)
    requires Run(r) && IsInjector(e) && Step(r.Now(), e, t)
    ensures Run(next) && InjectorOnly(next, r) && next.Now() == t
  {
    next := Then(r, e, t);
  }

  lemma AddOne(r: Trace) returns (next: Trace)
    requires Run(r) && r.Now().injector.Adding? && r.Now().paths < r.Now().total
    ensures Run(next) && InjectorOnly(next, r) && next.Now().injector.Adding?
    ensures next.Now().total == r.Now().total && next.Now().paths == r.Now().paths + 1
  {
    next := InjectorStep(r, AddPath, r.Now().(paths := r.Now().paths + 1));
  }

  lemma {:induction false} AddPaths(r: Trace) returns (last: Trace)
    requires Run(r) && r.Now().injector.Adding? && r.Now().paths <= r.Now().total
    ensures Run(last) && InjectorOnly(last, r) && last.Now().injector.Adding? && last.Now().paths == last.Now().total
    decreases r.Now().total - r.Now().paths
  {
    last := r;
    if r.Now().paths < r.Now().total {
      var next := AddOne(r);
      last := AddPaths(next);
      InjectorOn(last, next, r);
    }
  }

  lemma ProvidePaths(r: Trace) returns (last: Trace)
    requires Run(r) && r.Now().injector.Adding?
    ensures Run(last) && InjectorOnly(last, r) && PathsProvided in last.Now().fired
  {
    RunInv(r);
    last := AddPaths(r);
    var s := last.Now();
    if s.drain.Unregistered? {
      s := s.(drain := Registered);
      var next := InjectorStep(last, Register, s);
      InjectorOn(next, last, r);
      last := next;
    }
    var next := InjectorStep(last, ClosePaths, s.(injector := Finished).Fire(PathsProvided));
    InjectorOn(next, last, r);
    last := next;
  }

  /** What lets the injector go on by itself. */
  predicate Unblocked(s: State) { !s.injector.Blocked? || KubeletServer in s.fired || s.ctxDone }

  lemma BlockedStep(s: State, e: Event, t: State)
    requires !Unblocked(s) && IsInjector(e)
    ensures !Step(s, e, t)
  {
  }

  lemma {:induction false} StaysBlocked(r: Trace, from: Trace)
    requires Run(r) && InjectorOnly(r, from) && !Unblocked(from.Now())
    ensures r == from
  {
    if r != from {
      StaysBlocked(r.prev, from);
      BlockedStep(from.Now(), r.event, r.next);
    }
  }

  lemma UnblockedProvides(r: Trace) returns (last: Trace)
    requires Run(r) && Unblocked(r.Now())
    ensures Run(last) && InjectorOnly(last, r) && PathsProvided in last.Now().fired
  {
    RunInv(r);
    last := r;
    if r.Now().injector.Adding? {
      last := ProvidePaths(r);
    } else if r.Now().injector.Blocked? {
      var woken := InjectorStep(r, Wake, r.Now().(injector := Adding));
      last := ProvidePaths(woken);
      InjectorOn(last, woken, r);
    }
  }

  /**
   * The injector waits for the kubelet's server or the end of the process, and for nothing else:
   * it can provide the paths by itself exactly when one of the two has come or it had begun.
   */
  lemma InjectorWaits(r: Trace)
    requires Run(r)
    ensures (exists last :: Run(last) && InjectorOnly(last, r) && PathsProvided in last.Now().fired)
      <==> Unblocked(r.Now())
  {
    if Unblocked(r.Now()) {
      var last := UnblockedProvides(r);
    } else {
      RunInv(r);
      forall last | Run(last) && InjectorOnly(last, r) ensures PathsProvided !in last.Now().fired {
        StaysBlocked(last, r);
      }
    }
  }

  // ---- the drain and the components ----------------------------------------

  /** The server has run its stop hooks, or has returned without doing so, and the node was not drained. */
  predicate DrainLost(s: State) {
    s.drain.Missed? || (s.serverDone && (s.drain.Unregistered? || s.drain.Registered?))
  }

  ghost predicate ComponentsReturned(s: State) { forall h :: IsComponent(h) ==> h in s.returned }

  /** What else stands in the way, depending on what is assumed of the rest of the run. */
  ghost predicate Obstructed(s: State, m: Mode) {
    (m.served && Unready(s)) || (m.orderly && DrainLost(s) && !ComponentsReturned(s))
  }

  lemma DrainLostStep(s: State, e: Event, t: State)
    requires StopInv(s) && DrainLost(s) && Step(s, e, t)
    ensures DrainLost(t)
    ensures IsOrderly(s, e) && ComponentsReturned(t) ==> ComponentsReturned(s)
  {
  }

  /** Without a drain no component is ever cancelled, so none returns in order. */
  lemma {:induction false} DrainLostForever(r: Trace, from: Trace, m: Mode)
    requires Run(r) && Continues(r, from, m) && m.orderly && DrainLost(from.Now()) && !ComponentsReturned(from.Now())
    ensures DrainLost(r.Now()) && !ComponentsReturned(r.Now())
  {
    if r != from {
      DrainLostForever(r.prev, from, m);
      RunInv(r.prev);
      DrainLostStep(r.prev.Now(), r.event, r.next);
    }
  }

  /** Only the drain has moved on, and it is not under way. */
  predicate Settled(s: State, t: State) {
    && t == s.(ctxDone := t.ctxDone, drain := t.drain, fired := t.fired)
    && s.fired <= t.fired && !t.drain.Draining?
  }

  /** A registered drain can be carried out, and one under way be finished. */
  lemma SettleDrain(r: Trace, m: Mode) returns (last: Trace)
    requires Run(r) && !r.Now().drain.Unregistered?
    ensures Run(last) && Continues(last, r, m) && Settled(r.Now(), last.Now())
    ensures DrainLost(r.Now()) || DrainDone in last.Now().fired
  {
    RunInv(r);
    var s := r.Now();
    last := r;
    if s.drain.Registered? && !s.serverDone {
      s := s.(ctxDone := true);
      last := Extend(last, Shutdown, s, r, m);
      s := s.(drain := Draining);
      last := Extend(last, RunStopHooks, s, r, m);
    }
    if s.drain.Draining? {
      last := Extend(last, EndDrain, s.(drain := Drained).Fire(DrainDone), r, m);
    }
  }

  lemma OpenHook(r: Trace, h: Hook, m: Mode) returns (last: Trace)
    requires Run(r) && h !in r.Now().returned && Gate(h) in r.Now().fired && !Unlaunched(r.Now(), h)
    ensures Run(last) && Continues(last, r, m) && last.Now().IsRunning(h)
    ensures last.Now() == r.Now().(launched := last.Now().launched, begun := last.Now().begun)
    ensures r.Now().launched <= last.Now().launched
  {
    last := r;
    var s := r.Now();
    if h !in s.launched {
      s := s.(launched := s.launched + {h});
      last := Extend(last, Launch(h), s, r, m);
    }
    if h !in s.begun {
      last := Extend(last, Open(h), s.(begun := s.begun + {h}), r, m);
    }
  }

  /** What finishing one component leaves as it was. */
  predicate OnlyReturned(s: State, h: Hook, t: State) {
    && t.returned == s.returned + {h} && s.launched <= t.launched
    && t.fired == s.fired && t.drain == s.drain && t.serverDone == s.serverDone
  }

  lemma CancelHook(r: Trace, h: Hook, from: Trace, m: Mode) returns (last: Trace)
    requires Run(r) && Continues(r, from, m) && IsComponent(h) && h in r.Now().begun
    requires m.orderly ==> DrainDone in r.Now().fired
    ensures Run(last) && Continues(last, from, m)
    ensures last.Now() == r.Now().(cancelled := last.Now().cancelled) && (m.orderly ==> h in last.Now().cancelled)
  {
    last := r;
    if m.orderly {
      last := Extend(r, CancelComponent(h), r.Now().(cancelled := r.Now().cancelled + {h}), from, m);
    }
  }

  /** Once the kubeconfig is published a component can be launched, opened, cancelled and returned. */
  lemma FinishComponent(r: Trace, h: Hook, m: Mode) returns (last: Trace)
    requires Run(r) && Finishable(r.Now(), h, m)
    ensures Run(last) && Continues(last, r, m) && OnlyReturned(r.Now(), h, last.Now())
  {
    last := r;
    if h !in r.Now().returned {
      last := OpenHook(r, h, m);
      last := CancelHook(last, h, r, m);
      RunInv(last);
      RunReturned(last.Now(), h);
      last := Extend(last, Return(h, true), AfterReturn(last.Now(), h, true), r, m);
    }
  }

  /** The hook is a component that can be brought to return. */
  predicate Finishable(s: State, h: Hook, m: Mode) {
    && IsComponent(h) && KubeconfigReady in s.fired && !Unlaunched(s, h)
    && (m.orderly && h !in s.returned ==> DrainDone in s.fired)
  }

  lemma StaysFinishable(s: State, h: Hook, t: State, k: Hook, m: Mode)
    requires OnlyReturned(s, h, t) && Finishable(s, k, m)
    ensures Finishable(t, k, m)
  {
  }

  lemma NoneLeft(s: State)
    requires HookInv(s) && {ControllerManager, Scheduler, Kubelet} <= s.returned
    ensures s.runWg == 0
  {
    assert RunLeft(s.returned) == {};
  }

  lemma FinishComponents(r: Trace, m: Mode) returns (last: Trace)
    requires Run(r) && forall h :: IsComponent(h) ==> Finishable(r.Now(), h, m)
    ensures Run(last) && Continues(last, r, m) && last.Now().runWg == 0
    ensures last.Now().fired == r.Now().fired && last.Now().drain == r.Now().drain
  {
    var r1 := FinishComponent(r, ControllerManager, m);
    StaysFinishable(r.Now(), ControllerManager, r1.Now(), Scheduler, m);
    StaysFinishable(r.Now(), ControllerManager, r1.Now(), Kubelet, m);
    var r2 := FinishComponent(r1, Scheduler, m);
    StaysFinishable(r1.Now(), Scheduler, r2.Now(), Kubelet, m);
    last := FinishComponent(r2, Kubelet, m);
    ContinuesOn(r2, r1, r, m);
    ContinuesOn(last, r2, r, m);
    RunInv(last);
    NoneLeft(last.Now());
  }

  /** With all hooks returned and no drain under way the server returns and storage is cancelled. */
  lemma CancelLast(r: Trace, from: Trace, m: Mode) returns (last: Trace)
    requires Run(r) && Continues(r, from, m)
    requires r.Now().startWg == 0 == r.Now().runWg && !r.Now().drain.Draining?
    ensures Run(last) && Continues(last, from, m) && last.Now().storageDone
  {
    var s := r.Now().(serverDone := true);
    last := Extend(r, ServerReturns, s, from, m);
    last := Extend(last, CancelStorage, s.(storageDone := true), from, m);
  }

  /** What the end of the startup says about the rest. */
  lemma StartupFinished(s: State)
    requires Inv(s) && StartHooksDone in s.fired && !StartDoomed(s)
    ensures KubeconfigReady in s.fired && !s.drain.Unregistered?
  {
    StartReturned(s, UpdateKubeconfig);
    StartReturned(s, UpdateRBAC);
  }

  /** The startup and then the drain, if it is not lost. */
  lemma StartAndDrain(r: Trace, m: Mode) returns (last: Trace)
    requires Run(r) && !Doomed(r.Now())
    requires !Obstructed(r.Now(), m)
    ensures Run(last) && Continues(last, r, m)
    ensures StartHooksDone in last.Now().fired && !last.Now().drain.Draining?
    ensures forall h :: IsComponent(h) ==> Finishable(last.Now(), h, m)
  {
    var started := FinishStartup(r, m);
    RunInv(started);
    StartupFinished(started.Now());
    last := SettleDrain(started, m);
    ContinuesOn(last, started, r, m);
    forall h | IsComponent(h) ensures Finishable(last.Now(), h, m) {
      assert !Unlaunched(started.Now(), h);
    }
  }

  /** Every run that is not doomed can go on until storage is cancelled, in order if the drain is not lost. */
  lemma FinishShutdown(r: Trace, m: Mode) returns (last: Trace)
    requires Run(r) && !Doomed(r.Now())
    requires !Obstructed(r.Now(), m)
    ensures Run(last) && Continues(last, r, m) && last.Now().storageDone
  {
    var drained := StartAndDrain(r, m);
    var ended := FinishComponents(drained, m);
    ContinuesOn(ended, drained, r, m);
    RunInv(ended);
    last := CancelLast(ended, r, m);
  }

  ghost predicate CanCancelStorage(r: Trace, m: Mode) {
    exists last :: Run(last) && Continues(last, r, m) && last.Now().storageDone
  }

  ghost predicate CanFinishStart(r: Trace, m: Mode) {
    exists last :: Run(last) && Continues(last, r, m) && StartHooksDone in last.Now().fired
  }

  lemma UnreadyWaits(s: State)
    requires Inv(s) && Unready(s)
    ensures !s.storageDone && StartHooksDone !in s.fired
  {
    StartReturned(s, UntaintNode);
  }

  lemma UnreturnedWaits(s: State)
    requires Inv(s) && !ComponentsReturned(s)
    ensures !s.storageDone
  {
    var h :| IsComponent(h) && h !in s.returned;
    RunReturned(s, h);
  }

  /** In the given mode an unready node is never reported ready, and one not drained never cancelled. */
  lemma ObstructedWaits(last: Trace, r: Trace, m: Mode)
    requires Run(last) && Run(r) && Continues(last, r, m) && (Doomed(r.Now()) || Obstructed(r.Now(), m))
    ensures !last.Now().storageDone
  {
    RunInv(last);
    if Doomed(r.Now()) {
      DoomedForever(last, r, m);
      DoomedWaits(last.Now());
    } else if m.served && Unready(r.Now()) {
      UnreadyForever(last, r, m);
      UnreadyWaits(last.Now());
    } else {
      DrainLostForever(last, r, m);
      UnreturnedWaits(last.Now());
    }
  }

  /**
   * From any state of any run storage can still be cancelled exactly when update-kubeconfig has
   * not returned without publishing, the kubelet not without having provided its server, and the
   * API server not without having launched every hook. If what needs its answers has to happen
   * before the server returns, it must besides not have returned before the node was ready. If
   * components return only when cancelled, either all have returned or the node can still be
   * drained, which it cannot once the server has run its stop hooks, or has returned, without
   * the drain being among them.
   */
  lemma ShutdownPossible(r: Trace, m: Mode)
    requires Run(r)
    ensures CanCancelStorage(r, m) <==> !Doomed(r.Now()) && !Obstructed(r.Now(), m)
  {
    if Doomed(r.Now()) || Obstructed(r.Now(), m) {
      forall last | Run(last) && Continues(last, r, m) ensures !last.Now().storageDone {
        ObstructedWaits(last, r, m);
      }
    } else {
      var last := FinishShutdown(r, m);
    }
  }

  lemma StartObstructedWaits(last: Trace, r: Trace, m: Mode)
    requires Run(last) && Run(r) && Continues(last, r, m) && (StartDoomed(r.Now()) || (m.served && Unready(r.Now())))
    ensures StartHooksDone !in last.Now().fired
  {
    RunInv(last);
    if StartDoomed(r.Now()) {
      DoomedForever(last, r, m);
      StartDoomedWaits(last.Now());
    } else {
      UnreadyForever(last, r, m);
      UnreadyWaits(last.Now());
    }
  }

  /** startHooksDone can still be closed in the same cases, but for the drain and the other two components. */
  lemma StartupPossible(r: Trace, m: Mode)
    requires Run(r)
    ensures CanFinishStart(r, m) <==> !StartDoomed(r.Now()) && !(m.served && Unready(r.Now()))
  {
    if StartDoomed(r.Now()) || (m.served && Unready(r.Now())) {
      forall last | Run(last) && Continues(last, r, m) ensures StartHooksDone !in last.Now().fired {
        StartObstructedWaits(last, r, m);
      }
    } else {
      var last := FinishStartup(r, m);
    }
  }

  // ---- each of these happens -----------------------------------------------

  const ANY := Mode(false, false)

  /** update-kubeconfig runs. */
  const OPENED := Initial(0).(launched := {UpdateKubeconfig}, begun := {UpdateKubeconfig}, fired := {HostnameReady})

  lemma KubeconfigOpened() returns (r: Trace)
    ensures Run(r) && r.Now() == OPENED
  {
    var from := Begin(0);
    var s1 := Initial(0).(launched := {UpdateKubeconfig});
    var s2 := s1.Fire(HostnameReady);
    r := Extend(from, Launch(UpdateKubeconfig), s1, from, ANY);
    r := Extend(r, Hostname, s2, from, ANY);
    r := Extend(r, Open(UpdateKubeconfig), s2.(begun := {UpdateKubeconfig}), from, ANY);
  }

  /** It happens that update-kubeconfig gives up. */
  lemma GaveUpRun()
    ensures exists r :: Run(r) && GaveUp(r.Now()) && !KubeletLost(r.Now()) && !r.Now().serverDone
  {
    var r := KubeconfigOpened();
    var gave := Extend(r, Return(UpdateKubeconfig, false), AfterReturn(OPENED, UpdateKubeconfig, false), r, ANY);
  }

  lemma KubeconfigPublished() returns (r: Trace)
    ensures Run(r) && !r.Now().serverDone
    ensures r.Now().fired == {HostnameReady, KubeconfigReady} && r.Now().returned == {}
  {
    var from := KubeconfigOpened();
    var s := OPENED.(flags := true);
    r := Extend(from, SetFlags, s, from, ANY);
    r := Extend(r, Publish, s.Fire(KubeconfigReady), from, ANY);
  }

  /** It happens that the kubelet is lost, with the kubeconfig published. */
  lemma KubeletLostRun()
    ensures exists r :: Run(r) && KubeletLost(r.Now()) && !GaveUp(r.Now()) && !r.Now().serverDone
  {
    var r := KubeconfigPublished();
    r := OpenHook(r, Kubelet, ANY);
    RunInv(r);
    RunReturned(r.Now(), Kubelet);
    var lost := Extend(r, Return(Kubelet, false), AfterReturn(r.Now(), Kubelet, false), r, ANY);
    assert KubeletLost(lost.Now());
  }

  /** It happens that the API server returns before it has launched a hook. */
  lemma UnlaunchedRun()
    ensures exists r :: Run(r) && !GaveUp(r.Now()) && !KubeletLost(r.Now()) && forall h :: Unlaunched(r.Now(), h)
  {
    var from := Begin(0);
    var r := Extend(from, ServerReturns, Initial(0).(serverDone := true), from, ANY);
  }

  lemma LaunchOne(r: Trace, h: Hook) returns (next: Trace)
    requires Run(r) && !r.Now().serverDone
    ensures Run(next) && next.Now() == r.Now().(launched := r.Now().launched + {h})
  {
    var s := r.Now();
    next := r;
    if h in s.launched {
      assert s.launched + {h} == s.launched;
    } else {
      next := Then(r, Launch(h), s.(launched := s.launched + {h}));
    }
  }

  lemma {:induction false} LaunchAll(r: Trace, todo: set<Hook>) returns (last: Trace)
    requires Run(r) && !r.Now().serverDone
    ensures Run(last) && todo <= last.Now().launched && r.Now().launched <= last.Now().launched
    ensures last.Now() == r.Now().(launched := last.Now().launched)
    decreases todo
  {
    last := r;
    if todo != {} {
      var h :| h in todo;
      var next := LaunchOne(r, h);
      last := LaunchAll(next, todo - {h});
    }
  }

  /** It happens that the API server returns before the node is ready, with every hook launched. */
  lemma UnreadyRun()
    ensures exists r :: Run(r) && Unready(r.Now()) && !Doomed(r.Now())
  {
    var all := StartLeft({}) + RunLeft({});
    var from := LaunchAll(Begin(0), all);
    var t := from.Now().(serverDone := true);
    forall h ensures !Unlaunched(t, h) { assert h in all; }
    var r := Extend(from, ServerReturns, t, from, ANY);
    assert !Doomed(r.Now()) && Unready(r.Now());
  }

  /** The stop hooks were run before the drain was among them. */
  const MISSED := Initial(0).(ctxDone := true, drain := Missed)

  lemma MissedOnly()
    ensures DrainLost(MISSED) && !Doomed(MISSED) && !ComponentsReturned(MISSED)
  {
    assert Scheduler !in MISSED.returned && IsComponent(Scheduler);
  }

  /** It happens that the drain is missed, with nothing else amiss. */
  lemma DrainMissedRun()
    ensures exists r :: Run(r) && DrainLost(r.Now()) && !Doomed(r.Now()) && !ComponentsReturned(r.Now())
  {
    var from := Begin(0);
    var r := Extend(from, Shutdown, Initial(0).(ctxDone := true), from, ANY);
    r := Extend(r, RunStopHooks, MISSED, from, ANY);
    MissedOnly();
  }
}
