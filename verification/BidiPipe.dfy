/**
 * The in-memory bidirectional stream: two bounded queues, a half-close by the client, a handler
 * that returns once, and a context that may be cancelled at any time. A select is a choice
 * between the steps that are ready.
 */
module BidiPipe {
  import opened Wrappers

  /** Messages pass through by reference, so only their identity matters. */
  type Req = nat
  type Resp = nat
  type Error = string

  const CAPACITY := 16

  /** The goroutine around the handler: it stores the result, closes the responses, then done. */
  datatype Handler = Serving | Returned(result: Option<Error>) | Stored | Closed | Done

  /** How a client Recv ended when there was nothing more to receive. */
  datatype End = EOF | Failed(error: Error)

  datatype State = State(
    reqs: seq<Req>, reqsClosed: bool, resps: seq<Resp>, respsClosed: bool,
    cancelled: bool, handler: Handler, err: Option<Error>,
    panicked: bool,
    // histories
    reqsSent: seq<Req>, reqsGot: seq<Req>, respsSent: seq<Resp>, respsGot: seq<Resp>,
    result: Option<Option<Error>>, ends: seq<End>, serverSawEOF: bool)

  datatype Event =
    | ClientSend(req: Req) | ClientRecv | ClientRecvEnd | CloseSend
    | ServerSend(resp: Resp) | ServerRecv | ServerRecvEnd
    | GiveUp                        // any blocked operation returns the context's error
    | HandlerReturns(err: Option<Error>) | StoreErr | CloseResps | CloseDone
    | Cancel

  function Initial(): State {
    State([], false, [], false, false, Serving, None, false, [], [], [], [], None, [], false)
  }

  ghost predicate Step(s: State, e: Event, t: State) {
    !s.panicked &&
    match e
    case ClientSend(x) =>
      if s.reqsClosed then t == s.(panicked := true)
      else |s.reqs| < CAPACITY && t == s.(reqs := s.reqs + [x], reqsSent := s.reqsSent + [x])
    case ClientRecv => s.resps != [] && t == s.(resps := s.resps[1..], respsGot := s.respsGot + [s.resps[0]])
    case ClientRecvEnd =>
      && s.resps == [] && s.respsClosed
      && t == s.(ends := s.ends + [if s.err.None? then EOF else Failed(s.err.value)])
    case CloseSend => t == s.(reqsClosed := true)
    case ServerSend(x) =>
      if s.respsClosed then t == s.(panicked := true)
      else |s.resps| < CAPACITY && t == s.(resps := s.resps + [x], respsSent := s.respsSent + [x])
    case ServerRecv => s.reqs != [] && t == s.(reqs := s.reqs[1..], reqsGot := s.reqsGot + [s.reqs[0]])
    case ServerRecvEnd => s.reqs == [] && s.reqsClosed && t == s.(serverSawEOF := true)
    case GiveUp => s.cancelled && t == s
    case HandlerReturns(err) => s.handler.Serving? && t == s.(handler := Returned(err), result := Some(err))
    case StoreErr => s.handler.Returned? && t == s.(handler := Stored, err := s.handler.result)
    case CloseResps => s.handler.Stored? && t == s.(handler := Closed, respsClosed := true)
    case CloseDone => s.handler.Closed? && t == s.(handler := Done)
    case Cancel => t == s.(cancelled := true)
  }

  datatype Trace = Start | Then(prev: Trace, event: Event, next: State)
  {
    function Now(): State { if Start? then Initial() else next }
  }

  ghost predicate Run(r: Trace) {
    r.Then? ==> Run(r.prev) && Step(r.prev.Now(), r.event, r.next)
  }

  /** Whatever was sent was received or is queued, in order, and no queue is over capacity. */
  ghost predicate QueueInv(s: State) {
    && s.reqsSent == s.reqsGot + s.reqs && |s.reqs| <= CAPACITY
    && s.respsSent == s.respsGot + s.resps && |s.resps| <= CAPACITY
  }

  function EndOf(result: Option<Error>): End { if result.None? then EOF else Failed(result.value) }

  /** The responses are closed only after the handler's result is in place. */
  ghost predicate EndInv(s: State) {
    && (s.handler.Serving? <==> s.result.None?)
    && (s.handler.Returned? ==> s.result == Some(s.handler.result))
    && (s.respsClosed <==> s.handler.Closed? || s.handler.Done?)
    && (s.handler.Stored? || s.respsClosed ==> s.result == Some(s.err))
    && (s.ends != [] ==> s.respsClosed && s.resps == [])
    && (forall k :: 0 <= k < |s.ends| ==> s.result.Some? && s.ends[k] == EndOf(s.result.value))
    && (s.serverSawEOF ==> s.reqsClosed && s.reqs == [])
  }

  lemma QueueStep(s: State, e: Event, t: State)
    requires QueueInv(s) && Step(s, e, t)
    ensures QueueInv(t)
  {
    match e
    case ClientSend(x) => assert s.reqsGot + s.reqs + [x] == s.reqsGot + (s.reqs + [x]);
    case ServerSend(x) => assert s.respsGot + s.resps + [x] == s.respsGot + (s.resps + [x]);
    case ClientRecv => assert s.respsGot + s.resps == s.respsGot + [s.resps[0]] + s.resps[1..];
    case ServerRecv => assert s.reqsGot + s.reqs == s.reqsGot + [s.reqs[0]] + s.reqs[1..];
    case _ =>
  }

  lemma EndStep(s: State, e: Event, t: State)
    requires EndInv(s) && Step(s, e, t)
    ensures EndInv(t)
  {
  }

  lemma {:induction false} RunInv(r: Trace)
    requires Run(r)
    ensures QueueInv(r.Now()) && EndInv(r.Now())
  {
    if r.Then? {
      RunInv(r.prev);
      QueueStep(r.prev.Now(), r.event, r.next);
      EndStep(r.prev.Now(), r.event, r.next);
    }
  }

  /** What the client has sent, and the handler has, as the history tells it. */
  function ClientSent(r: Trace): seq<Req> {
    if r.Start? then []
    else if r.event.ClientSend? && !r.next.panicked then ClientSent(r.prev) + [r.event.req] else ClientSent(r.prev)
  }

  function ServerSent(r: Trace): seq<Resp> {
    if r.Start? then []
    else if r.event.ServerSend? && !r.next.panicked then ServerSent(r.prev) + [r.event.resp] else ServerSent(r.prev)
  }

  /** How often something has happened. */
  function Times(r: Trace, p: Event -> bool): nat {
    if r.Start? then 0 else Times(r.prev, p) + (if p(r.event) then 1 else 0)
  }

  function ServerRecvs(): Event -> bool { (e: Event) => e.ServerRecv? }

  function ClientRecvs(): Event -> bool { (e: Event) => e.ClientRecv? }

  function ClientEnds(): Event -> bool { (e: Event) => e.ClientRecvEnd? }

  /** How the handler returned, if it has. */
  function Outcome(r: Trace): Option<Option<Error>> {
    if r.Start? then None else if r.event.HandlerReturns? then Some(r.event.err) else Outcome(r.prev)
  }

  /** The recorded histories are those of the run: every send adds its message, every receive takes one. */
  lemma SendsRecorded(s: State, e: Event, t: State)
    requires Step(s, e, t)
    ensures t.reqsSent == if e.ClientSend? && !t.panicked then s.reqsSent + [e.req] else s.reqsSent
    ensures t.respsSent == if e.ServerSend? && !t.panicked then s.respsSent + [e.resp] else s.respsSent
  {
  }

  lemma RecvsRecorded(s: State, e: Event, t: State)
    requires Step(s, e, t)
    ensures |t.reqsGot| == |s.reqsGot| + (if e.ServerRecv? then 1 else 0)
    ensures |t.respsGot| == |s.respsGot| + (if e.ClientRecv? then 1 else 0)
    ensures |t.ends| == |s.ends| + (if e.ClientRecvEnd? then 1 else 0)
    ensures t.result == if e.HandlerReturns? then Some(e.err) else s.result
  {
  }

  lemma {:induction false} SendHistory(r: Trace)
    requires Run(r)
    ensures r.Now().reqsSent == ClientSent(r) && r.Now().respsSent == ServerSent(r)
  {
    if r.Then? {
      SendHistory(r.prev);
      SendsRecorded(r.prev.Now(), r.event, r.next);
    }
  }

  lemma {:induction false} RecvHistory(r: Trace)
    requires Run(r)
    ensures |r.Now().reqsGot| == Times(r, ServerRecvs()) && |r.Now().respsGot| == Times(r, ClientRecvs())
    ensures |r.Now().ends| == Times(r, ClientEnds()) && r.Now().result == Outcome(r)
  {
    if r.Then? {
      RecvHistory(r.prev);
      RecvsRecorded(r.prev.Now(), r.event, r.next);
    }
  }

  /**
   * What each side has received, one message per receive, is a prefix of what the other has
   * sent, and at most 16 messages behind.
   */
  lemma Delivery(r: Trace)
    requires Run(r)
    ensures var got, sent := r.Now().reqsGot, ClientSent(r);
      got <= sent && |got| == Times(r, ServerRecvs()) && |sent| - |got| <= 16
    ensures var got, sent := r.Now().respsGot, ServerSent(r);
      got <= sent && |got| == Times(r, ClientRecvs()) && |sent| - |got| <= 16
  {
    RunInv(r);
    SendHistory(r);
    RecvHistory(r);
  }

  /**
   * The client sees the end only after the handler has returned and everything it sent has been
   * received, however often it asks, and what it sees is exactly the handler's result. The
   * server sees end-of-file only after the half-close and after every request.
   */
  lemma Endings(r: Trace)
    requires Run(r)
    ensures |r.Now().ends| == Times(r, ClientEnds())
    ensures r.Now().ends != [] ==> Outcome(r).Some? && r.Now().respsGot == ServerSent(r)
    ensures forall k :: 0 <= k < |r.Now().ends| ==>
      r.Now().ends[k] == match Outcome(r).value case None => EOF case Some(e) => Failed(e)
    ensures Happened(r, ServerRecvEnd) ==> Happened(r, CloseSend) && r.Now().reqsGot == ClientSent(r)
  {
    RunInv(r);
    SendHistory(r);
    RecvHistory(r);
    ClosedIffHappened(r);
    var s := r.Now();
    assert s.ends != [] ==> s.respsGot + [] == s.respsGot;
    assert s.serverSawEOF ==> s.reqsGot + [] == s.reqsGot;
  }

  /** Nothing arrives after the end: once the client has seen it, every later state says the same. */
  lemma EndIsFinal(r: Trace)
    requires Run(r) && r.Then? && r.prev.Now().ends != []
    ensures r.next.ends != [] && r.next.respsGot == r.prev.Now().respsGot && r.next.result == r.prev.Now().result
  {
    RunInv(r.prev);
    EndStays(r.prev.Now(), r.event, r.next);
  }

  lemma EndStays(s: State, e: Event, t: State)
    requires EndInv(s) && Step(s, e, t) && s.ends != []
    ensures t.ends != [] && t.respsGot == s.respsGot && t.result == s.result
  {
  }

  // ---- blocking ------------------------------------------------------------

  /** The four operations that can block, each with the steps its select offers. */
  datatype Op = OpClientSend(req: Req) | OpClientRecv | OpServerSend(resp: Resp) | OpServerRecv

  predicate Offers(op: Op, e: Event) {
    e.GiveUp? ||
    match op
    case OpClientSend(x) => e == ClientSend(x)
    case OpClientRecv => e.ClientRecv? || e.ClientRecvEnd?
    case OpServerSend(x) => e == ServerSend(x)
    case OpServerRecv => e.ServerRecv? || e.ServerRecvEnd?
  }

  ghost predicate CanFinish(s: State, op: Op) {
    exists e, t :: Offers(op, e) && Step(s, e, t)
  }

  /** When an operation is stuck: never after cancellation, and otherwise only on a full or empty queue. */
  predicate Stuck(s: State, op: Op) {
    !s.cancelled &&
    match op
    case OpClientSend(_) => !s.reqsClosed && |s.reqs| == 16
    case OpClientRecv => s.resps == [] && !s.respsClosed
    case OpServerSend(_) => !s.respsClosed && |s.resps| == 16
    case OpServerRecv => s.reqs == [] && !s.reqsClosed
  }

  lemma Ready(s: State, op: Op) returns (e: Event, t: State)
    requires QueueInv(s) && !s.panicked && !Stuck(s, op)
    ensures Offers(op, e) && Step(s, e, t)
  {
    if s.cancelled {
      e, t := GiveUp, s;
    } else {
      match op
      case OpClientSend(x) =>
        e := ClientSend(x);
        t := if s.reqsClosed then s.(panicked := true) else s.(reqs := s.reqs + [x], reqsSent := s.reqsSent + [x]);
      case OpClientRecv =>
        if s.resps != [] {
          e, t := ClientRecv, s.(resps := s.resps[1..], respsGot := s.respsGot + [s.resps[0]]);
        } else {
          e, t := ClientRecvEnd, s.(ends := s.ends + [EndOf(s.err)]);
        }
      case OpServerSend(x) =>
        e := ServerSend(x);
        t := if s.respsClosed then s.(panicked := true) else s.(resps := s.resps + [x], respsSent := s.respsSent + [x]);
      case OpServerRecv =>
        if s.reqs != [] {
          e, t := ServerRecv, s.(reqs := s.reqs[1..], reqsGot := s.reqsGot + [s.reqs[0]]);
        } else {
          e, t := ServerRecvEnd, s.(serverSawEOF := true);
        }
    }
  }

  lemma StuckBlocks(s: State, op: Op, e: Event, t: State)
    requires Stuck(s, op) && Offers(op, e)
    ensures !Step(s, e, t)
  {
  }

  lemma BlocksIff(s: State, op: Op)
    requires QueueInv(s) && !s.panicked
    ensures CanFinish(s, op) <==> !Stuck(s, op)
  {
    if Stuck(s, op) {
      forall e, t | Offers(op, e) ensures !Step(s, e, t) { StuckBlocks(s, op, e, t); }
    } else {
      var e, t := Ready(s, op);
    }
  }

  /** In every run an operation blocks exactly when it is stuck, so after cancellation none does. */
  lemma BlocksExactlyWhenStuck(r: Trace, op: Op)
    requires Run(r) && !r.Now().panicked
    ensures CanFinish(r.Now(), op) <==> !Stuck(r.Now(), op)
    ensures Happened(r, Cancel) ==> CanFinish(r.Now(), op)
  {
    RunInv(r);
    BlocksIff(r.Now(), op);
    CancelledIffHappened(r);
  }

  lemma CancelStep(s: State, e: Event, t: State)
    requires Step(s, e, t)
    ensures t.cancelled <==> s.cancelled || e.Cancel?
  {
  }

  lemma {:induction false} CancelledIffHappened(r: Trace)
    requires Run(r)
    ensures r.Now().cancelled <==> Happened(r, Cancel)
  {
    if r.Then? {
      CancelledIffHappened(r.prev);
      CancelStep(r.prev.Now(), r.event, r.next);
    }
  }

  // ---- the end arrives -----------------------------------------------------

  ghost predicate Continues(r: Trace, from: Trace) { r == from || (r.Then? && Continues(r.prev, from)) }

  lemma {:induction false} ContinuesOn(r: Trace, mid: Trace, from: Trace)
    requires Continues(r, mid) && Continues(mid, from)
    ensures Continues(r, from)
  {
    if r != mid { ContinuesOn(r.prev, mid, from); }
  }

  lemma Extend(r: Trace, e: Event, t: State, from: Trace) returns (next: Trace)
    requires Run(r) && Continues(r, from) && Step(r.Now(), e, t)
    ensures Run(next) && Continues(next, from) && next.Now() == t
  {
    next := Then(r, e, t);
  }

  /** The goroutine around a handler that has returned closes the responses and then done. */
  lemma CloseAfterReturn(r: Trace) returns (last: Trace)
    requires Run(r) && !r.Now().panicked && !r.Now().handler.Serving?
    ensures Run(last) && Continues(last, r) && !last.Now().panicked && last.Now().respsClosed
    ensures last.Now().resps == r.Now().resps && last.Now().handler.Done?
  {
    RunInv(r);
    var s := r.Now();
    last := r;
    if s.handler.Returned? {
      s := s.(handler := Stored, err := s.handler.result);
      last := Extend(last, StoreErr, s, r);
    }
    if s.handler.Stored? {
      s := s.(handler := Closed, respsClosed := true);
      last := Extend(last, CloseResps, s, r);
    }
    if s.handler.Closed? {
      last := Extend(last, CloseDone, s.(handler := Done), r);
    }
  }

  lemma {:induction false} ReceiveAll(r: Trace) returns (last: Trace)
    requires Run(r) && !r.Now().panicked && r.Now().respsClosed
    ensures Run(last) && Continues(last, r) && !last.Now().panicked && last.Now().respsClosed && last.Now().resps == []
    decreases |r.Now().resps|
  {
    last := r;
    var s := r.Now();
    if s.resps != [] {
      var next := Extend(r, ClientRecv, s.(resps := s.resps[1..], respsGot := s.respsGot + [s.resps[0]]), r);
      last := ReceiveAll(next);
      ContinuesOn(last, next, r);
    }
  }

  /** Once the handler has returned the client can go on receiving until it sees the end. */
  lemma EndReachable(r: Trace) returns (last: Trace)
    requires Run(r) && !r.Now().panicked && Outcome(r).Some?
    ensures Run(last) && Continues(last, r) && last.Now().ends != []
  {
    RunInv(r);
    RecvHistory(r);
    var closed := CloseAfterReturn(r);
    var drained := ReceiveAll(closed);
    ContinuesOn(drained, closed, r);
    var s := drained.Now();
    last := Extend(drained, ClientRecvEnd, s.(ends := s.ends + [EndOf(s.err)]), r);
  }

  // ---- panics --------------------------------------------------------------

  /** The event is part of the history. */
  predicate Happened(r: Trace, e: Event) { r.Then? && (r.event == e || Happened(r.prev, e)) }

  lemma ClosingStep(s: State, e: Event, t: State)
    requires Step(s, e, t)
    ensures t.reqsClosed <==> s.reqsClosed || e.CloseSend?
    ensures t.respsClosed <==> s.respsClosed || e.CloseResps?
    ensures t.serverSawEOF <==> s.serverSawEOF || e.ServerRecvEnd?
    ensures t.panicked <==> (e.ClientSend? && s.reqsClosed) || (e.ServerSend? && s.respsClosed)
  {
  }

  lemma {:induction false} ClosedIffHappened(r: Trace)
    requires Run(r)
    ensures r.Now().reqsClosed <==> Happened(r, CloseSend)
    ensures r.Now().respsClosed <==> Happened(r, CloseResps)
    ensures r.Now().serverSawEOF <==> Happened(r, ServerRecvEnd)
  {
    if r.Then? {
      ClosedIffHappened(r.prev);
      ClosingStep(r.prev.Now(), r.event, r.next);
    }
  }

  /** A client send after the half-close, or a handler's send after its goroutine closed the responses. */
  predicate SendsOnClosed(r: Trace) {
    && r.Then?
    && ((r.event.ClientSend? && Happened(r.prev, CloseSend)) || (r.event.ServerSend? && Happened(r.prev, CloseResps)))
  }

  /**
   * These two sends are exactly what makes a run panic. A send by a handler that has returned
   * does no harm before the responses are closed.
   */
  lemma PanicsExactly(r: Trace)
    requires Run(r)
    ensures r.Now().panicked <==> SendsOnClosed(r)
  {
    if r.Then? {
      ClosedIffHappened(r.prev);
      ClosingStep(r.prev.Now(), r.event, r.next);
    }
  }

  /** The client does not send after its half-close, nor the handler after it has returned. */
  ghost predicate Disciplined(r: Trace) {
    r.Then? ==>
      && Disciplined(r.prev)
      && (r.event.ClientSend? ==> !Happened(r.prev, CloseSend))
      && (r.event.ServerSend? ==> r.prev.Now().handler.Serving?)
  }

  /** Callers that keep the rules never panic. */
  lemma DisciplinedNeverPanics(r: Trace)
    requires Run(r) && Disciplined(r)
    ensures !r.Now().panicked
  {
    PanicsExactly(r);
    if r.Then? {
      RunInv(r.prev);
      ClosedIffHappened(r.prev);
    }
  }
}
