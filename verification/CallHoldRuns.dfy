/** Local hold over whole runs: the signals, and what entering HELD or UNHELD guarantees. */
module CallHoldRuns {
  import opened CallTypes
  import opened CallFlow
  import opened CallHold
  import opened CallEngine
  import opened CallSafety
  import opened CallRuns

  // ---- the signalled hold states

  predicate Edge(from: HoldState, to: HoldState) {
    match from
    case Unheld => to == PendingHold
    case PendingHold => to == Held || to == PendingUnhold
    case Held => to == PendingUnhold
    case PendingUnhold => to == Unheld || to == PendingHold
  }

  /** The signals lead from `from` to `to` along edges. */
  predicate Path(from: HoldState, log: seq<HoldChanged>, to: HoldState)
    decreases |log|
  {
    if log == [] then from == to else Edge(from, log[0].state) && Path(log[0].state, log[1..], to)
  }

  lemma {:induction false} PathSnoc(from: HoldState, log: seq<HoldChanged>, to: HoldState, change: HoldChanged)
    requires Path(from, log, to) && Edge(to, change.state)
    ensures Path(from, log + [change], change.state)
    decreases |log|
  {
    if log == [] {
      assert [change][1..] == [];
    } else {
      PathSnoc(log[0].state, log[1..], to, change);
      assert (log + [change])[1..] == log[1..] + [change];
    }
  }

  /** The signals since the channel was made lead to the stored hold state. */
  predicate Traced(h: Holding) {
    Path(Unheld, h.log, h.state)
  }

  lemma {:induction false} SetHoldTraced(c: Call, hold: HoldState, reason: HoldReason)
    requires ScannableCall(c) && Traced(c.holding) && (c.holding.state == hold || Edge(c.holding.state, hold))
    ensures Traced(SetHold(c, hold, reason).holding)
    decreases IsPending(hold), 1
  {
    if c.holding.state != hold {
      PathSnoc(Unheld, c.holding.log, c.holding.state, HoldChanged(hold, reason));
      UpdateHoldTraced(c.(holding := Holding(hold, reason, c.holding.log + [HoldChanged(hold, reason)])));
    }
  }

  lemma {:induction false} UpdateHoldTraced(c: Call)
    requires ScannableCall(c) && Traced(c.holding)
    ensures Traced(UpdateHold(c).holding)
    decreases IsPending(c.holding.state), 0
  {
    if IsPending(c.holding.state) {
      var (m, next) := NextHold(c);
      if next != c.holding.state {
        SetHoldTraced(c.(media := m), next, c.holding.reason);
      }
    }
  }

  lemma HoldChangeFailedTraced(c: Call)
    requires ScannableCall(c) && Traced(c.holding)
    ensures Traced(HoldChangeFailed(c).holding)
  {
    if c.holding.state == PendingUnhold {
      SetHoldTraced(c, PendingHold, ResourceNotAvailable);
      var d := SetHold(c, PendingHold, ResourceNotAvailable);
      UpdateHoldTraced(d.(media := RefreshAll(EnvOf(d), d.media, Order(d.contents))));
    }
  }

  lemma ReactTraced(c: Call, p: StreamId, receiving: bool, success: bool)
    requires ScannableCall(c) && p in c.media.streams && Traced(c.holding)
    ensures Traced(React(c, p, receiving, success).holding)
  {
    var d := if receiving then NotifyReceiving(c, p) else c;
    if success {
      UpdateHoldTraced(d);
    } else {
      HoldChangeFailedTraced(d);
    }
  }

  lemma RequestHoldTraced(c: Call, hold: bool)
    requires ScannableCall(c) && Traced(c.holding)
    ensures Traced(CallHold.RequestHold(c, hold).holding)
  {
    if hold != IsHeld(c.holding.state) {
      SetHoldTraced(c, if hold then PendingHold else PendingUnhold, Requested);
    }
  }

  lemma FailSendingTraced(c: Call, p: StreamId)
    requires ScannableCall(c) && p in c.media.streams && Traced(c.holding)
    ensures Traced(DoFailSending(c, p).holding)
  {
    ReactTraced(PutCall(c, p, FailedSending(c.media.streams[p])), p, false, false);
  }

  lemma FailReceivingTraced(c: Call, p: StreamId)
    requires ScannableCall(c) && p in c.media.streams && Traced(c.holding)
    ensures Traced(DoFailReceiving(c, p).holding)
  {
    ReactTraced(PutCall(c, p, FailedReceiving(c.media.streams[p])), p, true, false);
  }

  lemma CompleteTraced(c: Call, p: StreamId, flow: FlowState)
    requires ScannableCall(c) && p in c.media.streams && Traced(c.holding)
    ensures Traced(DoCompleteSending(c, p, flow).holding) && Traced(DoCompleteReceiving(c, p, flow).holding)
  {
    ReactTraced(PutCall(c, p, c.media.streams[p].(sending := flow)), p, false, true);
    ReactTraced(PutCall(c, p, c.media.streams[p].(receiving := flow)), p, true, true);
  }

  lemma FlowOpTraced(c: Call, p: StreamId, op: StreamOp)
    requires ScannableCall(c) && p in c.media.streams && IsFlowOp(op) && Traced(c.holding)
    ensures Traced(FlowStep(c, p, op).holding)
  {
    match op
    case CompleteSending(flow) => CompleteTraced(c, p, flow);
    case FailSending => FailSendingTraced(c, p);
    case CompleteReceiving(flow) => CompleteTraced(c, p, flow);
    case FailReceiving => FailReceivingTraced(c, p);
    case UpdateLocal(_) =>
    case SetSending(_, _) =>
    case WishSending(_) =>
  }

  lemma StepTraced(c: Call, e: Event)
    requires WellFormed(c) && Traced(c.holding)
    ensures Traced(Step(c, e).holding)
  {
    match e
    case OnCall(op) =>
      if op.RequestHold? {
        RequestHoldTraced(c, op.hold);
      } else if IsStateOp(op) {
        StateOpSummary(c, op);
      } else {
        RosterOpSummary(c, op);
      }
    case OnTree(op) => assert TreeStep(c, op).holding == c.holding;
    case OnStream(p, op) =>
      if p in c.media.streams {
        if IsFlowOp(op) {
          FlowOpTraced(c, p, op);
        } else if IsRemoteOp(op) {
          RemoteOpEffect(c, p, op);
        } else {
          EndpointOpSummary(c, p, op);
        }
      }
  }

  lemma {:induction false} TracedFrom(c: Call, es: seq<Event>)
    requires WellFormed(c) && Traced(c.holding)
    ensures Traced(Run(c, es).holding)
    decreases |es|
  {
    if es != [] {
      StepTraced(c, es[0]);
      StepWellFormed(c, es[0]);
      TracedFrom(Step(c, es[0]), es[1..]);
    }
  }

  /** In every run, whatever the subclass does, the HoldStateChanged signals form a path from UNHELD
      in the hold graph that ends in the stored state. */
  lemma HoldSignalsTrace(requested: bool, es: seq<Event>)
    ensures Traced(Run(Initial(requested), es).holding)
  {
    TracedFrom(Initial(requested), es);
  }

  // ---- entering HELD and UNHELD

  /** What a change of the hold state guarantees about the streams at that moment. */
  predicate Entered(c: Call, r: Call) {
    && (c.holding.state != Held && r.holding.state == Held ==> !r.acceptance.accepted || AllStopped(r.media))
    && (c.holding.state != Unheld && r.holding.state == Unheld ==> !r.acceptance.accepted || AllStarted(r.media))
  }

  lemma FitHoldReady(c: Call)
    requires WellFormed(c) && Fit(c)
    ensures HoldReady(c)
  {
    forall p | p in c.media.streams
      ensures StreamSound(c.media.streams[p])
    {
    }
  }

  lemma UpdateHoldEntered(c: Call)
    requires HoldReady(c)
    ensures Entered(c, UpdateHold(c))
  {
    HoldSettles(c);
  }

  lemma RequestHoldEntered(c: Call, hold: bool)
    requires HoldReady(c)
    ensures Entered(c, CallHold.RequestHold(c, hold))
  {
    if hold != IsHeld(c.holding.state) {
      var state := if hold then PendingHold else PendingUnhold;
      var d := c.(holding := Holding(state, Requested, c.holding.log + [HoldChanged(state, Requested)]));
      assert HoldReady(d);
      HoldSettles(d);
    }
  }

  /** A held call keeps stopped streams stopped. */
  lemma StoppedStays(env: Env, m: Media, r: Media)
    requires env.held && Progress(env, m, r) && AllStopped(m)
    ensures AllStopped(r)
  {
    forall p | p in r.streams
      ensures StreamStopped(r.streams[p])
    {
      assert StreamStopped(m.streams[p]) && StreamStep(env, m.streams[p], r.streams[p]);
    }
  }

  lemma FlowedHoldReady(c: Call, r: Call)
    requires HoldReady(c) && HoldFrame(c, r)
    ensures HoldReady(r)
  {
    forall p | p in r.media.streams
      ensures r.media.streams[p].line == c.media.streams[p].line
      ensures r.media.streams[p].waiting ==> c.media.streams[p].waiting
      ensures r.media.streams[p].line.receivingFailure ==> r.media.streams[p].receiving == Stopped
      ensures r.media.streams[p].receiving == Started || r.media.streams[p].receiving == PendingStart ==>
                WantsReceive(r.media.streams[p].line)
    {
      assert StreamFlowed(Gate(c), c.media.streams[p], r.media.streams[p]);
    }
  }

  lemma HoldChangeFailedEntered(c: Call)
    requires HoldReady(c)
    ensures Entered(c, HoldChangeFailed(c))
  {
    if c.holding.state == PendingUnhold {
      var d := c.(holding := Holding(PendingHold, ResourceNotAvailable,
                                     c.holding.log + [HoldChanged(PendingHold, ResourceNotAvailable)]));
      assert HoldReady(d);
      HoldSettles(d);
      var e := UpdateHold(d);
      assert e == SetHold(c, PendingHold, ResourceNotAvailable);
      FlowedHoldReady(d, e);
      RefreshEntered(e);
    }
  }

  /** Refreshing all streams of a held call, then looking at its pending hold again. */
  lemma RefreshEntered(c: Call)
    requires HoldReady(c) && IsHeld(c.holding.state)
    requires c.holding.state == Held ==> !c.acceptance.accepted || AllStopped(c.media)
    ensures var r := UpdateHold(c.(media := RefreshAll(EnvOf(c), c.media, Order(c.contents))));
            && (r.holding.state == Held ==> !r.acceptance.accepted || AllStopped(r.media))
            && r.holding.state != Unheld
  {
    var m := RefreshAll(EnvOf(c), c.media, Order(c.contents));
    FrameFlowed(EnvOf(c), c.media, m);
    FlowedHoldReady(c, c.(media := m));
    HoldSettles(c.(media := m));
    if AllStopped(c.media) {
      StoppedStays(EnvOf(c), c.media, m);
    }
  }

  lemma ReactEntered(c: Call, p: StreamId, receiving: bool, success: bool)
    requires HoldReady(c) && p in c.media.streams
    ensures Entered(c, React(c, p, receiving, success))
  {
    var d := if receiving then NotifyReceiving(c, p) else c;
    FlowedHoldReady(c, d);
    assert d.holding == c.holding;
    if success {
      UpdateHoldEntered(d);
    } else {
      HoldChangeFailedEntered(d);
    }
  }

  lemma ReportHoldReady(c: Call, p: StreamId, t: Stream)
    requires HoldReady(c) && StreamsSound(c.media) && p in c.media.streams && Reported(c.media.streams[p], t)
    requires t.line.receivingFailure ==> t.receiving == Stopped
    ensures HoldReady(PutCall(c, p, t))
  {
    assert StreamSound(c.media.streams[p]);
  }

  lemma ReportEntered(c: Call, p: StreamId, t: Stream, receiving: bool, success: bool)
    requires HoldReady(c) && StreamsSound(c.media) && p in c.media.streams && Reported(c.media.streams[p], t)
    requires t.line.receivingFailure ==> t.receiving == Stopped
    ensures Entered(c, Report(c, p, t, receiving, success))
  {
    ReportHoldReady(c, p, t);
    ReactEntered(PutCall(c, p, t), p, receiving, success);
  }

  /** A failure report never ends in UNHELD. */
  lemma FailureReport(c: Call, p: StreamId, t: Stream, receiving: bool)
    requires ScannableCall(c) && p in c.media.streams && c.holding.state != Unheld
    ensures Report(c, p, t, receiving, false).holding.state != Unheld
  {
    var d := PutCall(c, p, t);
    FailureStaysHeld(if receiving then NotifyReceiving(d, p) else d);
  }

  lemma FailureStaysHeld(c: Call)
    requires ScannableCall(c) && c.holding.state != Unheld
    ensures HoldChangeFailed(c).holding.state != Unheld
  {
    if c.holding.state == PendingUnhold {
      var d := SetHold(c, PendingHold, ResourceNotAvailable);
      HeldOutcome(c.(holding := Holding(PendingHold, ResourceNotAvailable,
                                        c.holding.log + [HoldChanged(PendingHold, ResourceNotAvailable)])));
      HeldOutcome(d.(media := RefreshAll(EnvOf(d), d.media, Order(d.contents))));
    }
  }

  lemma HeldOutcome(c: Call)
    requires ScannableCall(c) && IsHeld(c.holding.state)
    ensures IsHeld(UpdateHold(c).holding.state)
  {
    if IsPending(c.holding.state) {
      UpdateHoldCases(c);
    }
  }

  lemma FailSendingEntered(c: Call, p: StreamId)
    requires HoldReady(c) && StreamsSound(c.media) && p in c.media.streams
    ensures Entered(c, DoFailSending(c, p))
  {
    var t := FailedSending(c.media.streams[p]);
    assert StreamSound(c.media.streams[p]);
    ReportEntered(c, p, t, false, false);
    if c.holding.state != Unheld { FailureReport(c, p, t, false); }
    var e := Report(c, p, t, false, false);
    ForgetEntered(c, e, p, SendingForgotten(e.media.streams[p], c.holding.state != Unheld));
  }

  lemma FailReceivingEntered(c: Call, p: StreamId)
    requires HoldReady(c) && StreamsSound(c.media) && p in c.media.streams
    ensures Entered(c, DoFailReceiving(c, p))
  {
    var t := FailedReceiving(c.media.streams[p]);
    assert StreamSound(c.media.streams[p]);
    ReportEntered(c, p, t, true, false);
    if c.holding.state != Unheld { FailureReport(c, p, t, true); }
    var e := Report(c, p, t, true, false);
    ForgetEntered(c, e, p, ReceivingForgotten(e.media.streams[p]));
  }

  lemma ForgetEntered(c: Call, e: Call, p: StreamId, u: Stream)
    requires Entered(c, e) && p in e.media.streams && (c.holding.state != Unheld ==> e.holding.state != Unheld)
    requires u.sending == e.media.streams[p].sending && u.receiving == e.media.streams[p].receiving
    ensures Entered(c, PutCall(e, p, u))
  {
  }

  lemma CompleteEntered(c: Call, p: StreamId, flow: FlowState)
    requires HoldReady(c) && StreamsSound(c.media) && p in c.media.streams
    ensures Entered(c, DoCompleteSending(c, p, flow)) && Entered(c, DoCompleteReceiving(c, p, flow))
  {
    var s := c.media.streams[p];
    assert StreamSound(s);
    ReportEntered(c, p, s.(sending := flow), false, true);
    if CorrectTransition(s.receiving, flow) {
      ReportEntered(c, p, s.(receiving := flow), true, true);
    }
  }

  lemma FlowOpEntered(c: Call, p: StreamId, op: StreamOp)
    requires HoldReady(c) && StreamsSound(c.media) && p in c.media.streams && IsFlowOp(op)
    ensures Entered(c, FlowStep(c, p, op))
  {
    match op
    case CompleteSending(flow) => CompleteEntered(c, p, flow);
    case FailSending => FailSendingEntered(c, p);
    case CompleteReceiving(flow) => CompleteEntered(c, p, flow);
    case FailReceiving => FailReceivingEntered(c, p);
    case UpdateLocal(_) =>
    case SetSending(_, _) =>
    case WishSending(_) =>
  }

  lemma OneStreamEntered(c: Call, p: StreamId, op: StreamOp)
    requires HoldReady(c) && StreamsSound(c.media) && p in c.media.streams
    ensures Entered(c, OneStreamStep(c, p, op))
  {
    if IsFlowOp(op) {
      FlowOpEntered(c, p, op);
    } else if IsRemoteOp(op) {
      RemoteOpEffect(c, p, op);
    } else {
      EndpointOpSummary(c, p, op);
    }
  }

  lemma CallStepEntered(c: Call, op: CallOp)
    requires HoldReady(c)
    ensures Entered(c, CallStep(c, op))
  {
    if op.RequestHold? {
      RequestHoldEntered(c, op.hold);
    } else if IsStateOp(op) {
      StateOpSummary(c, op);
    } else {
      RosterOpSummary(c, op);
    }
  }

  /** Whenever an event makes the call HELD, the call is not accepted or every stream is stopped both
      ways; whenever one makes it UNHELD, the call is not accepted or every locally sending stream has
      started sending and every stream somebody sends on has started receiving. */
  lemma HoldGuarantee(c: Call, e: Event)
    requires WellFormed(c) && Fit(c)
    ensures Entered(c, Step(c, e))
  {
    FitHoldReady(c);
    match e
    case OnCall(op) => CallStepEntered(c, op);
    case OnTree(op) => assert TreeStep(c, op).holding == c.holding;
    case OnStream(p, op) => if p in c.media.streams { OneStreamEntered(c, p, op); }
  }

  /** The guarantee and the trace in every reachable state of a call whose subclass leaves the state
      alone. */
  lemma HoldInRuns(requested: bool, es: seq<Event>, e: Event)
    requires forall k :: 0 <= k < |es| ==> !Forces(es[k])
    ensures var c := Run(Initial(requested), es);
            Entered(c, Step(c, e)) && Traced(Step(c, e).holding)
  {
    InitialFit(requested);
    RunFit(Initial(requested), es);
    var c := Run(Initial(requested), es);
    HoldGuarantee(c, e);
    HoldSignalsTrace(requested, es);
    StepTraced(c, e);
  }
}
