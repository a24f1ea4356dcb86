/** What asking for and ending a hold does: the signals, what an unhold asks of the streams, and that the
    reports that the flows started complete it.
 */
module CallUnhold {
  import opened CallTypes
  import opened CallFlow
  import opened CallAccept
  import opened CallHold
  import opened CallEngine
  import opened CallSafety
  import opened CallRuns
  import opened CallHoldRuns
  import opened CallEffects

  // ---- the signals

  function PendingFor(hold: bool): HoldState {
    if hold then PendingHold else PendingUnhold
  }

  function ReachedFor(hold: bool): HoldState {
    if hold then Held else Unheld
  }

  /** The hold state and its signals after the call `c` was asked for `hold`, and came that far. */
  predicate Signalled(c: Call, r: Call, hold: bool, reason: HoldReason, reached: bool) {
    var first := HoldChanged(PendingFor(hold), reason);
    r.holding == if reached
                 then Holding(ReachedFor(hold), reason, c.holding.log + [first] + [HoldChanged(ReachedFor(hold), reason)])
                 else Holding(PendingFor(hold), reason, c.holding.log + [first])
  }

  /** Every flow is as the hold state wants it. */
  predicate AllReached(m: Media, hold: bool) {
    if hold then AllStopped(m) else AllStarted(m)
  }

  /** The call once the pending state is stored and signalled. */
  function Asking(c: Call, hold: bool, reason: HoldReason): Call {
    var state := PendingFor(hold);
    c.(holding := Holding(state, reason, c.holding.log + [HoldChanged(state, reason)]))
  }

  lemma RequestUnfolds(c: Call, hold: bool)
    requires ScannableCall(c)
    ensures CallHold.RequestHold(c, hold)
            == if hold == IsHeld(c.holding.state) then c.(holding := c.holding.(reason := Requested))
               else UpdateHold(Asking(c, hold, Requested))
  {
  }

  lemma AskingReady(c: Call, hold: bool, reason: HoldReason)
    requires WellFormed(c) && Fit(c)
    ensures HoldReady(Asking(c, hold, reason))
  {
    FitHoldReady(c);
  }

  lemma AskingSignals(c: Call, hold: bool, reason: HoldReason)
    requires HoldReady(Asking(c, hold, reason))
    ensures var r := UpdateHold(Asking(c, hold, reason));
            Signalled(c, r, hold, reason, !c.acceptance.accepted || AllReached(r.media, hold))
  {
    HoldSettles(Asking(c, hold, reason));
  }

  /** A request that changes the direction is signalled as pending, and as reached too exactly if the
      call is not accepted or every flow is as wanted by then; a request for what is already so, or
      already asked for, changes nothing but the reason. */
  lemma RequestSignals(c: Call, hold: bool)
    requires WellFormed(c) && Fit(c)
    ensures var r := Step(c, OnCall(RequestHold(hold)));
            if hold == (c.holding.state == Held || c.holding.state == PendingHold)
            then r == c.(holding := c.holding.(reason := Requested))
            else Signalled(c, r, hold, Requested, !c.acceptance.accepted || AllReached(r.media, hold))
  {
    StepIsRequestHold(c, OnCall(RequestHold(hold)));
    RequestUnfolds(c, hold);
    AskingReady(c, hold, Requested);
    AskingSignals(c, hold, Requested);
  }

  // ---- what an unhold asks of the streams

  /** The stream `s` has become `t`, which is asked for every flow that `s` wants. */
  predicate Asked(env: Env, s: Stream, t: Stream) {
    && t.line == s.line && (s.localSending ==> t.localSending)
    && (WantsReceive(s.line) ==> Starting(t.receiving))
    && (SendStart(env, s) ==> Starting(t.sending))
  }

  predicate CanRun(env: Env, m: Media) {
    && !env.held && env.locallyAccepted && Scannable(env, m)
    && (forall p :: p in m.streams ==> !m.streams[p].line.receivingFailure)
  }

  lemma RefreshAsks(env: Env, m: Media, p: StreamId)
    requires CanRun(env, m) && p in m.streams
    ensures Asked(env, m.streams[p], Refresh(env, m, p).streams[p])
  {
    UpdatedReceiving(env, m, p);
    assert StreamStep(env, m.streams[p], UpdateReceiving(env, m, p).streams[p]);
  }

  lemma AskedStays(env: Env, s: Stream, t: Stream, u: Stream)
    requires !env.held && env.locallyAccepted && !s.line.receivingFailure && Asked(env, s, t) && StreamStep(env, t, u)
    ensures Asked(env, s, u)
  {
  }

  lemma AskedBefore(env: Env, s: Stream, t: Stream, u: Stream)
    requires StreamStep(env, s, t) && Asked(env, t, u)
    ensures Asked(env, s, u)
  {
  }

  lemma {:induction false} HoldScanAsks(env: Env, m: Media, ps: seq<StreamId>)
    requires CanRun(env, m) && forall p :: p in ps ==> p in m.streams
    ensures forall p :: p in ps ==> Asked(env, m.streams[p], HoldScan(env, m, ps).0.streams[p])
    decreases |ps|
  {
    if ps != [] {
      var d := Refresh(env, m, ps[0]);
      CanRunStays(env, m, d);
      HoldScanAsks(env, d, ps[1..]);
      var r := HoldScan(env, d, ps[1..]).0;
      forall p | p in ps
        ensures Asked(env, m.streams[p], r.streams[p])
      {
        assert StreamStep(env, m.streams[p], d.streams[p]) && StreamStep(env, d.streams[p], r.streams[p]);
        if p in ps[1..] {
          AskedBefore(env, m.streams[p], d.streams[p], r.streams[p]);
        } else {
          RefreshAsks(env, m, p);
          AskedStays(env, m.streams[p], d.streams[p], r.streams[p]);
        }
      }
    }
  }

  lemma CanRunStays(env: Env, m: Media, r: Media)
    requires CanRun(env, m) && Progress(env, m, r)
    ensures CanRun(env, r)
  {
    forall p | p in r.streams
      ensures r.streams[p].line == m.streams[p].line
    {
      assert StreamStep(env, m.streams[p], r.streams[p]);
    }
  }

  lemma PendingUnholdAsks(c: Call, p: StreamId)
    requires WellFormed(c) && c.acceptance.accepted && c.holding.state == PendingUnhold && CanRun(EnvOf(c), c.media)
    requires p in c.media.streams
    ensures p in UpdateHold(c).media.streams && Asked(EnvOf(c), c.media.streams[p], UpdateHold(c).media.streams[p])
  {
    UpdateHoldCases(c);
    HoldScanAsks(EnvOf(c), c.media, Order(c.contents));
  }

  /** Ending the hold of an accepted call asks every stream somebody sends on to receive, and every stream
      we want to send on to send, unless the other side holds it. */
  lemma UnholdAsksAll(c: Call, p: StreamId)
    requires WellFormed(c) && Fit(c) && c.acceptance.accepted && IsHeld(c.holding.state) && p in c.media.streams
    ensures var s := c.media.streams[p];
            var r := Step(c, OnCall(RequestHold(false))).media;
            && p in r.streams
            && (WantsReceive(s.line) ==> Starting(r.streams[p].receiving))
            && (s.localSending && !s.line.remotelyHeld ==> Starting(r.streams[p].sending))
  {
    var d := Asking(c, false, Requested);
    StepIsRequestHold(c, OnCall(RequestHold(false)));
    RequestUnfolds(c, false);
    FitCanRun(c, d);
    PendingUnholdAsks(d, p);
    assert StreamSound(c.media.streams[p]);
  }

  lemma FitCanRun(c: Call, d: Call)
    requires Fit(c) && c.acceptance.accepted && d == c.(holding := d.holding) && !IsHeld(d.holding.state)
    ensures CanRun(EnvOf(d), d.media)
  {
    forall p | p in c.media.streams
      ensures StreamSound(c.media.streams[p])
    {
    }
  }

  // ---- reports that flows started

  /** A report that a flow of `p` has started. */
  predicate Reports(e: Event, p: StreamId, receiving: bool) {
    e == OnStream(p, if receiving then CompleteReceiving(Started) else CompleteSending(Started))
  }

  predicate AllReports(es: seq<Event>) {
    forall k :: 0 <= k < |es| ==> es[k].OnStream? && (Reports(es[k], es[k].p, true) || Reports(es[k], es[k].p, false))
  }

  /** An accepted call that is not held, or is to be so, which it is exactly when every flow it wants has
      started. */
  ghost predicate Resuming(c: Call) {
    && WellFormed(c) && Fit(c) && c.acceptance.accepted && !IsHeld(c.holding.state)
    && (c.holding.state == Unheld <==> AllStarted(c.media))
  }

  /** The stream once the reported flow has started. */
  function Start(s: Stream, receiving: bool): Stream {
    if receiving then s.(receiving := Started) else s.(sending := Started)
  }

  function FlowOf(s: Stream, receiving: bool): FlowState {
    if receiving then s.receiving else s.sending
  }

  lemma StepIsStart(c: Call, e: Event, p: StreamId, receiving: bool)
    requires ScannableCall(c) && p in c.media.streams && Reports(e, p, receiving)
    ensures var s := c.media.streams[p];
            Step(c, e) == if FlowOf(s, receiving) == PendingStart then Report(c, p, Start(s, receiving), receiving, true) else c
  {
  }

  lemma LookResumes(c: Call)
    requires HoldReady(c) && c.acceptance.accepted && c.holding.state == PendingUnhold
    ensures var r := UpdateHold(c);
            !IsHeld(r.holding.state) && (r.holding.state == Unheld <==> AllStarted(r.media))
  {
    HoldSettles(c);
  }

  lemma ReactResumes(c: Call, p: StreamId, receiving: bool)
    requires HoldReady(c) && c.acceptance.accepted && c.holding.state == PendingUnhold && p in c.media.streams
    ensures var r := React(c, p, receiving, true);
            !IsHeld(r.holding.state) && (r.holding.state == Unheld <==> AllStarted(r.media))
  {
    if receiving {
      var d := NotifyReceiving(c, p);
      FlowedHoldReady(c, d);
      LookResumes(d);
    } else {
      LookResumes(c);
    }
  }

  lemma ReportResumes(c: Call, p: StreamId, receiving: bool)
    requires Resuming(c) && c.holding.state == PendingUnhold && p in c.media.streams
    requires FlowOf(c.media.streams[p], receiving) == PendingStart
    ensures var r := Report(c, p, Start(c.media.streams[p], receiving), receiving, true);
            !IsHeld(r.holding.state) && (r.holding.state == Unheld <==> AllStarted(r.media))
  {
    var t := Start(c.media.streams[p], receiving);
    StartReady(c, p, receiving);
    ReactResumes(PutCall(c, p, t), p, receiving);
  }

  lemma StartReady(c: Call, p: StreamId, receiving: bool)
    requires WellFormed(c) && Fit(c) && p in c.media.streams && FlowOf(c.media.streams[p], receiving) == PendingStart
    ensures HoldReady(PutCall(c, p, Start(c.media.streams[p], receiving)))
  {
    FitHoldReady(c);
    assert StreamSound(c.media.streams[p]);
    ReportHoldReady(c, p, Start(c.media.streams[p], receiving));
  }

  /** A call that is not held has every flow it wants, so only a flow nobody waits for can start. */
  lemma UnheldReports(c: Call, p: StreamId, receiving: bool)
    requires Resuming(c) && c.holding.state == Unheld && p in c.media.streams
    requires FlowOf(c.media.streams[p], receiving) == PendingStart
    ensures !receiving
    ensures var r := Report(c, p, Start(c.media.streams[p], receiving), receiving, true);
            r == PutCall(c, p, Start(c.media.streams[p], false)) && AllStarted(r.media)
  {
    assert StreamSound(c.media.streams[p]);
    assert StreamStarted(c.media.streams[p].local, c.media.streams[p].line, c.media.streams[p]);
  }

  lemma StartKeeps(c: Call, e: Event, p: StreamId, receiving: bool)
    requires Resuming(c) && Reports(e, p, receiving)
    ensures Resuming(Step(c, e))
  {
    StepWellFormed(c, e);
    StepFit(c, e);
    StartAcceptance(c, e, p, receiving);
    if p in c.media.streams {
      StepIsStart(c, e, p, receiving);
      if FlowOf(c.media.streams[p], receiving) == PendingStart {
        if c.holding.state == Unheld {
          UnheldReports(c, p, receiving);
        } else {
          ReportResumes(c, p, receiving);
        }
      }
    }
  }

  lemma StartAcceptance(c: Call, e: Event, p: StreamId, receiving: bool)
    requires ScannableCall(c) && Reports(e, p, receiving)
    ensures Step(c, e).acceptance == c.acceptance
  {
    if p in c.media.streams {
      StepIsStart(c, e, p, receiving);
    }
  }

  lemma ResumingRuns(c: Call, es: seq<Event>)
    requires Resuming(c) && AllReports(es)
    ensures Resuming(Run(c, es))
  {
    var inv := (d: Call, j: nat) => Resuming(d);
    forall d, j: nat | j < |es| && WellFormed(d) && inv(d, j)
      ensures inv(Step(d, es[j]), j + 1)
    {
      StartKeeps(d, es[j], es[j].p, Reports(es[j], es[j].p, true));
    }
    RunKeeps(c, es, 0, inv);
    assert es[0..] == es;
  }

  lemma UnholdBegins(c: Call, e: Event)
    requires WellFormed(c) && Fit(c) && c.acceptance.accepted && IsHeld(c.holding.state)
    requires e == OnCall(RequestHold(false))
    ensures Resuming(Step(c, e))
  {
    StepWellFormed(c, e);
    StepFit(c, e);
    RequestSignals(c, false);
    RequestAcceptance(c, e);
  }

  lemma RequestAcceptance(c: Call, e: Event)
    requires ScannableCall(c) && e.OnCall? && e.call.RequestHold?
    ensures Step(c, e).acceptance == c.acceptance
  {
    StepIsRequestHold(c, e);
  }

  // ---- an unhold that fails

  lemma LookAgain(c: Call, hold: bool, reason: HoldReason, d: Call)
    requires HoldReady(d) && hold && IsHeld(d.holding.state) && d.acceptance.accepted == c.acceptance.accepted
    requires Signalled(c, d, hold, reason, d.holding.state == Held)
    requires d.holding.state == Held ==> !d.acceptance.accepted || AllStopped(d.media)
    ensures var r := UpdateHold(d);
            && Signalled(c, r, hold, reason, r.holding.state == Held)
            && (r.holding.state == Held <==> !c.acceptance.accepted || AllStopped(r.media))
  {
    HoldSettles(d);
  }

  /** An unhold that fails is signalled as a pending hold for want of a resource, and as held too exactly if
      the call is not accepted or every flow is stopped by then. */
  lemma RelapseSignals(c: Call)
    requires HoldReady(c) && c.holding.state == PendingUnhold
    ensures var r := HoldChangeFailed(c);
            && Signalled(c, r, true, ResourceNotAvailable, r.holding.state == Held)
            && (r.holding.state == Held <==> !c.acceptance.accepted || AllStopped(r.media))
  {
    var a := Asking(c, true, ResourceNotAvailable);
    assert HoldReady(a);
    AskingSignals(c, true, ResourceNotAvailable);
    var d := UpdateHold(a);
    FlowedHoldReady(a, d);
    RelapseRefreshes(c, d);
  }

  lemma RelapseRefreshes(c: Call, d: Call)
    requires HoldReady(c) && c.holding.state == PendingUnhold && d == UpdateHold(Asking(c, true, ResourceNotAvailable))
    requires HoldReady(d) && d.acceptance == c.acceptance
    requires Signalled(c, d, true, ResourceNotAvailable, !c.acceptance.accepted || AllStopped(d.media))
    ensures var r := HoldChangeFailed(c);
            && Signalled(c, r, true, ResourceNotAvailable, r.holding.state == Held)
            && (r.holding.state == Held <==> !c.acceptance.accepted || AllStopped(r.media))
  {
    var m := RefreshAll(EnvOf(d), d.media, Order(d.contents));
    FrameFlowed(EnvOf(d), d.media, m);
    FlowedHoldReady(d, d.(media := m));
    if AllStopped(d.media) {
      StoppedStays(EnvOf(d), d.media, m);
    }
    LookAgain(c, true, ResourceNotAvailable, d.(media := m));
  }

  // ---- an accepted media channel

  /** The streams differ at most in whether a handler waits on them. */
  predicate SameFlows(m: Media, r: Media) {
    && r.streams.Keys == m.streams.Keys && r.accepted == m.accepted
    && (forall p :: p in m.streams ==> r.streams[p] == m.streams[p].(waiting := r.streams[p].waiting))
  }

  lemma AcceptedHandler(env: Env, m: Media, p: StreamId)
    requires m.accepted && p in m.streams && Scannable(env, m)
    ensures HandlerPass(env, m, p) == Put(m, p, m.streams[p].(waiting := false))
  {
    assert TryAccept(env, m) == m;
  }

  lemma AcceptedPass(env: Env, m: Media, p: StreamId)
    requires m.accepted && p in m.streams && Scannable(env, m)
    ensures EmissionPass(env, m, p) == Put(m.(restart := m.restart - {p}), p, m.streams[p].(waiting := false))
  {
    AcceptedHandler(env, m.(restart := m.restart - {p}), p);
    assert m.restart - {p} - {p} == m.restart - {p};
  }

  /** Once the media channel has accepted, notifications only disconnect the handlers. */
  lemma AcceptedNotify(env: Env, m: Media, p: StreamId)
    requires m.accepted && p in m.streams && Scannable(env, m)
    ensures SameFlows(m, Notify(env, m, p))
  {
    if m.streams[p].waiting && p !in m.emitting {
      AcceptedPass(env, m.(emitting := m.emitting + {p}), p);
    }
  }

  /** A stream with both flows brought to what the channel asks for. */
  function Refreshed(env: Env, s: Stream): Stream {
    s.(receiving := ReceiveGoal(env, s), sending := Flow(s.sending, SendStart(env, s)))
  }

  lemma AcceptedUpdate(env: Env, m: Media, p: StreamId)
    requires m.accepted && p in m.streams && Scannable(env, m)
    ensures SameFlows(Put(m, p, m.streams[p].(receiving := ReceiveGoal(env, m.streams[p]))), UpdateReceiving(env, m, p))
  {
    var s := m.streams[p];
    var d := Put(m, p, s.(receiving := ReceiveGoal(env, s)));
    if p in Unsettled(env, m) {
      AcceptedNotify(env, d, p);
    } else {
      assert d.streams == m.streams;
    }
  }

  lemma SamePut(m: Media, d: Media, p: StreamId, s: Stream, f: FlowState)
    requires p in d.streams && d.streams[p] == s.(waiting := d.streams[p].waiting) && SameFlows(Put(m, p, s), d)
    ensures SameFlows(Put(m, p, s.(sending := f)), Put(d, p, d.streams[p].(sending := f)))
  {
  }

  lemma AcceptedRefresh(env: Env, m: Media, p: StreamId)
    requires m.accepted && p in m.streams && Scannable(env, m)
    ensures SameFlows(Put(m, p, Refreshed(env, m.streams[p])), Refresh(env, m, p))
  {
    var s := m.streams[p];
    AcceptedUpdate(env, m, p);
    SamePut(m, UpdateReceiving(env, m, p), p, s.(receiving := ReceiveGoal(env, s)), Flow(s.sending, SendStart(env, s)));
  }

  /** The streams in `ps` refreshed, and the others as they were. */
  predicate RefreshedIn(env: Env, m: Media, ps: seq<StreamId>, r: Media) {
    && r.streams.Keys == m.streams.Keys && r.accepted == m.accepted
    && (forall q :: q in m.streams ==>
          r.streams[q] == (if q in ps then Refreshed(env, m.streams[q]) else m.streams[q]).(waiting := r.streams[q].waiting))
  }

  lemma RefreshedTwice(env: Env, s: Stream, t: Stream)
    requires t == Refreshed(env, s).(waiting := t.waiting)
    ensures Refreshed(env, t) == t
  {
  }

  lemma {:induction false} AcceptedHoldScan(env: Env, m: Media, ps: seq<StreamId>)
    requires m.accepted && Scannable(env, m) && forall p :: p in ps ==> p in m.streams
    ensures RefreshedIn(env, m, ps, HoldScan(env, m, ps).0)
    decreases |ps|
  {
    if ps != [] {
      var p := ps[0];
      var d := Refresh(env, m, p);
      AcceptedRefresh(env, m, p);
      AcceptedHoldScan(env, d, ps[1..]);
      RefreshedMore(env, m, ps, d, HoldScan(env, d, ps[1..]).0);
    }
  }

  lemma RefreshedMore(env: Env, m: Media, ps: seq<StreamId>, d: Media, r: Media)
    requires ps != [] && ps[0] in m.streams && SameFlows(Put(m, ps[0], Refreshed(env, m.streams[ps[0]])), d)
    requires RefreshedIn(env, d, ps[1..], r)
    ensures RefreshedIn(env, m, ps, r)
  {
    forall q | q in m.streams
      ensures r.streams[q] == (if q in ps then Refreshed(env, m.streams[q]) else m.streams[q]).(waiting := r.streams[q].waiting)
    {
      assert q in ps <==> q == ps[0] || q in ps[1..];
      if q == ps[0] {
        RefreshedTwice(env, m.streams[q], d.streams[q]);
      }
    }
  }

  /** Every stream has been asked for exactly the flows it wants and may have. */
  predicate Steady(env: Env, m: Media) {
    forall p :: p in m.streams ==> m.streams[p] == Refreshed(env, m.streams[p])
  }

  lemma SteadyScan(env: Env, m: Media, ps: seq<StreamId>)
    requires m.accepted && Scannable(env, m) && Steady(env, m) && forall p :: p in ps ==> p in m.streams
    ensures SameFlows(m, HoldScan(env, m, ps).0)
  {
    AcceptedHoldScan(env, m, ps);
  }

  // ---- completing an unhold

  lemma SameSteady(env: Env, m: Media, r: Media)
    requires Steady(env, m) && SameFlows(m, r)
    ensures Steady(env, r)
  {
    forall p | p in r.streams
      ensures r.streams[p] == Refreshed(env, r.streams[p])
    {
      assert m.streams[p] == Refreshed(env, m.streams[p]);
    }
  }

  lemma SameCompose(m: Media, d: Media, r: Media)
    requires SameFlows(m, d) && SameFlows(d, r)
    ensures SameFlows(m, r)
  {
    forall p | p in m.streams
      ensures r.streams[p] == m.streams[p].(waiting := r.streams[p].waiting)
    {
      assert d.streams[p] == m.streams[p].(waiting := d.streams[p].waiting);
    }
  }

  lemma SteadyLook(c: Call)
    requires ScannableCall(c) && !IsHeld(c.holding.state) && c.media.accepted && Steady(EnvOf(c), c.media)
    ensures SameFlows(c.media, UpdateHold(c).media)
  {
    if c.holding.state == PendingUnhold {
      UpdateHoldCases(c);
      if c.acceptance.accepted {
        SteadyScan(EnvOf(c), c.media, Order(c.contents));
      }
    }
  }

  lemma SteadyReact(c: Call, p: StreamId, receiving: bool)
    requires ScannableCall(c) && !IsHeld(c.holding.state) && c.media.accepted && Steady(EnvOf(c), c.media) && p in c.media.streams
    ensures SameFlows(c.media, React(c, p, receiving, true).media)
  {
    if receiving {
      var d := NotifyReceiving(c, p);
      AcceptedNotify(EnvOf(c), c.media, p);
      SameSteady(EnvOf(c), c.media, d.media);
      SteadyLook(d);
      SameCompose(c.media, d.media, UpdateHold(d).media);
    } else {
      SteadyLook(c);
    }
  }

  /** A call whose unhold waits only for the streaming implementation. */
  ghost predicate Awake(c: Call) {
    Resuming(c) && c.media.accepted && Steady(EnvOf(c), c.media)
  }

  lemma StartSteady(env: Env, m: Media, p: StreamId, receiving: bool)
    requires Steady(env, m) && p in m.streams && FlowOf(m.streams[p], receiving) == PendingStart
    ensures Steady(env, Put(m, p, Start(m.streams[p], receiving)))
  {
    assert m.streams[p] == Refreshed(env, m.streams[p]);
  }

  /** A report starts its flow, if that is pending, and nothing else happens to any flow. */
  lemma AwakeReport(c: Call, e: Event, p: StreamId, receiving: bool)
    requires Awake(c) && Reports(e, p, receiving) && p in c.media.streams
    ensures SameFlows(AfterReport(c.media, p, receiving), Step(c, e).media)
  {
    StepIsStart(c, e, p, receiving);
    if FlowOf(c.media.streams[p], receiving) == PendingStart {
      StartSteady(EnvOf(c), c.media, p, receiving);
      SteadyReact(PutCall(c, p, Start(c.media.streams[p], receiving)), p, receiving);
    }
  }

  /** The media once the report has started its flow, if that was pending. */
  function AfterReport(m: Media, p: StreamId, receiving: bool): Media
    requires p in m.streams
  {
    var s := m.streams[p];
    if FlowOf(s, receiving) == PendingStart then Put(m, p, Start(s, receiving)) else m
  }

  lemma ReportedMedia(env: Env, m: Media, p: StreamId, receiving: bool, r: Media)
    requires Steady(env, m) && p in m.streams && SameFlows(AfterReport(m, p, receiving), r)
    ensures Steady(env, r) && Onwards(m, r) && r.accepted == m.accepted
    ensures Starting(FlowOf(m.streams[p], receiving)) ==> FlowOf(r.streams[p], receiving) == Started
  {
    if FlowOf(m.streams[p], receiving) == PendingStart {
      StartSteady(env, m, p, receiving);
    }
    SameSteady(env, AfterReport(m, p, receiving), r);
  }

  lemma AwakeStep(c: Call, e: Event, p: StreamId, receiving: bool)
    requires Awake(c) && Reports(e, p, receiving)
    ensures Awake(Step(c, e)) && Onwards(c.media, Step(c, e).media)
    ensures p in c.media.streams && Starting(FlowOf(c.media.streams[p], receiving)) ==>
              FlowOf(Step(c, e).media.streams[p], receiving) == Started
  {
    StartKeeps(c, e, p, receiving);
    StepEnv(c, e, p, receiving);
    if p in c.media.streams {
      AwakeReport(c, e, p, receiving);
      ReportedMedia(EnvOf(c), c.media, p, receiving, Step(c, e).media);
    }
  }

  lemma StepEnv(c: Call, e: Event, p: StreamId, receiving: bool)
    requires Resuming(c) && Resuming(Step(c, e)) && Reports(e, p, receiving)
    ensures EnvOf(Step(c, e)) == EnvOf(c)
  {
    if p in c.media.streams {
      StepIsStart(c, e, p, receiving);
    }
  }

  /** Flows that were starting are so still, and started ones have started; all else but the handlers is
      as it was. */
  predicate Onwards(m: Media, r: Media) {
    && r.streams.Keys == m.streams.Keys
    && (forall p :: p in m.streams ==> StreamOnwards(m.streams[p], r.streams[p]))
  }

  predicate StreamOnwards(s: Stream, t: Stream) {
    && t == s.(sending := t.sending, receiving := t.receiving, waiting := t.waiting)
    && FlowOnwards(s.sending, t.sending) && FlowOnwards(s.receiving, t.receiving)
  }

  predicate FlowOnwards(f: FlowState, g: FlowState) {
    (Starting(f) ==> Starting(g)) && (f == Started ==> g == Started)
  }

  /** The flow of `p` has started by the time the report number `k` has come. */
  ghost predicate StartedBy(c: Call, k: nat, p: StreamId, receiving: bool, j: nat) {
    && Awake(c) && p in c.media.streams && Starting(FlowOf(c.media.streams[p], receiving))
    && (k < j ==> FlowOf(c.media.streams[p], receiving) == Started)
  }

  lemma StartNext(c: Call, e: Event, k: nat, p: StreamId, receiving: bool, j: nat, dir: bool)
    requires StartedBy(c, k, p, receiving, j) && e.OnStream? && Reports(e, e.p, dir) && (j == k ==> Reports(e, p, receiving))
    ensures StartedBy(Step(c, e), k, p, receiving, j + 1)
  {
    AwakeStep(c, e, e.p, dir);
    assert StreamOnwards(c.media.streams[p], Step(c, e).media.streams[p]);
  }

  lemma StartsInRuns(c: Call, es: seq<Event>, k: nat, p: StreamId, receiving: bool)
    requires StartedBy(c, k, p, receiving, 0) && AllReports(es) && k < |es| && Reports(es[k], p, receiving)
    ensures StartedBy(Run(c, es), k, p, receiving, |es|)
  {
    var inv := (d: Call, j: nat) => StartedBy(d, k, p, receiving, j);
    forall d, j: nat | j < |es| && WellFormed(d) && inv(d, j)
      ensures inv(Step(d, es[j]), j + 1)
    {
      StartNext(d, es[j], k, p, receiving, j, Reports(es[j], es[j].p, true));
    }
    RunKeeps(c, es, 0, inv);
    assert es[0..] == es;
  }

  lemma OnwardsCompose(m: Media, d: Media, r: Media)
    requires Onwards(m, d) && Onwards(d, r)
    ensures Onwards(m, r)
  {
    forall p | p in m.streams
      ensures StreamOnwards(m.streams[p], r.streams[p])
    {
      assert StreamOnwards(m.streams[p], d.streams[p]) && StreamOnwards(d.streams[p], r.streams[p]);
    }
  }

  lemma AwakeRuns(c: Call, es: seq<Event>)
    requires Awake(c) && AllReports(es)
    ensures Awake(Run(c, es)) && Onwards(c.media, Run(c, es).media)
  {
    var inv := (d: Call, j: nat) => Awake(d) && Onwards(c.media, d.media);
    forall d, j: nat | j < |es| && WellFormed(d) && inv(d, j)
      ensures inv(Step(d, es[j]), j + 1)
    {
      AwakeStep(d, es[j], es[j].p, Reports(es[j], es[j].p, true));
      OnwardsCompose(c.media, d.media, Step(d, es[j]).media);
    }
    assert Onwards(c.media, c.media);
    RunKeeps(c, es, 0, inv);
    assert es[0..] == es;
  }

  /** Both flows of every stream are reported to have started. */
  predicate ReportsAll(streams: set<StreamId>, es: seq<Event>) {
    forall p :: p in streams ==>
      OnStream(p, CompleteSending(Started)) in es && OnStream(p, CompleteReceiving(Started)) in es
  }

  lemma ReportedStarted(c: Call, es: seq<Event>, p: StreamId, receiving: bool)
    requires Awake(c) && AllReports(es) && ReportsAll(c.media.streams.Keys, es)
    requires p in c.media.streams && Starting(FlowOf(c.media.streams[p], receiving))
    ensures p in Run(c, es).media.streams && FlowOf(Run(c, es).media.streams[p], receiving) == Started
  {
    var k :| 0 <= k < |es| && Reports(es[k], p, receiving);
    StartsInRuns(c, es, k, p, receiving);
  }

  /** The stream may have every flow it wants. */
  predicate FreeToSend(s: Stream) {
    s.local == Sending ==> s.localSending && !s.line.remotelyHeld
  }

  /** A stream all of whose flows have started that were asked for has every flow it wants exactly if it
      may send what it is to send. */
  lemma SteadyStarted(env: Env, s: Stream)
    requires s == Refreshed(env, s) && StreamSound(s) && !env.held && env.accepted && env.locallyAccepted
    requires (Starting(s.receiving) ==> s.receiving == Started) && (Starting(s.sending) ==> s.sending == Started)
    ensures StreamStarted(s.local, s.line, s) <==> FreeToSend(s)
  {
  }

  lemma ReportedAllStarted(c: Call, es: seq<Event>)
    requires Awake(c) && AllReports(es) && ReportsAll(c.media.streams.Keys, es)
    ensures AllStarted(Run(c, es).media) <==> forall p :: p in c.media.streams ==> FreeToSend(c.media.streams[p])
  {
    var r := Run(c, es);
    AwakeRuns(c, es);
    forall p | p in c.media.streams
      ensures StreamStarted(r.media.streams[p].local, r.media.streams[p].line, r.media.streams[p])
              <==> FreeToSend(c.media.streams[p])
    {
      ReportedStream(c, es, p);
    }
  }

  lemma ReportedStream(c: Call, es: seq<Event>, p: StreamId)
    requires Awake(c) && AllReports(es) && ReportsAll(c.media.streams.Keys, es) && p in c.media.streams
    requires Awake(Run(c, es)) && Onwards(c.media, Run(c, es).media)
    ensures var t := Run(c, es).media.streams[p];
            StreamStarted(t.local, t.line, t) <==> FreeToSend(c.media.streams[p])
  {
    var s, t := c.media.streams[p], Run(c, es).media.streams[p];
    assert StreamOnwards(s, t) && StreamSound(t) && StreamSound(s);
    if Starting(s.receiving) { ReportedStarted(c, es, p, true); }
    if Starting(s.sending) { ReportedStarted(c, es, p, false); }
    SameWishes(c, Run(c, es), p);
    SteadyStarted(EnvOf(Run(c, es)), t);
  }

  /** Whether a flow is starting depends on what does not change. */
  lemma SameWishes(c: Call, r: Call, p: StreamId)
    requires Awake(c) && Awake(r) && p in c.media.streams && p in r.media.streams
    requires StreamOnwards(c.media.streams[p], r.media.streams[p])
    ensures Starting(r.media.streams[p].receiving) <==> Starting(c.media.streams[p].receiving)
    ensures Starting(r.media.streams[p].sending) <==> Starting(c.media.streams[p].sending)
  {
    assert StreamSound(c.media.streams[p]) && StreamSound(r.media.streams[p]);
    assert c.media.streams[p] == Refreshed(EnvOf(c), c.media.streams[p]);
    assert r.media.streams[p] == Refreshed(EnvOf(r), r.media.streams[p]);
  }

  lemma AwakeLook(c: Call)
    requires WellFormed(c) && c.acceptance.accepted && c.holding.state == PendingUnhold && c.media.accepted
    ensures RefreshedIn(EnvOf(c), c.media, Order(c.contents), UpdateHold(c).media)
  {
    UpdateHoldCases(c);
    AcceptedHoldScan(EnvOf(c), c.media, Order(c.contents));
  }

  lemma AwakeBegins(c: Call, e: Event)
    requires WellFormed(c) && Fit(c) && c.acceptance.accepted && IsHeld(c.holding.state) && c.media.accepted
    requires e == OnCall(RequestHold(false))
    ensures Awake(Step(c, e))
    ensures var r := Step(c, e).media;
            && r.streams.Keys == c.media.streams.Keys
            && (forall p :: p in c.media.streams ==> FreeToSend(r.streams[p]) == FreeToSend(c.media.streams[p]))
  {
    var d := Asking(c, false, Requested);
    UnholdBegins(c, e);
    StepIsRequestHold(c, e);
    RequestUnfolds(c, false);
    AwakeLook(d);
    RefreshedSteady(EnvOf(d), c.media, Order(d.contents), UpdateHold(d).media);
    assert EnvOf(UpdateHold(d)) == EnvOf(d);
  }

  lemma RefreshedSteady(env: Env, m: Media, ps: seq<StreamId>, r: Media)
    requires RefreshedIn(env, m, ps, r) && forall p :: p in m.streams ==> p in ps
    ensures Steady(env, r)
    ensures r.streams.Keys == m.streams.Keys
    ensures forall p :: p in m.streams ==> FreeToSend(r.streams[p]) == FreeToSend(m.streams[p])
  {
    forall p | p in r.streams
      ensures r.streams[p] == Refreshed(env, r.streams[p])
    {
      RefreshedTwice(env, m.streams[p], r.streams[p]);
    }
  }

  /** After the hold of an accepted call was ended, whatever reports that flows started come in whatever
      order: the call is UNHELD exactly when every flow it wants has started. Once the media channel has
      accepted and every stream was reported both ways, it is UNHELD exactly if every stream that is to
      send wants to and is not held by the other side. */
  lemma UnholdCompletes(c: Call, e: Event, es: seq<Event>)
    requires WellFormed(c) && Fit(c) && c.acceptance.accepted && IsHeld(c.holding.state)
    requires e == OnCall(RequestHold(false)) && AllReports(es)
    ensures WellFormed(Step(c, e))
    ensures var r := Run(Step(c, e), es);
            && (r.holding.state == Unheld <==> AllStarted(r.media))
            && (c.media.accepted && ReportsAll(c.media.streams.Keys, es) ==>
                  (r.holding.state == Unheld <==> forall p :: p in c.media.streams ==> FreeToSend(c.media.streams[p])))
  {
    UnholdBegins(c, e);
    ResumingRuns(Step(c, e), es);
    if c.media.accepted && ReportsAll(c.media.streams.Keys, es) {
      AwakeBegins(c, e);
      ReportedAllStarted(Step(c, e), es);
    }
  }

  /** A stream that may not send what it is to send is never started by reports. */
  lemma BarredStays(c: Call, es: seq<Event>, p: StreamId)
    requires Awake(c) && AllReports(es) && p in c.media.streams && !FreeToSend(c.media.streams[p])
    ensures !AllStarted(Run(c, es).media)
  {
    var r := Run(c, es);
    AwakeRuns(c, es);
    assert StreamOnwards(c.media.streams[p], r.media.streams[p]);
    assert r.media.streams[p] == Refreshed(EnvOf(r), r.media.streams[p]);
    assert !StreamStarted(r.media.streams[p].local, r.media.streams[p].line, r.media.streams[p]);
  }

  /** So an unhold with such a stream is not completed by any reports that flows started. */
  lemma NeverUnheld(c: Call, e: Event, es: seq<Event>, p: StreamId)
    requires WellFormed(c) && Fit(c) && c.acceptance.accepted && IsHeld(c.holding.state) && c.media.accepted
    requires p in c.media.streams && !FreeToSend(c.media.streams[p])
    requires e == OnCall(RequestHold(false)) && AllReports(es)
    ensures WellFormed(Step(c, e)) && Run(Step(c, e), es).holding.state == PendingUnhold
  {
    UnholdCompletes(c, e, es);
    AwakeBegins(c, e);
    BarredStays(Step(c, e), es, p);
    AwakeRuns(Step(c, e), es);
  }
}
