/** A call on which the base class's accept runs more than once. */
module CallAcceptTwice {
  import opened CallTypes
  import opened CallFlow
  import opened CallAccept
  import opened CallHold
  import opened CallEngine
  import opened CallSafety
  import opened CallRuns
  import opened CallAcceptCount
  import opened CallAcceptRuns

  /** A stream of an initial content somebody sends on, as it is before the call is accepted. */
  predicate Fresh(s: Stream) {
    && s.line.initial && s.receiving == Stopped && WantsReceive(s.line)
    && !s.line.receivingFailure && !s.waiting
  }

  predicate AllFresh(m: Media) {
    && m.streams.Keys != {} && !m.accepted && m.accepts == 0
    && (forall p :: p in m.streams ==> Fresh(m.streams[p]))
  }

  /** All streams of `m` wait and have been asked to receive. */
  predicate AllListening(m: Media, r: Media) {
    && r.streams.Keys == m.streams.Keys && Listening(r) == m.streams.Keys
    && (forall p :: p in m.streams ==> r.streams[p].waiting && r.streams[p].receiving == PendingStart)
  }

  /** Accepting a call with fresh streams asks all of them to receive and waits for all of them. */
  lemma FreshDeferred(env: Env, m: Media)
    requires AllFresh(m) && !env.held && env.locallyAccepted && forall p :: p in env.order <==> p in m.streams
    ensures var r := AcceptMedia(env, m);
            AllListening(m, r) && !r.accepted && r.accepts == 0
  {
    assert Running(env, m);
    var q :| q in m.streams.Keys;
    assert !StreamReady(m.streams[q]);
    UnheldAttempt(env, m);
    ScanSettles(env, m, env.order);
    FreshListening(env, m, TryAccept(env, m));
  }

  lemma FreshListening(env: Env, m: Media, r: Media)
    requires AllFresh(m) && !env.held && env.locallyAccepted && Frame(env, m, r)
    requires forall p :: p in m.streams ==> p !in Unsettled(env, r)
    ensures AllListening(m, WaitForStreams(r))
  {
    forall p | p in m.streams
      ensures p in Listening(WaitForStreams(r)) && r.streams[p].receiving == PendingStart
    {
      assert Fresh(m.streams[p]) && StreamStep(env, m.streams[p], r.streams[p]);
      assert ReceiveGoal(env, r.streams[p]) == r.streams[p].receiving;
    }
  }

  /** Accepting an incoming call all of whose streams are fresh, and then asking it to hold, runs the
      base class's accept once per stream. */
  lemma AcceptsPerFreshStream(c: Call)
    requires WellFormed(c) && Fit(c) && AllFresh(c.media)
    requires !c.requested && CanAccept(c) && c.holding.state == Unheld
    ensures var d := DoAccept(c);
            ScannableCall(d) && CallHold.RequestHold(d, true).media.accepts == |c.media.streams.Keys|
  {
    var d := DoAccept(c);
    AcceptFit(c);
    AcceptSummary(c);
    ShapeKeeps(c, d);
    FreshAccepted(c);
    HoldAcceptsPerStream(d);
  }

  lemma FreshAccepted(c: Call)
    requires WellFormed(c) && Fit(c) && AllFresh(c.media) && CanAccept(c) && c.holding.state == Unheld
    ensures var d := DoAccept(c);
            && AllListening(c.media, d.media) && !d.media.accepted && d.media.accepts == 0
            && d.acceptance.accepted == !c.requested && d.holding.state == Unheld
  {
    FreshDeferred(EnvOf(Accepting(c)), c.media);
  }

  // ---- such a call is easily reached

  const HISTORY: seq<MembersChanged<SendingState>> := [MembersChanged(map[7 := Sending], {})]

  const ADD_INITIAL: TreeOp := AddContent(true)
  const ADD_FIRST: TreeOp := AddStream(0, 1, PendingSend, HISTORY, false, [])
  const ADD_SECOND: TreeOp := AddStream(0, 2, PendingSend, HISTORY, false, [])

  const A_STREAM: Stream :=
    Stream(Line(true, map[7 := Sending], HISTORY, false, false, false, []), PendingSend, Stopped, Stopped, false, false)

  /** The call after one and after two streams were added. */
  function WithStreams(c: Call, ps: seq<StreamId>, streams: map<StreamId, Stream>): Call {
    c.(contents := [Content(true, ps)], media := c.media.(streams := streams))
  }

  lemma AttachedIsFresh(env: Env)
    requires !env.locallyAccepted && !env.accepted
    ensures AttachedStream(env, true, PendingSend, HISTORY, false, []) == A_STREAM && Fresh(A_STREAM)
  {
    assert HISTORY[..0] == [];
    assert Replay(HISTORY) == map[7 := Sending];
    assert A_STREAM.line.remote[7] == Sending;
  }

  lemma FirstStream(c: Call)
    requires c.contents == [] && c.media.streams == map[] && !c.acceptance.locally && !c.acceptance.accepted
    ensures TreeStep(TreeStep(c, ADD_INITIAL), ADD_FIRST) == WithStreams(c, [1], map[1 := A_STREAM])
  {
    var d := TreeStep(c, ADD_INITIAL);
    assert d.contents == [Content(true, [])];
    AttachedIsFresh(EnvOf(d));
    var e := TreeStep(d, ADD_FIRST);
    assert [1] + [] == [1];
    assert e.contents == [Content(true, [1])];
    assert e.media.streams == map[1 := A_STREAM];
  }

  lemma SecondStream(c: Call)
    requires !c.acceptance.locally && !c.acceptance.accepted
    ensures TreeStep(WithStreams(c, [1], map[1 := A_STREAM]), ADD_SECOND)
            == WithStreams(c, [2, 1], map[1 := A_STREAM, 2 := A_STREAM])
  {
    var e := WithStreams(c, [1], map[1 := A_STREAM]);
    AttachedIsFresh(EnvOf(e));
    var r := TreeStep(e, ADD_SECOND);
    assert [2] + [1] == [2, 1];
    assert r.contents == [Content(true, [2, 1])];
    assert r.media.streams == map[1 := A_STREAM, 2 := A_STREAM];
  }

  const ADDING: seq<Event> := [OnTree(ADD_INITIAL), OnTree(ADD_FIRST), OnTree(ADD_SECOND)]

  /** The call with two streams is reached, and nothing but its contents has changed. */
  lemma TwoStreamsCall(requested: bool)
    ensures Run(Initial(requested), ADDING) == WithStreams(Initial(requested), [2, 1], map[1 := A_STREAM, 2 := A_STREAM])
  {
    var c := Initial(requested);
    FirstStream(c);
    SecondStream(c);
    ThreeSteps(c, OnTree(ADD_INITIAL), OnTree(ADD_FIRST), OnTree(ADD_SECOND));
  }

  lemma TwoFresh(requested: bool, c: Call)
    requires c == WithStreams(Initial(requested), [2, 1], map[1 := A_STREAM, 2 := A_STREAM])
    ensures AllFresh(c.media) && |c.media.streams.Keys| == 2
    ensures c.requested == requested && CanAccept(c) && c.holding.state == Unheld
  {
    InitialFit(requested);
    AttachedIsFresh(EnvOf(Initial(requested)));
    assert c.media.streams.Keys == {1, 2};
    assert 1 in c.media.streams.Keys;
  }

  predicate IsAcceptThenHold(a: Event, b: Event) {
    a.OnCall? && a.call.Accept? && b.OnCall? && b.call.RequestHold? && b.call.hold
  }

  lemma AcceptThenHold(c: Call, a: Event, b: Event)
    requires WellFormed(c) && Fit(c) && AllFresh(c.media) && IsAcceptThenHold(a, b)
    requires !c.requested && CanAccept(c) && c.holding.state == Unheld
    ensures ScannableCall(Step(c, a)) && Step(Step(c, a), b).media.accepts == |c.media.streams.Keys|
  {
    AcceptsPerFreshStream(c);
    var d := Step(c, a);
    StepIsAccept(c, a);
    StepIsRequestHold(d, b);
  }

  /** Whenever a run leads to an incoming call with fresh streams, accepting it and asking it to hold
      run the base class's accept once per stream. */
  lemma AcceptsPerStreamInRuns(es: seq<Event>, a: Event, b: Event)
    requires (forall k :: 0 <= k < |es| ==> !Forces(es[k])) && IsAcceptThenHold(a, b)
    requires var c := Run(Initial(false), es);
             AllFresh(c.media) && !c.requested && CanAccept(c) && c.holding.state == Unheld
    ensures Run(Initial(false), es + [a] + [b]).media.accepts == |Run(Initial(false), es).media.streams.Keys|
  {
    InitialFit(false);
    RunFit(Initial(false), es);
    AcceptThenHold(Run(Initial(false), es), a, b);
    TwoMore(Initial(false), es, a, b);
  }

  lemma TwoMore(c: Call, es: seq<Event>, a: Event, b: Event)
    requires WellFormed(c)
    ensures ScannableCall(Step(Run(c, es), a)) && Run(c, es + [a] + [b]) == Step(Step(Run(c, es), a), b)
  {
    StepWellFormed(Run(c, es), a);
    RunSnoc(c, es, a);
    RunSnoc(c, es + [a], b);
  }

  lemma TwiceFrom(es: seq<Event>, a: Event, b: Event)
    requires (forall k :: 0 <= k < |es| ==> !Forces(es[k])) && IsAcceptThenHold(a, b)
    requires Run(Initial(false), es) == WithStreams(Initial(false), [2, 1], map[1 := A_STREAM, 2 := A_STREAM])
    ensures Run(Initial(false), es + [a] + [b]).media.accepts == 2
  {
    TwoFresh(false, Run(Initial(false), es));
    AcceptsPerStreamInRuns(es, a, b);
  }

  /** So the base class's accept is not run at most once per call. */
  lemma AcceptRunsTwice()
    ensures exists es :: Run(Initial(false), es).media.accepts == 2
  {
    TwoStreamsCall(false);
    TwiceFrom(ADDING, OnCall(Accept), OnCall(RequestHold(true)));
  }

  // ---- an outgoing call that is held before it is accepted

  /** Nobody has accepted an outgoing call whose accept is deferred, so a request to hold it is granted
      at once and leaves the streams alone. */
  lemma HeldAtOnce(c: Call)
    requires ScannableCall(c) && !c.acceptance.accepted && c.holding.state == Unheld
    ensures var r := CallHold.RequestHold(c, true);
            r.media == c.media && r.holding.state == Held && r.contents == c.contents
  {
    UpdateHoldCases(c.(holding := Holding(PendingHold, Requested, c.holding.log + [HoldChanged(PendingHold, Requested)])));
  }

  /** Then the first report that a stream receives accepts the call, once per stream. */
  lemma ReportPerFreshStream(c: Call, m: Media, p: StreamId)
    requires WellFormed(c) && Fit(c) && IsHeld(c.holding.state) && AllListening(m, c.media) && p in m.streams
    requires !c.media.accepted && c.media.accepts == 0
    ensures DoCompleteReceiving(c, p, Started).media.accepts == |m.streams.Keys|
  {
    HeldReportAccepts(c, p, Started);
    OneLess(m.streams.Keys, p);
  }

  lemma OneLess(ps: set<StreamId>, p: StreamId)
    requires p in ps
    ensures 1 + |ps - {p}| == |ps|
  {
  }

  lemma AcceptHoldReport(c: Call, a: Event, b: Event, p: StreamId)
    requires WellFormed(c) && Fit(c) && AllFresh(c.media) && IsAcceptThenHold(a, b)
    requires c.requested && CanAccept(c) && c.holding.state == Unheld && p in c.media.streams
    ensures var d := Step(c, a);
            && ScannableCall(d) && WellFormed(Step(d, b)) && p in Step(d, b).media.streams
            && DoCompleteReceiving(Step(d, b), p, Started).media.accepts == |c.media.streams.Keys|
  {
    var d := Step(c, a);
    StepIsAccept(c, a);
    FreshAccepted(c);
    StepWellFormed(c, a);
    StepFit(c, a);
    var h := Step(d, b);
    StepIsRequestHold(d, b);
    StepWellFormed(d, b);
    StepFit(d, b);
    HeldAtOnce(d);
    ReportPerFreshStream(h, c.media, p);
  }

  lemma StepIsReport(c: Call, r: Event, p: StreamId)
    requires ScannableCall(c) && p in c.media.streams && IsStartedReport(r, p)
    ensures Step(c, r) == DoCompleteReceiving(c, p, Started)
  {
  }

  predicate IsStartedReport(r: Event, p: StreamId) {
    r.OnStream? && r.p == p && r.stream.CompleteReceiving? && r.stream.flow == Started
  }

  /** Whenever a run leads to an outgoing call with fresh streams, accepting it, asking it to hold and
      reporting that one stream receives run the base class's accept once per stream. */
  lemma ReportsPerStreamInRuns(es: seq<Event>, a: Event, b: Event, r: Event, p: StreamId)
    requires (forall k :: 0 <= k < |es| ==> !Forces(es[k])) && IsAcceptThenHold(a, b) && IsStartedReport(r, p)
    requires var c := Run(Initial(true), es);
             AllFresh(c.media) && c.requested && CanAccept(c) && c.holding.state == Unheld && p in c.media.streams
    ensures Run(Initial(true), es + [a] + [b] + [r]).media.accepts == |Run(Initial(true), es).media.streams.Keys|
  {
    InitialFit(true);
    RunFit(Initial(true), es);
    AcceptHoldReport(Run(Initial(true), es), a, b, p);
    TwoMore(Initial(true), es, a, b);
    RunSnoc(Initial(true), es + [a] + [b], r);
    StepIsReport(Run(Initial(true), es + [a] + [b]), r, p);
  }

  lemma TwiceByReport(es: seq<Event>, a: Event, b: Event, r: Event, p: StreamId)
    requires (forall k :: 0 <= k < |es| ==> !Forces(es[k])) && IsAcceptThenHold(a, b) && IsStartedReport(r, p) && p == 1
    requires Run(Initial(true), es) == WithStreams(Initial(true), [2, 1], map[1 := A_STREAM, 2 := A_STREAM])
    ensures Run(Initial(true), es + [a] + [b] + [r]).media.accepts == 2
  {
    TwoFresh(true, Run(Initial(true), es));
    ReportsPerStreamInRuns(es, a, b, r, p);
  }

  lemma ReportRunsTwice()
    ensures exists es :: Run(Initial(true), es).media.accepts == 2
  {
    TwoStreamsCall(true);
    TwiceByReport(ADDING, OnCall(Accept), OnCall(RequestHold(true)), OnStream(1, CompleteReceiving(Started)), 1);
  }
}
