/** A call whose unhold no report completes. */
module CallUnholdStuck {
  import opened CallTypes
  import opened CallHold
  import opened CallEngine
  import opened CallSafety
  import opened CallRuns
  import opened CallCompletion
  import opened CallUnhold
  import opened CallStateEvents
  import opened CallStreamEvents

  /** The call is accepted on both levels. */
  predicate FullyAccepted(c: Call) {
    c.acceptance.accepted && c.media.accepted && c.holding.state == Unheld
  }

  lemma AcceptedAtOnce(c: Call)
    requires c == Initial(false)
    ensures var r := Step(c, OnCall(Accept));
            FullyAccepted(r) && r.contents == [] && r.media.streams == map[]
  {
    InitialFit(false);
    AcceptEffect(c);
    StepIsAccept(c, OnCall(Accept));
    AcceptBegins(c);
    assert DoAccept(c).media.streams.Keys == {};
  }

  /** A stream that is to send, but that nobody wants to send on. */
  predicate Unwanted(c: Call, p: StreamId) {
    p in c.media.streams && c.media.streams[p].local == Sending && !c.media.streams[p].localSending
  }

  lemma UnwantedJoins(c: Call, p: StreamId)
    requires ScannableCall(c) && FullyAccepted(c) && c.contents == [] && c.media.streams == map[]
    ensures var d := Step(c, OnTree(AddContent(true)));
            && ScannableCall(d)
            && var r := Step(d, OnTree(AddStream(0, p, Sending, [], false, []))); FullyAccepted(r) && Unwanted(r, p)
  {
    AddContentEffect(c, true);
    var d := Step(c, OnTree(AddContent(true)));
    assert Order(d.contents) == [];
    AddStreamEffect(d, 0, p, Sending, [], false, []);
  }

  lemma UnwantedHeld(c: Call, p: StreamId)
    requires WellFormed(c) && Fit(c) && FullyAccepted(c) && Unwanted(c, p)
    ensures var r := Step(c, OnCall(RequestHold(true)));
            IsHeld(r.holding.state) && r.acceptance.accepted && r.media.accepted && Unwanted(r, p)
  {
    RequestSignals(c, true);
    StepIsRequestHold(c, OnCall(RequestHold(true)));
    RequestUnfolds(c, true);
    var d := Asking(c, true, Requested);
    UpdateHoldCases(d);
    AcceptedHoldScan(EnvOf(d), d.media, Order(d.contents));
  }

  /** The events that lead there. */
  const STUCK: seq<Event> :=
    [OnCall(Accept), OnTree(AddContent(true)), OnTree(AddStream(0, 1, Sending, [], false, []))] + [OnCall(RequestHold(true))]

  lemma JoinedCall(c: Call, a: Event, b: Event, d: Event)
    requires c == Initial(false) && a == OnCall(Accept) && b == OnTree(AddContent(true))
    requires d == OnTree(AddStream(0, 1, Sending, [], false, []))
    ensures FullyAccepted(Run(c, [a, b, d])) && Unwanted(Run(c, [a, b, d]), 1)
  {
    AcceptedAtOnce(c);
    StepWellFormed(c, a);
    UnwantedJoins(Step(c, a), 1);
    ThreeSteps(c, a, b, d);
  }

  lemma StuckCall() returns (c: Call)
    ensures c == Run(Initial(false), STUCK) && WellFormed(c) && Fit(c)
    ensures IsHeld(c.holding.state) && c.acceptance.accepted && c.media.accepted && Unwanted(c, 1)
  {
    var a, b, d := OnCall(Accept), OnTree(AddContent(true)), OnTree(AddStream(0, 1, Sending, [], false, []));
    JoinedCall(Initial(false), a, b, d);
    c := HeldCall([a, b, d], OnCall(RequestHold(true)));
  }

  lemma HeldCall(es: seq<Event>, e: Event) returns (c: Call)
    requires (forall k :: 0 <= k < |es| ==> !Forces(es[k])) && e == OnCall(RequestHold(true))
    requires FullyAccepted(Run(Initial(false), es)) && Unwanted(Run(Initial(false), es), 1)
    ensures c == Run(Initial(false), es + [e]) && WellFormed(c) && Fit(c)
    ensures IsHeld(c.holding.state) && c.acceptance.accepted && c.media.accepted && Unwanted(c, 1)
  {
    InitialFit(false);
    RunFit(Initial(false), es);
    UnwantedHeld(Run(Initial(false), es), 1);
    RunSnoc(Initial(false), es, e);
    c := Run(Initial(false), es + [e]);
    StepFit(Run(Initial(false), es), e);
  }

  /** A run that ends a hold, after which no reports that flows started make the call UNHELD. */
  lemma UnholdStuck(es: seq<Event>)
    requires AllReports(es)
    ensures Run(Initial(false), STUCK + [OnCall(RequestHold(false))] + es).holding.state == PendingUnhold
  {
    var c := StuckCall();
    NeverUnheld(c, OnCall(RequestHold(false)), es, 1);
    RunSnoc(Initial(false), STUCK, OnCall(RequestHold(false)));
    RunAppend(Initial(false), STUCK + [OnCall(RequestHold(false))], es);
  }
}
