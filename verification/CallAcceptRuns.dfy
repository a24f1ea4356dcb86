/** How often the base class's accept runs over the life of a call, and when that is more than once. */
module CallAcceptRuns {
  import opened CallTypes
  import opened CallFlow
  import opened CallHold
  import opened CallEngine
  import opened CallSafety
  import opened CallRuns
  import opened CallAcceptDrains
  import opened CallAcceptCount

  // ---- a call that is accepted already

  lemma ReportKeepsCount(c: Call, p: StreamId, t: Stream, receiving: bool, success: bool)
    requires ScannableCall(c) && p in c.media.streams && c.media.accepted
    ensures Report(c, p, t, receiving, success).media.accepts == c.media.accepts
  {
    FlowedCount(Gate(c), Put(c.media, p, t), Report(c, p, t, receiving, success).media);
  }

  lemma NotifiedKeepsCount(c: Call, p: StreamId)
    requires ScannableCall(c) && p in c.media.streams && c.media.accepted
    ensures RemoteMembersNotified(c, p).media.accepts == c.media.accepts
  {
  }

  lemma UpdateRemoteKeepsCount(c: Call, p: StreamId, h: Handle, remote: SendingState)
    requires ScannableCall(c) && p in c.media.streams && c.media.accepted
    ensures DoUpdateRemote(c, p, h, remote).media.accepts == c.media.accepts
  {
    var s := c.media.streams[p];
    var state := GateRemote(c, remote);
    NotifiedKeepsCount(PutCall(c, p, WithRemote(s, s.line.remote[h := state], MembersChanged(map[h := state], {}))), p);
  }

  lemma RemoteOpKeepsCount(c: Call, p: StreamId, op: StreamOp)
    requires ScannableCall(c) && p in c.media.streams && c.media.accepted && IsRemoteOp(op)
    ensures RemoteStep(c, p, op).media.accepts == c.media.accepts
  {
    match op
    case UpdateRemote(h, remote) => UpdateRemoteKeepsCount(c, p, h, remote);
    case RemoveRemote(h) =>
      var s := c.media.streams[p];
      NotifiedKeepsCount(PutCall(c, p, WithRemote(s, s.line.remote - {h}, MembersChanged(map[], {h}))), p);
    case RequestReceiving(h, receive) => RequestReceivingKeepsCount(c, p, h, receive);
  }

  lemma RequestReceivingKeepsCount(c: Call, p: StreamId, h: Handle, receive: bool)
    requires ScannableCall(c) && p in c.media.streams && c.media.accepted
    ensures DoRequestReceiving(c, p, h, receive).media.accepts == c.media.accepts
  {
    var remote := c.media.streams[p].line.remote;
    if h in remote && receive != (remote[h] == Sending || remote[h] == PendingSend) {
      if receive {
        RequestReceivingUpdates(c, p, h);
        UpdateRemoteKeepsCount(c, p, h, PendingSend);
      } else {
        UpdateRemoteKeepsCount(c, p, h, PendingStopSending);
      }
    }
  }

  lemma FlowOpKeepsCount(c: Call, p: StreamId, op: StreamOp)
    requires ScannableCall(c) && p in c.media.streams && c.media.accepted && IsFlowOp(op)
    ensures FlowStep(c, p, op).media.accepts == c.media.accepts
  {
    var s := c.media.streams[p];
    match op
    case CompleteSending(flow) => ReportKeepsCount(c, p, s.(sending := flow), false, true);
    case FailSending => ReportKeepsCount(c, p, FailedSending(s), false, false);
    case CompleteReceiving(flow) => ReportKeepsCount(c, p, s.(receiving := flow), true, true);
    case FailReceiving => ReportKeepsCount(c, p, FailedReceiving(s), true, false);
    case UpdateLocal(_) =>
    case SetSending(_, _) =>
    case WishSending(_) =>
  }

  lemma OneStreamKeepsCount(c: Call, p: StreamId, op: StreamOp)
    requires ScannableCall(c) && p in c.media.streams && c.media.accepted
    ensures OneStreamStep(c, p, op).media.accepts == c.media.accepts
  {
    if IsFlowOp(op) {
      FlowOpKeepsCount(c, p, op);
    } else if IsRemoteOp(op) {
      RemoteOpKeepsCount(c, p, op);
    } else {
      EndpointOpSummary(c, p, op);
    }
  }

  lemma StepKeepsCount(c: Call, e: Event)
    requires WellFormed(c) && c.media.accepted
    ensures Step(c, e).media.accepts == c.media.accepts
  {
    match e
    case OnCall(op) => if op.RequestHold? { FlowedCount(Gate(c), c.media, CallHold.RequestHold(c, op.hold).media); }
    case OnTree(op) => assert TreeStep(c, op).media.accepts == c.media.accepts;
    case OnStream(p, op) => if p in c.media.streams { OneStreamKeepsCount(c, p, op); }
  }

  // ---- runs

  /** How often the event runs the base class's accept. */
  function Adds(c: Call, e: Event): nat {
    if c.media.accepted then 0 else Growth(c, e)
  }

  lemma StepAdds(c: Call, e: Event)
    requires WellFormed(c) && Fit(c)
    ensures Step(c, e).media.accepts == c.media.accepts + Adds(c, e)
  {
    if c.media.accepted {
      StepKeepsCount(c, e);
    } else {
      StepGrows(c, e);
    }
  }

  ghost function AddsOver(c: Call, es: seq<Event>): nat
    requires WellFormed(c)
    decreases |es|
  {
    if es == [] then 0
    else
      StepWellFormed(c, es[0]);
      Adds(c, es[0]) + AddsOver(Step(c, es[0]), es[1..])
  }

  /** No event of the run adds two or more. */
  ghost predicate NeverTwice(c: Call, es: seq<Event>)
    requires WellFormed(c)
    decreases |es|
  {
    es == [] || (Adds(c, es[0]) <= 1 && (StepWellFormed(c, es[0]); NeverTwice(Step(c, es[0]), es[1..])))
  }

  predicate NoForce(es: seq<Event>) {
    forall k :: 0 <= k < |es| ==> !Forces(es[k])
  }

  lemma {:induction false} RunAdds(c: Call, es: seq<Event>)
    requires WellFormed(c) && Fit(c) && NoForce(es)
    ensures Run(c, es).media.accepts == c.media.accepts + AddsOver(c, es)
    decreases |es|
  {
    if es != [] {
      StepAdds(c, es[0]);
      StepFit(c, es[0]);
      StepWellFormed(c, es[0]);
      RunAdds(Step(c, es[0]), es[1..]);
    }
  }

  lemma {:induction false} NothingMore(c: Call, es: seq<Event>)
    requires WellFormed(c) && Fit(c) && NoForce(es) && c.media.accepted
    ensures AddsOver(c, es) == 0 && NeverTwice(c, es)
    decreases |es|
  {
    if es != [] {
      StepAdds(c, es[0]);
      StepFit(c, es[0]);
      StepWellFormed(c, es[0]);
      NothingMore(Step(c, es[0]), es[1..]);
    }
  }

  lemma {:induction false} OnceExactlyFrom(c: Call, es: seq<Event>)
    requires WellFormed(c) && Fit(c) && NoForce(es)
    ensures AddsOver(c, es) <= 1 <==> NeverTwice(c, es)
    decreases |es|
  {
    if es != [] {
      StepAdds(c, es[0]);
      StepFit(c, es[0]);
      StepWellFormed(c, es[0]);
      if Adds(c, es[0]) > 0 {
        NothingMore(Step(c, es[0]), es[1..]);
      } else {
        OnceExactlyFrom(Step(c, es[0]), es[1..]);
      }
    }
  }

  /** In every run the base class's accept has run as often as the events add up to, and it has run at
      most once exactly if no event of the run adds two or more. */
  lemma AcceptsOnceExactly(requested: bool, es: seq<Event>)
    requires NoForce(es)
    ensures var c := Initial(requested);
            && Run(c, es).media.accepts == AddsOver(c, es)
            && (Run(c, es).media.accepts <= 1 <==> NeverTwice(c, es))
  {
    InitialFit(requested);
    RunAdds(Initial(requested), es);
    OnceExactlyFrom(Initial(requested), es);
  }

  // ---- which events add two or more

  predicate Holds(e: Event) {
    e.OnCall? && e.call.RequestHold?
  }

  /** While the accept is deferred, the call is not held or pending a hold change, and nobody asks it
      to hold. */
  predicate Undisturbed(c: Call, e: Event) {
    c.media.accepted || !AnyWaiting(c.media) || (c.holding.state == Unheld && !Holds(e))
  }

  lemma NobodyListens(m: Media)
    requires !AnyWaiting(m)
    ensures Listening(m) == {} && Wanting(m) == {}
  {
  }

  lemma UndisturbedOnce(c: Call, e: Event)
    requires Undisturbed(c, e)
    ensures Adds(c, e) <= 1
  {
    if !AnyWaiting(c.media) {
      NobodyListens(c.media);
    }
  }

  ghost predicate AllUndisturbed(c: Call, es: seq<Event>)
    requires WellFormed(c)
    decreases |es|
  {
    es == [] || (Undisturbed(c, es[0]) && (StepWellFormed(c, es[0]); AllUndisturbed(Step(c, es[0]), es[1..])))
  }

  lemma {:induction false} UndisturbedNeverTwice(c: Call, es: seq<Event>)
    requires WellFormed(c) && AllUndisturbed(c, es)
    ensures NeverTwice(c, es)
    decreases |es|
  {
    if es != [] {
      UndisturbedOnce(c, es[0]);
      StepWellFormed(c, es[0]);
      UndisturbedNeverTwice(Step(c, es[0]), es[1..]);
    }
  }

  /** A call that is not held, and not asked to hold, while its accept is deferred runs the base class's
      accept at most once in its life, whatever the streams report and in whatever order; it may be held
      before it is accepted and after the accept is done. */
  lemma AcceptsAtMostOnce(requested: bool, es: seq<Event>)
    requires AllUndisturbed(Initial(requested), es) && NoForce(es)
    ensures Run(Initial(requested), es).media.accepts <= 1
  {
    UndisturbedNeverTwice(Initial(requested), es);
    AcceptsOnceExactly(requested, es);
  }

  /** On a held call whose accept is deferred, a report about one waiting stream runs the base class's
      accept once, and once more for every other waiting stream that receives or is about to. */
  lemma HeldReportAccepts(c: Call, p: StreamId, flow: FlowState)
    requires WellFormed(c) && Fit(c) && !c.media.accepted && IsHeld(c.holding.state)
    requires p in c.media.streams && c.media.streams[p].waiting && CorrectTransition(c.media.streams[p].receiving, flow)
    ensures DoCompleteReceiving(c, p, flow).media.accepts == c.media.accepts + 1 + |Listening(c.media) - {p}|
  {
    CompleteReceivingCount(c, p, flow);
    OthersListen(c.media, p, c.media.streams[p].(receiving := flow));
  }

  lemma OthersListen(m: Media, p: StreamId, t: Stream)
    ensures Listening(Put(m, p, t)) - {p} == Listening(m) - {p}
  {
  }
}
