/** Runs of the call engine, and what one event changes outside the flows. */
module CallRuns {
  import opened CallTypes
  import opened CallFlow
  import opened CallHold
  import opened CallEngine
  import opened CallSafety

  /** The same line, whatever failure is being reported. */
  predicate SameLine(l: Line, k: Line) {
    k == l.(sendingFailure := k.sendingFailure, receivingFailure := k.receivingFailure)
  }

  predicate SameLines(m: Media, r: Media) {
    r.streams.Keys == m.streams.Keys && forall q :: q in m.streams ==> SameLine(m.streams[q].line, r.streams[q].line)
  }

  /** Only flows and the hold state differ. */
  predicate FlowSummary(c: Call, r: Call) {
    && r == c.(media := r.media, holding := r.holding)
    && SameLines(c.media, r.media)
  }

  /** Only flows and the remote members of the stream `p` differ. */
  predicate RemoteSummary(c: Call, p: StreamId, r: Call) {
    && r == c.(media := r.media)
    && r.media.streams.Keys == c.media.streams.Keys
    && (forall q :: q in c.media.streams && q != p ==> SameLine(c.media.streams[q].line, r.media.streams[q].line))
    && (p in c.media.streams ==>
          var l, k := c.media.streams[p].line, r.media.streams[p].line;
          SameLine(l.(remote := k.remote, remoteLog := k.remoteLog), k))
  }

  /** Only the call state, acceptance and flows differ. */
  predicate StateSummary(c: Call, r: Call) {
    && r == c.(media := r.media, status := r.status, acceptance := r.acceptance)
    && SameLines(c.media, r.media)
  }

  // ---- events about flows

  lemma FlowTrans(c: Call, d: Call, e: Call)
    requires FlowSummary(c, d) && FlowSummary(d, e)
    ensures FlowSummary(c, e)
  {
  }

  lemma FlowPut(c: Call, p: StreamId, t: Stream)
    requires p in c.media.streams && SameLine(c.media.streams[p].line, t.line)
    ensures FlowSummary(c, PutCall(c, p, t))
  {
  }

  lemma FlowHold(c: Call, r: Call)
    requires HoldFrame(c, r)
    ensures FlowSummary(c, r)
  {
    forall q | q in c.media.streams
      ensures SameLine(c.media.streams[q].line, r.media.streams[q].line)
    {
      assert StreamFlowed(Gate(c), c.media.streams[q], r.media.streams[q]);
    }
  }

  lemma ReportSummary(c: Call, p: StreamId, t: Stream, receiving: bool, success: bool)
    requires ScannableCall(c) && p in c.media.streams && SameLine(c.media.streams[p].line, t.line)
    ensures FlowSummary(c, Report(c, p, t, receiving, success))
  {
    FlowPut(c, p, t);
    FlowHold(PutCall(c, p, t), Report(c, p, t, receiving, success));
    FlowTrans(c, PutCall(c, p, t), Report(c, p, t, receiving, success));
  }

  lemma ForgetSummary(c: Call, e: Call, p: StreamId, u: Stream)
    requires FlowSummary(c, e) && p in e.media.streams && SameLine(e.media.streams[p].line, u.line)
    ensures FlowSummary(c, PutCall(e, p, u))
  {
    FlowPut(e, p, u);
    FlowTrans(c, e, PutCall(e, p, u));
  }

  lemma FailSendingUnfolds(c: Call, p: StreamId, e: Call)
    requires ScannableCall(c) && p in c.media.streams
    requires e == Report(c, p, FailedSending(c.media.streams[p]), false, false)
    ensures DoFailSending(c, p) == if c.media.streams[p].sending == Stopped then c
                                   else PutCall(e, p, SendingForgotten(e.media.streams[p], c.holding.state != Unheld))
  {
  }

  lemma FailSendingSummary(c: Call, p: StreamId)
    requires ScannableCall(c) && p in c.media.streams
    ensures FlowSummary(c, DoFailSending(c, p))
  {
    var t := FailedSending(c.media.streams[p]);
    var e := Report(c, p, t, false, false);
    ReportSummary(c, p, t, false, false);
    FailSendingUnfolds(c, p, e);
    ForgetSummary(c, e, p, SendingForgotten(e.media.streams[p], c.holding.state != Unheld));
  }

  lemma FailReceivingUnfolds(c: Call, p: StreamId, e: Call)
    requires ScannableCall(c) && p in c.media.streams
    requires e == Report(c, p, FailedReceiving(c.media.streams[p]), true, false)
    ensures DoFailReceiving(c, p) == if c.media.streams[p].receiving == Stopped then c
                                     else PutCall(e, p, ReceivingForgotten(e.media.streams[p]))
  {
  }

  lemma FailReceivingSummary(c: Call, p: StreamId)
    requires ScannableCall(c) && p in c.media.streams
    ensures FlowSummary(c, DoFailReceiving(c, p))
  {
    var t := FailedReceiving(c.media.streams[p]);
    var e := Report(c, p, t, true, false);
    ReportSummary(c, p, t, true, false);
    FailReceivingUnfolds(c, p, e);
    ForgetSummary(c, e, p, ReceivingForgotten(e.media.streams[p]));
  }

  lemma CompleteSendingSummary(c: Call, p: StreamId, flow: FlowState)
    requires ScannableCall(c) && p in c.media.streams
    ensures FlowSummary(c, DoCompleteSending(c, p, flow))
  {
    ReportSummary(c, p, c.media.streams[p].(sending := flow), false, true);
  }

  lemma CompleteReceivingSummary(c: Call, p: StreamId, flow: FlowState)
    requires ScannableCall(c) && p in c.media.streams
    ensures FlowSummary(c, DoCompleteReceiving(c, p, flow))
  {
    ReportSummary(c, p, c.media.streams[p].(receiving := flow), true, true);
  }

  lemma UpdateLocalSummary(c: Call, p: StreamId, local: SendingState)
    requires p in c.media.streams
    ensures FlowSummary(c, DoUpdateLocal(c, p, local))
  {
    FlowPut(c, p, c.media.streams[p].(local := GateLocal(EnvOf(c), local)));
  }

  lemma WishSummary(c: Call, p: StreamId, wish: bool)
    requires p in c.media.streams
    ensures FlowSummary(c, PutCall(c, p, WithLocalSending(EnvOf(c), c.media.streams[p], wish)))
  {
    FlowPut(c, p, WithLocalSending(EnvOf(c), c.media.streams[p], wish));
  }

  lemma SetSendingSummary(c: Call, p: StreamId, send: bool, hook: bool)
    requires p in c.media.streams
    ensures FlowSummary(c, DoSetSending(c, p, send, hook))
  {
    var d := PutCall(c, p, WithLocalSending(EnvOf(c), c.media.streams[p], false));
    UpdateLocalSummary(c, p, if send then Sending else NotSending);
    WishSummary(c, p, false);
    UpdateLocalSummary(d, p, NotSending);
    FlowTrans(c, d, DoUpdateLocal(d, p, NotSending));
  }

  lemma FlowOpSummary(c: Call, p: StreamId, op: StreamOp)
    requires ScannableCall(c) && p in c.media.streams && IsFlowOp(op)
    ensures FlowSummary(c, FlowStep(c, p, op))
  {
    match op
    case CompleteSending(flow) => CompleteSendingSummary(c, p, flow);
    case FailSending => FailSendingSummary(c, p);
    case CompleteReceiving(flow) => CompleteReceivingSummary(c, p, flow);
    case FailReceiving => FailReceivingSummary(c, p);
    case UpdateLocal(local) => UpdateLocalSummary(c, p, local);
    case SetSending(send, hook) => SetSendingSummary(c, p, send, hook);
    case WishSending(wish) => WishSummary(c, p, wish);
  }

  // ---- events about remote members

  lemma ProgressLines(env: Env, m: Media, r: Media)
    requires Progress(env, m, r)
    ensures r.streams.Keys == m.streams.Keys
    ensures forall q :: q in m.streams ==> r.streams[q].line == m.streams[q].line
  {
    forall q | q in m.streams
      ensures r.streams[q].line == m.streams[q].line
    {
      assert StreamStep(env, m.streams[q], r.streams[q]);
    }
  }

  /** After a change of remote members the lines are those of the edited call. */
  lemma NotifiedLines(c: Call, p: StreamId)
    requires ScannableCall(c) && p in c.media.streams
    ensures var r := RemoteMembersNotified(c, p);
            && r == c.(media := r.media) && r.media.streams.Keys == c.media.streams.Keys
            && (forall q :: q in c.media.streams ==> r.media.streams[q].line == c.media.streams[q].line)
  {
    var m := UpdateReceiving(EnvOf(c), c.media, p);
    ProgressLines(EnvOf(c), c.media, m);
    if m.streams[p].waiting {
      ProgressLines(EnvOf(c), m, HandlerPass(EnvOf(c), m, p));
    }
  }

  /** The signal about the remote members of `p` that the event would send. */
  function RemoteChange(c: Call, op: StreamOp): MembersChanged<SendingState>
    requires op.UpdateRemote? || op.RemoveRemote? || op.RequestReceiving?
  {
    match op
    case UpdateRemote(h, remote) => MembersChanged(map[h := GateRemote(c, remote)], {})
    case RemoveRemote(h) => MembersChanged(map[], {h})
    case RequestReceiving(h, receive) => MembersChanged(map[h := if receive then PendingSend else PendingStopSending], {})
  }

  /** The line `k` is the line `l`, or `l` after the change and its signal. */
  predicate LineChanged(l: Line, k: Line, change: MembersChanged<SendingState>) {
    || k == l
    || (k.remote == (l.remote + change.updates) - change.removed && k.remoteLog == l.remoteLog + [change]
        && k.remotelyHeld == l.remotelyHeld)
  }

  predicate RemoteEffect(c: Call, p: StreamId, r: Call, change: MembersChanged<SendingState>) {
    && p in c.media.streams && RemoteSummary(c, p, r)
    && LineChanged(c.media.streams[p].line, r.media.streams[p].line, change)
  }

  lemma NotifiedEffect(c: Call, p: StreamId, remote: map<Handle, SendingState>, change: MembersChanged<SendingState>)
    requires ScannableCall(c) && p in c.media.streams
    requires remote == (c.media.streams[p].line.remote + change.updates) - change.removed
    ensures RemoteEffect(c, p, RemoteMembersNotified(PutCall(c, p, WithRemote(c.media.streams[p], remote, change)), p), change)
  {
    NotifiedLines(PutCall(c, p, WithRemote(c.media.streams[p], remote, change)), p);
  }

  lemma UpdateRemoteEffect(c: Call, p: StreamId, h: Handle, remote: SendingState)
    requires ScannableCall(c) && p in c.media.streams
    ensures RemoteEffect(c, p, DoUpdateRemote(c, p, h, remote), MembersChanged(map[h := GateRemote(c, remote)], {}))
  {
    var l := c.media.streams[p].line;
    var state := GateRemote(c, remote);
    assert l.remote[h := state] == (l.remote + map[h := state]) - {};
    NotifiedEffect(c, p, l.remote[h := state], MembersChanged(map[h := state], {}));
  }

  lemma RemoveRemoteEffect(c: Call, p: StreamId, h: Handle)
    requires ScannableCall(c) && p in c.media.streams
    ensures RemoteEffect(c, p, DoRemoveRemote(c, p, h), MembersChanged(map[], {h}))
  {
    var l := c.media.streams[p].line;
    assert l.remote - {h} == (l.remote + map[]) - {h};
    NotifiedEffect(c, p, l.remote - {h}, MembersChanged(map[], {h}));
  }

  lemma RequestReceivingEffect(c: Call, p: StreamId, h: Handle, receive: bool)
    requires ScannableCall(c) && p in c.media.streams
    ensures RemoteEffect(c, p, DoRequestReceiving(c, p, h, receive),
                         MembersChanged(map[h := if receive then PendingSend else PendingStopSending], {}))
  {
    if receive {
      UpdateRemoteEffect(c, p, h, PendingSend);
      UpdateRemoteKeeps(c, p, h, PendingSend);
      var d := DoUpdateRemote(c, p, h, PendingSend);
      ProgressLines(EnvOf(d), d.media, UpdateReceiving(EnvOf(d), d.media, p));
    } else {
      UpdateRemoteEffect(c, p, h, PendingStopSending);
    }
  }

  lemma RemoteOpEffect(c: Call, p: StreamId, op: StreamOp)
    requires ScannableCall(c) && p in c.media.streams && IsRemoteOp(op)
    ensures RemoteEffect(c, p, RemoteStep(c, p, op), RemoteChange(c, op))
  {
    match op
    case UpdateRemote(h, remote) => UpdateRemoteEffect(c, p, h, remote);
    case RemoveRemote(h) => RemoveRemoteEffect(c, p, h);
    case RequestReceiving(h, receive) => RequestReceivingEffect(c, p, h, receive);
  }

  /** RequestReceiving says something about members only. */
  lemma RequestReceivingMember(c: Call, p: StreamId, h: Handle, receive: bool)
    requires ScannableCall(c) && p in c.media.streams && h !in c.media.streams[p].line.remote
    ensures DoRequestReceiving(c, p, h, receive) == c
  {
  }

  // ---- events about the call state

  lemma AcceptSummary(c: Call)
    requires ScannableCall(c)
    ensures StateSummary(c, DoAccept(c))
  {
    if CanAccept(c) {
      var d := Accepting(c);
      ProgressLines(EnvOf(d), d.media, TryAccept(EnvOf(d), d.media));
    }
  }

  lemma RemoteAcceptSummary(c: Call)
    ensures StateSummary(c, DoRemoteAccept(c))
  {
  }

  predicate IsStateOp(op: CallOp) {
    op.Register? || op.Accept? || op.RemoteAccept? || op.Hangup? || op.SetRinging? || op.SetQueued? || op.ForceState?
  }

  lemma StateOpSummary(c: Call, op: CallOp)
    requires ScannableCall(c) && IsStateOp(op)
    ensures StateSummary(c, CallStep(c, op))
  {
    match op
    case Accept => AcceptSummary(c);
    case RemoteAccept => RemoteAcceptSummary(c);
    case Register =>
    case Hangup =>
    case SetRinging =>
    case SetQueued =>
    case ForceState(_) =>
  }

  // ---- events about the members

  /** Only the roster, the remote hold of the streams and their flows differ. */
  predicate RosterSummary(c: Call, r: Call) {
    && r == c.(media := r.media, roster := r.roster)
    && r.media.streams.Keys == c.media.streams.Keys
    && (forall q :: q in c.media.streams ==>
          SameLine(c.media.streams[q].line.(remotelyHeld := r.media.streams[q].line.remotelyHeld), r.media.streams[q].line))
  }

  lemma RosterOpSummary(c: Call, op: CallOp)
    requires ScannableCall(c) && (op.UpdateMember? || op.RemoveMember?)
    ensures RosterSummary(c, CallStep(c, op))
  {
    match op
    case UpdateMember(h, flags) => CheckSummary(c, UpdatedRoster(c.roster, h, flags));
    case RemoveMember(h) => CheckSummary(c, ReducedRoster(c.roster, h));
  }

  lemma CheckSummary(c: Call, roster: Roster)
    ensures RosterSummary(c, CheckRemoteHold(c.(roster := roster)))
  {
    var d := c.(roster := roster);
    forall q | q in c.media.streams
      ensures var t := RemoteHoldStream(EnvOf(d), roster.members, c.media.streams[q]);
              t.line == c.media.streams[q].line.(remotelyHeld := t.line.remotelyHeld)
    {
    }
  }

  // ---- the tree survives every event

  predicate SameShape(c: Call, r: Call) {
    && r.contents == c.contents
    && r.media.streams.Keys == c.media.streams.Keys
    && (forall p :: p in c.media.streams ==> r.media.streams[p].line.initial == c.media.streams[p].line.initial)
  }

  lemma ShapeKeeps(c: Call, r: Call)
    requires WellFormed(c) && SameShape(c, r)
    ensures WellFormed(r)
  {
    SameTree(c.contents, c.media.streams, r.media.streams);
  }

  lemma CallStepShape(c: Call, op: CallOp)
    requires ScannableCall(c)
    ensures SameShape(c, CallStep(c, op))
  {
    if IsStateOp(op) {
      StateOpSummary(c, op);
    } else if op.RequestHold? {
      FlowHold(c, CallHold.RequestHold(c, op.hold));
    } else {
      RosterOpSummary(c, op);
    }
  }

  /** Only the call state and the endpoints of the stream `p` differ. */
  predicate EndpointSummary(c: Call, p: StreamId, r: Call) {
    && r == c.(media := r.media, status := r.status)
    && p in c.media.streams && p in r.media.streams
    && r.media == Put(c.media, p, c.media.streams[p].(
         line := c.media.streams[p].line.(endpoints := r.media.streams[p].line.endpoints)))
  }

  lemma EndpointOpSummary(c: Call, p: StreamId, op: StreamOp)
    requires ScannableCall(c) && p in c.media.streams && IsEndpointOp(op)
    ensures EndpointSummary(c, p, EndpointStep(c, p, op))
  {
    if !op.AddEndpoint? && op.k >= |c.media.streams[p].line.endpoints| {
      PutBack(c, p);
    }
  }

  lemma RemoteShape(c: Call, p: StreamId, r: Call)
    requires RemoteSummary(c, p, r)
    ensures SameShape(c, r)
  {
  }

  lemma OneStreamShape(c: Call, p: StreamId, op: StreamOp)
    requires ScannableCall(c) && p in c.media.streams
    ensures SameShape(c, OneStreamStep(c, p, op))
  {
    if IsFlowOp(op) {
      FlowOpSummary(c, p, op);
    } else if IsRemoteOp(op) {
      RemoteOpEffect(c, p, op);
      RemoteShape(c, p, RemoteStep(c, p, op));
    } else {
      EndpointOpSummary(c, p, op);
    }
  }

  /** Every event leaves a well-formed tree. */
  lemma StepWellFormed(c: Call, e: Event)
    requires WellFormed(c)
    ensures WellFormed(Step(c, e))
  {
    match e
    case OnCall(op) =>
      CallStepShape(c, op);
      ShapeKeeps(c, CallStep(c, op));
    case OnTree(op) => TreeKeeps(c, op);
    case OnStream(p, op) =>
      if p in c.media.streams {
        OneStreamShape(c, p, op);
        ShapeKeeps(c, OneStreamStep(c, p, op));
      }
  }

  // ---- runs

  ghost function Run(c: Call, es: seq<Event>): (r: Call)
    requires WellFormed(c)
    ensures WellFormed(r)
    decreases |es|
  {
    if es == [] then c
    else
      StepWellFormed(c, es[0]);
      Run(Step(c, es[0]), es[1..])
  }

  /** What holds at first and is kept by every event of the run, counted from `n`, holds at its end. */
  lemma {:induction false} RunKeeps(c: Call, es: seq<Event>, n: nat, inv: (Call, nat) -> bool)
    requires WellFormed(c) && n <= |es| && inv(c, n)
    requires forall d, j :: n <= j < |es| && WellFormed(d) && inv(d, j) ==> inv(Step(d, es[j]), j + 1)
    ensures inv(Run(c, es[n..]), |es|)
    decreases |es| - n
  {
    if n < |es| {
      StepWellFormed(c, es[n]);
      assert es[n..][0] == es[n] && es[n..][1..] == es[n + 1..];
      RunKeeps(Step(c, es[n]), es, n + 1, inv);
    }
  }

  lemma {:induction false} RunSnoc(c: Call, es: seq<Event>, e: Event)
    requires WellFormed(c)
    ensures Run(c, es + [e]) == Step(Run(c, es), e)
    decreases |es|
  {
    if es == [] {
      assert ([] + [e])[1..] == [];
      StepWellFormed(c, e);
    } else {
      StepWellFormed(c, es[0]);
      assert (es + [e])[1..] == es[1..] + [e];
      RunSnoc(Step(c, es[0]), es[1..], e);
    }
  }

  lemma ThreeSteps(c: Call, e0: Event, e1: Event, e2: Event)
    requires WellFormed(c)
    ensures Run(c, [e0, e1, e2]) == (StepWellFormed(c, e0); StepWellFormed(Step(c, e0), e1); Step(Step(Step(c, e0), e1), e2))
  {
    StepWellFormed(c, e0);
    var d := Step(c, e0);
    StepWellFormed(d, e1);
    var e := Step(d, e1);
    StepWellFormed(e, e2);
    assert [e0, e1, e2][1..] == [e1, e2];
    assert [e1, e2][1..] == [e2];
    assert [e2][1..] == [];
    assert Run(e, [e2]) == Step(e, e2);
  }

  lemma {:induction false} RunAppend(c: Call, es: seq<Event>, more: seq<Event>)
    requires WellFormed(c)
    ensures Run(c, es + more) == Run(Run(c, es), more)
    decreases |es|
  {
    if es == [] {
      assert es + more == more;
    } else {
      StepWellFormed(c, es[0]);
      assert (es + more)[1..] == es[1..] + more;
      RunAppend(Step(c, es[0]), es[1..], more);
    }
  }

  lemma StepIsAccept(c: Call, e: Event)
    requires ScannableCall(c) && e.OnCall? && e.call.Accept?
    ensures Step(c, e) == DoAccept(c)
  {
  }

  lemma StepIsRequestHold(c: Call, e: Event)
    requires ScannableCall(c) && e.OnCall? && e.call.RequestHold?
    ensures Step(c, e) == CallHold.RequestHold(c, e.call.hold)
  {
  }

  predicate Forces(e: Event) {
    e.OnCall? && e.call.ForceState?
  }

  lemma StepFit(c: Call, e: Event)
    requires WellFormed(c) && Fit(c) && !Forces(e)
    ensures Fit(Step(c, e))
  {
    match e
    case OnCall(op) => CallStepFit(c, op);
    case OnTree(op) =>
      TreeKeeps(c, op);
      TreeStepSound(c, op);
    case OnStream(p, op) => if p in c.media.streams { OneStreamFit(c, p, op); }
  }

  lemma {:induction false} RunFit(c: Call, es: seq<Event>)
    requires WellFormed(c) && Fit(c) && forall k :: 0 <= k < |es| ==> !Forces(es[k])
    ensures Fit(Run(c, es))
    decreases |es|
  {
    if es != [] {
      StepFit(c, es[0]);
      StepWellFormed(c, es[0]);
      RunFit(Step(c, es[0]), es[1..]);
    }
  }

  lemma InitialFit(requested: bool)
    ensures Fit(Initial(requested))
    ensures Initial(requested).status.state == if requested then PendingInitiator else Initialised
  {
    var c := Initial(requested);
    assert c.contents == [] && c.media.streams == map[];
    assert Order([]) == [];
  }
}
