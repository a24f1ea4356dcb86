/** What accepting does to the sending states of the streams, whatever event makes the call accept. */
module CallAcceptDrains {
  import opened CallTypes
  import opened CallFlow
  import opened CallAccept
  import opened CallHold
  import opened CallEngine
  import opened CallSafety
  import opened CallRuns

  /** If the call was accepted on the way from `m` to `r`, no initial stream is left pending, and only
      pending streams of initial contents changed their local sending state. */
  predicate DrainStep(m: Media, r: Media) {
    r.accepted && !m.accepted ==>
      && Drained(r)
      && (forall q :: q in m.streams && q in r.streams && r.streams[q].local != m.streams[q].local ==>
            m.streams[q].line.initial && m.streams[q].local == PendingSend && r.streams[q].local == Sending)
  }

  lemma FlowedDrains(m: Media, r: Media)
    requires Flowed(true, m, r)
    ensures DrainStep(m, r)
  {
    forall q | q in m.streams && r.streams[q].local != m.streams[q].local
      ensures m.streams[q].line.initial && m.streams[q].local == PendingSend && r.streams[q].local == Sending
    {
      assert StreamFlowed(true, m.streams[q], r.streams[q]);
    }
  }

  lemma ProgressDrains(env: Env, m: Media, r: Media)
    requires Progress(env, m, r) && (env.accepted || env.requested)
    ensures DrainStep(m, r)
  {
    forall q | q in m.streams && r.streams[q].local != m.streams[q].local
      ensures m.streams[q].line.initial && m.streams[q].local == PendingSend && r.streams[q].local == Sending
    {
      assert StreamStep(env, m.streams[q], r.streams[q]);
    }
  }

  /** An event accepts only on behalf of a D-Bus Accept, so the gate is open. */
  lemma AcceptingOpens(c: Call)
    requires Fit(c) && (AnyWaiting(c.media) || c.media.accepted)
    ensures Gate(c)
  {
  }

  lemma ReportDrains(c: Call, p: StreamId, t: Stream, receiving: bool, success: bool)
    requires Fit(c) && p in c.media.streams && Reported(c.media.streams[p], t)
    ensures DrainStep(c.media, Report(c, p, t, receiving, success).media)
  {
    var m := Put(c.media, p, t);
    var r := Report(c, p, t, receiving, success).media;
    if r.accepted && !c.media.accepted {
      assert AnyWaiting(m) ==> AnyWaiting(c.media);
      AcceptingOpens(c);
      FlowedDrains(m, r);
      PutDrains(c.media, p, t, r);
    }
  }

  lemma PutDrains(m: Media, p: StreamId, t: Stream, r: Media)
    requires p in m.streams && t.local == m.streams[p].local && t.line.initial == m.streams[p].line.initial
    requires DrainStep(Put(m, p, t), r)
    ensures DrainStep(m, r)
  {
  }

  lemma NotifiedDrains(c: Call, p: StreamId, t: Stream)
    requires Fit(c) && p in c.media.streams && RemotesChanged(c.media.streams[p], t)
    ensures DrainStep(c.media, RemoteMembersNotified(PutCall(c, p, t), p).media)
  {
    var d := PutCall(c, p, t);
    var env := EnvOf(d);
    var m := UpdateReceiving(env, d.media, p);
    if c.media.streams[p].waiting {
      assert AnyWaiting(c.media);
      AcceptingOpens(c);
      var r := RemoteMembersNotified(d, p).media;
      if m.streams[p].waiting {
        ProgressCompose(env, d.media, m, r);
      }
      ProgressDrains(env, d.media, r);
      PutDrains(c.media, p, t, r);
    }
  }

  lemma UpdateRemoteDrains(c: Call, p: StreamId, h: Handle, remote: SendingState)
    requires Fit(c) && p in c.media.streams
    ensures DrainStep(c.media, DoUpdateRemote(c, p, h, remote).media)
  {
    var s := c.media.streams[p];
    var state := GateRemote(c, remote);
    NotifiedDrains(c, p, WithRemote(s, s.line.remote[h := state], MembersChanged(map[h := state], {})));
  }

  lemma RemoveRemoteDrains(c: Call, p: StreamId, h: Handle)
    requires Fit(c) && p in c.media.streams
    ensures DrainStep(c.media, DoRemoveRemote(c, p, h).media)
  {
    var s := c.media.streams[p];
    NotifiedDrains(c, p, WithRemote(s, s.line.remote - {h}, MembersChanged(map[], {h})));
  }

  lemma AcceptDrains(c: Call)
    requires Fit(c)
    ensures DrainStep(c.media, DoAccept(c).media)
  {
    if CanAccept(c) {
      var d := Accepting(c);
      ProgressDrains(EnvOf(d), d.media, TryAccept(EnvOf(d), d.media));
    }
  }

  lemma RequestHoldDrains(c: Call, hold: bool)
    requires Fit(c)
    ensures DrainStep(c.media, CallHold.RequestHold(c, hold).media)
  {
    var r := CallHold.RequestHold(c, hold);
    if r.media.accepted && !c.media.accepted {
      AcceptingOpens(c);
      FlowedDrains(c.media, r.media);
    }
  }

  // ---- every event

  /** Forgetting a failure changes no local sending state. */
  lemma ForgetDrains(m: Media, r: Media, p: StreamId, u: Stream)
    requires DrainStep(m, r) && p in r.streams
    requires u.local == r.streams[p].local && u.line.initial == r.streams[p].line.initial
    ensures DrainStep(m, Put(r, p, u))
  {
  }

  lemma CompleteDrains(c: Call, p: StreamId, flow: FlowState)
    requires Fit(c) && p in c.media.streams
    ensures DrainStep(c.media, DoCompleteSending(c, p, flow).media) && DrainStep(c.media, DoCompleteReceiving(c, p, flow).media)
  {
    var s := c.media.streams[p];
    assert StreamSound(s);
    ReportDrains(c, p, s.(sending := flow), false, true);
    if CorrectTransition(s.receiving, flow) {
      ReportDrains(c, p, s.(receiving := flow), true, true);
    }
  }

  lemma FailSendingDrains(c: Call, p: StreamId)
    requires Fit(c) && p in c.media.streams
    ensures DrainStep(c.media, DoFailSending(c, p).media)
  {
    var s := c.media.streams[p];
    assert StreamSound(s);
    ReportDrains(c, p, FailedSending(s), false, false);
    var e := Report(c, p, FailedSending(s), false, false);
    ForgetDrains(c.media, e.media, p, SendingForgotten(e.media.streams[p], c.holding.state != Unheld));
  }

  lemma FailReceivingDrains(c: Call, p: StreamId)
    requires Fit(c) && p in c.media.streams
    ensures DrainStep(c.media, DoFailReceiving(c, p).media)
  {
    var s := c.media.streams[p];
    ReportDrains(c, p, FailedReceiving(s), true, false);
    var e := Report(c, p, FailedReceiving(s), true, false);
    ForgetDrains(c.media, e.media, p, ReceivingForgotten(e.media.streams[p]));
  }

  /** The receiving state is settled once the change of remote members is notified. */
  lemma NotifiedSettles(c: Call, p: StreamId)
    requires ScannableCall(c) && p in c.media.streams
    ensures p !in Unsettled(EnvOf(c), RemoteMembersNotified(c, p).media)
  {
    UpdatedReceiving(EnvOf(c), c.media, p);
    var m := UpdateReceiving(EnvOf(c), c.media, p);
    assert StreamStep(EnvOf(c), c.media.streams[p], m.streams[p]);
  }

  lemma UpdateRemoteSettles(c: Call, p: StreamId, h: Handle, remote: SendingState)
    requires ScannableCall(c) && p in c.media.streams && h in c.media.streams[p].line.remote
    requires c.media.streams[p].line.remote[h] != GateRemote(c, remote)
    ensures p !in Unsettled(EnvOf(c), DoUpdateRemote(c, p, h, remote).media)
  {
    var s := c.media.streams[p];
    var state := GateRemote(c, remote);
    NotifiedSettles(PutCall(c, p, WithRemote(s, s.line.remote[h := state], MembersChanged(map[h := state], {}))), p);
  }

  /** So updating it once more, as RequestReceiving does, changes nothing. */
  lemma RequestReceivingUpdates(c: Call, p: StreamId, h: Handle)
    requires ScannableCall(c) && p in c.media.streams && h in c.media.streams[p].line.remote
    requires c.media.streams[p].line.remote[h] != Sending && c.media.streams[p].line.remote[h] != PendingSend
    ensures DoRequestReceiving(c, p, h, true) == DoUpdateRemote(c, p, h, PendingSend)
  {
    UpdateRemoteSettles(c, p, h, PendingSend);
    UpdateRemoteKeeps(c, p, h, PendingSend);
    UpdateRemoteEffect(c, p, h, PendingSend);
    var d := DoUpdateRemote(c, p, h, PendingSend);
    assert UpdateReceiving(EnvOf(d), d.media, p) == d.media;
  }

  lemma RequestReceivingDrains(c: Call, p: StreamId, h: Handle, receive: bool)
    requires Fit(c) && p in c.media.streams
    ensures DrainStep(c.media, DoRequestReceiving(c, p, h, receive).media)
  {
    var remote := c.media.streams[p].line.remote;
    if h in remote && receive != (remote[h] == Sending || remote[h] == PendingSend) {
      if receive {
        RequestReceivingUpdates(c, p, h);
        UpdateRemoteDrains(c, p, h, PendingSend);
      } else {
        UpdateRemoteDrains(c, p, h, PendingStopSending);
      }
    }
  }

  lemma FlowOpDrains(c: Call, p: StreamId, op: StreamOp)
    requires Fit(c) && p in c.media.streams && IsFlowOp(op)
    ensures DrainStep(c.media, FlowStep(c, p, op).media)
  {
    match op
    case CompleteSending(flow) => CompleteDrains(c, p, flow);
    case FailSending => FailSendingDrains(c, p);
    case CompleteReceiving(flow) => CompleteDrains(c, p, flow);
    case FailReceiving => FailReceivingDrains(c, p);
    case UpdateLocal(_) =>
    case SetSending(_, _) =>
    case WishSending(_) =>
  }

  lemma RemoteOpDrains(c: Call, p: StreamId, op: StreamOp)
    requires Fit(c) && p in c.media.streams && IsRemoteOp(op)
    ensures DrainStep(c.media, RemoteStep(c, p, op).media)
  {
    match op
    case UpdateRemote(h, remote) => UpdateRemoteDrains(c, p, h, remote);
    case RemoveRemote(h) => RemoveRemoteDrains(c, p, h);
    case RequestReceiving(h, receive) => RequestReceivingDrains(c, p, h, receive);
  }

  lemma OneStreamDrains(c: Call, p: StreamId, op: StreamOp)
    requires Fit(c) && p in c.media.streams
    ensures DrainStep(c.media, OneStreamStep(c, p, op).media)
  {
    if IsFlowOp(op) {
      FlowOpDrains(c, p, op);
    } else if IsRemoteOp(op) {
      RemoteOpDrains(c, p, op);
    } else {
      EndpointOpSummary(c, p, op);
    }
  }

  lemma CallStepDrains(c: Call, op: CallOp)
    requires Fit(c)
    ensures DrainStep(c.media, CallStep(c, op).media)
  {
    if op.Accept? {
      AcceptDrains(c);
    } else if op.RequestHold? {
      RequestHoldDrains(c, op.hold);
    } else {
      assert CallStep(c, op).media.accepted == c.media.accepted;
    }
  }

  /** Whatever event makes the media channel accept, afterwards no stream of an initial content is
      left pending, and only pending streams of initial contents changed their local sending state. */
  lemma StepDrains(c: Call, e: Event)
    requires Fit(c)
    ensures DrainStep(c.media, Step(c, e).media)
  {
    match e
    case OnCall(op) => CallStepDrains(c, op);
    case OnTree(op) => assert TreeStep(c, op).media.accepted == c.media.accepted;
    case OnStream(p, op) => if p in c.media.streams { OneStreamDrains(c, p, op); }
  }
}
