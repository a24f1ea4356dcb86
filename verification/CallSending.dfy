/** Who may send before the call is accepted. */
module CallSending {
  import opened CallTypes
  import opened CallFlow
  import opened CallHold
  import opened CallEngine
  import opened CallRuns

  predicate LocalGated(c: Call, s: Stream) {
    !c.requested && !c.acceptance.accepted ==> s.local != Sending
  }

  predicate RemoteGated(c: Call, l: Line) {
    c.requested && !c.acceptance.accepted ==> forall h :: h in l.remote ==> l.remote[h] != Sending
  }

  /** On an incoming call nobody accepted yet we do not send; on an outgoing one nobody accepted yet
      no remote member does. */
  predicate Gated(c: Call) {
    forall p :: p in c.media.streams ==> LocalGated(c, c.media.streams[p]) && RemoteGated(c, c.media.streams[p].line)
  }

  /** A stream must not have started to send before it was added. */
  predicate AttachGuard(c: Call, op: TreeOp) {
    op.AddStream? && op.i < |c.contents| && op.p !in c.media.streams ==>
      && (!c.requested && !c.acceptance.accepted ==> op.local != Sending)
      && (c.requested && !c.acceptance.accepted ==>
            var remote := Replay(op.history); forall h :: h in remote ==> remote[h] != Sending)
  }

  /** No stream starts to send locally unless the gate is open. */
  predicate LocalsKept(c: Call, r: Call) {
    && r.media.streams.Keys == c.media.streams.Keys
    && (forall q :: q in c.media.streams && r.media.streams[q].local == Sending ==>
          c.media.streams[q].local == Sending || Gate(c))
  }

  lemma HoldLocals(c: Call, r: Call)
    requires HoldFrame(c, r)
    ensures LocalsKept(c, r)
  {
    forall q | q in c.media.streams && r.media.streams[q].local == Sending
      ensures c.media.streams[q].local == Sending || Gate(c)
    {
      assert StreamFlowed(Gate(c), c.media.streams[q], r.media.streams[q]);
    }
  }

  lemma ProgressLocals(c: Call, m: Media)
    requires Progress(EnvOf(c), c.media, m)
    ensures LocalsKept(c, c.(media := m))
  {
    forall q | q in c.media.streams && m.streams[q].local == Sending
      ensures c.media.streams[q].local == Sending || Gate(c)
    {
      assert StreamStep(EnvOf(c), c.media.streams[q], m.streams[q]);
    }
  }

  lemma ReportLocals(c: Call, p: StreamId, t: Stream, receiving: bool, success: bool)
    requires ScannableCall(c) && p in c.media.streams && t.local == c.media.streams[p].local
    ensures LocalsKept(c, Report(c, p, t, receiving, success))
  {
    HoldLocals(PutCall(c, p, t), Report(c, p, t, receiving, success));
  }

  lemma NotifiedLocals(c: Call, p: StreamId, t: Stream)
    requires ScannableCall(c) && p in c.media.streams && t.local == c.media.streams[p].local
    ensures LocalsKept(c, RemoteMembersNotified(PutCall(c, p, t), p))
  {
    var d := PutCall(c, p, t);
    var m := UpdateReceiving(EnvOf(d), d.media, p);
    ProgressLocals(d, m);
    if m.streams[p].waiting {
      ProgressLocals(d.(media := m), HandlerPass(EnvOf(d), m, p));
    }
  }

  lemma UpdateRemoteLocals(c: Call, p: StreamId, h: Handle, remote: SendingState)
    requires ScannableCall(c) && p in c.media.streams
    ensures LocalsKept(c, DoUpdateRemote(c, p, h, remote))
  {
    var s := c.media.streams[p];
    var state := GateRemote(c, remote);
    NotifiedLocals(c, p, WithRemote(s, s.line.remote[h := state], MembersChanged(map[h := state], {})));
  }

  lemma RemoteLocals(c: Call, p: StreamId, op: StreamOp)
    requires ScannableCall(c) && p in c.media.streams && IsRemoteOp(op)
    ensures LocalsKept(c, RemoteStep(c, p, op))
  {
    match op
    case UpdateRemote(h, remote) => UpdateRemoteLocals(c, p, h, remote);
    case RemoveRemote(h) =>
      var s := c.media.streams[p];
      NotifiedLocals(c, p, WithRemote(s, s.line.remote - {h}, MembersChanged(map[], {h})));
    case RequestReceiving(h, receive) => RequestReceivingLocals(c, p, h, receive);
  }

  lemma RequestReceivingLocals(c: Call, p: StreamId, h: Handle, receive: bool)
    requires ScannableCall(c) && p in c.media.streams
    ensures LocalsKept(c, DoRequestReceiving(c, p, h, receive))
  {
    if receive {
      UpdateRemoteLocals(c, p, h, PendingSend);
      UpdateRemoteKeeps(c, p, h, PendingSend);
      UpdateRemoteEffect(c, p, h, PendingSend);
      var d := DoUpdateRemote(c, p, h, PendingSend);
      ProgressLocals(d, UpdateReceiving(EnvOf(d), d.media, p));
    } else {
      UpdateRemoteLocals(c, p, h, PendingStopSending);
    }
  }

  lemma FailSendingLocals(c: Call, p: StreamId)
    requires ScannableCall(c) && p in c.media.streams
    ensures LocalsKept(c, DoFailSending(c, p))
  {
    ReportLocals(c, p, FailedSending(c.media.streams[p]), false, false);
  }

  lemma FailReceivingLocals(c: Call, p: StreamId)
    requires ScannableCall(c) && p in c.media.streams
    ensures LocalsKept(c, DoFailReceiving(c, p))
  {
    ReportLocals(c, p, FailedReceiving(c.media.streams[p]), true, false);
  }

  lemma SetSendingLocals(c: Call, p: StreamId, send: bool, hook: bool)
    requires p in c.media.streams
    ensures LocalsKept(c, DoSetSending(c, p, send, hook))
  {
  }

  lemma FlowLocals(c: Call, p: StreamId, op: StreamOp)
    requires ScannableCall(c) && p in c.media.streams && IsFlowOp(op)
    ensures LocalsKept(c, FlowStep(c, p, op))
  {
    match op
    case CompleteSending(flow) => ReportLocals(c, p, c.media.streams[p].(sending := flow), false, true);
    case FailSending => FailSendingLocals(c, p);
    case CompleteReceiving(flow) => ReportLocals(c, p, c.media.streams[p].(receiving := flow), true, true);
    case FailReceiving => FailReceivingLocals(c, p);
    case UpdateLocal(_) =>
    case SetSending(send, hook) => SetSendingLocals(c, p, send, hook);
    case WishSending(_) =>
  }

  lemma OneStreamLocals(c: Call, p: StreamId, op: StreamOp)
    requires ScannableCall(c) && p in c.media.streams
    ensures LocalsKept(c, OneStreamStep(c, p, op))
  {
    if IsFlowOp(op) {
      FlowLocals(c, p, op);
    } else if IsEndpointOp(op) {
      EndpointOpSummary(c, p, op);
    } else {
      RemoteLocals(c, p, op);
    }
  }

  /** The remote members of every stream after an event about the stream `p`: they are the old ones,
      except that a member of `p` may have been removed or got a state that passed the gate. */
  lemma OneStreamRemotes(c: Call, p: StreamId, op: StreamOp)
    requires ScannableCall(c) && p in c.media.streams && Gated(c)
    ensures var r := OneStreamStep(c, p, op);
            && r.requested == c.requested && r.acceptance == c.acceptance
            && (forall q :: q in c.media.streams && q in r.media.streams ==> RemoteGated(c, r.media.streams[q].line))
  {
    if IsFlowOp(op) {
      FlowOpSummary(c, p, op);
    } else if IsEndpointOp(op) {
      EndpointOpSummary(c, p, op);
    } else {
      RemoteOpEffect(c, p, op);
      ChangeGated(c, op, c.media.streams[p].line, OneStreamStep(c, p, op).media.streams[p].line);
    }
  }

  /** The states in the change passed the gate. */
  lemma ChangeGated(c: Call, op: StreamOp, l: Line, k: Line)
    requires IsRemoteOp(op) && RemoteGated(c, l) && LineChanged(l, k, RemoteChange(c, op))
    ensures RemoteGated(c, k)
  {
  }

  lemma AcceptLocals(c: Call)
    requires ScannableCall(c) && Gated(c)
    ensures Gated(DoAccept(c))
  {
    AcceptSummary(c);
    if CanAccept(c) {
      var d := Accepting(c);
      var m := TryAccept(EnvOf(d), d.media);
      assert Gate(d);
      forall q | q in c.media.streams
        ensures d.requested && !d.acceptance.accepted ==> RemoteGated(c, m.streams[q].line)
      {
        assert StreamStep(EnvOf(d), d.media.streams[q], m.streams[q]);
      }
    }
  }

  lemma CallStepGated(c: Call, op: CallOp)
    requires ScannableCall(c) && Gated(c)
    ensures Gated(CallStep(c, op))
  {
    match op {
      case Accept => AcceptLocals(c);
      case RemoteAccept => RemoteAcceptSummary(c);
      case RequestHold(hold) =>
        FlowHold(c, CallHold.RequestHold(c, hold));
        HoldLocals(c, CallHold.RequestHold(c, hold));
      case UpdateMember(_, _) => RosterOpSummary(c, op);
      case RemoveMember(_) => RosterOpSummary(c, op);
      case Register =>
      case Hangup =>
      case SetRinging =>
      case SetQueued =>
      case ForceState(_) =>
    }
  }

  /** Adding a stream keeps the gate closed exactly when the stream had not started to send. */
  lemma TreeGatedExactly(c: Call, op: TreeOp)
    requires Gated(c)
    ensures Gated(TreeStep(c, op)) <==> AttachGuard(c, op)
  {
    var r := TreeStep(c, op);
    if op.AddStream? && op.i < |c.contents| && op.p !in c.media.streams {
      var s := r.media.streams[op.p];
      assert s.local == op.local && s.line.remote == Replay(op.history);
      assert forall q :: q in c.media.streams ==> r.media.streams[q] == c.media.streams[q];
    } else {
      assert forall q :: q in r.media.streams ==> q in c.media.streams && r.media.streams[q] == c.media.streams[q];
    }
  }

  /** A stream that is sending when it is attached opens the gate of an incoming call. */
  lemma AttachedSending()
    ensures exists es :: !Gated(Run(Initial(false), es))
  {
    var c := Initial(false);
    SendingAttached(c, 1);
    SendingRun(c, OnTree(AddContent(false)), OnTree(AddStream(0, 1, Sending, [], false, [])));
  }

  lemma SendingAttached(c: Call, p: StreamId)
    requires c.contents == [] && c.media.streams == map[] && !c.requested && !c.acceptance.accepted
    ensures !Gated(TreeStep(TreeStep(c, AddContent(false)), AddStream(0, p, Sending, [], false, [])))
  {
    TreeGatedExactly(TreeStep(c, AddContent(false)), AddStream(0, p, Sending, [], false, []));
  }

  lemma SendingRun(c: Call, a: Event, b: Event)
    requires WellFormed(c) && a.OnTree? && b.OnTree? && !Gated(TreeStep(TreeStep(c, a.tree), b.tree))
    ensures !Gated(Run(c, [] + [a] + [b]))
  {
    RunSnoc(c, [], a);
    RunSnoc(c, [] + [a], b);
  }

  lemma StepGated(c: Call, e: Event)
    requires WellFormed(c) && Gated(c) && (e.OnTree? ==> AttachGuard(c, e.tree))
    ensures Gated(Step(c, e))
  {
    match e
    case OnCall(op) => CallStepGated(c, op);
    case OnTree(op) => TreeGatedExactly(c, op);
    case OnStream(p, op) =>
      if p in c.media.streams {
        OneStreamLocals(c, p, op);
        OneStreamRemotes(c, p, op);
      }
  }

  ghost predicate AttachesSilent(c: Call, es: seq<Event>)
    requires WellFormed(c)
    decreases |es|
  {
    es == [] || ((es[0].OnTree? ==> AttachGuard(c, es[0].tree))
                 && (StepWellFormed(c, es[0]); AttachesSilent(Step(c, es[0]), es[1..])))
  }

  lemma {:induction false} GatedFrom(c: Call, es: seq<Event>)
    requires WellFormed(c) && Gated(c) && AttachesSilent(c, es)
    ensures Gated(Run(c, es))
    decreases |es|
  {
    if es != [] {
      StepGated(c, es[0]);
      StepWellFormed(c, es[0]);
      GatedFrom(Step(c, es[0]), es[1..]);
    }
  }

  /** In every run in which streams are added before they start to send, nobody sends early. */
  lemma NobodySendsEarly(requested: bool, es: seq<Event>)
    requires AttachesSilent(Initial(requested), es)
    ensures Gated(Run(Initial(requested), es))
  {
    GatedFrom(Initial(requested), es);
  }
}
