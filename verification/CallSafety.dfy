/** What every event keeps about the tree of contents and streams. */
module CallSafety {
  import opened CallTypes
  import opened CallFlow
  import opened CallAccept
  import opened CallHold
  import opened CallEngine

  // ---- the table of streams and the contents agree

  lemma SameTree(contents: seq<Content>, streams: map<StreamId, Stream>, streams': map<StreamId, Stream>)
    requires Tree(contents, streams) && streams'.Keys == streams.Keys
    requires forall p :: p in streams ==> streams'[p].line.initial == streams[p].line.initial
    ensures Tree(contents, streams')
  {
    forall i, p | Lists(contents, i, p)
      ensures p in streams' && streams'[p].line.initial == contents[i].initial
    {
      assert p in streams;
    }
  }

  lemma {:induction false} WithoutElements(ps: seq<StreamId>, p: StreamId)
    requires NoRepeats(ps)
    ensures NoRepeats(Without(ps, p)) && forall q :: q in Without(ps, p) <==> q in ps && q != p
  {
    if ps != [] {
      assert forall q :: q in ps <==> q == ps[0] || q in ps[1..];
      assert ps[0] !in ps[1..];
      if ps[0] == p {
        assert p !in ps[1..];
      } else {
        WithoutElements(ps[1..], p);
      }
    }
  }

  lemma RemoveStreamKeeps(c: Call, p: StreamId)
    requires Tree(c.contents, c.media.streams) && p in c.media.streams
    ensures var r := TreeStep(c, RemoveStream(p)); Tree(r.contents, r.media.streams)
  {
    var r := TreeStep(c, RemoveStream(p));
    forall i | 0 <= i < |c.contents|
      ensures NoRepeats(r.contents[i].streams)
      ensures forall q :: q in r.contents[i].streams <==> q in c.contents[i].streams && q != p
    {
      WithoutElements(c.contents[i].streams, p);
    }
    assert forall i, q :: Lists(r.contents, i, q) <==> Lists(c.contents, i, q) && q != p;
  }

  /** Which content comes to stand at which place. */
  lemma RemovedLists(contents: seq<Content>, i: nat)
    requires i < |contents|
    ensures var r := contents[..i] + contents[i + 1..];
            forall k: nat, q :: Lists(r, k, q) <==> Lists(contents, if k < i then k else k + 1, q)
  {
    var r := contents[..i] + contents[i + 1..];
    forall k: nat, q ensures Lists(r, k, q) <==> Lists(contents, if k < i then k else k + 1, q)
    {
      assert k < |r| ==> r[k] == contents[if k < i then k else k + 1];
    }
  }

  lemma RemoveContentKeeps(c: Call, i: nat)
    requires Tree(c.contents, c.media.streams) && i < |c.contents|
    ensures var r := TreeStep(c, RemoveContent(i)); Tree(r.contents, r.media.streams)
  {
    var r := TreeStep(c, RemoveContent(i));
    RemovedLists(c.contents, i);
    forall q | q in r.media.streams
      ensures exists k :: Lists(r.contents, k, q)
    {
      var k :| Lists(c.contents, k, q);
      assert Lists(r.contents, if k < i then k else k - 1, q);
    }
    forall k: nat, q | Lists(r.contents, k, q)
      ensures q in r.media.streams && r.media.streams[q].line.initial == r.contents[k].initial
    {
      assert !Lists(c.contents, i, q);
    }
  }

  lemma AddStreamKeeps(c: Call, op: TreeOp)
    requires Tree(c.contents, c.media.streams) && op.AddStream? && op.i < |c.contents| && op.p !in c.media.streams
    ensures var r := TreeStep(c, op); Tree(r.contents, r.media.streams)
  {
    var r := TreeStep(c, op);
    forall i, q ensures Lists(r.contents, i, q) <==> Lists(c.contents, i, q) || (i == op.i && q == op.p)
    {
    }
    assert !exists i :: Lists(c.contents, i, op.p);
    assert Lists(r.contents, op.i, op.p);
  }

  lemma AddContentKeeps(c: Call, initial: bool)
    requires Tree(c.contents, c.media.streams)
    ensures var r := TreeStep(c, AddContent(initial)); Tree(r.contents, r.media.streams)
  {
    var r := TreeStep(c, AddContent(initial));
    forall i, q ensures Lists(r.contents, i, q) <==> Lists(c.contents, i - 1, q)
    {
    }
    forall q | q in r.media.streams
      ensures exists i :: Lists(r.contents, i, q)
    {
      var i :| Lists(c.contents, i, q);
      assert Lists(r.contents, i + 1, q);
    }
  }

  lemma TreeKeeps(c: Call, op: TreeOp)
    requires WellFormed(c)
    ensures WellFormed(TreeStep(c, op))
  {
    match op {
      case AddContent(initial) => AddContentKeeps(c, initial);
      case RemoveContent(i) => if i < |c.contents| { RemoveContentKeeps(c, i); }
      case AddStream(i, p, _, _, _, _) =>
        if i < |c.contents| && p !in c.media.streams { AddStreamKeeps(c, op); }
      case RemoveStream(p) => if p in c.media.streams { RemoveStreamKeeps(c, p); }
    }
    OrderCovers(TreeStep(c, op).contents, TreeStep(c, op).media.streams);
  }

  // ---- the invariant of a call whose subclass leaves the state alone

  /** Handlers wait only on initial streams; a stream receives only from somebody who sends; no
      failure is being reported. */
  predicate StreamSound(s: Stream) {
    && (s.waiting ==> s.line.initial)
    && (s.receiving == Started || s.receiving == PendingStart ==> WantsReceive(s.line))
    && !s.line.receivingFailure && !s.line.sendingFailure
  }

  predicate StreamsSound(m: Media) {
    forall p :: p in m.streams ==> StreamSound(m.streams[p])
  }

  /** How the call state, acceptance and the D-Bus replies go together. */
  predicate Phase(requested: bool, state: CallState, a: Acceptance) {
    && a.replies <= 1
    && state != Unknown
    && (a.replies == 1 ==> a.locally && state != if requested then PendingInitiator else Initialised)
    && (a.accepted ==> a.replies == 1 && (state == Accepted || state == Active || state == Ended))
    && (state == Accepted || state == Active ==> a.accepted)
    && (requested && (state == Initialising || state == Initialised) ==> a.replies == 1)
    && (!requested ==> state != PendingInitiator && (a.replies == 1 ==> a.accepted))
  }

  /** The deferred accept belongs to a D-Bus Accept that succeeded. */
  predicate Deferral(a: Acceptance, m: Media) {
    && m.emitting == {}
    && (m.accepted <==> m.accepts > 0)
    && (m.accepted || AnyWaiting(m) ==> a.replies == 1)
  }

  predicate Fit(c: Call) {
    && ScannableCall(c)
    && StreamsSound(c.media)
    && Phase(c.requested, c.status.state, c.acceptance)
    && Deferral(c.acceptance, c.media)
  }

  // ---- the media part

  lemma FlowedSound(gate: bool, a: Acceptance, m: Media, r: Media)
    requires StreamsSound(m) && Deferral(a, m) && Flowed(gate, m, r)
    ensures StreamsSound(r) && Deferral(a, r)
  {
    forall p | p in r.streams
      ensures StreamSound(r.streams[p]) && (r.streams[p].waiting ==> m.streams[p].waiting)
    {
      assert StreamFlowed(gate, m.streams[p], r.streams[p]);
    }
  }

  lemma ProgressSound(env: Env, a: Acceptance, m: Media, r: Media)
    requires StreamsSound(m) && Deferral(a, m) && Progress(env, m, r)
    requires m.accepted != r.accepted ==> a.replies == 1
    ensures StreamsSound(r) && Deferral(a, r)
  {
    forall p | p in r.streams
      ensures StreamSound(r.streams[p]) && (r.streams[p].waiting ==> m.streams[p].waiting)
    {
      assert StreamStep(env, m.streams[p], r.streams[p]);
    }
  }

  lemma PutSound(a: Acceptance, m: Media, p: StreamId, t: Stream)
    requires StreamsSound(m) && Deferral(a, m) && p in m.streams && StreamSound(t)
    requires t.waiting ==> m.streams[p].waiting
    ensures StreamsSound(Put(m, p, t)) && Deferral(a, Put(m, p, t))
  {
  }

  lemma AcceptMediaSound(env: Env, a: Acceptance, m: Media)
    requires StreamsSound(m) && Deferral(a, m) && a.replies == 1 && Scannable(env, m)
    ensures StreamsSound(AcceptMedia(env, m)) && Deferral(a, AcceptMedia(env, m))
    ensures AcceptMedia(env, m).streams.Keys == m.streams.Keys
  {
    ProgressSound(env, a, m, TryAccept(env, m));
  }

  lemma RemoteAcceptedSound(env: Env, s: Stream)
    requires StreamSound(s)
    ensures StreamSound(RemoteAccepted(env, s)) && RemoteAccepted(env, s).waiting == s.waiting
    ensures RemoteAccepted(env, s).line == s.line && RemoteAccepted(env, s).local == s.local
  {
  }

  lemma RemoteHoldSound(env: Env, members: map<Handle, MemberFlags>, s: Stream)
    requires StreamSound(s)
    ensures var t := RemoteHoldStream(env, members, s);
            StreamSound(t) && t.waiting == s.waiting && t.line == s.line.(remotelyHeld := AllHeld(members, s.line))
  {
  }

  /** Editing every stream in place. */
  lemma MapSound(a: Acceptance, m: Media, r: Media)
    requires StreamsSound(m) && Deferral(a, m)
    requires r == m.(streams := r.streams) && r.streams.Keys == m.streams.Keys
    requires forall p :: p in m.streams ==> StreamSound(r.streams[p]) && r.streams[p].waiting == m.streams[p].waiting
    ensures StreamsSound(r) && Deferral(a, r)
  {
  }

  // ---- events about the call

  lemma Bumped(st: Status, connected: bool, state: CallState)
    ensures Enter(st, connected, state).state ==
            if st.state == state then state
            else if state == Initialising && connected then Initialised
            else if state == Accepted && connected then Active
            else state
  {
  }

  lemma AcceptFit(c: Call)
    requires Fit(c)
    ensures Fit(DoAccept(c))
  {
    if CanAccept(c) {
      Bumped(c.status, Connected(c), if c.requested then Initialising else Accepted);
      var d := Accepting(c);
      AcceptMediaSound(EnvOf(d), d.acceptance, d.media);
    }
  }

  lemma RemoteAcceptFit(c: Call)
    requires Fit(c)
    ensures Fit(DoRemoteAccept(c))
  {
    if CanRemoteAccept(c) {
      Bumped(c.status, Connected(c), Accepted);
      var d := RemoteAccepting(c);
      forall p | p in d.media.streams
        ensures StreamSound(RemoteAccepted(EnvOf(d), d.media.streams[p]))
        ensures RemoteAccepted(EnvOf(d), d.media.streams[p]).waiting == d.media.streams[p].waiting
      {
        RemoteAcceptedSound(EnvOf(d), d.media.streams[p]);
      }
      MapSound(c.acceptance, c.media, DoRemoteAccept(c).media);
    }
  }

  lemma RemoteHoldFit(c: Call)
    requires Fit(c)
    ensures Fit(CheckRemoteHold(c))
  {
    forall p | p in c.media.streams
      ensures StreamSound(RemoteHoldStream(EnvOf(c), c.roster.members, c.media.streams[p]))
      ensures RemoteHoldStream(EnvOf(c), c.roster.members, c.media.streams[p]).waiting == c.media.streams[p].waiting
    {
      RemoteHoldSound(EnvOf(c), c.roster.members, c.media.streams[p]);
    }
    MapSound(c.acceptance, c.media, CheckRemoteHold(c).media);
  }

  lemma CallStepFit(c: Call, op: CallOp)
    requires Fit(c) && !op.ForceState?
    ensures Fit(CallStep(c, op))
  {
    match op {
      case Accept => AcceptFit(c);
      case RemoteAccept => RemoteAcceptFit(c);
      case RequestHold(hold) =>
        FlowedSound(Gate(c), c.acceptance, c.media, CallHold.RequestHold(c, hold).media);
      case UpdateMember(h, flags) => RemoteHoldFit(c.(roster := UpdatedRoster(c.roster, h, flags)));
      case RemoveMember(h) => RemoteHoldFit(c.(roster := ReducedRoster(c.roster, h)));
      case Hangup => Bumped(c.status, Connected(c), Ended);
      case Register =>
      case SetRinging =>
      case SetQueued =>
    }
  }

  // ---- events about the tree

  lemma AttachedSound(env: Env, initial: bool, local: SendingState, history: seq<MembersChanged<SendingState>>,
                      wish: bool, endpoints: seq<EndpointState>)
    ensures var s := AttachedStream(env, initial, local, history, wish, endpoints);
            StreamSound(s) && !s.waiting
  {
  }

  lemma AttachSound(a: Acceptance, m: Media, p: StreamId, t: Stream)
    requires StreamsSound(m) && Deferral(a, m) && p !in m.streams && StreamSound(t) && !t.waiting
    ensures StreamsSound(Put(m, p, t)) && Deferral(a, Put(m, p, t))
  {
  }

  lemma DetachSound(a: Acceptance, m: Media, ps: seq<StreamId>)
    requires StreamsSound(m) && Deferral(a, m)
    ensures StreamsSound(RemoveKeys(m, ps)) && Deferral(a, RemoveKeys(m, ps))
  {
  }

  lemma TreeStepSound(c: Call, op: TreeOp)
    requires StreamsSound(c.media) && Deferral(c.acceptance, c.media)
    ensures var r := TreeStep(c, op);
            && r == c.(contents := r.contents, media := r.media)
            && StreamsSound(r.media) && Deferral(r.acceptance, r.media)
  {
    match op
    case AddContent(_) =>
    case RemoveContent(i) => if i < |c.contents| { DetachSound(c.acceptance, c.media, c.contents[i].streams); }
    case AddStream(i, p, local, history, wish, endpoints) =>
      if i < |c.contents| && p !in c.media.streams {
        AttachedSound(EnvOf(c), c.contents[i].initial, local, history, wish, endpoints);
        AttachSound(c.acceptance, c.media, p,
                    AttachedStream(EnvOf(c), c.contents[i].initial, local, history, wish, endpoints));
      }
    case RemoveStream(p) => DetachSound(c.acceptance, c.media, [p]);
  }

  // ---- events about one stream

  /** `t` is the stream `s` with a flow moved and perhaps a failure noted. */
  predicate Reported(s: Stream, t: Stream) {
    && t == s.(sending := t.sending, receiving := t.receiving,
               line := s.line.(sendingFailure := t.line.sendingFailure, receivingFailure := t.line.receivingFailure))
    && (t.receiving == Started || t.receiving == PendingStart ==> WantsReceive(s.line))
  }

  /** How one stream comes out of a report about `p` and the reaction to it. */
  lemma ReportSoundAt(gate: bool, s: Stream, t: Stream, r: Stream)
    requires StreamSound(s) && Reported(s, t) && StreamFlowed(gate, t, r)
    ensures StreamSound(r.(line := s.line)) && (r.waiting ==> s.waiting)
  {
  }

  predicate StillWaiting(m: Media, r: Media) {
    r.streams.Keys == m.streams.Keys && forall q :: q in r.streams && r.streams[q].waiting ==> m.streams[q].waiting
  }

  lemma ReportedStreams(gate: bool, m: Media, p: StreamId, t: Stream, r: Media, u: Stream)
    requires StreamsSound(m) && p in m.streams && Reported(m.streams[p], t) && Flowed(gate, Put(m, p, t), r)
    requires u == r.streams[p].(line := m.streams[p].line, localSending := u.localSending)
    ensures StreamsSound(Put(r, p, u)) && StillWaiting(m, Put(r, p, u))
  {
    var d := Put(m, p, t);
    forall q | q in r.streams
      ensures StreamSound(Put(r, p, u).streams[q]) && (Put(r, p, u).streams[q].waiting ==> m.streams[q].waiting)
    {
      assert StreamFlowed(gate, d.streams[q], r.streams[q]);
      ReportSoundAt(gate, m.streams[q], d.streams[q], r.streams[q]);
    }
  }

  lemma ReportedDeferral(a: Acceptance, m: Media, d: Media, r: Media)
    requires Deferral(a, m) && StillWaiting(m, d) && StillWaiting(m, r)
    requires d.accepted == m.accepted && d.accepts == m.accepts && r.emitting == {}
    requires if r.accepted == d.accepted then r.accepts == d.accepts else r.accepted && r.accepts > d.accepts && AnyWaiting(d)
    ensures Deferral(a, r)
  {
    if q :| q in d.streams && d.streams[q].waiting {
      assert m.streams[q].waiting;
    }
    if q :| q in r.streams && r.streams[q].waiting {
      assert m.streams[q].waiting;
    }
  }

  /** Report something about a stream, let the call react, forget the failure in `u`. */
  lemma ReportSound(gate: bool, a: Acceptance, m: Media, p: StreamId, t: Stream, r: Media, u: Stream)
    requires StreamsSound(m) && Deferral(a, m) && p in m.streams && Reported(m.streams[p], t)
    requires Flowed(gate, Put(m, p, t), r)
    requires u == r.streams[p].(line := m.streams[p].line, localSending := u.localSending)
    ensures StreamsSound(Put(r, p, u)) && Deferral(a, Put(r, p, u))
  {
    ReportedStreams(gate, m, p, t, r, u);
    assert StillWaiting(m, Put(m, p, t));
    ReportedDeferral(a, m, Put(m, p, t), Put(r, p, u));
  }

  lemma ReportLine(c: Call, p: StreamId, t: Stream, receiving: bool, success: bool)
    requires ScannableCall(c) && p in c.media.streams
    ensures Report(c, p, t, receiving, success).media.streams[p].line == t.line
  {
    assert StreamFlowed(Gate(c), t, Report(c, p, t, receiving, success).media.streams[p]);
  }

  lemma ReportFit(c: Call, p: StreamId, t: Stream, receiving: bool, success: bool, u: Stream)
    requires Fit(c) && p in c.media.streams && Reported(c.media.streams[p], t)
    requires u == Report(c, p, t, receiving, success).media.streams[p]
                  .(line := c.media.streams[p].line, localSending := u.localSending)
    ensures Fit(PutCall(Report(c, p, t, receiving, success), p, u))
  {
    ReportSound(Gate(c), c.acceptance, c.media, p, t, Report(c, p, t, receiving, success).media, u);
  }

  lemma PutBack(c: Call, p: StreamId)
    requires p in c.media.streams
    ensures PutCall(c, p, c.media.streams[p]) == c
  {
    assert c.media.streams[p := c.media.streams[p]] == c.media.streams;
  }

  lemma CompletedFit(c: Call, p: StreamId, t: Stream, receiving: bool)
    requires Fit(c) && p in c.media.streams && Reported(c.media.streams[p], t) && t.line == c.media.streams[p].line
    ensures Fit(Report(c, p, t, receiving, true))
  {
    var e := Report(c, p, t, receiving, true);
    ReportLine(c, p, t, receiving, true);
    ReportFit(c, p, t, receiving, true, e.media.streams[p]);
    PutBack(e, p);
  }

  lemma FailSendingFit(c: Call, p: StreamId)
    requires Fit(c) && p in c.media.streams
    ensures Fit(DoFailSending(c, p))
  {
    var s := c.media.streams[p];
    assert StreamSound(s);
    ReportLine(c, p, FailedSending(s), false, false);
    var t := Report(c, p, FailedSending(s), false, false).media.streams[p];
    ReportFit(c, p, FailedSending(s), false, false,
              t.(localSending := t.localSending && c.holding.state != Unheld, line := s.line));
  }

  lemma FailReceivingFit(c: Call, p: StreamId)
    requires Fit(c) && p in c.media.streams
    ensures Fit(DoFailReceiving(c, p))
  {
    var s := c.media.streams[p];
    assert StreamSound(s);
    ReportLine(c, p, FailedReceiving(s), true, false);
    var t := Report(c, p, FailedReceiving(s), true, false).media.streams[p];
    ReportFit(c, p, FailedReceiving(s), true, false, t.(line := s.line));
  }

  lemma PutFit(c: Call, p: StreamId, t: Stream)
    requires Fit(c) && p in c.media.streams && StreamSound(t) && t.waiting == c.media.streams[p].waiting
    ensures Fit(PutCall(c, p, t))
  {
    PutSound(c.acceptance, c.media, p, t);
  }

  /** `t` is the stream `s` after a change of its remote members. */
  predicate RemotesChanged(s: Stream, t: Stream) {
    t == s.(line := s.line.(remote := t.line.remote, remoteLog := t.line.remoteLog))
  }

  lemma RemoteUpdatedStreams(env: Env, m: Media, p: StreamId, t: Stream)
    requires StreamsSound(m) && Scannable(env, m) && p in m.streams && RemotesChanged(m.streams[p], t)
    ensures var r := UpdateReceiving(env, Put(m, p, t), p); StreamsSound(r) && StillWaiting(m, r)
  {
    var d := Put(m, p, t);
    var r := UpdateReceiving(env, d, p);
    UpdatedReceiving(env, d, p);
    forall q | q in r.streams
      ensures StreamSound(r.streams[q]) && (r.streams[q].waiting ==> m.streams[q].waiting)
    {
      assert StreamSound(m.streams[q]) && StreamStep(env, d.streams[q], r.streams[q]);
      if q == p {
        ChangedSoundAt(env, m.streams[p], t, r.streams[p]);
      } else {
        StepSoundAt(env, m.streams[q], r.streams[q]);
      }
    }
  }

  lemma ChangedSoundAt(env: Env, s: Stream, t: Stream, r: Stream)
    requires StreamSound(s) && RemotesChanged(s, t) && StreamStep(env, t, r) && r.receiving == ReceiveGoal(env, t)
    ensures StreamSound(r) && (r.waiting ==> s.waiting)
  {
  }

  lemma StepSoundAt(env: Env, s: Stream, r: Stream)
    requires StreamSound(s) && StreamStep(env, s, r)
    ensures StreamSound(r) && (r.waiting ==> s.waiting)
  {
  }

  lemma RemoteUpdatedSound(env: Env, a: Acceptance, m: Media, p: StreamId, t: Stream)
    requires StreamsSound(m) && Deferral(a, m) && Scannable(env, m)
    requires p in m.streams && RemotesChanged(m.streams[p], t)
    ensures var r := UpdateReceiving(env, Put(m, p, t), p);
            StreamsSound(r) && Deferral(a, r)
  {
    var d := Put(m, p, t);
    var r := UpdateReceiving(env, d, p);
    RemoteUpdatedStreams(env, m, p, t);
    if r.accepted != d.accepted {
      assert d.streams[p].waiting;
    }
    ReportedDeferral(a, m, d, r);
  }

  lemma HandlerSound(env: Env, a: Acceptance, m: Media, p: StreamId)
    requires StreamsSound(m) && Deferral(a, m) && Scannable(env, m) && p in m.streams && m.streams[p].waiting
    ensures var r := HandlerPass(env, m, p);
            StreamsSound(r) && Deferral(a, r)
  {
    ProgressSound(env, a, m, HandlerPass(env, m, p));
  }

  lemma RemoteNotifiedFit(c: Call, p: StreamId, t: Stream)
    requires Fit(c) && p in c.media.streams && RemotesChanged(c.media.streams[p], t)
    ensures Fit(RemoteMembersNotified(PutCall(c, p, t), p))
  {
    var env := EnvOf(c);
    assert EnvOf(PutCall(c, p, t)) == env;
    var m := UpdateReceiving(env, Put(c.media, p, t), p);
    RemoteUpdatedSound(env, c.acceptance, c.media, p, t);
    if m.streams[p].waiting {
      HandlerSound(env, c.acceptance, m, p);
    }
  }

  lemma UpdateRemoteFit(c: Call, p: StreamId, h: Handle, remote: SendingState)
    requires Fit(c) && p in c.media.streams
    ensures Fit(DoUpdateRemote(c, p, h, remote))
  {
    var s := c.media.streams[p];
    var state := GateRemote(c, remote);
    RemoteNotifiedFit(c, p, WithRemote(s, s.line.remote[h := state], MembersChanged(map[h := state], {})));
  }

  lemma RemoveRemoteFit(c: Call, p: StreamId, h: Handle)
    requires Fit(c) && p in c.media.streams
    ensures Fit(DoRemoveRemote(c, p, h))
  {
    var s := c.media.streams[p];
    RemoteNotifiedFit(c, p, WithRemote(s, s.line.remote - {h}, MembersChanged(map[], {h})));
  }

  lemma RequestReceivingFit(c: Call, p: StreamId, h: Handle, receive: bool)
    requires Fit(c) && p in c.media.streams
    ensures Fit(DoRequestReceiving(c, p, h, receive))
  {
    if receive {
      UpdateRemoteFit(c, p, h, PendingSend);
      UpdateRemoteKeeps(c, p, h, PendingSend);
      var d := DoUpdateRemote(c, p, h, PendingSend);
      ProgressSound(EnvOf(d), d.acceptance, d.media, UpdateReceiving(EnvOf(d), d.media, p));
    } else {
      UpdateRemoteFit(c, p, h, PendingStopSending);
    }
  }

  lemma UpdateLocalFit(c: Call, p: StreamId, local: SendingState)
    requires Fit(c) && p in c.media.streams
    ensures Fit(DoUpdateLocal(c, p, local))
  {
    assert StreamSound(c.media.streams[p]);
    PutFit(c, p, c.media.streams[p].(local := GateLocal(EnvOf(c), local)));
  }

  lemma WishFit(c: Call, p: StreamId, wish: bool)
    requires Fit(c) && p in c.media.streams
    ensures Fit(PutCall(c, p, WithLocalSending(EnvOf(c), c.media.streams[p], wish)))
  {
    assert StreamSound(c.media.streams[p]);
    PutFit(c, p, WithLocalSending(EnvOf(c), c.media.streams[p], wish));
  }

  lemma SetSendingFit(c: Call, p: StreamId, send: bool, hook: bool)
    requires Fit(c) && p in c.media.streams
    ensures Fit(DoSetSending(c, p, send, hook))
  {
    UpdateLocalFit(c, p, if send then Sending else NotSending);
    WishFit(c, p, false);
    UpdateLocalFit(PutCall(c, p, WithLocalSending(EnvOf(c), c.media.streams[p], false)), p, NotSending);
  }

  lemma EndpointsFit(c: Call, p: StreamId, endpoints: seq<EndpointState>)
    requires Fit(c) && p in c.media.streams
    ensures Fit(WithEndpoints(c, p, endpoints))
  {
    var s := c.media.streams[p];
    assert StreamSound(s);
    PutFit(c, p, s.(line := s.line.(endpoints := endpoints)));
  }

  lemma EndpointChangedFit(c: Call, connected: bool)
    requires Fit(c)
    ensures Fit(c.(status := EndpointChanged(c.status, connected)))
  {
    Bumped(c.status, connected, Initialised);
    Bumped(c.status, connected, Accepted);
    Bumped(c.status, connected, Active);
  }

  lemma SetEndpointFit(c: Call, p: StreamId, k: nat, endpoint: EndpointState)
    requires Fit(c) && p in c.media.streams
    ensures Fit(DoSetEndpoint(c, p, k, endpoint))
  {
    var l := c.media.streams[p].line;
    if k < |l.endpoints| {
      var d := WithEndpoints(c, p, l.endpoints[k := endpoint]);
      EndpointsFit(c, p, l.endpoints[k := endpoint]);
      EndpointChangedFit(d, Connected(d));
    } else {
      EndpointChangedFit(c, Connected(c));
    }
  }

  lemma RemoveEndpointFit(c: Call, p: StreamId, k: nat)
    requires Fit(c) && p in c.media.streams
    ensures Fit(DoRemoveEndpoint(c, p, k))
  {
    var l := c.media.streams[p].line;
    if k < |l.endpoints| {
      EndpointsFit(c, p, l.endpoints[..k] + l.endpoints[k + 1..]);
    }
  }

  lemma FlowOpFit(c: Call, p: StreamId, op: StreamOp)
    requires Fit(c) && p in c.media.streams && IsFlowOp(op)
    ensures Fit(FlowStep(c, p, op))
  {
    assert StreamSound(c.media.streams[p]);
    match op
    case CompleteSending(flow) => CompletedFit(c, p, c.media.streams[p].(sending := flow), false);
    case FailSending => FailSendingFit(c, p);
    case CompleteReceiving(flow) =>
      if CorrectTransition(c.media.streams[p].receiving, flow) {
        CompletedFit(c, p, c.media.streams[p].(receiving := flow), true);
      }
    case FailReceiving => FailReceivingFit(c, p);
    case UpdateLocal(local) => UpdateLocalFit(c, p, local);
    case SetSending(send, hook) => SetSendingFit(c, p, send, hook);
    case WishSending(wish) => WishFit(c, p, wish);
  }

  lemma RemoteOpFit(c: Call, p: StreamId, op: StreamOp)
    requires Fit(c) && p in c.media.streams && IsRemoteOp(op)
    ensures Fit(RemoteStep(c, p, op))
  {
    match op
    case UpdateRemote(h, remote) => UpdateRemoteFit(c, p, h, remote);
    case RemoveRemote(h) => RemoveRemoteFit(c, p, h);
    case RequestReceiving(h, receive) => RequestReceivingFit(c, p, h, receive);
  }

  lemma EndpointOpFit(c: Call, p: StreamId, op: StreamOp)
    requires Fit(c) && p in c.media.streams && IsEndpointOp(op)
    ensures Fit(EndpointStep(c, p, op))
  {
    match op
    case SetEndpoint(k, endpoint) => SetEndpointFit(c, p, k, endpoint);
    case AddEndpoint(endpoint) => EndpointsFit(c, p, c.media.streams[p].line.endpoints + [endpoint]);
    case RemoveEndpoint(k) => RemoveEndpointFit(c, p, k);
  }

  lemma OneStreamFit(c: Call, p: StreamId, op: StreamOp)
    requires Fit(c) && p in c.media.streams
    ensures Fit(OneStreamStep(c, p, op))
  {
    if IsFlowOp(op) {
      FlowOpFit(c, p, op);
    } else if IsRemoteOp(op) {
      RemoteOpFit(c, p, op);
    } else {
      EndpointOpFit(c, p, op);
    }
  }
}
