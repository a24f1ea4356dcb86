/** The call channel as a state machine. One event is one D-Bus method call, one report of the
    streaming implementation or one call of a connection manager into the library, run to its end.
    Virtual hooks of subclasses do not call back into the channel.
 */
module CallEngine {
  import opened CallTypes
  import opened CallFlow
  import opened CallHold

  /** What happens to the channel as a whole. `ForceState` is a subclass calling
      tp_base_call_channel_set_state itself. */
  datatype CallOp =
    | Register
    | Accept
    | RemoteAccept
    | Hangup
    | SetRinging
    | SetQueued
    | RequestHold(hold: bool)
    | UpdateMember(h: Handle, memberFlags: MemberFlags)
    | RemoveMember(h: Handle)
    | ForceState(state: CallState)

  /** What happens to the lists of contents and streams. A stream may come with a sending state, a
      history of remote members, a wish to send and endpoints it got before it was added. */
  datatype TreeOp =
    | AddContent(initial: bool)
    | RemoveContent(i: nat)
    | AddStream(i: nat, p: StreamId, local: SendingState,
                history: seq<MembersChanged<SendingState>>, wish: bool, endpoints: seq<EndpointState>)
    | RemoveStream(p: StreamId)

  /** What happens to one stream. `hook` says that the subclass's set_sending is absent or succeeded. An
      endpoint that reports its state may have been removed from the stream; its number is then not in
      use. An endpoint that is added may have been in use before. */
  datatype StreamOp =
    | SetEndpoint(k: nat, endpoint: EndpointState)
    | AddEndpoint(endpoint: EndpointState)
    | RemoveEndpoint(k: nat)
    | CompleteSending(flow: FlowState)
    | FailSending
    | CompleteReceiving(flow: FlowState)
    | FailReceiving
    | UpdateLocal(local: SendingState)
    | UpdateRemote(h: Handle, remote: SendingState)
    | RemoveRemote(h: Handle)
    | SetSending(send: bool, hook: bool)
    | WishSending(wish: bool)
    | RequestReceiving(h: Handle, receive: bool)

  datatype Event =
    | OnCall(call: CallOp)
    | OnTree(tree: TreeOp)
    | OnStream(p: StreamId, stream: StreamOp)

  // ---- call state

  function Emit(st: Status): Status {
    if st.registered then st.(log := st.log + [StateChanged(st.state, st.flags)]) else st
  }

  /** The flags that survive entering `state`. */
  function KeptFlags(flags: CallFlags, state: CallState): CallFlags {
    CallFlags(flags.ringing && state == Initialised,
              flags.queued && (state == Initialising || state == Initialised))
  }

  /** tp_base_call_channel_set_state, for a call that is connected or not. */
  function Enter(st: Status, connected: bool, state: CallState): Status {
    if st.state == state then st
    else
      var d := Emit(st.(state := state, flags := KeptFlags(st.flags, state)));
      var e := if d.state == Initialising && connected then Emit(d.(state := Initialised)) else d;
      if e.state == Accepted && connected then Emit(e.(state := Active)) else e
  }

  function SetState(c: Call, state: CallState): Call {
    c.(status := Enter(c.status, Connected(c), state))
  }

  const NO_FLAGS := CallFlags(false, false)

  /** A channel as its constructor leaves it. */
  function Initial(requested: bool): (r: Call)
    ensures WellFormed(r)
  {
    assert Order([]) == [];
    var c := Call(requested, Status(false, StateChanged(Unknown, NO_FLAGS), Unknown, NO_FLAGS, []),
                  Acceptance(false, false, 0), Holding(Unheld, Requested, []), Roster(map[], []), [],
                  Media(map[], false, 0, {}, {}));
    SetState(c, if requested then PendingInitiator else Initialising)
  }

  function DoRegister(st: Status): Status {
    if st.registered then st
    else st.(registered := true, published := StateChanged(st.state, st.flags), log := [])
  }

  /** tp_base_media_call_channel_accept: try, and wait for the streams if that did not do it. */
  function AcceptMedia(env: Env, m: Media): Media
    requires Scannable(env, m)
  {
    var r := TryAccept(env, m);
    if r.accepted then r else WaitForStreams(r)
  }

  function WaitForStreams(m: Media): Media {
    m.(streams := map p | p in m.streams ::
         m.streams[p].(waiting := m.streams[p].waiting || m.streams[p].line.initial))
  }

  predicate CanAccept(c: Call) {
    c.status.state == if c.requested then PendingInitiator else Initialised
  }

  /** The call once the D-Bus method has set the state and the acceptance, before the media channel
      accepts. */
  function Accepting(c: Call): Call {
    var a := c.acceptance;
    SetState(c, if c.requested then Initialising else Accepted)
    .(acceptance := Acceptance(true, a.accepted || !c.requested, a.replies + 1))
  }

  function DoAccept(c: Call): Call
    requires ScannableCall(c)
  {
    if !CanAccept(c) then c.(acceptance := c.acceptance.(locally := true))
    else
      var d := Accepting(c);
      d.(media := AcceptMedia(EnvOf(d), d.media))
  }

  /** _tp_base_media_call_content_remote_accepted for one stream. */
  function RemoteAccepted(env: Env, s: Stream): Stream {
    if !s.line.initial then s
    else UpdatedSending(env, if s.local == Sending then WithLocalSending(env, s, true) else s)
  }

  function RemoteAccepting(c: Call): Call {
    SetState(c, Accepted).(acceptance := c.acceptance.(accepted := true))
  }

  predicate CanRemoteAccept(c: Call) {
    && c.requested && !c.acceptance.accepted
    && (c.status.state == Initialised || c.status.state == Initialising)
  }

  function DoRemoteAccept(c: Call): Call {
    if !CanRemoteAccept(c) then c
    else
      var d := RemoteAccepting(c);
      d.(media := d.media.(streams := map p | p in d.media.streams :: RemoteAccepted(EnvOf(d), d.media.streams[p])))
  }

  function DoSetRinging(requested: bool, st: Status): Status {
    if requested || st.state != Initialised || st.flags.ringing then st
    else Emit(st.(flags := CallFlags(true, false)))
  }

  function DoSetQueued(requested: bool, st: Status): Status {
    if requested || (st.state != Initialising && st.state != Initialised) || st.flags.queued then st
    else Emit(st.(flags := st.flags.(queued := true)))
  }

  /** _tp_base_media_call_channel_endpoint_state_changed */
  function EndpointChanged(st: Status, connected: bool): Status {
    match st.state
    case Initialising => if connected then Enter(st, connected, Initialised) else st
    case Active => if !connected then Enter(st, connected, Accepted) else st
    case Accepted => if connected then Enter(st, connected, Active) else st
    case _ => st
  }

  function PutCall(c: Call, p: StreamId, s: Stream): Call {
    c.(media := Put(c.media, p, s))
  }

  function WithEndpoints(c: Call, p: StreamId, endpoints: seq<EndpointState>): Call
    requires p in c.media.streams
  {
    var s := c.media.streams[p];
    PutCall(c, p, s.(line := s.line.(endpoints := endpoints)))
  }

  function DoSetEndpoint(c: Call, p: StreamId, k: nat, endpoint: EndpointState): Call
    requires p in c.media.streams
  {
    var l := c.media.streams[p].line;
    var d := if k < |l.endpoints| then WithEndpoints(c, p, l.endpoints[k := endpoint]) else c;
    d.(status := EndpointChanged(d.status, Connected(d)))
  }

  function DoAddEndpoint(c: Call, p: StreamId, endpoint: EndpointState): Call
    requires p in c.media.streams
  {
    WithEndpoints(c, p, c.media.streams[p].line.endpoints + [endpoint])
  }

  function DoRemoveEndpoint(c: Call, p: StreamId, k: nat): Call
    requires p in c.media.streams
  {
    var l := c.media.streams[p].line;
    if k >= |l.endpoints| then c else WithEndpoints(c, p, l.endpoints[..k] + l.endpoints[k + 1..])
  }

  // ---- contents and streams

  function AttachedStream(env: Env, initial: bool, local: SendingState,
                          history: seq<MembersChanged<SendingState>>, wish: bool,
                          endpoints: seq<EndpointState>): Stream
  {
    var line := Line(initial, Replay(history), history, false, false, false, endpoints);
    var s := Stream(line, local, Stopped, Stopped, wish, false);
    UpdatedSending(env, s.(receiving := ReceiveGoal(env, s)))
  }

  function Without(ps: seq<StreamId>, p: StreamId): seq<StreamId> {
    if ps == [] then [] else if ps[0] == p then ps[1..] else [ps[0]] + Without(ps[1..], p)
  }

  function RemovedFrom(contents: seq<Content>, p: StreamId): seq<Content> {
    seq(|contents|, i requires 0 <= i < |contents| =>
      contents[i].(streams := Without(contents[i].streams, p)))
  }

  function RemoveKeys(m: Media, ps: seq<StreamId>): Media {
    m.(streams := map p | p in m.streams && p !in ps :: m.streams[p])
  }

  // ---- flows

  predicate CorrectTransition(now: FlowState, next: FlowState) {
    || (next == Started && now == PendingStart)
    || (next == Stopped && now == PendingStop)
  }

  /** The stream `p` becomes `t`, and the call reacts. */
  function Report(c: Call, p: StreamId, t: Stream, receiving: bool, success: bool): (r: Call)
    requires ScannableCall(c) && p in c.media.streams
    ensures HoldFrame(PutCall(c, p, t), r)
  {
    React(PutCall(c, p, t), p, receiving, success)
  }

  function DoCompleteSending(c: Call, p: StreamId, flow: FlowState): Call
    requires ScannableCall(c) && p in c.media.streams
  {
    var s := c.media.streams[p];
    if !CorrectTransition(s.sending, flow) then c
    else Report(c, p, s.(sending := flow), false, true)
  }

  function FailedSending(s: Stream): Stream {
    s.(sending := Stopped, line := s.line.(sendingFailure := true))
  }

  /** The failure is over; unless the call was held, nothing is to be sent any more. */
  function SendingForgotten(s: Stream, wasHeld: bool): Stream {
    s.(localSending := s.localSending && wasHeld, line := s.line.(sendingFailure := false))
  }

  function DoFailSending(c: Call, p: StreamId): Call
    requires ScannableCall(c) && p in c.media.streams
  {
    if c.media.streams[p].sending == Stopped then c
    else
      var e := Report(c, p, FailedSending(c.media.streams[p]), false, false);
      var t := e.media.streams[p];
      PutCall(e, p, SendingForgotten(t, c.holding.state != Unheld))
  }

  function DoCompleteReceiving(c: Call, p: StreamId, flow: FlowState): Call
    requires ScannableCall(c) && p in c.media.streams
  {
    var s := c.media.streams[p];
    if !CorrectTransition(s.receiving, flow) then c
    else Report(c, p, s.(receiving := flow), true, true)
  }

  function FailedReceiving(s: Stream): Stream {
    s.(receiving := Stopped, line := s.line.(receivingFailure := true))
  }

  function ReceivingForgotten(s: Stream): Stream {
    s.(line := s.line.(receivingFailure := false))
  }

  function DoFailReceiving(c: Call, p: StreamId): Call
    requires ScannableCall(c) && p in c.media.streams
  {
    if c.media.streams[p].receiving == Stopped then c
    else
      var e := Report(c, p, FailedReceiving(c.media.streams[p]), true, false);
      PutCall(e, p, ReceivingForgotten(e.media.streams[p]))
  }

  // ---- sending states

  function DoUpdateLocal(c: Call, p: StreamId, local: SendingState): Call
    requires p in c.media.streams
  {
    PutCall(c, p, c.media.streams[p].(local := GateLocal(EnvOf(c), local)))
  }

  /** The sending state a remote member gets: an outgoing call nobody accepted yet keeps SENDING
      pending. */
  function GateRemote(c: Call, remote: SendingState): SendingState {
    if remote == Sending && c.requested && !c.acceptance.accepted then PendingSend else remote
  }

  /** notify::remote-members: the stream updates its receiving state, then a waiting accept is tried
      again. */
  function RemoteMembersNotified(c: Call, p: StreamId): Call
    requires ScannableCall(c) && p in c.media.streams
  {
    var m := UpdateReceiving(EnvOf(c), c.media, p);
    c.(media := if m.streams[p].waiting then HandlerPass(EnvOf(c), m, p) else m)
  }

  function WithRemote(s: Stream, remote: map<Handle, SendingState>, change: MembersChanged<SendingState>): Stream {
    s.(line := s.line.(remote := remote, remoteLog := s.line.remoteLog + [change]))
  }

  function DoUpdateRemote(c: Call, p: StreamId, h: Handle, remote: SendingState): Call
    requires ScannableCall(c) && p in c.media.streams
  {
    var s := c.media.streams[p];
    var state := GateRemote(c, remote);
    if h in s.line.remote && s.line.remote[h] == state then c
    else
      RemoteMembersNotified(
        PutCall(c, p, WithRemote(s, s.line.remote[h := state], MembersChanged(map[h := state], {}))), p)
  }

  function DoRemoveRemote(c: Call, p: StreamId, h: Handle): Call
    requires ScannableCall(c) && p in c.media.streams
  {
    var s := c.media.streams[p];
    if h !in s.line.remote then c
    else
      RemoteMembersNotified(
        PutCall(c, p, WithRemote(s, s.line.remote - {h}, MembersChanged(map[], {h}))), p)
  }

  function DoSetSending(c: Call, p: StreamId, send: bool, hook: bool): Call
    requires p in c.media.streams
  {
    var s := c.media.streams[p];
    var settled := if s.local == NotSending || s.local == PendingSend then !send else send;
    if settled then DoUpdateLocal(c, p, if send then Sending else NotSending)
    else if send then (if hook then DoUpdateLocal(c, p, Sending) else c)
    else
      var d := PutCall(c, p, WithLocalSending(EnvOf(c), s, false));
      if d.media.streams[p].sending == Stopped && !hook then d
      else DoUpdateLocal(d, p, NotSending)
  }

  function DoRequestReceiving(c: Call, p: StreamId, h: Handle, receive: bool): Call
    requires ScannableCall(c) && p in c.media.streams
  {
    var remote := c.media.streams[p].line.remote;
    if h !in remote then c
    else if receive == (remote[h] == Sending || remote[h] == PendingSend) then c
    else if receive then
      var d := DoUpdateRemote(c, p, h, PendingSend);
      UpdateRemoteKeeps(c, p, h, PendingSend);
      d.(media := UpdateReceiving(EnvOf(d), d.media, p))
    else DoUpdateRemote(c, p, h, PendingStopSending)
  }

  lemma UpdateRemoteKeeps(c: Call, p: StreamId, h: Handle, remote: SendingState)
    requires ScannableCall(c) && p in c.media.streams
    ensures var r := DoUpdateRemote(c, p, h, remote);
            r.contents == c.contents && r.media.streams.Keys == c.media.streams.Keys
  {
  }

  // ---- members of the call

  /** Every remote member of the stream that is a member of the call is holding it. */
  predicate AllHeld(members: map<Handle, MemberFlags>, l: Line) {
    forall h :: h in l.remote && h in members ==> members[h].held
  }

  function RemoteHoldStream(env: Env, members: map<Handle, MemberFlags>, s: Stream): Stream {
    if s.line.remotelyHeld == AllHeld(members, s.line) then s
    else UpdatedSending(env, s.(line := s.line.(remotelyHeld := AllHeld(members, s.line))))
  }

  /** call_members_changed_cb */
  function CheckRemoteHold(c: Call): Call {
    c.(media := c.media.(streams := map p | p in c.media.streams ::
                           RemoteHoldStream(EnvOf(c), c.roster.members, c.media.streams[p])))
  }

  function UpdatedRoster(r: Roster, h: Handle, flags: MemberFlags): Roster {
    Roster(r.members[h := flags], r.log + [MembersChanged(map[h := flags], {})])
  }

  function DoUpdateMember(c: Call, h: Handle, flags: MemberFlags): Call {
    if h in c.roster.members && c.roster.members[h] == flags then c
    else CheckRemoteHold(c.(roster := UpdatedRoster(c.roster, h, flags)))
  }

  function ReducedRoster(r: Roster, h: Handle): Roster {
    Roster(r.members - {h}, r.log + [MembersChanged(map[], {h})])
  }

  function DoRemoveMember(c: Call, h: Handle): Call {
    if h !in c.roster.members then c
    else CheckRemoteHold(c.(roster := ReducedRoster(c.roster, h)))
  }

  // ---- one event

  function CallStep(c: Call, op: CallOp): Call
    requires ScannableCall(c)
  {
    match op
    case Register => c.(status := DoRegister(c.status))
    case Accept => DoAccept(c)
    case RemoteAccept => DoRemoteAccept(c)
    case Hangup => SetState(c, Ended)
    case SetRinging => c.(status := DoSetRinging(c.requested, c.status))
    case SetQueued => c.(status := DoSetQueued(c.requested, c.status))
    case RequestHold(hold) => CallHold.RequestHold(c, hold)
    case UpdateMember(h, flags) => DoUpdateMember(c, h, flags)
    case RemoveMember(h) => DoRemoveMember(c, h)
    case ForceState(state) => SetState(c, state)
  }

  function TreeStep(c: Call, op: TreeOp): Call {
    match op
    case AddContent(initial) => c.(contents := [Content(initial, [])] + c.contents)
    case RemoveContent(i) =>
      if i >= |c.contents| then c
      else c.(contents := c.contents[..i] + c.contents[i + 1..], media := RemoveKeys(c.media, c.contents[i].streams))
    case AddStream(i, p, local, history, wish, endpoints) =>
      if i >= |c.contents| || p in c.media.streams then c
      else
        var content := c.contents[i];
        c.(contents := c.contents[i := content.(streams := [p] + content.streams)],
           media := Put(c.media, p, AttachedStream(EnvOf(c), content.initial, local, history, wish, endpoints)))
    case RemoveStream(p) =>
      if p !in c.media.streams then c
      else c.(contents := RemovedFrom(c.contents, p), media := RemoveKeys(c.media, [p]))
  }

  predicate IsFlowOp(op: StreamOp) {
    op.CompleteSending? || op.FailSending? || op.CompleteReceiving? || op.FailReceiving?
    || op.UpdateLocal? || op.SetSending? || op.WishSending?
  }

  function FlowStep(c: Call, p: StreamId, op: StreamOp): Call
    requires ScannableCall(c) && p in c.media.streams && IsFlowOp(op)
  {
    match op
    case CompleteSending(flow) => DoCompleteSending(c, p, flow)
    case FailSending => DoFailSending(c, p)
    case CompleteReceiving(flow) => DoCompleteReceiving(c, p, flow)
    case FailReceiving => DoFailReceiving(c, p)
    case UpdateLocal(local) => DoUpdateLocal(c, p, local)
    case SetSending(send, hook) => DoSetSending(c, p, send, hook)
    case WishSending(wish) => PutCall(c, p, WithLocalSending(EnvOf(c), c.media.streams[p], wish))
  }

  predicate IsRemoteOp(op: StreamOp) {
    op.UpdateRemote? || op.RemoveRemote? || op.RequestReceiving?
  }

  function RemoteStep(c: Call, p: StreamId, op: StreamOp): Call
    requires ScannableCall(c) && p in c.media.streams && IsRemoteOp(op)
  {
    match op
    case UpdateRemote(h, remote) => DoUpdateRemote(c, p, h, remote)
    case RemoveRemote(h) => DoRemoveRemote(c, p, h)
    case RequestReceiving(h, receive) => DoRequestReceiving(c, p, h, receive)
  }

  predicate IsEndpointOp(op: StreamOp) {
    op.SetEndpoint? || op.AddEndpoint? || op.RemoveEndpoint?
  }

  function EndpointStep(c: Call, p: StreamId, op: StreamOp): Call
    requires p in c.media.streams && IsEndpointOp(op)
  {
    match op
    case SetEndpoint(k, endpoint) => DoSetEndpoint(c, p, k, endpoint)
    case AddEndpoint(endpoint) => DoAddEndpoint(c, p, endpoint)
    case RemoveEndpoint(k) => DoRemoveEndpoint(c, p, k)
  }

  function OneStreamStep(c: Call, p: StreamId, op: StreamOp): Call
    requires ScannableCall(c) && p in c.media.streams
  {
    if IsFlowOp(op) then FlowStep(c, p, op) else if IsRemoteOp(op) then RemoteStep(c, p, op) else EndpointStep(c, p, op)
  }

  /** Events about a stream that is not part of the call reach no one. */
  function Step(c: Call, e: Event): Call
    requires ScannableCall(c)
  {
    match e
    case OnCall(op) => CallStep(c, op)
    case OnTree(op) => TreeStep(c, op)
    case OnStream(p, op) => if p in c.media.streams then OneStreamStep(c, p, op) else c
  }
}
