/** What the events about the call state and the endpoints do, in terms of the call before them. */
module CallStateEvents {
  import opened CallTypes
  import opened CallHold
  import opened CallEngine
  import opened CallRuns
  import opened CallLifecycle

  // ---- entering a state

  /** Where a call that is told to enter a state ends up. */
  function Bump(state: CallState, connected: bool): CallState {
    if state == Initialising && connected then Initialised
    else if state == Accepted && connected then Active
    else state
  }

  /** `r` is the status `st` after the call entered `state`: nothing if it was there; otherwise the flags
      are kept that belong to the state, and every registered observer is told of the state, and of the
      one the call is bumped to. */
  predicate Enters(st: Status, r: Status, connected: bool, state: CallState) {
    if st.state == state then r == st
    else
      && r.state == Bump(state, connected)
      && r.registered == st.registered && r.published == st.published
      && (r.flags.ringing <==> st.flags.ringing && state == Initialised)
      && (r.flags.queued <==> st.flags.queued && (state == Initialising || state == Initialised))
      && r.log == st.log + if !st.registered then []
                           else if r.state == state then [StateChanged(state, r.flags)]
                           else [StateChanged(state, r.flags), StateChanged(r.state, r.flags)]
  }

  lemma EnterEnters(st: Status, connected: bool, state: CallState)
    ensures Enters(st, Enter(st, connected, state), connected, state)
  {
    var a, b := StateChanged(state, KeptFlags(st.flags, state)), StateChanged(Bump(state, connected), KeptFlags(st.flags, state));
    assert st.log + [a] + [b] == st.log + [a, b];
    assert st.log + [] == st.log;
  }

  /** A new channel: an outgoing call waits for its initiator; an incoming one, which has no streams to
      connect, is initialised. */
  lemma InitialEffect(requested: bool)
    ensures var c := Initial(requested);
            && c.status.state == (if requested then PendingInitiator else Initialised)
            && c.requested == requested && !c.status.registered && c.status.flags == NO_FLAGS
            && c.acceptance == Acceptance(false, false, 0) && c.holding == Holding(Unheld, Requested, [])
            && c.contents == [] && c.media.streams == map[] && !c.media.accepted && c.roster.members == map[]
  {
    InitialFit(requested);
  }

  // ---- D-Bus methods and calls of the subclass

  /** Registering publishes the state and the flags, once. */
  lemma RegisterEffect(c: Call)
    requires ScannableCall(c)
    ensures var r := Step(c, OnCall(Register));
            && r == c.(status := r.status)
            && r.status == if c.status.registered then c.status
                           else Status(true, StateChanged(c.status.state, c.status.flags), c.status.state, c.status.flags, [])
  {
  }

  /** Accept works on an outgoing call that waits for its initiator and on an incoming one that is
      initialised: the first enters INITIALISING and the second ACCEPTED, which accepts it. Anywhere else
      it only records that the local client has accepted. */
  lemma AcceptEffect(c: Call)
    requires ScannableCall(c)
    ensures var r := Step(c, OnCall(Accept));
            if c.status.state == (if c.requested then PendingInitiator else Initialised)
            then
              && Enters(c.status, r.status, Connected(c), if c.requested then Initialising else Accepted)
              && r.acceptance == Acceptance(true, c.acceptance.accepted || !c.requested, c.acceptance.replies + 1)
              && r.holding == c.holding && r.roster == c.roster && r.contents == c.contents
            else r == c.(acceptance := Acceptance(true, c.acceptance.accepted, c.acceptance.replies))
  {
    StepIsAccept(c, OnCall(Accept));
    EnterEnters(c.status, Connected(c), if c.requested then Initialising else Accepted);
  }

  /** The other side's accept works on an outgoing call that is not accepted and is initialising or
      initialised, which enters ACCEPTED. */
  lemma RemoteAcceptEffect(c: Call)
    requires ScannableCall(c)
    ensures var r := Step(c, OnCall(RemoteAccept));
            if c.requested && !c.acceptance.accepted && (c.status.state == Initialised || c.status.state == Initialising)
            then
              && Enters(c.status, r.status, Connected(c), Accepted)
              && r.acceptance == c.acceptance.(accepted := true)
              && r.holding == c.holding && r.roster == c.roster && r.contents == c.contents
            else r == c
  {
    EnterEnters(c.status, Connected(c), Accepted);
  }

  /** Hanging up ends the call, and a state that a subclass sets is entered; nothing else changes. */
  lemma EnterEffect(c: Call, state: CallState)
    requires ScannableCall(c)
    ensures var r := Step(c, OnCall(Hangup));
            r == c.(status := r.status) && Enters(c.status, r.status, Connected(c), Ended) && r.status.state == Ended
    ensures var r := Step(c, OnCall(ForceState(state)));
            r == c.(status := r.status) && Enters(c.status, r.status, Connected(c), state)
  {
    EnterEnters(c.status, Connected(c), Ended);
    EnterEnters(c.status, Connected(c), state);
  }

  predicate Tells(st: Status, r: Status) {
    r.log == if st.registered then st.log + [StateChanged(r.state, r.flags)] else st.log
  }

  /** SetRinging turns on ringing and turns off queuing on an incoming, initialised call that is not
      ringing, and tells of it; anywhere else it does nothing. */
  lemma RingingEffect(c: Call)
    requires ScannableCall(c)
    ensures var r := Step(c, OnCall(SetRinging));
            if !c.requested && c.status.state == Initialised && !c.status.flags.ringing
            then r == c.(status := c.status.(flags := CallFlags(true, false), log := r.status.log)) && Tells(c.status, r.status)
            else r == c
  {
  }

  /** SetQueued turns on queuing, and leaves ringing alone, on an incoming call that is initialising or
      initialised and not queued, and tells of it; anywhere else it does nothing. */
  lemma QueuedEffect(c: Call)
    requires ScannableCall(c)
    ensures var r := Step(c, OnCall(SetQueued));
            if !c.requested && (c.status.state == Initialising || c.status.state == Initialised) && !c.status.flags.queued
            then r == c.(status := c.status.(flags := CallFlags(c.status.flags.ringing, true), log := r.status.log))
                 && Tells(c.status, r.status)
            else r == c
  {
  }

  // ---- endpoints

  /** Another endpoint of the stream than the `k`-th is connected. */
  predicate OtherConnected(endpoints: seq<EndpointState>, k: nat) {
    exists i :: 0 <= i < |endpoints| && i != k && EndpointConnected(endpoints[i])
  }

  predicate OthersConnected(c: Call, p: StreamId) {
    forall q :: q in c.media.streams && q != p ==> StreamConnected(c.media.streams[q].line)
  }

  /** Every other stream, and everything of this one but its endpoints, is as it was. */
  predicate OnlyEndpoints(c: Call, p: StreamId, r: Call)
    requires p in c.media.streams
  {
    && r == c.(media := r.media, status := r.status)
    && p in r.media.streams
    && r.media == c.media.(streams := c.media.streams[p := c.media.streams[p].(
         line := c.media.streams[p].line.(endpoints := r.media.streams[p].line.endpoints))])
  }

  lemma SetConnected(endpoints: seq<EndpointState>, k: nat, endpoint: EndpointState)
    requires k < |endpoints|
    ensures AnyConnected(endpoints[k := endpoint]) <==> EndpointConnected(endpoint) || OtherConnected(endpoints, k)
  {
    var r := endpoints[k := endpoint];
    assert r[k] == endpoint;
    if i :| 0 <= i < |endpoints| && i != k && EndpointConnected(endpoints[i]) {
      assert EndpointConnected(r[i]);
    }
    if i :| 0 <= i < |r| && EndpointConnected(r[i]) && i != k {
      assert EndpointConnected(endpoints[i]);
    }
  }

  lemma StepIsSetEndpoint(c: Call, e: Event, p: StreamId, k: nat, endpoint: EndpointState)
    requires ScannableCall(c) && p in c.media.streams && e == OnStream(p, SetEndpoint(k, endpoint))
    ensures Step(c, e) == DoSetEndpoint(c, p, k, endpoint)
  {
  }

  /** What the channel makes of its state when an endpoint has reported. */
  predicate FollowsConnection(st: Status, r: Status, connected: bool) {
    match st.state
    case Active => if connected then r == st else Enters(st, r, false, Accepted) && r.state == Accepted
    case Accepted => if connected then Enters(st, r, true, Active) && r.state == Active else r == st
    case Initialising => if connected then Enters(st, r, true, Initialised) && r.state == Initialised else r == st
    case _ => r == st
  }

  lemma ChangedFollows(st: Status, connected: bool)
    ensures FollowsConnection(st, EndpointChanged(st, connected), connected)
  {
    EnterEnters(st, connected, Accepted);
    EnterEnters(st, connected, Active);
    EnterEnters(st, connected, Initialised);
  }

  /** A report stores the state of its endpoint, and nothing else about any stream. The call is connected
      afterwards exactly if all other streams are, and the endpoint or another one of its stream is. An
      active call that is not connected then becomes accepted, an accepted one that is active, and an
      initialising one initialised; any other state stays. */
  lemma EndpointReported(c: Call, p: StreamId, k: nat, endpoint: EndpointState)
    requires ScannableCall(c) && p in c.media.streams && k < |c.media.streams[p].line.endpoints|
    ensures var was := c.media.streams[p].line.endpoints;
            var r := Step(c, OnStream(p, SetEndpoint(k, endpoint)));
            var now := r.media.streams[p].line.endpoints;
            && OnlyEndpoints(c, p, r)
            && |now| == |was| && now[k] == endpoint && (forall i :: 0 <= i < |was| && i != k ==> now[i] == was[i])
            && (StreamConnected(r.media.streams[p].line) <==> EndpointConnected(endpoint) || OtherConnected(was, k))
            && FollowsConnection(c.status, r.status,
                                 (EndpointConnected(endpoint) || OtherConnected(was, k)) && OthersConnected(c, p))
  {
    var was := c.media.streams[p].line.endpoints;
    var d := WithEndpoints(c, p, was[k := endpoint]);
    StepIsSetEndpoint(c, OnStream(p, SetEndpoint(k, endpoint)), p, k, endpoint);
    SetConnected(was, k, endpoint);
    EndpointsConnected(c, p, was[k := endpoint]);
    ChangedFollows(c.status, Connected(d));
    assert StreamConnected(d.media.streams[p].line) == AnyConnected(was[k := endpoint]);
  }

  /** A report of an endpoint that was removed stores nothing, and the state follows the connection. */
  lemma RemovedEndpointReported(c: Call, p: StreamId, k: nat, endpoint: EndpointState)
    requires ScannableCall(c) && p in c.media.streams && k >= |c.media.streams[p].line.endpoints|
    ensures var r := Step(c, OnStream(p, SetEndpoint(k, endpoint)));
            r == c.(status := r.status) && FollowsConnection(c.status, r.status, Connected(c))
  {
    StepIsSetEndpoint(c, OnStream(p, SetEndpoint(k, endpoint)), p, k, endpoint);
    ChangedFollows(c.status, Connected(c));
  }

  lemma StepIsAddEndpoint(c: Call, e: Event, p: StreamId, endpoint: EndpointState)
    requires ScannableCall(c) && p in c.media.streams && e == OnStream(p, AddEndpoint(endpoint))
    ensures Step(c, e) == WithEndpoints(c, p, c.media.streams[p].line.endpoints + [endpoint])
  {
  }

  lemma StepIsRemoveEndpoint(c: Call, e: Event, p: StreamId, k: nat)
    requires ScannableCall(c) && p in c.media.streams && e == OnStream(p, RemoveEndpoint(k))
    ensures Step(c, e) == DoRemoveEndpoint(c, p, k)
  {
  }

  /** An endpoint that is added is there afterwards, and the state does not look. */
  lemma AddEndpointEffect(c: Call, p: StreamId, endpoint: EndpointState)
    requires ScannableCall(c) && p in c.media.streams
    ensures var r := Step(c, OnStream(p, AddEndpoint(endpoint)));
            && OnlyEndpoints(c, p, r) && r.status == c.status
            && multiset(r.media.streams[p].line.endpoints) == multiset(c.media.streams[p].line.endpoints) + multiset{endpoint}
  {
    StepIsAddEndpoint(c, OnStream(p, AddEndpoint(endpoint)), p, endpoint);
  }

  lemma OneLess(endpoints: seq<EndpointState>, k: nat)
    requires k < |endpoints|
    ensures multiset(endpoints[..k] + endpoints[k + 1..]) == multiset(endpoints) - multiset{endpoints[k]}
  {
    assert endpoints == endpoints[..k] + [endpoints[k]] + endpoints[k + 1..];
  }

  /** An endpoint that is removed is not, and the state does not look; one that is not there stays away. */
  lemma RemoveEndpointEffect(c: Call, p: StreamId, k: nat)
    requires ScannableCall(c) && p in c.media.streams
    ensures var was := c.media.streams[p].line.endpoints;
            var r := Step(c, OnStream(p, RemoveEndpoint(k)));
            if k < |was|
            then OnlyEndpoints(c, p, r) && r.status == c.status
                 && multiset(r.media.streams[p].line.endpoints) == multiset(was) - multiset{was[k]}
            else r == c
  {
    StepIsRemoveEndpoint(c, OnStream(p, RemoveEndpoint(k)), p, k);
    if k < |c.media.streams[p].line.endpoints| {
      OneLess(c.media.streams[p].line.endpoints, k);
    }
  }
}
