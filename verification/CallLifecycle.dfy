/** The life of a call: which states it goes through, how they relate to acceptance and
    connectivity, and what the CallStateChanged signals tell an observer.
 */
module CallLifecycle {
  import opened CallTypes
  import opened CallHold
  import opened CallEngine
  import opened CallSafety
  import opened CallRuns

  // ---- the call state and its signals

  function Rank(state: CallState): nat {
    match state
    case Unknown => 0
    case PendingInitiator => 1
    case Initialising => 2
    case Initialised => 3
    case Accepted => 4
    case Active => 5
    case Ended => 6
  }

  /** A call only moves forward, except that an active call can lose its connection. */
  predicate Moves(from: CallState, to: CallState) {
    Rank(from) <= Rank(to) || (from == Active && to == Accepted)
  }

  /** What somebody who read the properties at registration and followed the signals has seen. */
  function Seen(st: Status): seq<StateChanged> {
    [st.published] + st.log
  }

  predicate UpToDate(st: Status) {
    st.registered ==> Seen(st)[|st.log|] == StateChanged(st.state, st.flags)
  }

  predicate PathSeen(st: Status) {
    forall i :: 0 <= i < |st.log| ==> Moves(Seen(st)[i].state, Seen(st)[i + 1].state)
  }

  /** Ringing and queuing belong to the early states of an incoming call. */
  predicate FlagsFit(requested: bool, st: Status) {
    && (st.flags.ringing ==> !requested && st.state == Initialised)
    && (st.flags.queued ==> !requested && (st.state == Initialising || st.state == Initialised))
  }

  lemma EmitSeen(st: Status, state: CallState, flags: CallFlags)
    ensures UpToDate(Emit(st.(state := state, flags := flags)))
    ensures UpToDate(st) && PathSeen(st) && Moves(st.state, state) ==> PathSeen(Emit(st.(state := state, flags := flags)))
  {
    if st.registered {
      var r := Emit(st.(state := state, flags := flags));
      assert Seen(r) == Seen(st) + [StateChanged(state, flags)];
      assert |r.log| == |st.log| + 1;
      if UpToDate(st) && PathSeen(st) && Moves(st.state, state) {
        forall i | 0 <= i < |r.log|
          ensures Moves(Seen(r)[i].state, Seen(r)[i + 1].state)
        {
          if i < |st.log| {
            assert Moves(Seen(st)[i].state, Seen(st)[i + 1].state);
          }
        }
      }
    } else {
      assert Seen(Emit(st.(state := state, flags := flags))) == Seen(st);
    }
  }

  /** Entering a state, with the bump that may follow, keeps observers up to date and the flags
      right, and only extends the path they see. */
  lemma EnterSeen(requested: bool, st: Status, connected: bool, state: CallState)
    requires UpToDate(st) && FlagsFit(requested, st)
    ensures var r := Enter(st, connected, state);
            && UpToDate(r) && FlagsFit(requested, r)
            && (Moves(st.state, state) && PathSeen(st) ==> PathSeen(r) && Moves(st.state, r.state))
  {
    if st.state != state {
      var flags := KeptFlags(st.flags, state);
      EmitSeen(st, state, flags);
      var d := Emit(st.(state := state, flags := flags));
      EmitSeen(d, Initialised, flags);
      EmitSeen(d, Active, flags);
    }
  }

  lemma RingingSeen(requested: bool, st: Status)
    requires UpToDate(st) && FlagsFit(requested, st)
    ensures var r := DoSetRinging(requested, st);
            UpToDate(r) && FlagsFit(requested, r) && r.state == st.state && (PathSeen(st) ==> PathSeen(r))
  {
    EmitSeen(st, st.state, CallFlags(true, false));
  }

  lemma QueuedSeen(requested: bool, st: Status)
    requires UpToDate(st) && FlagsFit(requested, st)
    ensures var r := DoSetQueued(requested, st);
            UpToDate(r) && FlagsFit(requested, r) && r.state == st.state && (PathSeen(st) ==> PathSeen(r))
  {
    EmitSeen(st, st.state, st.flags.(queued := true));
  }

  // ---- observers and flags, whatever the subclass does

  predicate Observed(c: Call) {
    UpToDate(c.status) && FlagsFit(c.requested, c.status)
  }

  lemma CallStepObserved(c: Call, op: CallOp)
    requires ScannableCall(c) && Observed(c)
    ensures Observed(CallStep(c, op))
  {
    match op {
      case Register =>
      case Accept => EnterSeen(c.requested, c.status, Connected(c), if c.requested then Initialising else Accepted);
      case RemoteAccept => EnterSeen(c.requested, c.status, Connected(c), Accepted);
      case Hangup => EnterSeen(c.requested, c.status, Connected(c), Ended);
      case SetRinging => RingingSeen(c.requested, c.status);
      case SetQueued => QueuedSeen(c.requested, c.status);
      case RequestHold(hold) => FlowHold(c, CallHold.RequestHold(c, hold));
      case UpdateMember(_, _) => RosterOpSummary(c, op);
      case RemoveMember(_) => RosterOpSummary(c, op);
      case ForceState(state) => EnterSeen(c.requested, c.status, Connected(c), state);
    }
  }

  lemma EndpointSeen(requested: bool, st: Status, connected: bool)
    requires UpToDate(st) && FlagsFit(requested, st)
    ensures var r := EndpointChanged(st, connected);
            && UpToDate(r) && FlagsFit(requested, r)
            && (PathSeen(st) ==> PathSeen(r) && Moves(st.state, r.state))
  {
    EnterSeen(requested, st, connected, Initialised);
    EnterSeen(requested, st, connected, Accepted);
    EnterSeen(requested, st, connected, Active);
  }

  /** The state is re-evaluated with the connectivity the report leaves. */
  lemma SetEndpointStatus(c: Call, p: StreamId, k: nat, endpoint: EndpointState)
    requires p in c.media.streams
    ensures var r := DoSetEndpoint(c, p, k, endpoint); r.status == EndpointChanged(c.status, Connected(r))
  {
    var l := c.media.streams[p].line;
    var d := if k < |l.endpoints| then WithEndpoints(c, p, l.endpoints[k := endpoint]) else c;
    assert DoSetEndpoint(c, p, k, endpoint).media == d.media;
    assert Connected(d) == Connected(DoSetEndpoint(c, p, k, endpoint));
  }

  /** Events about a stream touch the call state only through its endpoints. */
  lemma OneStreamStatus(c: Call, p: StreamId, op: StreamOp)
    requires ScannableCall(c) && p in c.media.streams
    ensures var r := OneStreamStep(c, p, op);
            && r.requested == c.requested
            && (r.status == c.status || r.status == EndpointChanged(c.status, Connected(r)))
  {
    if IsFlowOp(op) {
      FlowOpSummary(c, p, op);
    } else if IsEndpointOp(op) {
      EndpointOpSummary(c, p, op);
      if op.SetEndpoint? {
        SetEndpointStatus(c, p, op.k, op.endpoint);
      }
    } else {
      RemoteOpEffect(c, p, op);
    }
  }

  lemma StepObserved(c: Call, e: Event)
    requires WellFormed(c) && Observed(c)
    ensures Observed(Step(c, e))
  {
    match e
    case OnCall(op) => CallStepObserved(c, op);
    case OnTree(op) => assert TreeStep(c, op).status == c.status;
    case OnStream(p, op) =>
      if p in c.media.streams {
        OneStreamStatus(c, p, op);
        EndpointSeen(c.requested, c.status, Connected(OneStreamStep(c, p, op)));
      }
  }

  lemma {:induction false} ObservedFrom(c: Call, es: seq<Event>)
    requires WellFormed(c) && Observed(c)
    ensures Observed(Run(c, es))
    decreases |es|
  {
    if es != [] {
      StepObserved(c, es[0]);
      StepWellFormed(c, es[0]);
      ObservedFrom(Step(c, es[0]), es[1..]);
    }
  }

  /** In every run, also one in which the subclass sets states at will: whoever read the properties
      when the channel was registered and followed CallStateChanged knows the current state and
      flags, a ringing call is an incoming one in INITIALISED, and a queued call is an incoming one
      in INITIALISING or INITIALISED. */
  lemma ObserversUpToDate(requested: bool, es: seq<Event>)
    ensures Observed(Run(Initial(requested), es))
  {
    ObservedFrom(Initial(requested), es);
  }

  // ---- connectivity

  /** An active call is connected; one that is accepted but not active, or still initialising, is
      not. */
  predicate Linked(c: Call) {
    && (c.status.state == Active ==> Connected(c))
    && (c.status.state == Accepted || c.status.state == Initialising ==> !Connected(c))
  }

  predicate LostBy(op: TreeOp, contents: seq<Content>, p: StreamId) {
    match op
    case RemoveStream(q) => p == q
    case RemoveContent(i) => i < |contents| && p in contents[i].streams
    case _ => false
  }

  /** What a change of the contents must respect: a stream added to an active call brings a connected
      endpoint, and removing streams from a call that waits for a connection leaves one that is not
      connected. */
  predicate LinkGuard(c: Call, op: TreeOp) {
    match op
    case AddContent(_) => true
    case AddStream(i, p, _, _, _, endpoints) =>
      c.status.state == Active && i < |c.contents| && p !in c.media.streams ==>
        exists k :: 0 <= k < |endpoints| && EndpointConnected(endpoints[k])
    case _ =>
      c.status.state == Accepted || c.status.state == Initialising ==>
        exists p :: p in c.media.streams && !LostBy(op, c.contents, p) && !StreamConnected(c.media.streams[p].line)
  }

  lemma Reconnected(m: Media, r: Media)
    requires SameLines(m, r)
    ensures (forall p :: p in m.streams ==> StreamConnected(m.streams[p].line))
            == (forall p :: p in r.streams ==> StreamConnected(r.streams[p].line))
  {
    forall p | p in m.streams
      ensures StreamConnected(m.streams[p].line) == StreamConnected(r.streams[p].line)
    {
      assert SameLine(m.streams[p].line, r.streams[p].line);
      assert m.streams[p].line.endpoints == r.streams[p].line.endpoints;
    }
  }

  lemma AddStreamLinked(c: Call, op: TreeOp)
    requires WellFormed(c) && Linked(c) && op.AddStream?
    ensures Linked(TreeStep(c, op)) <==> LinkGuard(c, op)
  {
    if op.i < |c.contents| && op.p !in c.media.streams {
      var r := TreeStep(c, op);
      var l := r.media.streams[op.p].line;
      assert l.endpoints == op.endpoints;
      forall p | p in c.media.streams
        ensures r.media.streams[p] == c.media.streams[p]
      {
      }
      assert Connected(r) == (Connected(c) && StreamConnected(l));
    }
  }

  lemma RemoveLinked(c: Call, op: TreeOp)
    requires WellFormed(c) && Linked(c) && (op.RemoveStream? || op.RemoveContent?)
    ensures Linked(TreeStep(c, op)) <==> LinkGuard(c, op)
  {
    var r := TreeStep(c, op);
    forall p
      ensures p in r.media.streams <==> p in c.media.streams && !LostBy(op, c.contents, p)
      ensures p in r.media.streams ==> r.media.streams[p] == c.media.streams[p]
    {
    }
    if Connected(c) {
      assert Connected(r);
    }
  }

  /** A change of the contents keeps state and connectivity in step exactly when it respects the
      guard. */
  lemma TreeLinkedExactly(c: Call, op: TreeOp)
    requires WellFormed(c) && Linked(c)
    ensures Linked(TreeStep(c, op)) <==> LinkGuard(c, op)
  {
    match op
    case AddContent(_) => assert TreeStep(c, op).media == c.media;
    case AddStream(_, _, _, _, _, _) => AddStreamLinked(c, op);
    case RemoveContent(_) => RemoveLinked(c, op);
    case RemoveStream(_) => RemoveLinked(c, op);
  }

  /** What adding or removing an endpoint must respect: one that is connected is not added to the last
      stream that a waiting call lacks, and the last connected endpoint of a stream is not removed from
      an active call. */
  predicate EndpointGuard(c: Call, p: StreamId, op: StreamOp)
    requires p in c.media.streams
  {
    var endpoints := c.media.streams[p].line.endpoints;
    match op
    case AddEndpoint(endpoint) =>
      (c.status.state == Accepted || c.status.state == Initialising) && EndpointConnected(endpoint) ==>
        exists q :: q in c.media.streams && q != p && !StreamConnected(c.media.streams[q].line)
    case RemoveEndpoint(k) =>
      c.status.state == Active && k < |endpoints| ==>
        exists i :: 0 <= i < |endpoints| && i != k && EndpointConnected(endpoints[i])
    case _ => true
  }

  predicate AnyConnected(endpoints: seq<EndpointState>) {
    exists k :: 0 <= k < |endpoints| && EndpointConnected(endpoints[k])
  }

  lemma EndpointsConnected(c: Call, p: StreamId, endpoints: seq<EndpointState>)
    requires p in c.media.streams
    ensures Connected(WithEndpoints(c, p, endpoints)) <==>
            AnyConnected(endpoints) && forall q :: q in c.media.streams && q != p ==> StreamConnected(c.media.streams[q].line)
  {
    var r := WithEndpoints(c, p, endpoints);
    assert StreamConnected(r.media.streams[p].line) == AnyConnected(endpoints);
    assert forall q :: q in c.media.streams && q != p ==> r.media.streams[q] == c.media.streams[q];
  }

  lemma EndpointAdded(endpoints: seq<EndpointState>, endpoint: EndpointState)
    ensures AnyConnected(endpoints + [endpoint]) <==> AnyConnected(endpoints) || EndpointConnected(endpoint)
  {
    var r := endpoints + [endpoint];
    if i :| 0 <= i < |endpoints| && EndpointConnected(endpoints[i]) {
      assert EndpointConnected(r[i]);
    }
    assert r[|endpoints|] == endpoint;
  }

  lemma EndpointRemoved(endpoints: seq<EndpointState>, k: nat)
    requires k < |endpoints|
    ensures AnyConnected(endpoints[..k] + endpoints[k + 1..]) <==>
            exists i :: 0 <= i < |endpoints| && i != k && EndpointConnected(endpoints[i])
  {
    var r := endpoints[..k] + endpoints[k + 1..];
    if i :| 0 <= i < |endpoints| && i != k && EndpointConnected(endpoints[i]) {
      assert EndpointConnected(r[if i < k then i else i - 1]);
    }
    if i :| 0 <= i < |r| && EndpointConnected(r[i]) {
      assert EndpointConnected(endpoints[if i < k then i else i + 1]);
    }
  }

  /** Neither adding nor removing an endpoint re-evaluates the state; the two stay in step exactly when
      the guard is respected. */
  lemma EndpointLinkedExactly(c: Call, p: StreamId, op: StreamOp)
    requires ScannableCall(c) && p in c.media.streams && Linked(c) && (op.AddEndpoint? || op.RemoveEndpoint?)
    ensures var r := EndpointStep(c, p, op);
            (Linked(r) <==> EndpointGuard(c, p, op)) && r.status == c.status && r.requested == c.requested
  {
    var l := c.media.streams[p].line;
    EndpointsConnected(c, p, l.endpoints);
    assert WithEndpoints(c, p, l.endpoints) == c by { PutBack(c, p); }
    if op.AddEndpoint? {
      EndpointsConnected(c, p, l.endpoints + [op.endpoint]);
      EndpointAdded(l.endpoints, op.endpoint);
    } else if op.k < |l.endpoints| {
      EndpointsConnected(c, p, l.endpoints[..op.k] + l.endpoints[op.k + 1..]);
      EndpointRemoved(l.endpoints, op.k);
    }
  }

  // ---- runs that break it

  /** A stream with these endpoints joins a call that has no streams. */
  lemma JoinedConnected(c: Call, p: StreamId, endpoints: seq<EndpointState>)
    requires c.contents == [] && c.media.streams == map[]
    ensures var r := TreeStep(TreeStep(c, AddContent(true)), AddStream(0, p, NotSending, [], false, endpoints));
            && r.status == c.status && r.media.streams.Keys == {p} && r.media.streams[p].line.endpoints == endpoints
            && (Connected(r) <==> AnyConnected(endpoints))
  {
    var r := TreeStep(TreeStep(c, AddContent(true)), AddStream(0, p, NotSending, [], false, endpoints));
    assert StreamConnected(r.media.streams[p].line) == AnyConnected(endpoints);
  }

  lemma AcceptedActive(c: Call)
    requires c == Initial(false)
    ensures var r := DoAccept(c); r.status.state == Active && r.contents == [] && r.media.streams == map[]
  {
    InitialFit(false);
    AcceptSummary(c);
    Bumped(c.status, Connected(c), Accepted);
    assert DoAccept(c).media.streams.Keys == {};
  }

  /** An incoming call is accepted, active since it has no streams, and gets one with these endpoints. */
  lemma JoinedRun(p: StreamId, endpoints: seq<EndpointState>) returns (es: seq<Event>)
    ensures var r := Run(Initial(false), es);
            && r.status.state == Active && r.media.streams.Keys == {p} && r.media.streams[p].line.endpoints == endpoints
            && (Connected(r) <==> AnyConnected(endpoints))
  {
    var c := Initial(false);
    AcceptedActive(c);
    JoinedConnected(DoAccept(c), p, endpoints);
    var a, b := AddContent(true), AddStream(0, p, NotSending, [], false, endpoints);
    es := [OnCall(Accept), OnTree(a), OnTree(b)];
    AcceptThenTree(c, OnCall(Accept), a, b);
  }

  lemma AcceptThenTree(c: Call, e: Event, a: TreeOp, b: TreeOp)
    requires WellFormed(c) && e.OnCall? && e.call.Accept?
    ensures Run(c, [e, OnTree(a), OnTree(b)]) == TreeStep(TreeStep(DoAccept(c), a), b)
  {
    ThreeSteps(c, e, OnTree(a), OnTree(b));
  }

  lemma ActiveUnconnected()
    ensures exists es :: Run(Initial(false), es).status.state == Active && !Connected(Run(Initial(false), es))
  {
    var es := JoinedRun(1, []);
  }

  /** Removing the only endpoint of a stream does it as well. */
  lemma EndpointLost(endpoint: EndpointState)
    requires EndpointConnected(endpoint)
    ensures exists es, e ::
              var c := Run(Initial(false), es);
              && c.status.state == Active && Connected(c)
              && Step(c, e).status.state == Active && !Connected(Step(c, e))
  {
    var es := JoinedRun(1, [endpoint]);
    assert EndpointConnected([endpoint][0]);
    LastEndpoint(Run(Initial(false), es), 1, OnStream(1, RemoveEndpoint(0)));
  }

  lemma LastEndpoint(c: Call, p: StreamId, e: Event)
    requires ScannableCall(c) && p in c.media.streams && |c.media.streams[p].line.endpoints| == 1
    requires e == OnStream(p, RemoveEndpoint(0))
    ensures Step(c, e).status == c.status && !Connected(Step(c, e))
  {
    var endpoints := c.media.streams[p].line.endpoints;
    assert endpoints[..0] + endpoints[1..] == [];
    EndpointsConnected(c, p, []);
  }

  // ---- the lifecycle

  predicate Alive(c: Call) {
    Fit(c) && Linked(c) && Observed(c) && PathSeen(c.status)
  }

  predicate Obeys(c: Call, e: Event) {
    match e
    case OnCall(op) => !op.ForceState?
    case OnTree(op) => LinkGuard(c, op)
    case OnStream(p, op) => p in c.media.streams ==> EndpointGuard(c, p, op)
  }

  predicate StateLinked(state: CallState, connected: bool) {
    && (state == Active ==> connected)
    && (state == Accepted || state == Initialising ==> !connected)
  }

  /** Everything the lifecycle says about the call state alone. */
  predicate StatusAlive(requested: bool, st: Status, connected: bool) {
    UpToDate(st) && FlagsFit(requested, st) && PathSeen(st) && StateLinked(st.state, connected)
  }

  lemma EnterAlive(requested: bool, st: Status, connected: bool, state: CallState)
    requires StatusAlive(requested, st, connected) && Moves(st.state, state) && (state == Active ==> connected)
    ensures var r := Enter(st, connected, state);
            StatusAlive(requested, r, connected) && Moves(st.state, r.state)
  {
    EnterSeen(requested, st, connected, state);
    Bumped(st, connected, state);
  }

  /** An endpoint changed, so the call may have become connected or lost its connection. */
  lemma EndpointAlive(requested: bool, st: Status, before: bool, connected: bool)
    requires StatusAlive(requested, st, before)
    ensures var r := EndpointChanged(st, connected);
            StatusAlive(requested, r, connected) && Moves(st.state, r.state)
  {
    EndpointSeen(requested, st, connected);
    Bumped(st, connected, Initialised);
    Bumped(st, connected, Accepted);
    Bumped(st, connected, Active);
  }

  lemma StateOpAlive(c: Call, op: CallOp)
    requires Fit(c) && StatusAlive(c.requested, c.status, Connected(c)) && IsStateOp(op) && !op.ForceState?
    ensures var r := CallStep(c, op);
            StatusAlive(c.requested, r.status, Connected(c)) && Moves(c.status.state, r.status.state)
  {
    match op {
      case Accept =>
        if CanAccept(c) {
          EnterAlive(c.requested, c.status, Connected(c), if c.requested then Initialising else Accepted);
        }
      case RemoteAccept =>
        if CanRemoteAccept(c) {
          EnterAlive(c.requested, c.status, Connected(c), Accepted);
        }
      case Hangup => EnterAlive(c.requested, c.status, Connected(c), Ended);
      case SetRinging => RingingSeen(c.requested, c.status);
      case SetQueued => QueuedSeen(c.requested, c.status);
      case Register =>
    }
  }

  lemma CallStepAlive(c: Call, op: CallOp)
    requires Fit(c) && StatusAlive(c.requested, c.status, Connected(c)) && !op.ForceState?
    ensures var r := CallStep(c, op);
            && StatusAlive(r.requested, r.status, Connected(r)) && Moves(c.status.state, r.status.state)
  {
    var r := CallStep(c, op);
    if IsStateOp(op) {
      StateOpAlive(c, op);
      StateOpSummary(c, op);
      Reconnected(c.media, r.media);
    } else if op.RequestHold? {
      FlowHold(c, CallHold.RequestHold(c, op.hold));
      Reconnected(c.media, r.media);
    } else {
      RosterOpSummary(c, op);
      RosterReconnected(c, r);
    }
  }

  lemma RosterReconnected(c: Call, r: Call)
    requires RosterSummary(c, r)
    ensures Connected(r) == Connected(c)
  {
    forall p | p in c.media.streams
      ensures StreamConnected(c.media.streams[p].line) == StreamConnected(r.media.streams[p].line)
    {
      assert c.media.streams[p].line.endpoints == r.media.streams[p].line.endpoints;
    }
  }

  lemma RemoteReconnected(c: Call, p: StreamId, r: Call)
    requires RemoteSummary(c, p, r)
    ensures Connected(r) == Connected(c)
  {
    forall q | q in c.media.streams
      ensures StreamConnected(c.media.streams[q].line) == StreamConnected(r.media.streams[q].line)
    {
      assert c.media.streams[q].line.endpoints == r.media.streams[q].line.endpoints;
    }
  }

  lemma OneStreamAlive(c: Call, p: StreamId, op: StreamOp)
    requires ScannableCall(c) && p in c.media.streams && StatusAlive(c.requested, c.status, Connected(c))
    requires EndpointGuard(c, p, op)
    ensures var r := OneStreamStep(c, p, op);
            && StatusAlive(r.requested, r.status, Connected(r)) && Moves(c.status.state, r.status.state)
  {
    var r := OneStreamStep(c, p, op);
    if IsFlowOp(op) {
      FlowOpSummary(c, p, op);
      Reconnected(c.media, r.media);
    } else if IsEndpointOp(op) {
      EndpointOpAlive(c, p, op);
    } else {
      RemoteOpEffect(c, p, op);
      RemoteReconnected(c, p, r);
    }
  }

  lemma EndpointOpAlive(c: Call, p: StreamId, op: StreamOp)
    requires ScannableCall(c) && p in c.media.streams && StatusAlive(c.requested, c.status, Connected(c))
    requires IsEndpointOp(op) && EndpointGuard(c, p, op)
    ensures var r := EndpointStep(c, p, op);
            && StatusAlive(r.requested, r.status, Connected(r)) && Moves(c.status.state, r.status.state)
  {
    match op
    case SetEndpoint(k, endpoint) =>
      var r := DoSetEndpoint(c, p, k, endpoint);
      SetEndpointStatus(c, p, k, endpoint);
      EndpointAlive(c.requested, c.status, Connected(c), Connected(r));
    case AddEndpoint(_) => EndpointLinkedExactly(c, p, op);
    case RemoveEndpoint(_) => EndpointLinkedExactly(c, p, op);
  }

  lemma StepStatusAlive(c: Call, e: Event)
    requires WellFormed(c) && Fit(c) && StatusAlive(c.requested, c.status, Connected(c)) && Obeys(c, e)
    ensures var r := Step(c, e);
            StatusAlive(r.requested, r.status, Connected(r)) && Moves(c.status.state, r.status.state)
  {
    match e
    case OnCall(op) => CallStepAlive(c, op);
    case OnTree(op) =>
      TreeLinkedExactly(c, op);
      assert TreeStep(c, op).status == c.status && TreeStep(c, op).requested == c.requested;
    case OnStream(p, op) => if p in c.media.streams { OneStreamAlive(c, p, op); }
  }

  /** One event of a call whose subclass leaves the state alone. */
  lemma StepAlive(c: Call, e: Event)
    requires WellFormed(c) && Alive(c) && Obeys(c, e)
    ensures Alive(Step(c, e)) && Moves(c.status.state, Step(c, e).status.state)
  {
    StepFit(c, e);
    StepStatusAlive(c, e);
  }

  ghost predicate ObeysAll(c: Call, es: seq<Event>)
    requires WellFormed(c)
    decreases |es|
  {
    es == [] || (Obeys(c, es[0]) && (StepWellFormed(c, es[0]); ObeysAll(Step(c, es[0]), es[1..])))
  }

  /** What the lifecycle promises of a call in any state it can reach. */
  predicate Promises(c: Call) {
    && (c.status.state == Active ==> c.acceptance.accepted && Connected(c))
    && (c.status.state == Accepted ==> c.acceptance.accepted && !Connected(c))
    && (c.status.state == Initialising ==> !Connected(c))
    && (c.acceptance.accepted ==> c.status.state == Accepted || c.status.state == Active || c.status.state == Ended)
    && PathSeen(c.status) && UpToDate(c.status)
    && c.acceptance.replies <= 1
  }

  lemma {:induction false} AliveFrom(c: Call, es: seq<Event>)
    requires WellFormed(c) && Alive(c) && ObeysAll(c, es)
    ensures Alive(Run(c, es))
    decreases |es|
  {
    if es != [] {
      StepAlive(c, es[0]);
      StepWellFormed(c, es[0]);
      AliveFrom(Step(c, es[0]), es[1..]);
    }
  }

  lemma {:induction false} EndedFrom(c: Call, es: seq<Event>)
    requires WellFormed(c) && Alive(c) && ObeysAll(c, es) && c.status.state == Ended
    ensures Run(c, es).status.state == Ended
    decreases |es|
  {
    if es != [] {
      StepAlive(c, es[0]);
      StepWellFormed(c, es[0]);
      EndedFrom(Step(c, es[0]), es[1..]);
    }
  }

  lemma {:induction false} RepliesFrom(c: Call, es: seq<Event>)
    requires WellFormed(c)
    ensures c.acceptance.replies <= Run(c, es).acceptance.replies
    decreases |es|
  {
    if es != [] {
      RepliesGrow(c, es[0]);
      StepWellFormed(c, es[0]);
      RepliesFrom(Step(c, es[0]), es[1..]);
    }
  }

  lemma OneStreamAcceptance(c: Call, p: StreamId, op: StreamOp)
    requires ScannableCall(c) && p in c.media.streams
    ensures OneStreamStep(c, p, op).acceptance == c.acceptance
  {
    if IsFlowOp(op) {
      FlowOpSummary(c, p, op);
    } else if IsEndpointOp(op) {
      EndpointOpSummary(c, p, op);
    } else {
      RemoteOpEffect(c, p, op);
    }
  }

  lemma CallStepReplies(c: Call, op: CallOp)
    requires ScannableCall(c)
    ensures c.acceptance.replies <= CallStep(c, op).acceptance.replies
  {
    if op.RequestHold? {
      FlowHold(c, CallHold.RequestHold(c, op.hold));
    }
  }

  lemma RepliesGrow(c: Call, e: Event)
    requires WellFormed(c)
    ensures c.acceptance.replies <= Step(c, e).acceptance.replies
  {
    match e
    case OnCall(op) => CallStepReplies(c, op);
    case OnTree(op) => assert TreeStep(c, op).acceptance == c.acceptance;
    case OnStream(p, op) => if p in c.media.streams { OneStreamAcceptance(c, p, op); }
  }

  /** Every run of a call, as long as its subclass leaves the state alone and changes of the contents
      respect the guard: ACTIVE means accepted and connected, ACCEPTED accepted and not connected,
      INITIALISING not connected; an accepted call is ACCEPTED, ACTIVE or ENDED; the signalled states
      form a path whose only backward move is ACTIVE to ACCEPTED; Accept succeeds at most once; and
      a call that ended stays ended. */
  lemma Lifecycle(requested: bool, es: seq<Event>, more: seq<Event>)
    requires ObeysAll(Initial(requested), es)
    requires ObeysAll(Run(Initial(requested), es), more)
    ensures Promises(Run(Initial(requested), es))
    ensures var c := Run(Initial(requested), es);
            && (c.status.state == Ended ==> Run(c, more).status.state == Ended)
            && c.acceptance.replies <= Run(c, more).acceptance.replies
  {
    InitialFit(requested);
    AliveFrom(Initial(requested), es);
    var c := Run(Initial(requested), es);
    RepliesFrom(c, more);
    if c.status.state == Ended {
      EndedFrom(c, more);
    }
  }
}
