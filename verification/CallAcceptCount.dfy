/** How often every event on a call that is not accepted yet runs the base class's accept. */
module CallAcceptCount {
  import opened CallTypes
  import opened CallFlow
  import opened CallAccept
  import opened CallHold
  import opened CallEngine
  import opened CallSafety
  import opened CallRuns
  import opened CallHoldRuns
  import opened CallAcceptDrains

  // ---- what an event adds to a call that is not accepted yet

  /** The waiting streams that receive or are about to. */
  function Listening(m: Media): set<StreamId> {
    set p | p in m.streams && m.streams[p].waiting
            && (m.streams[p].receiving == PendingStart || m.streams[p].receiving == Started)
  }

  /** The waiting streams somebody sends on. */
  function Wanting(m: Media): set<StreamId> {
    set p | p in m.streams && m.streams[p].waiting && WantsReceive(m.streams[p].line)
  }

  /** Every initial content is ready. */
  predicate Ready(m: Media) {
    forall p :: p in m.streams ==> StreamReady(m.streams[p])
  }

  /** An attempt to accept on behalf of the stream `p`: on a held call it succeeds, and so does one nested
      attempt for every other listening stream. */
  function Attempt(held: bool, m: Media, p: StreamId): nat {
    if held then 1 + |Listening(m) - {p}| else if Ready(m) then 1 else 0
  }

  /** The stream `p` becomes `t` and notifies. */
  function NotifyGrowth(c: Call, p: StreamId, t: Stream): nat {
    if t.waiting then Attempt(IsHeld(c.holding.state), Put(c.media, p, t), p) else 0
  }

  /** The call looks at its hold state once that is `hold`. */
  function HoldGrowth(c: Call, hold: HoldState): nat {
    if hold == PendingHold && c.acceptance.accepted then |Listening(c.media)| else 0
  }

  /** An unhold fails. */
  function FailureGrowth(c: Call): nat {
    if c.holding.state == PendingUnhold then |Listening(c.media)| else 0
  }

  function ReceivingGrowth(c: Call, p: StreamId, flow: FlowState): nat
    requires p in c.media.streams
  {
    var s := c.media.streams[p];
    if !CorrectTransition(s.receiving, flow) then 0
    else if s.waiting then NotifyGrowth(c, p, s.(receiving := flow))
    else HoldGrowth(c, c.holding.state)
  }

  /** If the attempt comes to nothing during an unhold, it has asked every waiting stream with a sender
      to receive, and the failure stops those again. */
  function FailReceivingGrowth(c: Call, p: StreamId): nat
    requires p in c.media.streams
  {
    var s := c.media.streams[p];
    var n := NotifyGrowth(c, p, FailedReceiving(s));
    if s.receiving == Stopped then 0
    else if !s.waiting then FailureGrowth(c)
    else if n == 0 && c.holding.state == PendingUnhold then |Wanting(c.media) - {p}|
    else n
  }

  function RemoteGrowth(c: Call, p: StreamId, h: Handle, remote: SendingState): nat
    requires p in c.media.streams
  {
    var s := c.media.streams[p];
    var state := GateRemote(c, remote);
    if h in s.line.remote && s.line.remote[h] == state then 0
    else NotifyGrowth(c, p, WithRemote(s, s.line.remote[h := state], MembersChanged(map[h := state], {})))
  }

  function RemovalGrowth(c: Call, p: StreamId, h: Handle): nat
    requires p in c.media.streams
  {
    var s := c.media.streams[p];
    if h !in s.line.remote then 0
    else NotifyGrowth(c, p, WithRemote(s, s.line.remote - {h}, MembersChanged(map[], {h})))
  }

  function RequestGrowth(c: Call, p: StreamId, h: Handle, receive: bool): nat
    requires p in c.media.streams
  {
    var remote := c.media.streams[p].line.remote;
    if h !in remote || receive == (remote[h] == Sending || remote[h] == PendingSend) then 0
    else RemoteGrowth(c, p, h, if receive then PendingSend else PendingStopSending)
  }

  function FlowGrowth(c: Call, p: StreamId, op: StreamOp): nat
    requires p in c.media.streams && IsFlowOp(op)
  {
    var s := c.media.streams[p];
    match op
    case CompleteSending(flow) => if CorrectTransition(s.sending, flow) then HoldGrowth(c, c.holding.state) else 0
    case FailSending => if s.sending == Stopped then 0 else FailureGrowth(c)
    case CompleteReceiving(flow) => ReceivingGrowth(c, p, flow)
    case FailReceiving => FailReceivingGrowth(c, p)
    case _ => 0
  }

  function MembersGrowth(c: Call, p: StreamId, op: StreamOp): nat
    requires p in c.media.streams && IsRemoteOp(op)
  {
    match op
    case UpdateRemote(h, remote) => RemoteGrowth(c, p, h, remote)
    case RemoveRemote(h) => RemovalGrowth(c, p, h)
    case RequestReceiving(h, receive) => RequestGrowth(c, p, h, receive)
  }

  function OneStreamGrowth(c: Call, p: StreamId, op: StreamOp): nat
    requires p in c.media.streams
  {
    if IsFlowOp(op) then FlowGrowth(c, p, op) else if IsRemoteOp(op) then MembersGrowth(c, p, op) else 0
  }

  function CallGrowth(c: Call, op: CallOp): nat {
    match op
    case Accept => if CanAccept(c) && (IsHeld(c.holding.state) || Ready(c.media)) then 1 else 0
    case RequestHold(hold) => if hold && !IsHeld(c.holding.state) then HoldGrowth(c, PendingHold) else 0
    case _ => 0
  }

  function Growth(c: Call, e: Event): nat {
    match e
    case OnCall(op) => CallGrowth(c, op)
    case OnTree(_) => 0
    case OnStream(p, op) => if p in c.media.streams then OneStreamGrowth(c, p, op) else 0
  }

  // ---- notifications on a held call

  predicate Covers(env: Env, m: Media) {
    (forall p :: p in env.order ==> p in m.streams) && (forall p :: p in m.streams ==> p in env.order)
  }

  /** Every stream but `p` that receives, or is about to, has somebody to receive from. */
  predicate OthersWanted(m: Media, p: StreamId) {
    forall q :: q in m.streams && q != p && (m.streams[q].receiving == Started || m.streams[q].receiving == PendingStart) ==>
      WantsReceive(m.streams[q].line)
  }

  lemma RestlessOthers(env: Env, m: Media, p: StreamId)
    requires env.held && Covers(env, m) && OthersWanted(m, p)
    ensures Restless(env, m.(emitting := {p})) == Listening(m) - {p}
  {
    var d := m.(emitting := {p});
    forall q | q in m.streams && q != p
      ensures q in Restless(env, d) <==> q in Listening(m)
    {
    }
  }

  lemma SettledOthers(env: Env, m: Media, p: StreamId)
    requires env.held && Covers(env, m) && OthersWanted(m, p) && m.emitting == {} && p !in Unsettled(env, m)
    ensures Restless(env, m) == Listening(m) - {p}
  {
    forall q | q in m.streams && q != p
      ensures q in Restless(env, m) <==> q in Listening(m)
    {
    }
    assert p !in Restless(env, m);
  }

  lemma ListeningRestless(env: Env, m: Media)
    requires env.held && Covers(env, m) && ReceivesWanted(m) && m.emitting == {}
    ensures Restless(env, m) == Listening(m)
  {
    forall p | p in m.streams
      ensures p in Restless(env, m) <==> p in Listening(m)
    {
    }
  }

  lemma HeldEmits(env: Env, m: Media, p: StreamId)
    requires env.held && Covers(env, m) && OthersWanted(m, p) && m.emitting == {}
    requires p in m.streams && m.streams[p].waiting && !m.accepted
    ensures Notify(env, m, p).accepts == m.accepts + 1 + |Listening(m) - {p}|
  {
    var d := m.(emitting := {p});
    assert m.emitting + {p} == {p};
    RestlessOthers(env, m, p);
    HeldPass(env, d, p);
  }

  lemma HeldHandler(env: Env, m: Media, p: StreamId)
    requires env.held && Covers(env, m) && OthersWanted(m, p) && m.emitting == {}
    requires p in m.streams && !m.accepted && p !in Unsettled(env, m)
    ensures HandlerPass(env, m, p).accepts == m.accepts + 1 + |Listening(m) - {p}|
  {
    SettledOthers(env, m, p);
    HeldAttempt(env, m);
  }

  // ---- notifications on a running call

  lemma ReadyAll(env: Env, m: Media)
    requires Covers(env, m)
    ensures AllReady(m, env.order) == Ready(m)
  {
  }

  lemma ReadyPass(env: Env, m: Media, p: StreamId)
    requires Running(env, m) && p in m.streams && !m.accepted && AllReady(m, env.order)
    ensures EmissionPass(env, m, p).accepts == m.accepts + 1
  {
    var d := m.(restart := m.restart - {p});
    UnheldAttempt(env, d);
    assert !HandlerPass(env, d, p).streams[p].waiting;
  }

  lemma UnheldEmits(env: Env, m: Media, p: StreamId)
    requires Running(env, m) && Covers(env, m) && m.emitting == {}
    requires p in m.streams && m.streams[p].waiting && !m.accepted
    ensures var r := Notify(env, m, p);
            r.accepts == m.accepts + (if Ready(m) then 1 else 0) && (!Ready(m) ==> Quiet(m, r))
  {
    ReadyAll(env, m);
    if Ready(m) {
      ReadyPass(env, m.(emitting := m.emitting + {p}), p);
    } else {
      QuietNotify(env, m, p);
    }
  }

  lemma UnheldHandler(env: Env, m: Media, p: StreamId)
    requires Running(env, m) && Covers(env, m) && p in m.streams && !m.accepted
    ensures HandlerPass(env, m, p).accepts == m.accepts + if Ready(m) then 1 else 0
  {
    ReadyAll(env, m);
    UnheldAttempt(env, m);
  }

  // ---- a change of remote members

  /** What is known of a call on which the stream `p` notifies. */
  predicate Poised(env: Env, m: Media, p: StreamId) {
    && Covers(env, m) && m.emitting == {} && !m.accepted
    && p in m.streams && m.streams[p].waiting
    && (if env.held then OthersWanted(m, p) else Running(env, m))
  }

  lemma HeldMembers(env: Env, m: Media, p: StreamId)
    requires Poised(env, m, p) && env.held
    ensures var d := UpdateReceiving(env, m, p);
            var r := if d.streams[p].waiting then HandlerPass(env, d, p) else d;
            r.accepts == m.accepts + Attempt(true, m, p)
  {
    if p in Unsettled(env, m) {
      var d := Put(m, p, m.streams[p].(receiving := ReceiveGoal(env, m.streams[p])));
      assert Listening(d) - {p} == Listening(m) - {p};
      HeldEmits(env, d, p);
      HeldSilences(env, d, p);
    } else {
      HeldHandler(env, m, p);
    }
  }

  /** A stream whose notification accepted the call waits no more. */
  lemma HeldSilences(env: Env, m: Media, p: StreamId)
    requires env.held && Scannable(env, m) && m.emitting == {} && p in m.streams && m.streams[p].waiting && !m.accepted
    ensures !Notify(env, m, p).streams[p].waiting
  {
    var d := m.(emitting := m.emitting + {p});
    var e := d.(restart := d.restart - {p});
    HeldAttempt(env, e);
    assert !HandlerPass(env, e, p).streams[p].waiting;
  }

  lemma ReadySilences(env: Env, m: Media, p: StreamId)
    requires Running(env, m) && Covers(env, m) && m.emitting == {} && p in m.streams && m.streams[p].waiting && !m.accepted
    requires Ready(m)
    ensures !Notify(env, m, p).streams[p].waiting
  {
    ReadyAll(env, m);
    var d := m.(emitting := m.emitting + {p});
    var e := d.(restart := d.restart - {p});
    UnheldAttempt(env, e);
    assert !HandlerPass(env, e, p).streams[p].waiting;
  }

  lemma QuietReady(m: Media, r: Media)
    requires Quiet(m, r)
    ensures Ready(r) == Ready(m)
  {
  }

  /** Moving the receiving state of a waiting stream towards its goal does not make it ready. */
  lemma MovedReady(env: Env, m: Media, p: StreamId)
    requires Running(env, m) && p in Unsettled(env, m) && m.streams[p].waiting
    ensures var d := Put(m, p, m.streams[p].(receiving := ReceiveGoal(env, m.streams[p])));
            Running(env, d) && Ready(d) == Ready(m)
  {
    var s := m.streams[p];
    var d := Put(m, p, s.(receiving := ReceiveGoal(env, s)));
    assert StreamReady(d.streams[p]) == StreamReady(s);
    assert forall q :: q in m.streams && q != p ==> d.streams[q] == m.streams[q];
  }

  lemma UnheldMembers(env: Env, m: Media, p: StreamId)
    requires Poised(env, m, p) && !env.held
    ensures var d := UpdateReceiving(env, m, p);
            var r := if d.streams[p].waiting then HandlerPass(env, d, p) else d;
            r.accepts == m.accepts + Attempt(false, m, p)
  {
    if p in Unsettled(env, m) {
      var d := Put(m, p, m.streams[p].(receiving := ReceiveGoal(env, m.streams[p])));
      MovedReady(env, m, p);
      UnheldEmits(env, d, p);
      if Ready(d) {
        ReadySilences(env, d, p);
      } else {
        var e := Notify(env, d, p);
        QuietKeeps(env, d, e);
        QuietReady(d, e);
        UnheldHandler(env, e, p);
      }
    } else {
      UnheldHandler(env, m, p);
    }
  }

  lemma MembersCount(env: Env, m: Media, p: StreamId)
    requires Poised(env, m, p)
    ensures var d := UpdateReceiving(env, m, p);
            var r := if d.streams[p].waiting then HandlerPass(env, d, p) else d;
            r.accepts == m.accepts + Attempt(env.held, m, p)
  {
    if env.held {
      HeldMembers(env, m, p);
    } else {
      UnheldMembers(env, m, p);
    }
  }

  // ---- looking at a pending hold

  lemma RefreshCount(env: Env, m: Media, p: StreamId)
    requires env.held && Scannable(env, m) && !m.accepted && ReceivesWanted(m) && p in env.order
    ensures var r := Refresh(env, m, p);
            if p in Restless(env, m) then r.accepted && r.accepts == m.accepts + |Restless(env, m)|
            else !r.accepted && Restless(env, r) == Restless(env, m)
  {
    if WantsReceive(m.streams[p].line) {
      HeldUpdate(env, m, p);
    } else {
      assert ReceiveGoal(env, m.streams[p]) == m.streams[p].receiving;
    }
    var d := UpdateReceiving(env, m, p);
    RestlessPut(env, d, p, UpdatedSending(env, d.streams[p]));
  }

  lemma RestlessPut(env: Env, m: Media, p: StreamId, t: Stream)
    requires p in m.streams && t.line == m.streams[p].line
    requires t.receiving == m.streams[p].receiving && t.waiting == m.streams[p].waiting
    ensures Restless(env, Put(m, p, t)) == Restless(env, m)
  {
  }

  lemma {:induction false} HoldScanCount(env: Env, m: Media, ps: seq<StreamId>)
    requires env.held && Scannable(env, m) && !m.accepted && ReceivesWanted(m)
    requires (forall p :: p in ps ==> p in env.order) && forall p :: p in Restless(env, m) ==> p in ps
    ensures HoldScan(env, m, ps).0.accepts == m.accepts + |Restless(env, m)|
    decreases |ps|
  {
    if ps == [] {
      assert Restless(env, m) == {};
    } else {
      RefreshCount(env, m, ps[0]);
      var d := Refresh(env, m, ps[0]);
      ProgressKeepsWanted(env, m, d);
      if !d.accepted {
        HoldScanCount(env, d, ps[1..]);
      }
    }
  }

  predicate Waits(c: Call) {
    HoldReady(c) && !c.media.accepted && c.media.emitting == {}
  }

  lemma HeldScanCount(c: Call)
    requires Waits(c) && IsHeld(c.holding.state)
    ensures HoldScan(EnvOf(c), c.media, Order(c.contents)).0.accepts == c.media.accepts + |Listening(c.media)|
  {
    ListeningRestless(EnvOf(c), c.media);
    HoldScanCount(EnvOf(c), c.media, Order(c.contents));
  }

  lemma UnheldScanCount(c: Call)
    requires Waits(c) && !IsHeld(c.holding.state) && c.acceptance.accepted
    ensures HoldScan(EnvOf(c), c.media, Order(c.contents)).0.accepts == c.media.accepts
  {
    HoldScanStarted(EnvOf(c), c.media, Order(c.contents));
  }

  lemma UpdateHoldCount(c: Call)
    requires Waits(c)
    ensures UpdateHold(c).media.accepts == c.media.accepts + HoldGrowth(c, c.holding.state)
  {
    if IsPending(c.holding.state) {
      UpdateHoldCases(c);
      if c.holding.state == PendingHold {
        HeldScanCount(c);
      } else if c.acceptance.accepted {
        UnheldScanCount(c);
      }
    }
  }

  // ---- an unhold that fails

  lemma ListeningShrinks(env: Env, m: Media, r: Media)
    requires env.held && Progress(env, m, r)
    ensures Listening(r) <= Listening(m)
  {
    forall p | p in Listening(r)
      ensures p in Listening(m)
    {
      assert StreamStep(env, m.streams[p], r.streams[p]);
    }
  }

  lemma FlowedCount(gate: bool, m: Media, r: Media)
    requires Flowed(gate, m, r) && m.accepted
    ensures r.accepts == m.accepts && r.accepted
  {
  }

  lemma RefreshAllCount(c: Call)
    requires Waits(c) && IsHeld(c.holding.state)
    ensures RefreshAll(EnvOf(c), c.media, Order(c.contents)).accepts == c.media.accepts + |Listening(c.media)|
  {
    HeldScanCount(c);
    HoldScanRefreshes(EnvOf(c), c.media, Order(c.contents));
  }

  /** Looking at the hold state again after that adds nothing. */
  lemma LookAgainCount(c: Call, m: Media)
    requires Waits(c) && IsHeld(c.holding.state) && Progress(EnvOf(c), c.media, m) && HoldReady(c.(media := m))
    requires m.accepts == c.media.accepts + |Listening(c.media)|
    ensures UpdateHold(c.(media := m)).media.accepts == m.accepts
  {
    var d := c.(media := m);
    if m.accepted {
      FlowedCount(Gate(c), m, UpdateHold(d).media);
    } else {
      ListeningShrinks(EnvOf(c), c.media, m);
      assert Listening(m) == {};
      UpdateHoldCount(d);
    }
  }

  lemma AcceptedLook(c: Call, m: Media)
    requires ScannableCall(c.(media := m)) && c.media.accepted && Progress(EnvOf(c), c.media, m)
    ensures UpdateHold(c.(media := m)).media.accepts == c.media.accepts
  {
    FlowedCount(Gate(c), m, UpdateHold(c.(media := m)).media);
  }

  /** Refreshing all streams of a held call, then looking at its hold state again. */
  lemma RefreshedCount(c: Call)
    requires HoldReady(c) && c.media.emitting == {} && IsHeld(c.holding.state)
    ensures UpdateHold(c.(media := RefreshAll(EnvOf(c), c.media, Order(c.contents)))).media.accepts
            == c.media.accepts + if c.media.accepted then 0 else |Listening(c.media)|
  {
    var m := RefreshAll(EnvOf(c), c.media, Order(c.contents));
    if c.media.accepted {
      AcceptedLook(c, m);
    } else {
      RefreshAllCount(c);
      RefreshedWaits(c);
      LookAgainCount(c, m);
    }
  }

  lemma RefreshedWaits(c: Call)
    requires Waits(c)
    ensures HoldReady(c.(media := RefreshAll(EnvOf(c), c.media, Order(c.contents))))
  {
    var m := RefreshAll(EnvOf(c), c.media, Order(c.contents));
    FrameFlowed(EnvOf(c), c.media, m);
    FlowedHoldReady(c, c.(media := m));
  }

  lemma HeldScanListening(c: Call)
    requires Waits(c) && c.holding.state == PendingHold
    ensures var r := UpdateHold(c);
            && HoldReady(r) && r.media.emitting == {} && IsHeld(r.holding.state)
            && r.acceptance == c.acceptance && (!c.acceptance.accepted ==> r.media == c.media)
            && Listening(r.media) <= Listening(c.media)
  {
    UpdateHoldCases(c);
    HeldOutcome(c);
    FlowedHoldReady(c, UpdateHold(c));
    if c.acceptance.accepted {
      ListeningShrinks(EnvOf(c), c.media, HoldScanned(c).0);
    }
  }

  /** The call as an unhold that fails leaves it before it looks at its streams. */
  function Relapsed(c: Call): Call {
    c.(holding := Holding(PendingHold, ResourceNotAvailable,
                          c.holding.log + [HoldChanged(PendingHold, ResourceNotAvailable)]))
  }

  lemma RelapsedWaits(c: Call)
    requires Waits(c)
    ensures Waits(Relapsed(c)) && Relapsed(c).holding.state == PendingHold && Relapsed(c).media == c.media
  {
  }

  lemma RelapseUnfolds(c: Call)
    requires ScannableCall(c) && c.holding.state == PendingUnhold
    ensures var d := UpdateHold(Relapsed(c));
            HoldChangeFailed(c) == UpdateHold(d.(media := RefreshAll(EnvOf(d), d.media, Order(d.contents))))
  {
  }

  lemma RelapseCount(c: Call)
    requires Waits(c) && c.holding.state == PendingHold
    ensures var d := UpdateHold(c);
            UpdateHold(d.(media := RefreshAll(EnvOf(d), d.media, Order(d.contents)))).media.accepts
            == c.media.accepts + |Listening(c.media)|
  {
    UpdateHoldCount(c);
    HeldScanListening(c);
    var d := UpdateHold(c);
    RefreshedCount(d);
    if d.media.accepted {
      assert c.acceptance.accepted;
    } else {
      OnlyListening(c, d);
    }
  }

  /** A held call that was not accepted has no more listening streams than it had. */
  lemma OnlyListening(c: Call, d: Call)
    requires Listening(d.media) <= Listening(c.media) && d.media.accepts == c.media.accepts + HoldGrowth(c, PendingHold)
    requires c.media.accepts == d.media.accepts && (!c.acceptance.accepted ==> d.media == c.media)
    ensures |Listening(d.media)| == |Listening(c.media)|
  {
    if c.acceptance.accepted {
      assert Listening(c.media) == {};
    }
  }

  lemma FailedCount(c: Call)
    requires Waits(c)
    ensures HoldChangeFailed(c).media.accepts == c.media.accepts + FailureGrowth(c)
  {
    if c.holding.state == PendingUnhold {
      RelapseUnfolds(c);
      RelapsedWaits(c);
      RelapseCount(Relapsed(c));
    }
  }

  // ---- Accept and RequestHold

  lemma FitWaits(c: Call)
    requires WellFormed(c) && Fit(c) && !c.media.accepted
    ensures Waits(c) && Covers(EnvOf(c), c.media)
  {
    FitHoldReady(c);
  }

  lemma RequestHoldCount(c: Call, hold: bool)
    requires Waits(c)
    ensures CallHold.RequestHold(c, hold).media.accepts
            == c.media.accepts + if hold && !IsHeld(c.holding.state) then HoldGrowth(c, PendingHold) else 0
  {
    if hold != IsHeld(c.holding.state) {
      var state := if hold then PendingHold else PendingUnhold;
      var d := c.(holding := Holding(state, Requested, c.holding.log + [HoldChanged(state, Requested)]));
      assert HoldReady(d);
      UpdateHoldCount(d);
    }
  }

  /** Asking an accepted call whose accept is deferred to hold runs the base class's accept once for
      every waiting stream that receives or is about to. */
  lemma HoldAcceptsPerStream(c: Call)
    requires WellFormed(c) && Fit(c) && c.acceptance.accepted && !IsHeld(c.holding.state) && !c.media.accepted
    ensures CallHold.RequestHold(c, true).media.accepts == c.media.accepts + |Listening(c.media)|
  {
    FitWaits(c);
    RequestHoldCount(c, true);
  }

  /** So the base class runs at most once exactly when at most one such stream exists. */
  lemma HoldAcceptsOnceExactly(c: Call)
    requires WellFormed(c) && Fit(c) && c.acceptance.accepted && !IsHeld(c.holding.state) && !c.media.accepted
    ensures CallHold.RequestHold(c, true).media.accepts <= c.media.accepts + 1 <==> |Listening(c.media)| <= 1
  {
    HoldAcceptsPerStream(c);
  }

  /** Nobody waits before a successful Accept. */
  lemma AcceptStartsFresh(c: Call)
    requires Fit(c) && CanAccept(c)
    ensures !AnyWaiting(c.media) && !c.media.accepted
  {
  }

  lemma HeldAcceptCount(c: Call)
    requires WellFormed(c) && Fit(c) && CanAccept(c) && IsHeld(c.holding.state)
    ensures DoAccept(c).media.accepts == c.media.accepts + 1
  {
    AcceptStartsFresh(c);
    var d := Accepting(c);
    assert Restless(EnvOf(d), d.media) == {};
    HeldAttempt(EnvOf(d), d.media);
  }

  lemma UnheldAcceptCount(c: Call)
    requires WellFormed(c) && Fit(c) && CanAccept(c) && !IsHeld(c.holding.state)
    ensures DoAccept(c).media.accepts == c.media.accepts + if Ready(c.media) then 1 else 0
  {
    AcceptStartsFresh(c);
    FitWaits(c);
    var d := Accepting(c);
    assert Running(EnvOf(d), d.media);
    ReadyAll(EnvOf(d), d.media);
    UnheldAttempt(EnvOf(d), d.media);
  }

  lemma AcceptCount(c: Call)
    requires WellFormed(c) && Fit(c) && !c.media.accepted
    ensures DoAccept(c).media.accepts == c.media.accepts + CallGrowth(c, Accept)
  {
    if CanAccept(c) && IsHeld(c.holding.state) {
      HeldAcceptCount(c);
    } else if CanAccept(c) {
      UnheldAcceptCount(c);
    }
  }

  lemma CallCount(c: Call, op: CallOp)
    requires WellFormed(c) && Fit(c) && !c.media.accepted
    ensures CallStep(c, op).media.accepts == c.media.accepts + CallGrowth(c, op)
  {
    if op.Accept? {
      AcceptCount(c);
    } else if op.RequestHold? {
      FitWaits(c);
      RequestHoldCount(c, op.hold);
    } else {
      assert CallStep(c, op).media.accepts == c.media.accepts;
    }
  }

  // ---- reports about a stream that waits

  lemma WaitingAccepted(c: Call, p: StreamId)
    requires Fit(c) && p in c.media.streams && c.media.streams[p].waiting
    ensures c.acceptance.locally
  {
    assert AnyWaiting(c.media);
  }

  /** The stream `p` becomes `t`, with other flows, failures or remote members. */
  predicate Becomes(s: Stream, t: Stream) {
    t.waiting == s.waiting && t.line.initial == s.line.initial && (t.line.receivingFailure ==> t.receiving == Stopped)
  }

  lemma PutPoised(c: Call, p: StreamId, t: Stream)
    requires WellFormed(c) && Fit(c) && !c.media.accepted && p in c.media.streams && Becomes(c.media.streams[p], t) && t.waiting
    ensures Poised(EnvOf(c), Put(c.media, p, t), p)
  {
    var m := Put(c.media, p, t);
    WaitingAccepted(c, p);
    forall q | q in c.media.streams
      ensures StreamSound(c.media.streams[q])
    {
    }
    assert Covers(EnvOf(c), m);
  }

  lemma NotifyCount(env: Env, m: Media, p: StreamId)
    requires Poised(env, m, p)
    ensures Notify(env, m, p).accepts == m.accepts + Attempt(env.held, m, p)
    ensures Attempt(env.held, m, p) == 0 ==> !env.held && Quiet(m, Notify(env, m, p))
  {
    if env.held {
      HeldEmits(env, m, p);
    } else {
      UnheldEmits(env, m, p);
    }
  }

  /** Once the notification has accepted the call, nothing else does. */
  lemma AcceptedReact(c: Call, success: bool)
    requires ScannableCall(c) && c.media.accepted
    ensures (if success then UpdateHold(c) else HoldChangeFailed(c)).media.accepts == c.media.accepts
  {
    FlowedCount(Gate(c), c.media, (if success then UpdateHold(c) else HoldChangeFailed(c)).media);
  }

  /** The stream `p` has become `t`, and its receiving state is notified. */
  lemma NotifiedCount(c: Call, p: StreamId, t: Stream)
    requires WellFormed(c) && Fit(c) && !c.media.accepted && p in c.media.streams && Becomes(c.media.streams[p], t) && t.waiting
    ensures var r := NotifyReceiving(PutCall(c, p, t), p);
            && r.media.accepts == c.media.accepts + NotifyGrowth(c, p, t)
            && (r.media.accepted <==> NotifyGrowth(c, p, t) > 0)
            && (!r.media.accepted ==> !IsHeld(c.holding.state) && Quiet(Put(c.media, p, t), r.media))
  {
    PutPoised(c, p, t);
    assert EnvOf(PutCall(c, p, t)) == EnvOf(c);
    NotifyCount(EnvOf(c), Put(c.media, p, t), p);
  }

  lemma NotifiedWaits(c: Call, p: StreamId, t: Stream)
    requires WellFormed(c) && Fit(c) && !c.media.accepted && p in c.media.streams && Reported(c.media.streams[p], t)
    requires t.line.receivingFailure ==> t.receiving == Stopped
    ensures Waits(PutCall(c, p, t)) && HoldReady(NotifyReceiving(PutCall(c, p, t), p))
  {
    FitHoldReady(c);
    ReportHoldReady(c, p, t);
    FlowedHoldReady(PutCall(c, p, t), NotifyReceiving(PutCall(c, p, t), p));
  }

  lemma WaitingReportCount(c: Call, p: StreamId, t: Stream, success: bool)
    requires WellFormed(c) && Fit(c) && !c.media.accepted && p in c.media.streams && Reported(c.media.streams[p], t)
    requires c.media.streams[p].waiting && (t.line.receivingFailure ==> t.receiving == Stopped)
    ensures var n := NotifyGrowth(c, p, t);
            Report(c, p, t, true, success).media.accepts
            == c.media.accepts + if n > 0 || success then n else FailureGrowth(NotifyReceiving(PutCall(c, p, t), p))
  {
    var d := NotifyReceiving(PutCall(c, p, t), p);
    NotifiedCount(c, p, t);
    if d.media.accepted {
      AcceptedReact(d, success);
    } else {
      NotifiedWaits(c, p, t);
      SilentCount(d, success);
    }
  }

  lemma SameListening(m: Media, p: StreamId, t: Stream)
    requires p in m.streams && t.waiting == m.streams[p].waiting && (t.waiting ==> t.receiving == m.streams[p].receiving)
    ensures Listening(Put(m, p, t)) == Listening(m)
  {
  }

  /** A report about a stream on which no handler waits, or about what it sends. */
  lemma SilentReport(c: Call, p: StreamId, t: Stream, receiving: bool, success: bool)
    requires ScannableCall(c) && p in c.media.streams && (receiving ==> !t.waiting)
    ensures Report(c, p, t, receiving, success)
            == if success then UpdateHold(PutCall(c, p, t)) else HoldChangeFailed(PutCall(c, p, t))
  {
  }

  lemma SilentReportCount(c: Call, p: StreamId, t: Stream, receiving: bool, success: bool)
    requires WellFormed(c) && Fit(c) && !c.media.accepted && p in c.media.streams && Reported(c.media.streams[p], t)
    requires t.line.receivingFailure ==> t.receiving == Stopped
    requires if receiving then !t.waiting else t.receiving == c.media.streams[p].receiving
    ensures Report(c, p, t, receiving, success).media.accepts
            == c.media.accepts + if success then HoldGrowth(c, c.holding.state) else FailureGrowth(c)
  {
    SilentReport(c, p, t, receiving, success);
    NotifiedWaits(c, p, t);
    SilentCount(PutCall(c, p, t), success);
    PutGrowth(c, p, t);
  }

  lemma PutGrowth(c: Call, p: StreamId, t: Stream)
    requires p in c.media.streams && t.waiting == c.media.streams[p].waiting
    requires t.waiting ==> t.receiving == c.media.streams[p].receiving
    ensures var d := PutCall(c, p, t);
            HoldGrowth(d, d.holding.state) == HoldGrowth(c, c.holding.state) && FailureGrowth(d) == FailureGrowth(c)
  {
    SameListening(c.media, p, t);
  }

  lemma SilentCount(c: Call, success: bool)
    requires Waits(c)
    ensures (if success then UpdateHold(c) else HoldChangeFailed(c)).media.accepts
            == c.media.accepts + if success then HoldGrowth(c, c.holding.state) else FailureGrowth(c)
  {
    if success {
      UpdateHoldCount(c);
    } else {
      FailedCount(c);
    }
  }

  lemma CompleteSendingCount(c: Call, p: StreamId, flow: FlowState)
    requires WellFormed(c) && Fit(c) && !c.media.accepted && p in c.media.streams
    ensures DoCompleteSending(c, p, flow).media.accepts
            == c.media.accepts + FlowGrowth(c, p, CompleteSending(flow))
  {
    assert StreamSound(c.media.streams[p]);
    SilentReportCount(c, p, c.media.streams[p].(sending := flow), false, true);
  }

  lemma FailSendingCount(c: Call, p: StreamId)
    requires WellFormed(c) && Fit(c) && !c.media.accepted && p in c.media.streams
    ensures DoFailSending(c, p).media.accepts == c.media.accepts + FlowGrowth(c, p, FailSending)
  {
    assert StreamSound(c.media.streams[p]);
    SilentReportCount(c, p, FailedSending(c.media.streams[p]), false, false);
  }

  lemma CompleteReceivingCount(c: Call, p: StreamId, flow: FlowState)
    requires WellFormed(c) && Fit(c) && !c.media.accepted && p in c.media.streams
    ensures DoCompleteReceiving(c, p, flow).media.accepts == c.media.accepts + ReceivingGrowth(c, p, flow)
  {
    var s := c.media.streams[p];
    assert StreamSound(s);
    if CorrectTransition(s.receiving, flow) {
      if s.waiting {
        WaitingReportCount(c, p, s.(receiving := flow), true);
      } else {
        SilentReportCount(c, p, s.(receiving := flow), true, true);
      }
    }
  }

  // ---- a failure to receive

  /** An attempt that comes to nothing has asked every stream with a sender to receive. */
  lemma HandlerSettles(env: Env, m: Media, p: StreamId)
    requires p in m.streams && Scannable(env, m) && !HandlerPass(env, m, p).accepted
    ensures forall q :: q in env.order && WantsReceive(m.streams[q].line) ==> q !in Unsettled(env, HandlerPass(env, m, p))
  {
    ScanSettles(env, m, env.order);
    assert HandlerPass(env, m, p) == Scan(env, m, env.order).0;
  }

  lemma PassSettles(env: Env, m: Media, p: StreamId)
    requires p in m.streams && Scannable(env, m) && !EmissionPass(env, m, p).accepted
    ensures forall q :: q in env.order && WantsReceive(m.streams[q].line) ==> q !in Unsettled(env, EmissionPass(env, m, p))
  {
    var d := m.(restart := m.restart - {p});
    var e := HandlerPass(env, d, p);
    var r := EmissionPass(env, m, p);
    RestartProgress(env, m, p, e);
    if p in e.restart && e.streams[p].waiting {
      assert r == EmissionPass(env, e, p);
    } else {
      assert Unsettled(env, r) == Unsettled(env, e);
    }
    HandlerSettles(env, d, p);
  }

  lemma NotifySettles(env: Env, m: Media, p: StreamId)
    requires p in m.streams && Scannable(env, m) && m.streams[p].waiting && m.emitting == {} && !Notify(env, m, p).accepted
    ensures forall q :: q in env.order && WantsReceive(m.streams[q].line) ==> q !in Unsettled(env, Notify(env, m, p))
  {
    var d := m.(emitting := m.emitting + {p});
    PassSettles(env, d, p);
    var e := EmissionPass(env, d, p);
    assert Unsettled(env, Notify(env, m, p)) == Unsettled(env, e);
  }

  /** Only the stream `p` has failed to receive. */
  predicate FailedAt(m: Media, p: StreamId) {
    && p in m.streams && m.streams[p].line.receivingFailure
    && (forall q :: q in m.streams && q != p ==> !m.streams[q].line.receivingFailure)
  }

  lemma FailedListening(env: Env, m: Media, p: StreamId)
    requires Poised(env, m, p) && !env.held && FailedAt(m, p) && ReceivesWanted(m)
    requires Quiet(m, Notify(env, m, p)) && ReceivesWanted(Notify(env, m, p))
    ensures Listening(Notify(env, m, p)) == Wanting(m) - {p}
  {
    var r := Notify(env, m, p);
    NotifySettles(env, m, p);
    forall q | q in m.streams
      ensures q in Listening(r) <==> q in Wanting(m) - {p}
    {
      assert QuietStream(m.streams[q], r.streams[q]);
      if q != p && q in Wanting(m) {
        assert q !in Unsettled(env, r);
        assert ReceiveStart(env, r.streams[q].line);
      }
    }
  }

  /** Nothing but the stream `p` has failed, and the attempt on its behalf comes to nothing. */
  lemma FailureListens(c: Call, p: StreamId, t: Stream)
    requires WellFormed(c) && Fit(c) && !c.media.accepted && p in c.media.streams
    requires c.media.streams[p].waiting && t == FailedReceiving(c.media.streams[p]) && NotifyGrowth(c, p, t) == 0
    ensures Listening(NotifyReceiving(PutCall(c, p, t), p).media) == Wanting(c.media) - {p}
  {
    var m := Put(c.media, p, t);
    PutPoised(c, p, t);
    NotifiedCount(c, p, t);
    NotifiedWaits(c, p, t);
    PutFailedAt(c.media, p, t);
    assert EnvOf(PutCall(c, p, t)) == EnvOf(c);
    FailedListening(EnvOf(c), m, p);
  }

  lemma PutFailedAt(m: Media, p: StreamId, t: Stream)
    requires StreamsSound(m) && p in m.streams && t == FailedReceiving(m.streams[p])
    ensures FailedAt(Put(m, p, t), p) && Wanting(Put(m, p, t)) == Wanting(m)
  {
    forall q | q in m.streams
      ensures StreamSound(m.streams[q])
    {
    }
  }

  lemma WaitingFailureCount(c: Call, p: StreamId)
    requires WellFormed(c) && Fit(c) && !c.media.accepted && p in c.media.streams
    requires c.media.streams[p].waiting && c.media.streams[p].receiving != Stopped
    ensures DoFailReceiving(c, p).media.accepts == c.media.accepts + FailReceivingGrowth(c, p)
  {
    var t := FailedReceiving(c.media.streams[p]);
    WaitingReportCount(c, p, t, false);
    if NotifyGrowth(c, p, t) == 0 {
      FailureListens(c, p, t);
    }
  }

  lemma FailReceivingCount(c: Call, p: StreamId)
    requires WellFormed(c) && Fit(c) && !c.media.accepted && p in c.media.streams
    ensures DoFailReceiving(c, p).media.accepts == c.media.accepts + FailReceivingGrowth(c, p)
  {
    var s := c.media.streams[p];
    if s.receiving != Stopped {
      if s.waiting {
        WaitingFailureCount(c, p);
      } else {
        SilentReportCount(c, p, FailedReceiving(s), true, false);
      }
    }
  }

  // ---- remote members

  lemma RemoteNotifiedCount(c: Call, p: StreamId, t: Stream)
    requires WellFormed(c) && Fit(c) && !c.media.accepted && p in c.media.streams && RemotesChanged(c.media.streams[p], t)
    ensures RemoteMembersNotified(PutCall(c, p, t), p).media.accepts == c.media.accepts + NotifyGrowth(c, p, t)
  {
    var d := PutCall(c, p, t);
    assert EnvOf(d) == EnvOf(c);
    assert StreamSound(c.media.streams[p]);
    if t.waiting {
      PutPoised(c, p, t);
      MembersCount(EnvOf(c), d.media, p);
    } else {
      assert StreamStep(EnvOf(c), t, UpdateReceiving(EnvOf(c), d.media, p).streams[p]);
    }
  }

  lemma UpdateRemoteCount(c: Call, p: StreamId, h: Handle, remote: SendingState)
    requires WellFormed(c) && Fit(c) && !c.media.accepted && p in c.media.streams
    ensures DoUpdateRemote(c, p, h, remote).media.accepts == c.media.accepts + RemoteGrowth(c, p, h, remote)
  {
    var s := c.media.streams[p];
    var state := GateRemote(c, remote);
    RemoteNotifiedCount(c, p, WithRemote(s, s.line.remote[h := state], MembersChanged(map[h := state], {})));
  }

  lemma RemoveRemoteCount(c: Call, p: StreamId, h: Handle)
    requires WellFormed(c) && Fit(c) && !c.media.accepted && p in c.media.streams
    ensures DoRemoveRemote(c, p, h).media.accepts == c.media.accepts + RemovalGrowth(c, p, h)
  {
    var s := c.media.streams[p];
    RemoteNotifiedCount(c, p, WithRemote(s, s.line.remote - {h}, MembersChanged(map[], {h})));
  }

  lemma RequestReceivingCount(c: Call, p: StreamId, h: Handle, receive: bool)
    requires WellFormed(c) && Fit(c) && !c.media.accepted && p in c.media.streams
    ensures DoRequestReceiving(c, p, h, receive).media.accepts == c.media.accepts + RequestGrowth(c, p, h, receive)
  {
    var remote := c.media.streams[p].line.remote;
    if h in remote && receive != (remote[h] == Sending || remote[h] == PendingSend) {
      if receive {
        RequestReceivingUpdates(c, p, h);
        UpdateRemoteCount(c, p, h, PendingSend);
      } else {
        UpdateRemoteCount(c, p, h, PendingStopSending);
      }
    }
  }

  // ---- every event

  lemma ReportOpCount(c: Call, p: StreamId, op: StreamOp)
    requires WellFormed(c) && Fit(c) && !c.media.accepted && p in c.media.streams && IsFlowOp(op)
    ensures FlowStep(c, p, op).media.accepts == c.media.accepts + FlowGrowth(c, p, op)
  {
    match op
    case CompleteSending(flow) => CompleteSendingCount(c, p, flow);
    case FailSending => FailSendingCount(c, p);
    case CompleteReceiving(flow) => CompleteReceivingCount(c, p, flow);
    case FailReceiving => FailReceivingCount(c, p);
    case _ => SendingOpCount(c, p, op);
  }

  lemma SendingOpCount(c: Call, p: StreamId, op: StreamOp)
    requires ScannableCall(c) && p in c.media.streams && (op.UpdateLocal? || op.SetSending? || op.WishSending?)
    ensures FlowStep(c, p, op).media.accepts == c.media.accepts && FlowGrowth(c, p, op) == 0
  {
  }

  lemma RemoteOpCount(c: Call, p: StreamId, op: StreamOp)
    requires WellFormed(c) && Fit(c) && !c.media.accepted && p in c.media.streams && IsRemoteOp(op)
    ensures RemoteStep(c, p, op).media.accepts == c.media.accepts + MembersGrowth(c, p, op)
  {
    match op
    case UpdateRemote(h, remote) => UpdateRemoteCount(c, p, h, remote);
    case RemoveRemote(h) => RemoveRemoteCount(c, p, h);
    case RequestReceiving(h, receive) => RequestReceivingCount(c, p, h, receive);
  }

  lemma OneStreamCount(c: Call, p: StreamId, op: StreamOp)
    requires WellFormed(c) && Fit(c) && !c.media.accepted && p in c.media.streams
    ensures OneStreamStep(c, p, op).media.accepts == c.media.accepts + OneStreamGrowth(c, p, op)
  {
    if IsFlowOp(op) {
      ReportOpCount(c, p, op);
    } else if IsRemoteOp(op) {
      RemoteOpCount(c, p, op);
    } else {
      EndpointOpSummary(c, p, op);
    }
  }

  /** Every event on a call that is not accepted yet runs the base class's accept as often as Growth
      says. */
  lemma StepGrows(c: Call, e: Event)
    requires WellFormed(c) && Fit(c) && !c.media.accepted
    ensures Step(c, e).media.accepts == c.media.accepts + Growth(c, e)
  {
    match e
    case OnCall(op) => CallCount(c, op);
    case OnTree(op) => assert TreeStep(c, op).media.accepts == c.media.accepts;
    case OnStream(p, op) => if p in c.media.streams { OneStreamCount(c, p, op); }
  }
}
