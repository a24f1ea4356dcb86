/** Local hold: the mutual recursion between setting a hold state and checking whether a pending one
    has been reached, over every stream of the call.
 */
module CallHold {
  import opened CallTypes
  import opened CallFlow
  import opened CallAccept

  function EnvOf(c: Call): Env {
    Env(c.requested, c.acceptance.locally, c.acceptance.accepted, IsHeld(c.holding.state), Order(c.contents))
  }

  predicate IsPending(hold: HoldState) {
    hold == PendingHold || hold == PendingUnhold
  }

  predicate AnyWaiting(m: Media) {
    exists p :: p in m.streams && m.streams[p].waiting
  }

  lemma WaitingBefore(env: Env, m: Media, r: Media)
    requires Progress(env, m, r)
    ensures AnyWaiting(r) ==> AnyWaiting(m)
  {
    if p :| p in r.streams && r.streams[p].waiting {
      assert StreamStep(env, m.streams[p], r.streams[p]);
    }
  }

  /** Bring both flows of a stream to what the channel asks for. */
  function Refresh(env: Env, m: Media, p: StreamId): (r: Media)
    requires p in m.streams && Scannable(env, m)
    ensures Progress(env, m, r) && (m.accepted != r.accepted ==> AnyWaiting(m))
  {
    var d := UpdateReceiving(env, m, p);
    var t := UpdatedSending(env, d.streams[p]);
    PutProgress(env, d, p, t);
    ProgressCompose(env, m, d, Put(d, p, t));
    Put(d, p, t)
  }

  predicate StreamStopped(s: Stream) {
    s.sending == Stopped && s.receiving == Stopped
  }

  /** A stream with this local sending state and these remote members has every flow it wants. */
  predicate StreamStarted(local: SendingState, l: Line, s: Stream) {
    && (local == Sending ==> s.sending == Started)
    && (WantsReceive(l) ==> s.receiving == Started)
  }

  /** The loops of update_hold_state: every stream is refreshed, then compared with what it wanted
      before. */
  function HoldScan(env: Env, m: Media, ps: seq<StreamId>): (r: (Media, bool, bool))
    requires Scannable(env, m) && forall p :: p in ps ==> p in m.streams
    ensures Progress(env, m, r.0) && (m.accepted != r.0.accepted ==> AnyWaiting(m))
    decreases |ps|
  {
    if ps == [] then (m, true, true)
    else
      var s := m.streams[ps[0]];
      var d := Refresh(env, m, ps[0]);
      var t := d.streams[ps[0]];
      var (e, stopped, started) := HoldScan(env, d, ps[1..]);
      ProgressCompose(env, m, d, e);
      WaitingBefore(env, m, d);
      (e, StreamStopped(t) && stopped, StreamStarted(s.local, s.line, t) && started)
  }

  function RefreshAll(env: Env, m: Media, ps: seq<StreamId>): (r: Media)
    requires Scannable(env, m) && forall p :: p in ps ==> p in m.streams
    ensures Progress(env, m, r) && (m.accepted != r.accepted ==> AnyWaiting(m))
    decreases |ps|
  {
    if ps == [] then m
    else
      var d := Refresh(env, m, ps[0]);
      var e := RefreshAll(env, d, ps[1..]);
      ProgressCompose(env, m, d, e);
      WaitingBefore(env, m, d);
      e
  }

  /** The scan leaves the streams as refreshing all of them does. */
  lemma {:induction false} HoldScanRefreshes(env: Env, m: Media, ps: seq<StreamId>)
    requires Scannable(env, m) && forall p :: p in ps ==> p in m.streams
    ensures HoldScan(env, m, ps).0 == RefreshAll(env, m, ps)
    decreases |ps|
  {
    if ps != [] {
      HoldScanRefreshes(env, Refresh(env, m, ps[0]), ps[1..]);
    }
  }

  predicate ScannableCall(c: Call) {
    forall p :: p in Order(c.contents) ==> p in c.media.streams
  }

  /** How streams may come out of one or more runs of the flow recursion, with the hold state
      changing in between. `gate` says that sending needs no further acceptance. */
  predicate StreamFlowed(gate: bool, s: Stream, t: Stream) {
    && t.line == s.line
    && (t.waiting ==> s.waiting)
    && (t.local != s.local ==> s.line.initial && s.local == PendingSend && t.local == Sending && gate)
    && (t.receiving == s.receiving || t.receiving == PendingStop
        || (t.receiving == PendingStart && WantsReceive(s.line)))
    && (s.receiving == Stopped && s.line.receivingFailure ==> t.receiving == Stopped)
  }

  predicate Flowed(gate: bool, m: Media, r: Media) {
    && r.emitting == m.emitting
    && r.streams.Keys == m.streams.Keys
    && (forall p :: p in m.streams ==> StreamFlowed(gate, m.streams[p], r.streams[p]))
    && (m.accepted ==> r.accepted)
    && (m.accepted == r.accepted ==> r.accepts == m.accepts && SameLocals(m, r))
    && (m.accepted != r.accepted ==> r.accepts > m.accepts)
    && (m.accepted != r.accepted && gate ==> Drained(r))
    && (m.accepted != r.accepted ==> AnyWaiting(m))
  }

  lemma FlowedCompose(gate: bool, m: Media, d: Media, r: Media)
    requires Flowed(gate, m, d) && Flowed(gate, d, r)
    ensures Flowed(gate, m, r)
  {
    if p :| p in d.streams && d.streams[p].waiting {
      assert StreamFlowed(gate, m.streams[p], d.streams[p]);
    }
    forall p | p in m.streams
      ensures StreamFlowed(gate, m.streams[p], r.streams[p])
      ensures d.streams[p].local != PendingSend ==> r.streams[p].local != PendingSend
    {
      assert StreamFlowed(gate, m.streams[p], d.streams[p]) && StreamFlowed(gate, d.streams[p], r.streams[p]);
    }
  }

  lemma FrameFlowed(env: Env, m: Media, r: Media)
    requires Frame(env, m, r) && (m.accepted != r.accepted ==> AnyWaiting(m))
    ensures Flowed(env.accepted || env.requested, m, r)
  {
    forall p | p in m.streams
      ensures StreamFlowed(env.accepted || env.requested, m.streams[p], r.streams[p])
    {
      assert StreamStep(env, m.streams[p], r.streams[p]);
    }
  }

  predicate Gate(c: Call) {
    c.acceptance.accepted || c.requested
  }

  /** Only the hold fields and what the flow recursion may change differ. */
  predicate HoldFrame(c: Call, r: Call) {
    && r == c.(media := r.media, holding := r.holding)
    && Flowed(Gate(c), c.media, r.media)
  }

  lemma HoldFrameCompose(c: Call, d: Call, e: Call)
    requires HoldFrame(c, d) && HoldFrame(d, e)
    ensures HoldFrame(c, e)
  {
    FlowedCompose(Gate(c), c.media, d.media, e.media);
  }

  function HoldScanned(c: Call): (r: (Media, bool, bool))
    requires ScannableCall(c)
    ensures HoldFrame(c, c.(media := r.0))
  {
    if c.acceptance.accepted then
      var r := HoldScan(EnvOf(c), c.media, Order(c.contents));
      FrameFlowed(EnvOf(c), c.media, r.0);
      r
    else (c.media, true, true)
  }

  /** The streams after the scan and the hold state they allow. */
  function NextHold(c: Call): (r: (Media, HoldState))
    requires ScannableCall(c)
    ensures HoldFrame(c, c.(media := r.0))
    ensures r.1 == c.holding.state || !IsPending(r.1)
  {
    var (m, stopped, started) := HoldScanned(c);
    (m, if c.holding.state == PendingHold && stopped then Held
        else if c.holding.state == PendingUnhold && started then Unheld
        else c.holding.state)
  }

  function SetHold(c: Call, hold: HoldState, reason: HoldReason): (r: Call)
    requires ScannableCall(c)
    ensures HoldFrame(c, r)
    decreases IsPending(hold), 1
  {
    if c.holding.state == hold then c.(holding := c.holding.(reason := reason))
    else UpdateHold(c.(holding := Holding(hold, reason, c.holding.log + [HoldChanged(hold, reason)])))
  }

  function UpdateHold(c: Call): (r: Call)
    requires ScannableCall(c)
    ensures HoldFrame(c, r)
    decreases IsPending(c.holding.state), 0
  {
    if !IsPending(c.holding.state) then c
    else
      var (m, next) := NextHold(c);
      if next == c.holding.state then c.(media := m)
      else
        var r := SetHold(c.(media := m), next, c.holding.reason);
        HoldFrameCompose(c, c.(media := m), r);
        r
  }

  function HoldChangeFailed(c: Call): (r: Call)
    requires ScannableCall(c)
    ensures HoldFrame(c, r)
  {
    if c.holding.state != PendingUnhold then c
    else
      var d := SetHold(c, PendingHold, ResourceNotAvailable);
      var m := RefreshAll(EnvOf(d), d.media, Order(d.contents));
      FrameFlowed(EnvOf(d), d.media, m);
      var r := UpdateHold(d.(media := m));
      FlowedCompose(Gate(c), c.media, d.media, m);
      FlowedCompose(Gate(c), c.media, m, r.media);
      r
  }

  function NotifyReceiving(c: Call, p: StreamId): (r: Call)
    requires ScannableCall(c) && p in c.media.streams
    ensures HoldFrame(c, r)
  {
    FrameFlowed(EnvOf(c), c.media, Notify(EnvOf(c), c.media, p));
    c.(media := Notify(EnvOf(c), c.media, p))
  }

  /** What follows a report of the streaming implementation that a flow of `p` reached its state or
      failed to: the receiving state is notified, and the channel looks at its pending hold. */
  function React(c: Call, p: StreamId, receiving: bool, success: bool): (r: Call)
    requires ScannableCall(c) && p in c.media.streams
    ensures HoldFrame(c, r)
  {
    var d := if receiving then NotifyReceiving(c, p) else c;
    var r := if success then UpdateHold(d) else HoldChangeFailed(d);
    HoldFrameCompose(c, d, r);
    r
  }

  function RequestHold(c: Call, hold: bool): (r: Call)
    requires ScannableCall(c)
    ensures HoldFrame(c, r)
  {
    if hold == IsHeld(c.holding.state) then c.(holding := c.holding.(reason := Requested))
    else SetHold(c, if hold then PendingHold else PendingUnhold, Requested)
  }

  // ---- what reaching HELD or UNHELD means

  predicate AllStopped(m: Media) {
    forall p :: p in m.streams ==> StreamStopped(m.streams[p])
  }

  predicate AllStarted(m: Media) {
    forall p :: p in m.streams ==> StreamStarted(m.streams[p].local, m.streams[p].line, m.streams[p])
  }

  /** A stream that receives, or is about to, has somebody to receive from. */
  predicate ReceivesWanted(m: Media) {
    forall p :: p in m.streams && (m.streams[p].receiving == Started || m.streams[p].receiving == PendingStart) ==>
      WantsReceive(m.streams[p].line)
  }

  predicate StoppedIn(m: Media, ps: seq<StreamId>)
    requires forall p :: p in ps ==> p in m.streams
  {
    forall p :: p in ps ==> StreamStopped(m.streams[p])
  }

  predicate StartedIn(m: Media, ps: seq<StreamId>)
    requires forall p :: p in ps ==> p in m.streams
  {
    forall p :: p in ps ==> StreamStarted(m.streams[p].local, m.streams[p].line, m.streams[p])
  }

  lemma SplitIn(m: Media, ps: seq<StreamId>)
    requires ps != [] && forall p :: p in ps ==> p in m.streams
    ensures StoppedIn(m, ps) == (StreamStopped(m.streams[ps[0]]) && StoppedIn(m, ps[1..]))
    ensures StartedIn(m, ps)
            == (StreamStarted(m.streams[ps[0]].local, m.streams[ps[0]].line, m.streams[ps[0]]) && StartedIn(m, ps[1..]))
  {
    assert forall p :: p in ps <==> p == ps[0] || p in ps[1..];
  }

  lemma ScanKeepsStopped(env: Env, m: Media, p: StreamId, d: Media, r: Media)
    requires env.held && Scannable(env, m) && p in m.streams && d == Refresh(env, m, p) && Progress(env, d, r)
    ensures StreamStopped(d.streams[p]) == StreamStopped(r.streams[p])
  {
    assert StreamStep(env, d.streams[p], r.streams[p]);
  }

  /** On a held call the scan's verdict is the truth about the streams as it leaves them, although
      later streams of the scan may accept the call and scan all streams again. */
  lemma {:induction false} HoldScanStopped(env: Env, m: Media, ps: seq<StreamId>)
    requires env.held && Scannable(env, m) && forall p :: p in ps ==> p in m.streams
    ensures var r := HoldScan(env, m, ps); r.1 == StoppedIn(r.0, ps)
    decreases |ps|
  {
    if ps != [] {
      var d := Refresh(env, m, ps[0]);
      HoldScanStopped(env, d, ps[1..]);
      var r := HoldScan(env, d, ps[1..]).0;
      ScanKeepsStopped(env, m, ps[0], d, r);
      SplitIn(r, ps);
    }
  }

  lemma ProgressKeepsWanted(env: Env, m: Media, r: Media)
    requires Progress(env, m, r) && ReceivesWanted(m)
    ensures ReceivesWanted(r)
  {
    forall p | p in r.streams && (r.streams[p].receiving == Started || r.streams[p].receiving == PendingStart)
      ensures WantsReceive(r.streams[p].line)
    {
      assert StreamStep(env, m.streams[p], r.streams[p]);
    }
  }

  lemma RefreshQuiet(env: Env, m: Media, p: StreamId)
    requires Running(env, m) && ReceivesWanted(m) && p in m.streams
    ensures Quiet(m, Refresh(env, m, p))
  {
    var d := UpdateReceiving(env, m, p);
    if WantsReceive(m.streams[p].line) {
      QuietUpdate(env, m, p);
    } else {
      assert ReceiveGoal(env, m.streams[p]) == m.streams[p].receiving;
    }
    QuietRecord(d, p, UpdatedSending(env, d.streams[p]));
    QuietCompose(m, d, Refresh(env, m, p));
  }

  lemma RefreshKeeps(env: Env, m: Media, p: StreamId)
    requires Running(env, m) && ReceivesWanted(m) && p in m.streams
    ensures var d := Refresh(env, m, p); Quiet(m, d) && Running(env, d) && ReceivesWanted(d)
  {
    var d := Refresh(env, m, p);
    RefreshQuiet(env, m, p);
    QuietKeeps(env, m, d);
    ProgressKeepsWanted(env, m, d);
  }

  lemma ScanKeepsStarted(env: Env, m: Media, p: StreamId, d: Media, r: Media)
    requires Scannable(env, m) && p in m.streams && d == Refresh(env, m, p) && Progress(env, d, r)
    requires Quiet(m, d) && Quiet(d, r)
    ensures StreamStarted(m.streams[p].local, m.streams[p].line, d.streams[p])
            == StreamStarted(r.streams[p].local, r.streams[p].line, r.streams[p])
  {
    StartedStays(env, d.streams[p], r.streams[p]);
    assert d.streams[p].local == m.streams[p].local;
  }

  /** On a running call the scan accepts nothing, and its verdict is the truth about the streams as
      it leaves them. */
  lemma {:induction false} HoldScanStarted(env: Env, m: Media, ps: seq<StreamId>)
    requires Running(env, m) && ReceivesWanted(m) && forall p :: p in ps ==> p in m.streams
    ensures var r := HoldScan(env, m, ps); Quiet(m, r.0) && r.2 == StartedIn(r.0, ps)
    decreases |ps|
  {
    if ps != [] {
      var d := Refresh(env, m, ps[0]);
      RefreshKeeps(env, m, ps[0]);
      HoldScanStarted(env, d, ps[1..]);
      var r := HoldScan(env, d, ps[1..]).0;
      QuietCompose(m, d, r);
      ScanKeepsStarted(env, m, ps[0], d, r);
      SplitIn(r, ps);
    }
  }

  /** What a refreshed stream has started stays started. */
  lemma StartedStays(env: Env, t: Stream, u: Stream)
    requires StreamStep(env, t, u) && t.sending == Flow(t.sending, SendStart(env, t))
    requires u.receiving == Started <==> t.receiving == Started
    requires u.local == t.local
    ensures StreamStarted(t.local, t.line, t) == StreamStarted(u.local, u.line, u)
  {
  }

  // ---- the hold machine

  /** The conditions under which the hold machine is entered: the contents list exactly the streams,
      handlers wait only on initial streams, no stream has a failure being reported or receives from
      nobody, and an accepted call was accepted locally too. */
  predicate HoldReady(c: Call) {
    && ScannableCall(c)
    && (forall p :: p in c.media.streams ==> p in Order(c.contents))
    && (forall p :: p in c.media.streams && c.media.streams[p].waiting ==> c.media.streams[p].line.initial)
    && (forall p :: p in c.media.streams && c.media.streams[p].line.receivingFailure ==> c.media.streams[p].receiving == Stopped)
    && ReceivesWanted(c.media)
    && (c.acceptance.accepted ==> c.acceptance.locally)
  }

  lemma ScanTruth(c: Call)
    requires HoldReady(c)
    ensures var (m, stopped, started) := HoldScanned(c);
            && (c.holding.state == PendingHold ==> stopped == (!c.acceptance.accepted || AllStopped(m)))
            && (c.holding.state == PendingUnhold ==> started == (!c.acceptance.accepted || AllStarted(m)))
  {
    if c.acceptance.accepted {
      var m := HoldScan(EnvOf(c), c.media, Order(c.contents)).0;
      assert forall p :: p in m.streams <==> p in Order(c.contents);
      if c.holding.state == PendingHold {
        HoldScanStopped(EnvOf(c), c.media, Order(c.contents));
      } else if c.holding.state == PendingUnhold {
        HoldScanStarted(EnvOf(c), c.media, Order(c.contents));
      }
    }
  }

  /** The call once a pending hold state is completed and signalled. */
  function Completed(c: Call, m: Media, hold: HoldState): Call {
    c.(media := m, holding := Holding(hold, c.holding.reason, c.holding.log + [HoldChanged(hold, c.holding.reason)]))
  }

  lemma SetSettled(c: Call, m: Media, hold: HoldState)
    requires ScannableCall(c.(media := m)) && !IsPending(hold) && c.holding.state != hold
    ensures SetHold(c.(media := m), hold, c.holding.reason) == Completed(c, m, hold)
  {
  }

  /** A pending hold is completed exactly when the call is not accepted or every stream is stopped
      both ways; a pending unhold exactly when the call is not accepted or every stream has the flows
      it wants. Completing it is signalled once, with the reason of the pending state; otherwise the
      pending state stays and nothing is signalled. */
  lemma HoldSettles(c: Call)
    requires HoldReady(c)
    ensures var r := UpdateHold(c);
            match c.holding.state
            case PendingHold =>
              r == if !c.acceptance.accepted || AllStopped(r.media) then Completed(c, r.media, Held) else c.(media := r.media)
            case PendingUnhold =>
              r == if !c.acceptance.accepted || AllStarted(r.media) then Completed(c, r.media, Unheld) else c.(media := r.media)
            case _ => r == c
  {
    if IsPending(c.holding.state) {
      ScanTruth(c);
      UpdateHoldCases(c);
    }
  }

  lemma UpdateHoldCases(c: Call)
    requires ScannableCall(c) && IsPending(c.holding.state)
    ensures var (m, next) := NextHold(c);
            UpdateHold(c) == if next == c.holding.state then c.(media := m) else Completed(c, m, next)
  {
    var (m, next) := NextHold(c);
    if next != c.holding.state {
      SetSettled(c, m, next);
    }
  }
}
