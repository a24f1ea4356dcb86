/** What holding and accepting a call ask of its streams. */
module CallEffects {
  import opened CallTypes
  import opened CallFlow
  import opened CallAccept
  import opened CallHold
  import opened CallEngine
  import opened CallSafety
  import opened CallRuns
  import opened CallHoldRuns

  // ---- holding

  /** Both flows are stopped or have been asked to stop. */
  predicate Halting(s: Stream) {
    (s.sending == Stopped || s.sending == PendingStop) && (s.receiving == Stopped || s.receiving == PendingStop)
  }

  predicate AllHalting(m: Media) {
    forall p :: p in m.streams ==> Halting(m.streams[p])
  }

  lemma HaltingStays(env: Env, s: Stream, t: Stream)
    requires env.held && StreamStep(env, s, t) && Halting(s)
    ensures Halting(t)
  {
  }

  lemma RefreshHalts(env: Env, m: Media, p: StreamId)
    requires env.held && Scannable(env, m) && p in m.streams
    ensures Halting(Refresh(env, m, p).streams[p])
  {
    UpdatedReceiving(env, m, p);
  }

  lemma {:induction false} HoldScanHalts(env: Env, m: Media, ps: seq<StreamId>)
    requires env.held && Scannable(env, m) && forall p :: p in ps ==> p in m.streams
    ensures forall p :: p in ps ==> Halting(HoldScan(env, m, ps).0.streams[p])
    decreases |ps|
  {
    if ps != [] {
      RefreshHalts(env, m, ps[0]);
      var d := Refresh(env, m, ps[0]);
      HoldScanHalts(env, d, ps[1..]);
      var r := HoldScan(env, d, ps[1..]).0;
      assert StreamStep(env, d.streams[ps[0]], r.streams[ps[0]]);
      HaltingStays(env, d.streams[ps[0]], r.streams[ps[0]]);
      assert forall p :: p in ps <==> p == ps[0] || p in ps[1..];
    }
  }

  lemma {:induction false} RefreshAllHalts(env: Env, m: Media, ps: seq<StreamId>)
    requires env.held && Scannable(env, m) && forall p :: p in ps ==> p in m.streams
    ensures forall p :: p in ps ==> Halting(RefreshAll(env, m, ps).streams[p])
    decreases |ps|
  {
    if ps != [] {
      RefreshHalts(env, m, ps[0]);
      var d := Refresh(env, m, ps[0]);
      RefreshAllHalts(env, d, ps[1..]);
      var r := RefreshAll(env, d, ps[1..]);
      assert StreamStep(env, d.streams[ps[0]], r.streams[ps[0]]);
      HaltingStays(env, d.streams[ps[0]], r.streams[ps[0]]);
      assert forall p :: p in ps <==> p == ps[0] || p in ps[1..];
    }
  }

  /** Looking at a pending hold asks every stream of an accepted call to stop. */
  lemma PendingHoldHalts(c: Call)
    requires WellFormed(c) && c.holding.state == PendingHold && c.acceptance.accepted
    ensures AllHalting(UpdateHold(c).media)
  {
    UpdateHoldCases(c);
    HoldScanHalts(EnvOf(c), c.media, Order(c.contents));
  }

  /** A request to hold asks every stream of an accepted call to stop. */
  lemma HoldAsksAll(c: Call)
    requires WellFormed(c) && !IsHeld(c.holding.state) && c.acceptance.accepted
    ensures AllHalting(CallHold.RequestHold(c, true).media)
  {
    var d := c.(holding := Holding(PendingHold, Requested, c.holding.log + [HoldChanged(PendingHold, Requested)]));
    PendingHoldHalts(d);
  }

  lemma HeldKeepsHalting(c: Call)
    requires WellFormed(c) && IsHeld(c.holding.state) && AllHalting(c.media)
    ensures AllHalting(UpdateHold(c).media)
  {
    if c.holding.state == PendingHold {
      UpdateHoldCases(c);
      var m := HoldScanned(c).0;
      forall p | p in m.streams
        ensures Halting(m.streams[p])
      {
        if c.acceptance.accepted {
          assert StreamStep(EnvOf(c), c.media.streams[p], m.streams[p]);
          HaltingStays(EnvOf(c), c.media.streams[p], m.streams[p]);
        }
      }
    }
  }

  /** An unhold that fails asks every stream to stop, whether or not the call is accepted. */
  lemma FailureAsksAll(c: Call)
    requires WellFormed(c) && c.holding.state == PendingUnhold
    ensures AllHalting(HoldChangeFailed(c).media)
  {
    var d := SetHold(c, PendingHold, ResourceNotAvailable);
    HeldOutcome(c.(holding := Holding(PendingHold, ResourceNotAvailable,
                                      c.holding.log + [HoldChanged(PendingHold, ResourceNotAvailable)])));
    var m := RefreshAll(EnvOf(d), d.media, Order(d.contents));
    RefreshAllHalts(EnvOf(d), d.media, Order(d.contents));
    FlowHold(c, d);
    ShapeKeeps(c, d);
    ProgressLines(EnvOf(d), d.media, m);
    ShapeKeeps(d, d.(media := m));
    HeldKeepsHalting(d.(media := m));
  }

  // ---- accepting

  predicate Starting(flow: FlowState) {
    flow == Started || flow == PendingStart
  }

  /** What scanning a proposed stream of an incoming call leaves. */
  predicate Proposing(env: Env, s: Stream) {
    s.localSending && (SendStart(env, s) ==> Starting(s.sending))
  }

  lemma ProposingStays(env: Env, s: Stream, t: Stream)
    requires StreamStep(env, s, t) && Proposing(env, s)
    ensures Proposing(env, t)
  {
  }

  predicate IsProposed(s: Stream) {
    s.line.initial && s.local == PendingSend
  }

  lemma ScanStreamProposes(env: Env, m: Media, p: StreamId)
    requires Scannable(env, m) && p in m.streams && !env.requested && IsProposed(m.streams[p])
    ensures Proposing(env, ScanStream(env, m, p).0.streams[p])
  {
    var t := Proposed(env, m.streams[p]);
    assert Proposing(env, t);
    var e := Put(m, p, t);
    if WantsReceive(m.streams[p].line) {
      assert StreamStep(env, e.streams[p], UpdateReceiving(env, e, p).streams[p]);
      ProposingStays(env, t, UpdateReceiving(env, e, p).streams[p]);
    }
  }

  lemma {:induction false} ScanProposes(env: Env, m: Media, ps: seq<StreamId>)
    requires Scannable(env, m) && (forall p :: p in ps ==> p in m.streams) && !env.requested && !AnyWaiting(m)
    ensures forall p :: p in ps && IsProposed(m.streams[p]) ==> Proposing(env, Scan(env, m, ps).0.streams[p])
    decreases |ps|
  {
    if ps != [] {
      var d := ScanStream(env, m, ps[0]).0;
      WaitingBefore(env, m, d);
      ScanProposes(env, d, ps[1..]);
      var r := Scan(env, d, ps[1..]).0;
      forall p | p in ps && IsProposed(m.streams[p])
        ensures Proposing(env, r.streams[p])
      {
        assert StreamStep(env, m.streams[p], d.streams[p]) && StreamStep(env, d.streams[p], r.streams[p]);
        if p == ps[0] {
          ScanStreamProposes(env, m, p);
          ProposingStays(env, d.streams[p], r.streams[p]);
        } else {
          assert p in ps[1..] && IsProposed(d.streams[p]);
        }
      }
    }
  }

  /** A stream once an attempt to accept, and perhaps the wait for it, are over. */
  predicate Tried(t: Stream, u: Stream) {
    u == t.(local := u.local, waiting := u.waiting)
  }

  lemma AttemptTried(c: Call, p: StreamId)
    requires ScannableCall(c) && p in c.media.streams && !c.media.accepted
    ensures Tried(Scan(EnvOf(c), c.media, Order(c.contents)).0.streams[p], AcceptMedia(EnvOf(c), c.media).streams[p])
  {
  }

  /** A successful Accept asks every stream with a sender to receive; and on an incoming call it sends
      what the other side proposed, unless the call or the stream is held. */
  lemma AcceptStarts(c: Call, p: StreamId)
    requires WellFormed(c) && Fit(c) && CanAccept(c) && p in c.media.streams
    ensures var s := c.media.streams[p];
            var t := DoAccept(c).media.streams[p];
            && (WantsReceive(s.line) && !IsHeld(c.holding.state) ==> Starting(t.receiving))
            && (if !c.requested && IsProposed(s) then t.localSending else t.localSending == s.localSending)
            && (!c.requested && IsProposed(s) && !IsHeld(c.holding.state) && !s.line.remotelyHeld ==> Starting(t.sending))
  {
    var d := Accepting(c);
    var env := EnvOf(d);
    var m := Scan(env, d.media, Order(d.contents)).0;
    assert StreamSound(c.media.streams[p]);
    assert StreamStep(env, d.media.streams[p], m.streams[p]);
    ScanSettles(env, d.media, Order(d.contents));
    AttemptTried(d, p);
    if !c.requested && IsProposed(c.media.streams[p]) {
      ScanProposes(env, d.media, Order(d.contents));
    }
  }

  /** Once the other side accepts an outgoing call, every initial stream we mean to send on starts
      sending, unless the call or the stream is held. */
  lemma RemoteAcceptStarts(c: Call, p: StreamId)
    requires CanRemoteAccept(c) && p in c.media.streams
    requires c.media.streams[p].line.initial && c.media.streams[p].local == Sending
    ensures var s := c.media.streams[p];
            var t := DoRemoteAccept(c).media.streams[p];
            && t.localSending
            && (!IsHeld(c.holding.state) && !s.line.remotelyHeld && !s.line.sendingFailure ==> Starting(t.sending))
  {
  }
}
