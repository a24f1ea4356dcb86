/** That what a call waits for ends the wait: a pending hold is completed by the reports that the flows
    stopped, and a deferred accept by the reports that the streams receive, in whatever order they come.
 */
module CallCompletion {
  import opened CallTypes
  import opened CallFlow
  import opened CallAccept
  import opened CallHold
  import opened CallEngine
  import opened CallSafety
  import opened CallRuns
  import opened CallHoldRuns
  import opened CallEffects
  import opened CallAcceptCount

  // ---- stopping every flow

  /** A report that a flow has stopped. */
  predicate IsStop(e: Event) {
    && e.OnStream?
    && (e.stream == CompleteSending(Stopped) || e.stream == CompleteReceiving(Stopped))
  }

  /** An accepted call that holds or is about to: every flow is stopped or asked to, and the hold is
      completed exactly when all are stopped. */
  ghost predicate Stopping(c: Call) {
    && WellFormed(c) && Fit(c) && c.acceptance.accepted
    && IsHeld(c.holding.state) && AllHalting(c.media)
    && (c.holding.state == Held <==> AllStopped(c.media))
  }

  predicate StopKept(s: Stream, t: Stream) {
    (s.sending == Stopped ==> t.sending == Stopped) && (s.receiving == Stopped ==> t.receiving == Stopped)
  }

  predicate StopsKept(m: Media, r: Media) {
    r.streams.Keys == m.streams.Keys && forall p :: p in m.streams ==> StopKept(m.streams[p], r.streams[p])
  }

  lemma StopsCompose(m: Media, d: Media, r: Media)
    requires StopsKept(m, d) && StopsKept(d, r)
    ensures StopsKept(m, r)
  {
    forall p | p in m.streams
      ensures StopKept(m.streams[p], r.streams[p])
    {
      assert StopKept(m.streams[p], d.streams[p]) && StopKept(d.streams[p], r.streams[p]);
    }
  }

  /** What a held call's recursion does to streams that are stopping. */
  lemma HeldKeeps(env: Env, m: Media, r: Media)
    requires env.held && Frame(env, m, r) && AllHalting(m)
    ensures AllHalting(r) && StopsKept(m, r)
  {
    forall p | p in m.streams
      ensures Halting(r.streams[p]) && StopKept(m.streams[p], r.streams[p])
    {
      assert StreamStep(env, m.streams[p], r.streams[p]);
      HaltingStays(env, m.streams[p], r.streams[p]);
    }
  }

  /** Nothing started again on the way from `m` to the call, and its hold is completed exactly when all
      flows are stopped. */
  predicate Stops(m: Media, r: Call) {
    && AllHalting(r.media) && StopsKept(m, r.media) && IsHeld(r.holding.state)
    && (r.holding.state == Held <==> AllStopped(r.media))
  }

  predicate Winding(c: Call) {
    HoldReady(c) && c.acceptance.accepted && c.holding.state == PendingHold && AllHalting(c.media)
  }

  lemma LookStops(c: Call)
    requires Winding(c)
    ensures Stops(c.media, UpdateHold(c))
  {
    UpdateHoldCases(c);
    HoldSettles(c);
    HeldKeeps(EnvOf(c), c.media, HoldScanned(c).0);
  }

  lemma NotifyStops(c: Call, p: StreamId)
    requires Winding(c) && p in c.media.streams
    ensures Winding(NotifyReceiving(c, p)) && StopsKept(c.media, NotifyReceiving(c, p).media)
  {
    var d := NotifyReceiving(c, p);
    HeldKeeps(EnvOf(c), c.media, d.media);
    FlowedHoldReady(c, d);
  }

  lemma ReactStops(c: Call, p: StreamId, receiving: bool)
    requires Winding(c) && p in c.media.streams
    ensures Stops(c.media, React(c, p, receiving, true))
  {
    if receiving {
      var d := NotifyReceiving(c, p);
      NotifyStops(c, p);
      LookStops(d);
      StopsCompose(c.media, d.media, UpdateHold(d).media);
    } else {
      LookStops(c);
    }
  }

  /** The stream once the reported flow has stopped. */
  function Stop(s: Stream, receiving: bool): Stream {
    if receiving then s.(receiving := Stopped) else s.(sending := Stopped)
  }

  predicate FlowStopped(s: Stream, receiving: bool) {
    (if receiving then s.receiving else s.sending) == Stopped
  }

  lemma PutHalting(m: Media, p: StreamId, receiving: bool)
    requires AllHalting(m) && p in m.streams
    ensures var r := Put(m, p, Stop(m.streams[p], receiving)); AllHalting(r) && StopsKept(m, r)
  {
    assert Halting(m.streams[p]);
  }

  lemma PutStops(c: Call, p: StreamId, receiving: bool)
    requires Stopping(c) && c.holding.state == PendingHold && p in c.media.streams
    ensures var d := PutCall(c, p, Stop(c.media.streams[p], receiving));
            Winding(d) && StopsKept(c.media, d.media)
  {
    FitHoldReady(c);
    PutHalting(c.media, p, receiving);
    assert StreamSound(c.media.streams[p]);
    ReportHoldReady(c, p, Stop(c.media.streams[p], receiving));
  }

  lemma ReportStops(c: Call, p: StreamId, receiving: bool)
    requires Stopping(c) && c.holding.state == PendingHold && p in c.media.streams
    ensures var r := Report(c, p, Stop(c.media.streams[p], receiving), receiving, true);
            Stops(c.media, r) && FlowStopped(r.media.streams[p], receiving)
  {
    var d := PutCall(c, p, Stop(c.media.streams[p], receiving));
    PutStops(c, p, receiving);
    ReactStops(d, p, receiving);
    StopsCompose(c.media, d.media, React(d, p, receiving, true).media);
  }

  predicate Reports(e: Event, p: StreamId, receiving: bool) {
    e == OnStream(p, if receiving then CompleteReceiving(Stopped) else CompleteSending(Stopped))
  }

  lemma StepIsStop(c: Call, e: Event, p: StreamId, receiving: bool)
    requires ScannableCall(c) && p in c.media.streams && Reports(e, p, receiving)
    ensures var s := c.media.streams[p];
            Step(c, e) == if (if receiving then s.receiving else s.sending) == PendingStop
                          then Report(c, p, Stop(s, receiving), receiving, true) else c
  {
  }

  lemma StopStep(c: Call, e: Event, p: StreamId, receiving: bool)
    requires Stopping(c) && Reports(e, p, receiving) && p in c.media.streams
    ensures Stops(c.media, Step(c, e)) && FlowStopped(Step(c, e).media.streams[p], receiving)
    ensures Step(c, e).acceptance == c.acceptance
  {
    StepIsStop(c, e, p, receiving);
    assert Halting(c.media.streams[p]);
    if FlowStopped(c.media.streams[p], receiving) {
      assert Step(c, e) == c;
    } else {
      ReportStops(c, p, receiving);
    }
  }

  lemma StopKeeps(c: Call, e: Event, p: StreamId, receiving: bool)
    requires Stopping(c) && Reports(e, p, receiving)
    ensures Stopping(Step(c, e)) && StopsKept(c.media, Step(c, e).media)
    ensures p in c.media.streams ==> FlowStopped(Step(c, e).media.streams[p], receiving)
  {
    StepWellFormed(c, e);
    StepFit(c, e);
    if p in c.media.streams {
      StopStep(c, e, p, receiving);
    }
  }

  predicate AllStops(es: seq<Event>) {
    forall k :: 0 <= k < |es| ==> IsStop(es[k])
  }

  lemma IsStopReports(e: Event) returns (receiving: bool)
    requires IsStop(e)
    ensures Reports(e, e.p, receiving)
  {
    receiving := e.stream.CompleteReceiving?;
  }

  /** The flow of `p` has stopped by the time the report number `k` has come. */
  ghost predicate StoppedBy(c: Call, k: nat, p: StreamId, receiving: bool, j: nat) {
    && Stopping(c) && p in c.media.streams
    && (k < j ==> FlowStopped(c.media.streams[p], receiving))
  }

  lemma StopNext(c: Call, e: Event, k: nat, p: StreamId, receiving: bool, j: nat)
    requires StoppedBy(c, k, p, receiving, j) && IsStop(e) && (j == k ==> Reports(e, p, receiving))
    ensures StoppedBy(Step(c, e), k, p, receiving, j + 1)
  {
    var dir := IsStopReports(e);
    StopKeeps(c, e, e.p, dir);
    assert StopKept(c.media.streams[p], Step(c, e).media.streams[p]);
  }

  /** What is reported to have stopped has stopped, and stays so. */
  lemma StopsInRuns(c: Call, es: seq<Event>, k: nat, p: StreamId, receiving: bool)
    requires Stopping(c) && AllStops(es) && p in c.media.streams && k < |es| && Reports(es[k], p, receiving)
    ensures StoppedBy(Run(c, es), k, p, receiving, |es|)
  {
    var inv := (d: Call, j: nat) => StoppedBy(d, k, p, receiving, j);
    forall d, j: nat | j < |es| && WellFormed(d) && inv(d, j)
      ensures inv(Step(d, es[j]), j + 1)
    {
      StopNext(d, es[j], k, p, receiving, j);
    }
    RunKeeps(c, es, 0, inv);
    assert es[0..] == es;
  }

  lemma StoppingRuns(c: Call, es: seq<Event>)
    requires Stopping(c) && AllStops(es)
    ensures Stopping(Run(c, es)) && Run(c, es).media.streams.Keys == c.media.streams.Keys
  {
    forall d, j | 0 <= j < |es| && Stopping(d) && d.media.streams.Keys == c.media.streams.Keys
      ensures Stopping(Step(d, es[j])) && Step(d, es[j]).media.streams.Keys == c.media.streams.Keys
    {
      var receiving := IsStopReports(es[j]);
      StopKeeps(d, es[j], es[j].p, receiving);
    }
    RunKeeps(c, es, 0, (d, _) => Stopping(d) && d.media.streams.Keys == c.media.streams.Keys);
    assert es[0..] == es;
  }

  lemma HoldBegins(c: Call)
    requires WellFormed(c) && Fit(c) && c.acceptance.accepted && !IsHeld(c.holding.state)
    ensures Stopping(CallHold.RequestHold(c, true)) && CallHold.RequestHold(c, true).media.streams.Keys == c.media.streams.Keys
  {
    var d := c.(holding := Holding(PendingHold, Requested, c.holding.log + [HoldChanged(PendingHold, Requested)]));
    HoldAsksAll(c);
    FitHoldReady(c);
    assert HoldReady(d);
    HoldSettles(d);
    FlowHold(c, CallHold.RequestHold(c, true));
    ShapeKeeps(c, CallHold.RequestHold(c, true));
    FlowedSound(Gate(c), c.acceptance, c.media, CallHold.RequestHold(c, true).media);
  }

  /** Both flows of every stream are reported to have stopped. */
  predicate ReportsAll(streams: set<StreamId>, es: seq<Event>) {
    forall p :: p in streams ==>
      OnStream(p, CompleteSending(Stopped)) in es && OnStream(p, CompleteReceiving(Stopped)) in es
  }

  lemma ReportedStopped(c: Call, es: seq<Event>, p: StreamId)
    requires Stopping(c) && AllStops(es) && ReportsAll(c.media.streams.Keys, es) && p in c.media.streams
    ensures p in Run(c, es).media.streams && StreamStopped(Run(c, es).media.streams[p])
  {
    var k :| 0 <= k < |es| && es[k] == OnStream(p, CompleteSending(Stopped));
    StopsInRuns(c, es, k, p, false);
    var i :| 0 <= i < |es| && es[i] == OnStream(p, CompleteReceiving(Stopped));
    StopsInRuns(c, es, i, p, true);
  }

  /** After a request to hold an accepted call, whatever reports that flows stopped come in whatever
      order, repeated or for flows that were stopped already: the call is HELD exactly when every flow is
      stopped, and it is HELD once every stream was reported both ways. */
  lemma HoldCompletes(c: Call, es: seq<Event>)
    requires WellFormed(c) && Fit(c) && c.acceptance.accepted && !IsHeld(c.holding.state) && AllStops(es)
    ensures var d := CallHold.RequestHold(c, true);
            && WellFormed(d)
            && (Run(d, es).holding.state == Held <==> AllStopped(Run(d, es).media))
            && (ReportsAll(c.media.streams.Keys, es) ==> Run(d, es).holding.state == Held)
  {
    var d := CallHold.RequestHold(c, true);
    HoldBegins(c);
    StoppingRuns(d, es);
    if ReportsAll(c.media.streams.Keys, es) {
      forall p | p in Run(d, es).media.streams
        ensures StreamStopped(Run(d, es).media.streams[p])
      {
        ReportedStopped(d, es, p);
      }
    }
  }

  // ---- receiving on every stream

  /** A report that a stream receives. */
  predicate IsStart(e: Event, p: StreamId) {
    e == OnStream(p, CompleteReceiving(Started))
  }

  /** Somebody sends on the stream and it has been asked to receive. */
  predicate AskedToReceive(m: Media) {
    forall p :: p in m.streams && WantsReceive(m.streams[p].line) ==> Starting(m.streams[p].receiving)
  }

  predicate WaitsForInitial(m: Media) {
    forall p :: p in m.streams && m.streams[p].line.initial ==> m.streams[p].waiting
  }

  /** A locally accepted call that is not held: it is accepted exactly when every initial content is
      ready, and otherwise waits for every stream of one. */
  ghost predicate Awaiting(c: Call) {
    && WellFormed(c) && Fit(c) && c.holding.state == Unheld && c.acceptance.locally
    && AskedToReceive(c.media)
    && (c.media.accepted <==> Ready(c.media))
    && (!c.media.accepted ==> WaitsForInitial(c.media))
  }

  predicate StartsKept(m: Media, r: Media) {
    && r.streams.Keys == m.streams.Keys
    && (forall p :: p in m.streams ==>
          r.streams[p].line == m.streams[p].line && (m.streams[p].receiving == Started ==> r.streams[p].receiving == Started))
  }

  lemma StartsCompose(m: Media, d: Media, r: Media)
    requires StartsKept(m, d) && StartsKept(d, r)
    ensures StartsKept(m, r)
  {
  }

  /** What a running call's recursion does to streams that are to receive. */
  lemma RunningKeeps(env: Env, m: Media, r: Media)
    requires Running(env, m) && ReceivesWanted(m) && Frame(env, m, r)
    requires forall p :: p in m.streams ==> !m.streams[p].line.receivingFailure
    ensures StartsKept(m, r) && (AskedToReceive(m) ==> AskedToReceive(r))
  {
    forall p | p in m.streams
      ensures r.streams[p].line == m.streams[p].line
      ensures m.streams[p].receiving == Started ==> r.streams[p].receiving == Started
      ensures WantsReceive(m.streams[p].line) && Starting(m.streams[p].receiving) ==> Starting(r.streams[p].receiving)
    {
      assert StreamStep(env, m.streams[p], r.streams[p]);
    }
  }

  lemma ReadyKept(m: Media, r: Media)
    requires StartsKept(m, r) && Ready(m)
    ensures Ready(r)
  {
    forall p | p in r.streams
      ensures StreamReady(r.streams[p])
    {
      assert StreamReady(m.streams[p]);
    }
  }

  lemma FitRunning(c: Call)
    requires WellFormed(c) && Fit(c) && !IsHeld(c.holding.state) && c.acceptance.locally
    ensures Running(EnvOf(c), c.media) && ReceivesWanted(c.media)
    ensures forall p :: p in c.media.streams ==> !c.media.streams[p].line.receivingFailure
  {
    forall p | p in c.media.streams
      ensures StreamSound(c.media.streams[p])
    {
    }
  }

  // ---- the accept

  lemma AcceptAsks(c: Call)
    requires WellFormed(c) && Fit(c) && CanAccept(c) && c.holding.state == Unheld
    ensures AskedToReceive(DoAccept(c).media)
  {
    var m := DoAccept(c).media;
    AcceptSummary(c);
    forall p | p in m.streams && WantsReceive(m.streams[p].line)
      ensures Starting(m.streams[p].receiving)
    {
      assert SameLine(c.media.streams[p].line, m.streams[p].line);
      assert m.streams[p].line.remote == c.media.streams[p].line.remote;
      AcceptStarts(c, p);
    }
  }

  lemma AttemptReady(env: Env, m: Media)
    requires Running(env, m) && Covers(env, m) && ReceivesWanted(m) && !m.accepted
    requires forall p :: p in m.streams ==> !m.streams[p].line.receivingFailure
    ensures var r := AcceptMedia(env, m);
            && (r.accepted <==> Ready(m)) && (Ready(r) <==> Ready(m))
            && (!r.accepted ==> WaitsForInitial(r))
  {
    ReadyAll(env, m);
    UnheldAttempt(env, m);
    var r := TryAccept(env, m);
    if Ready(m) {
      RunningKeeps(env, m, r);
      ReadyKept(m, r);
    } else {
      QuietReady(m, r);
      WaitingReady(r);
    }
  }

  lemma WaitingReady(m: Media)
    ensures Ready(WaitForStreams(m)) == Ready(m)
  {
    var r := WaitForStreams(m);
    forall p | p in m.streams
      ensures StreamReady(r.streams[p]) == StreamReady(m.streams[p])
    {
    }
  }

  lemma AcceptBegins(c: Call)
    requires WellFormed(c) && Fit(c) && CanAccept(c) && c.holding.state == Unheld
    ensures Awaiting(DoAccept(c)) && DoAccept(c).media.streams.Keys == c.media.streams.Keys
  {
    AcceptFit(c);
    AcceptSummary(c);
    ShapeKeeps(c, DoAccept(c));
    AcceptAsks(c);
    AcceptStartsFresh(c);
    AcceptingRunning(c);
    AttemptReady(EnvOf(Accepting(c)), c.media);
  }

  lemma AcceptingRunning(c: Call)
    requires WellFormed(c) && Fit(c) && CanAccept(c) && c.holding.state == Unheld
    ensures var d := Accepting(c);
            d.media == c.media && Running(EnvOf(d), c.media) && Covers(EnvOf(d), c.media) && ReceivesWanted(c.media)
    ensures forall p :: p in c.media.streams ==> !c.media.streams[p].line.receivingFailure
  {
    forall p | p in c.media.streams
      ensures StreamSound(c.media.streams[p])
    {
    }
  }

  // ---- the reports

  /** On a call that is not held, reports have no further consequence. */
  lemma UnheldReport(c: Call, p: StreamId, t: Stream)
    requires ScannableCall(c) && p in c.media.streams && c.holding.state == Unheld
    ensures Report(c, p, t, true, true) == NotifyReceiving(PutCall(c, p, t), p)
  {
  }

  /** The media once the stream `p` receives. */
  function Receives(m: Media, p: StreamId): Media
    requires p in m.streams
  {
    Put(m, p, m.streams[p].(receiving := Started))
  }

  lemma ReceivesKeeps(m: Media, p: StreamId)
    requires p in m.streams && m.streams[p].receiving == PendingStart
    ensures StartsKept(m, Receives(m, p)) && (AskedToReceive(m) ==> AskedToReceive(Receives(m, p)))
    ensures !m.streams[p].line.initial ==> Ready(Receives(m, p)) == Ready(m)
  {
    var r := Receives(m, p);
    assert forall q :: q in m.streams && q != p ==> r.streams[q] == m.streams[q];
  }

  lemma ReceivesRunning(c: Call, p: StreamId)
    requires Awaiting(c) && p in c.media.streams && c.media.streams[p].receiving == PendingStart
    ensures var m := Receives(c.media, p);
            && Running(EnvOf(c), m) && ReceivesWanted(m)
            && (forall q :: q in m.streams ==> !m.streams[q].line.receivingFailure)
  {
    FitRunning(c);
  }

  /** The recursion that the report sets off keeps what is started. */
  lemma ReportKeepsStarts(c: Call, p: StreamId)
    requires Awaiting(c) && p in c.media.streams && c.media.streams[p].receiving == PendingStart
    ensures var m := Receives(c.media, p);
            var r := Notify(EnvOf(c), m, p);
            StartsKept(m, r) && AskedToReceive(r) && r.streams[p].receiving == Started
  {
    var m := Receives(c.media, p);
    ReceivesKeeps(c.media, p);
    ReceivesRunning(c, p);
    RunningKeeps(EnvOf(c), m, Notify(EnvOf(c), m, p));
  }

  /** And it accepts the call exactly if that makes every initial content ready. */
  lemma ReportAccepts(c: Call, p: StreamId)
    requires Awaiting(c) && p in c.media.streams && c.media.streams[p].receiving == PendingStart && !c.media.accepted
    ensures var r := Notify(EnvOf(c), Receives(c.media, p), p);
            (r.accepted <==> Ready(r)) && (!r.accepted ==> WaitsForInitial(r))
  {
    var m := Receives(c.media, p);
    var r := Notify(EnvOf(c), m, p);
    if c.media.streams[p].waiting {
      WaitingReportAccepts(c, p);
    } else {
      assert r == m;
      ReceivesKeeps(c.media, p);
    }
  }

  lemma WaitingReportAccepts(c: Call, p: StreamId)
    requires Awaiting(c) && p in c.media.streams && c.media.streams[p].receiving == PendingStart && !c.media.accepted
    requires c.media.streams[p].waiting
    ensures var r := Notify(EnvOf(c), Receives(c.media, p), p);
            (r.accepted <==> Ready(r)) && (!r.accepted ==> WaitsForInitial(r))
  {
    ReceivesPoised(c, p);
    ReportKeepsStarts(c, p);
    PoisedAccepts(EnvOf(c), Receives(c.media, p), p);
  }

  lemma ReceivesPoised(c: Call, p: StreamId)
    requires Awaiting(c) && p in c.media.streams && c.media.streams[p].waiting && !c.media.accepted
    ensures Poised(EnvOf(c), Receives(c.media, p), p) && WaitsForInitial(Receives(c.media, p))
  {
    var t := c.media.streams[p].(receiving := Started);
    assert StreamSound(c.media.streams[p]);
    PutPoised(c, p, t);
    PutWaits(c.media, p, t);
  }

  lemma PutWaits(m: Media, p: StreamId, t: Stream)
    requires WaitsForInitial(m) && t.waiting
    ensures WaitsForInitial(Put(m, p, t))
  {
  }

  lemma PoisedAccepts(env: Env, m: Media, p: StreamId)
    requires Poised(env, m, p) && !env.held && WaitsForInitial(m) && StartsKept(m, Notify(env, m, p))
    ensures var r := Notify(env, m, p);
            (r.accepted <==> Ready(r)) && (!r.accepted ==> WaitsForInitial(r))
  {
    var r := Notify(env, m, p);
    NotifyCount(env, m, p);
    if Ready(m) {
      ReadyKept(m, r);
    } else {
      QuietReady(m, r);
      QuietWaits(m, r);
    }
  }

  lemma QuietWaits(m: Media, r: Media)
    requires Quiet(m, r) && !m.accepted && WaitsForInitial(m)
    ensures WaitsForInitial(r)
  {
  }

  lemma AcceptedStaysReady(c: Call, p: StreamId)
    requires Awaiting(c) && p in c.media.streams && c.media.streams[p].receiving == PendingStart && c.media.accepted
    ensures var r := Notify(EnvOf(c), Receives(c.media, p), p); r.accepted && Ready(r)
  {
    var m := Receives(c.media, p);
    ReportKeepsStarts(c, p);
    ReceivesKeeps(c.media, p);
    ReadyKept(c.media, m);
    ReadyKept(m, Notify(EnvOf(c), m, p));
  }

  lemma StartReported(c: Call, p: StreamId)
    requires Awaiting(c) && p in c.media.streams && c.media.streams[p].receiving == PendingStart
    ensures DoCompleteReceiving(c, p, Started) == c.(media := Notify(EnvOf(c), Receives(c.media, p), p))
  {
    UnheldReport(c, p, c.media.streams[p].(receiving := Started));
  }

  lemma StartKeeps(c: Call, e: Event, p: StreamId)
    requires Awaiting(c) && IsStart(e, p)
    ensures Awaiting(Step(c, e)) && StartsKept(c.media, Step(c, e).media)
    ensures p in c.media.streams && Starting(c.media.streams[p].receiving) ==> Step(c, e).media.streams[p].receiving == Started
  {
    StepWellFormed(c, e);
    StepFit(c, e);
    if p in c.media.streams && c.media.streams[p].receiving == PendingStart {
      StepIsStart(c, e, p);
      StartReported(c, p);
      StartOutcome(c, p);
    } else if p in c.media.streams {
      StepIsStart(c, e, p);
    }
  }

  lemma StartOutcome(c: Call, p: StreamId)
    requires Awaiting(c) && p in c.media.streams && c.media.streams[p].receiving == PendingStart
    ensures var r := Notify(EnvOf(c), Receives(c.media, p), p);
            && AskedToReceive(r) && (r.accepted <==> Ready(r)) && (!r.accepted ==> WaitsForInitial(r))
            && StartsKept(c.media, r) && r.streams[p].receiving == Started
  {
    var m := Receives(c.media, p);
    ReceivesKeeps(c.media, p);
    ReportKeepsStarts(c, p);
    StartsCompose(c.media, m, Notify(EnvOf(c), m, p));
    if c.media.accepted {
      AcceptedStaysReady(c, p);
    } else {
      ReportAccepts(c, p);
    }
  }

  lemma StepIsStart(c: Call, e: Event, p: StreamId)
    requires ScannableCall(c) && p in c.media.streams && IsStart(e, p)
    ensures Step(c, e) == DoCompleteReceiving(c, p, Started)
    ensures c.media.streams[p].receiving != PendingStart ==> Step(c, e) == c
  {
  }

  // ---- runs

  predicate AllStarts(es: seq<Event>) {
    forall k :: 0 <= k < |es| ==> es[k].OnStream? && IsStart(es[k], es[k].p)
  }

  lemma StartsInRuns(c: Call, es: seq<Event>)
    requires Awaiting(c) && AllStarts(es)
    ensures Awaiting(Run(c, es)) && StartsKept(c.media, Run(c, es).media)
  {
    forall d, j | 0 <= j < |es| && Awaiting(d) && StartsKept(c.media, d.media)
      ensures Awaiting(Step(d, es[j])) && StartsKept(c.media, Step(d, es[j]).media)
    {
      StartKeeps(d, es[j], es[j].p);
      StartsCompose(c.media, d.media, Step(d, es[j]).media);
    }
    RunKeeps(c, es, 0, (d, _) => Awaiting(d) && StartsKept(c.media, d.media));
    assert es[0..] == es;
  }

  /** The stream `p`, which somebody sends on, receives by the time the report number `k` has come. */
  ghost predicate StartedBy(c: Call, k: nat, p: StreamId, j: nat) {
    && Awaiting(c) && p in c.media.streams && WantsReceive(c.media.streams[p].line)
    && (k < j ==> c.media.streams[p].receiving == Started)
  }

  lemma StartNext(c: Call, e: Event, k: nat, p: StreamId, j: nat)
    requires StartedBy(c, k, p, j) && e.OnStream? && IsStart(e, e.p) && (j == k ==> e.p == p)
    ensures StartedBy(Step(c, e), k, p, j + 1)
  {
    StartKeeps(c, e, e.p);
  }

  lemma StartedInRuns(c: Call, es: seq<Event>, k: nat, p: StreamId)
    requires StartedBy(c, k, p, 0) && AllStarts(es) && k < |es| && IsStart(es[k], p)
    ensures StartedBy(Run(c, es), k, p, |es|)
  {
    var inv := (d: Call, j: nat) => StartedBy(d, k, p, j);
    forall d, j: nat | j < |es| && WellFormed(d) && inv(d, j)
      ensures inv(Step(d, es[j]), j + 1)
    {
      StartNext(d, es[j], k, p, j);
    }
    RunKeeps(c, es, 0, inv);
    assert es[0..] == es;
  }

  /** Every stream of an initial content that somebody sends on is reported to receive. */
  predicate ReportsInitial(m: Media, es: seq<Event>) {
    forall p :: p in m.streams && m.streams[p].line.initial && WantsReceive(m.streams[p].line) ==>
      OnStream(p, CompleteReceiving(Started)) in es
  }

  lemma ReportedReady(c: Call, es: seq<Event>)
    requires Awaiting(c) && AllStarts(es) && ReportsInitial(c.media, es)
    ensures Ready(Run(c, es).media)
  {
    var r := Run(c, es);
    StartsInRuns(c, es);
    forall p | p in r.media.streams && r.media.streams[p].line.initial && WantsReceive(r.media.streams[p].line)
      ensures r.media.streams[p].receiving == Started
    {
      assert r.media.streams[p].line == c.media.streams[p].line;
      var k :| 0 <= k < |es| && es[k] == OnStream(p, CompleteReceiving(Started));
      StartedInRuns(c, es, k, p);
    }
  }

  /** After a successful Accept on a call that is not held, whatever reports that streams receive come in
      whatever order: the media channel has accepted exactly when every initial content is ready, and it
      has once every initial stream somebody sends on was reported. */
  lemma AcceptCompletes(c: Call, es: seq<Event>)
    requires WellFormed(c) && Fit(c) && CanAccept(c) && c.holding.state == Unheld && AllStarts(es)
    ensures var d := DoAccept(c);
            && WellFormed(d)
            && (Run(d, es).media.accepted <==> Ready(Run(d, es).media))
            && (ReportsInitial(d.media, es) ==> Run(d, es).media.accepted)
  {
    var d := DoAccept(c);
    AcceptBegins(c);
    StartsInRuns(d, es);
    if ReportsInitial(d.media, es) {
      ReportedReady(d, es);
    }
  }
}
