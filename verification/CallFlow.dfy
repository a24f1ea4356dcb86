/** The media flow of a call and the deferred accept.

    Changing a stream's receiving state emits notify::receiving-state; while an accept is deferred
    that notification runs streams_changed_cb, which tries to accept the call, which scans every
    stream, which may change the receiving state of another stream, and so on. The functions below
    follow that mutual recursion. GObject declares "notify" as G_SIGNAL_NO_RECURSE: a notification
    of a stream that is already emitting restarts the running emission instead of nesting.
 */
module CallFlow {
  import opened CallTypes

  /** What the recursion reads of the channel and never changes. */
  datatype Env = Env(
    requested: bool,
    locallyAccepted: bool,
    accepted: bool,
    held: bool,
    order: seq<StreamId>)

  /** The flow state after asking for a start or a stop; asking for what is already reached is
      ignored. */
  function Flow(now: FlowState, start: bool): FlowState {
    if start then (if now == Started then Started else PendingStart)
    else (if now == Stopped then Stopped else PendingStop)
  }

  predicate ReceiveStart(env: Env, l: Line) {
    env.locallyAccepted && !l.receivingFailure && !env.held && WantsReceive(l)
  }

  predicate SendStart(env: Env, s: Stream) {
    !env.held && env.accepted && !s.line.remotelyHeld && !s.line.sendingFailure && s.localSending
  }

  function UpdatedSending(env: Env, s: Stream): Stream {
    s.(sending := Flow(s.sending, SendStart(env, s)))
  }

  function WithLocalSending(env: Env, s: Stream, wish: bool): Stream {
    if s.localSending == wish then s else UpdatedSending(env, s.(localSending := wish))
  }

  /** The sending state a request for `wish` leads to: an incoming call that is not accepted yet
      keeps SENDING pending. */
  function GateLocal(env: Env, wish: SendingState): SendingState {
    if wish == Sending && !env.accepted && !env.requested then PendingSend else wish
  }

  function AcceptedStream(env: Env, s: Stream): Stream {
    if s.line.initial && s.local == PendingSend then s.(local := GateLocal(env, Sending)) else s
  }

  /** The base class's accept: release what was pending on the initial contents. */
  function BaseAccept(env: Env, m: Media): Media {
    m.(streams := map p | p in m.streams :: AcceptedStream(env, m.streams[p]),
       accepted := true,
       accepts := m.accepts + 1)
  }

  function Put(m: Media, p: StreamId, s: Stream): Media {
    m.(streams := m.streams[p := s])
  }

  // ---- what the recursion leaves alone, and its measure

  /** How one stream may come out of the recursion. The receiving state stays or becomes what the
      channel asks for. The sending state of a held call stays or is asked to stop, and one that is
      wanted stays or is asked to start; neither end state is newly reached, since only the streaming
      implementation reports that. The local sending state moves only from pending to sending, on an
      initial content; the wish to send arises only there, on an incoming call. */
  predicate StreamStep(env: Env, s: Stream, t: Stream) {
    && t.line == s.line
    && (t.waiting ==> s.waiting)
    && (s.localSending ==> t.localSending)
    && (t.localSending != s.localSending ==> s.line.initial && s.local == PendingSend && !env.requested)
    && (t.local != s.local ==>
          s.line.initial && s.local == PendingSend && t.local == Sending && (env.accepted || env.requested))
    && (t.receiving == s.receiving || t.receiving == ReceiveGoal(env, s))
    && (env.held ==> t.sending == s.sending || t.sending == Flow(s.sending, false))
    && (SendStart(env, s) ==> t.sending == s.sending || t.sending == Flow(s.sending, true))
    && (t.sending == Started || t.sending == Stopped ==> t.sending == s.sending)
  }

  predicate Drained(m: Media) {
    forall p :: p in m.streams && m.streams[p].line.initial ==> m.streams[p].local != PendingSend
  }

  predicate SameLocals(m: Media, r: Media) {
    forall p :: p in m.streams && p in r.streams ==> r.streams[p].local == m.streams[p].local
  }

  /** Only the streams and the accept bookkeeping differ; the call is accepted at most for good,
      the base class ran when and only when that happened, and it left nothing pending. */
  predicate Frame(env: Env, m: Media, r: Media) {
    && r.emitting == m.emitting
    && r.streams.Keys == m.streams.Keys
    && (forall p :: p in m.streams ==> StreamStep(env, m.streams[p], r.streams[p]))
    && (m.accepted ==> r.accepted)
    && (m.accepted == r.accepted ==> r.accepts == m.accepts && SameLocals(m, r))
    && (m.accepted != r.accepted ==> r.accepts > m.accepts)
    && (m.accepted != r.accepted && (env.accepted || env.requested) ==> Drained(r))
  }

  function ReceiveGoal(env: Env, s: Stream): FlowState {
    Flow(s.receiving, ReceiveStart(env, s.line))
  }

  /** The streams whose receiving state is not what the channel asks for. */
  function Unsettled(env: Env, m: Media): set<StreamId> {
    set p | p in m.streams && ReceiveGoal(env, m.streams[p]) != m.streams[p].receiving
  }

  /** How far a call of the recursion may have got: unsettled streams only settle, and an emission
      is only restarted for a stream that settled meanwhile. */
  predicate Progress(env: Env, m: Media, r: Media) {
    && Frame(env, m, r)
    && Unsettled(env, r) <= Unsettled(env, m)
    && r.restart <= m.restart + (Unsettled(env, m) - Unsettled(env, r))
  }

  lemma StreamStepCompose(env: Env, s: Stream, t: Stream, u: Stream)
    requires StreamStep(env, s, t) && StreamStep(env, t, u)
    ensures StreamStep(env, s, u)
  {
  }

  lemma ProgressCompose(env: Env, m: Media, d: Media, r: Media)
    requires Progress(env, m, d) && Progress(env, d, r)
    ensures Progress(env, m, r)
  {
    forall p | p in m.streams
      ensures StreamStep(env, m.streams[p], r.streams[p])
      ensures d.streams[p].local != PendingSend ==> r.streams[p].local != PendingSend
    {
      StreamStepCompose(env, m.streams[p], d.streams[p], r.streams[p]);
    }
  }

  lemma AcceptedStep(env: Env, s: Stream, t: Stream)
    requires StreamStep(env, s, t)
    ensures StreamStep(env, s, AcceptedStream(env, t))
    ensures env.accepted || env.requested ==> t.line.initial ==> AcceptedStream(env, t).local != PendingSend
  {
    StreamStepCompose(env, s, t, AcceptedStream(env, t));
  }

  lemma BaseAcceptUnsettled(env: Env, d: Media)
    ensures Unsettled(env, BaseAccept(env, d)) == Unsettled(env, d)
  {
    forall p | p in d.streams
      ensures p in Unsettled(env, BaseAccept(env, d)) <==> p in Unsettled(env, d)
    {
      assert AcceptedStream(env, d.streams[p]).receiving == d.streams[p].receiving;
    }
  }

  /** The base class's accept at the end of a scan from `m` to `d`. */
  lemma BaseAcceptProgress(env: Env, m: Media, d: Media)
    requires Progress(env, m, d) && !m.accepted
    ensures Progress(env, m, BaseAccept(env, d))
  {
    var r := BaseAccept(env, d);
    assert r.streams.Keys == m.streams.Keys;
    forall p | p in m.streams
      ensures StreamStep(env, m.streams[p], r.streams[p])
      ensures (env.accepted || env.requested) && r.streams[p].line.initial ==> r.streams[p].local != PendingSend
    {
      AcceptedStep(env, m.streams[p], d.streams[p]);
    }
    BaseAcceptUnsettled(env, d);
  }

  /** Changing a stream's record without touching its receiving state. */
  lemma PutProgress(env: Env, m: Media, p: StreamId, t: Stream)
    requires p in m.streams && StreamStep(env, m.streams[p], t)
    requires t.receiving == m.streams[p].receiving && t.local == m.streams[p].local
    ensures Progress(env, m, Put(m, p, t))
    ensures Unsettled(env, Put(m, p, t)) == Unsettled(env, m)
  {
  }

  /** Moving a stream's receiving state to what the channel asks for settles that stream. */
  lemma Settles(env: Env, m: Media, p: StreamId)
    requires p in Unsettled(env, m)
    ensures var s := m.streams[p];
            Unsettled(env, Put(m, p, s.(receiving := ReceiveGoal(env, s)))) == Unsettled(env, m) - {p}
  {
  }

  lemma NotifiedProgress(env: Env, m: Media, p: StreamId, r: Media)
    requires p in Unsettled(env, m)
    requires var s := m.streams[p];
             var d := Put(m, p, s.(receiving := ReceiveGoal(env, s)));
             && Frame(env, d, r) && Unsettled(env, r) <= Unsettled(env, d)
             && r.restart <= d.restart + (Unsettled(env, d) - Unsettled(env, r)) + {p}
    ensures Progress(env, m, r)
  {
    Settles(env, m, p);
  }

  lemma RestartProgress(env: Env, m: Media, p: StreamId, e: Media)
    requires Progress(env, m.(restart := m.restart - {p}), e)
    ensures Progress(env, m, e) && Progress(env, m, e.(restart := e.restart - {p}))
    ensures p in e.restart ==> Unsettled(env, e) < Unsettled(env, m)
  {
    assert Unsettled(env, m.(restart := m.restart - {p})) == Unsettled(env, m);
    assert Unsettled(env, e.(restart := e.restart - {p})) == Unsettled(env, e);
    if p in e.restart {
      assert p in Unsettled(env, m) && p !in Unsettled(env, e);
    }
  }

  predicate Scannable(env: Env, m: Media) {
    forall p :: p in env.order ==> p in m.streams
  }

  // ---- the recursion

  function UpdateReceiving(env: Env, m: Media, p: StreamId): (r: Media)
    requires p in m.streams && Scannable(env, m)
    ensures Progress(env, m, r)
    ensures r.accepted != m.accepted ==> m.streams[p].waiting
    decreases Unsettled(env, m), 0
  {
    var s := m.streams[p];
    var f := ReceiveGoal(env, s);
    if f == s.receiving then m
    else
      var d := Put(m, p, s.(receiving := f));
      Settles(env, m, p);
      var r := Notify(env, d, p);
      NotifiedProgress(env, m, p, r);
      r
  }

  function Notify(env: Env, m: Media, p: StreamId): (r: Media)
    requires p in m.streams && Scannable(env, m)
    ensures Frame(env, m, r) && Unsettled(env, r) <= Unsettled(env, m)
    ensures r.restart <= m.restart + (Unsettled(env, m) - Unsettled(env, r)) + {p}
    ensures r.accepted != m.accepted ==> m.streams[p].waiting
    decreases Unsettled(env, m), 6
  {
    if !m.streams[p].waiting then m
    else if p in m.emitting then m.(restart := m.restart + {p})
    else
      var e := EmissionPass(env, m.(emitting := m.emitting + {p}), p);
      e.(emitting := m.emitting)
  }

  /** One pass over the handlers connected to the stream's notification, repeated as long as the
      emission was asked to restart. */
  function EmissionPass(env: Env, m: Media, p: StreamId): (r: Media)
    requires p in m.streams && Scannable(env, m)
    ensures Progress(env, m, r)
    decreases Unsettled(env, m), 5
  {
    var d := m.(restart := m.restart - {p});
    var e := HandlerPass(env, d, p);
    RestartProgress(env, m, p, e);
    if p in e.restart && e.streams[p].waiting then
      var r := EmissionPass(env, e, p);
      ProgressCompose(env, m, e, r);
      r
    else
      e.(restart := e.restart - {p})
  }

  /** streams_changed_cb */
  function HandlerPass(env: Env, m: Media, p: StreamId): (r: Media)
    requires p in m.streams && Scannable(env, m)
    ensures Progress(env, m, r)
    decreases Unsettled(env, m), 4, 1
  {
    var e := TryAccept(env, m);
    if e.accepted then
      PutProgress(env, e, p, e.streams[p].(waiting := false));
      ProgressCompose(env, m, e, Put(e, p, e.streams[p].(waiting := false)));
      Put(e, p, e.streams[p].(waiting := false))
    else e
  }

  function TryAccept(env: Env, m: Media): (r: Media)
    requires Scannable(env, m)
    ensures Progress(env, m, r)
    decreases Unsettled(env, m), 4, 0
  {
    if m.accepted then m
    else
      var (d, ready) := Scan(env, m, env.order);
      if !ready && !env.held then d
      else
        BaseAcceptProgress(env, m, d);
        BaseAccept(env, d)
  }

  /** _tp_base_media_call_content_ready_to_accept over the streams `ps`. */
  function Scan(env: Env, m: Media, ps: seq<StreamId>): (r: (Media, bool))
    requires Scannable(env, m) && forall p :: p in ps ==> p in m.streams
    ensures Progress(env, m, r.0)
    decreases Unsettled(env, m), 3, |ps|
  {
    if ps == [] then (m, true)
    else
      var (d, ready) := ScanStream(env, m, ps[0]);
      assert Unsettled(env, d) == Unsettled(env, m) || Unsettled(env, d) < Unsettled(env, m);
      var (e, others) := Scan(env, d, ps[1..]);
      ProgressCompose(env, m, d, e);
      (e, ready && others)
  }

  /** What scanning a stream does before it looks at the remote members. */
  function Proposed(env: Env, s: Stream): Stream {
    var t := if s.line.initial && !env.requested && s.local == PendingSend
             then WithLocalSending(env, s, true) else s;
    UpdatedSending(env, t)
  }

  function ScanStream(env: Env, m: Media, p: StreamId): (r: (Media, bool))
    requires p in m.streams && Scannable(env, m)
    ensures Progress(env, m, r.0)
    decreases Unsettled(env, m), 2
  {
    var s := m.streams[p];
    var e := Put(m, p, Proposed(env, s));
    PutProgress(env, m, p, Proposed(env, s));
    if WantsReceive(s.line) then
      var r := UpdateReceiving(env, e, p);
      ProgressCompose(env, m, e, r);
      (r, !s.line.initial || s.receiving == Started)
    else (e, true)
  }
}
