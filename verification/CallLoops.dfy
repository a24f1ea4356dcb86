/** Going over all streams of a call: what the loops of the program compute, turn by turn, and how the
    functions of the flow recursion and of the hold machine unfold along them.
 */
module CallLoops {
  import opened CallTypes
  import opened CallFlow
  import opened CallAccept
  import opened CallHold
  import opened CallEngine
  import opened CallSafety

  // ---- the loops of the hold machine

  /** What a scan of the hold machine reaches before each of its turns and at its end, with the
      verdicts so far. */
  ghost predicate HoldTrail(env: Env, ps: seq<StreamId>, trail: seq<(Media, bool, bool)>) {
    && |trail| == |ps| + 1
    && (forall i {:trigger HoldTurnOf(env, ps, trail, i)} :: 0 <= i < |ps| ==> HoldTurnOf(env, ps, trail, i))
  }

  ghost predicate HoldTurnOf(env: Env, ps: seq<StreamId>, trail: seq<(Media, bool, bool)>, i: nat)
    requires i < |ps| && |trail| == |ps| + 1
  {
    HoldTurn(env, trail[i], ps[i], trail[i + 1])
  }

  ghost predicate HoldTurn(env: Env, before: (Media, bool, bool), p: StreamId, after: (Media, bool, bool)) {
    p in before.0.streams && Scannable(env, before.0) && after == Turned(env, before, p)
  }

  ghost function Turned(env: Env, before: (Media, bool, bool), p: StreamId): (Media, bool, bool)
    requires p in before.0.streams && Scannable(env, before.0)
  {
    var s := before.0.streams[p];
    var d := Refresh(env, before.0, p);
    (d, before.1 && StreamStopped(d.streams[p]), before.2 && StreamStarted(s.local, s.line, d.streams[p]))
  }

  lemma {:induction false} MakeHoldTrail(env: Env, first: (Media, bool, bool), ps: seq<StreamId>)
    returns (trail: seq<(Media, bool, bool)>)
    requires Scannable(env, first.0) && Within(ps, first.0)
    ensures HoldTrail(env, ps, trail) && trail[0] == first
    decreases |ps|
  {
    if ps == [] {
      trail := [first];
    } else {
      var s := first.0.streams[ps[0]];
      var d := Refresh(env, first.0, ps[0]);
      var t := d.streams[ps[0]];
      var next := (d, first.1 && StreamStopped(t), first.2 && StreamStarted(s.local, s.line, t));
      var rest := MakeHoldTrail(env, next, ps[1..]);
      trail := [first] + rest;
      HoldTrailGrows(env, first, ps, rest);
    }
  }

  lemma HoldTrailGrows(env: Env, first: (Media, bool, bool), ps: seq<StreamId>, rest: seq<(Media, bool, bool)>)
    requires ps != [] && HoldTrail(env, ps[1..], rest) && HoldTurn(env, first, ps[0], rest[0])
    ensures HoldTrail(env, ps, [first] + rest)
  {
    var trail := [first] + rest;
    forall i: nat | i < |ps|
      ensures HoldTurnOf(env, ps, trail, i)
    {
      if i > 0 {
        assert trail[i] == rest[i - 1] && trail[i + 1] == rest[i] && ps[i] == ps[1..][i - 1];
        assert HoldTurnOf(env, ps[1..], rest, i - 1);
      }
    }
  }

  lemma HoldStep(env: Env, m: Media, ps: seq<StreamId>)
    requires Scannable(env, m) && Within(ps, m) && ps != []
    ensures var s := m.streams[ps[0]];
            var d := Refresh(env, m, ps[0]);
            var (e, stopped, started) := HoldScan(env, d, ps[1..]);
            HoldScan(env, m, ps) == (e, StreamStopped(d.streams[ps[0]]) && stopped,
                                     StreamStarted(s.local, s.line, d.streams[ps[0]]) && started)
  {
  }

  lemma {:induction false} HoldTrailEnds(env: Env, ps: seq<StreamId>, trail: seq<(Media, bool, bool)>)
    requires HoldTrail(env, ps, trail) && Scannable(env, trail[0].0) && Within(ps, trail[0].0)
    ensures var (e, stopped, started) := HoldScan(env, trail[0].0, ps);
            trail[|ps|] == (e, trail[0].1 && stopped, trail[0].2 && started)
    decreases |ps|
  {
    if ps != [] {
      HoldStep(env, trail[0].0, ps);
      assert HoldTurnOf(env, ps, trail, 0);
      HoldTrailShrinks(env, ps, trail);
      HoldTrailEnds(env, ps[1..], trail[1..]);
    }
  }

  lemma HoldTrailShrinks(env: Env, ps: seq<StreamId>, trail: seq<(Media, bool, bool)>)
    requires HoldTrail(env, ps, trail) && ps != []
    ensures HoldTrail(env, ps[1..], trail[1..])
  {
    var qs, tail := ps[1..], trail[1..];
    forall i: nat | i < |qs|
      ensures HoldTurnOf(env, qs, tail, i)
    {
      assert HoldTurnOf(env, ps, trail, i + 1);
    }
  }

  /** A stream that is not part of a call yet. */
  ghost predicate Unattached(s: Stream, initial: bool, history: seq<MembersChanged<SendingState>>) {
    s == Stream(Line(initial, Replay(history), history, false, false, false, s.line.endpoints),
                s.local, Stopped, Stopped, s.localSending, false)
  }

  // ---- replies and acceptance

  /** How a D-Bus method call is answered. */
  datatype Reply = Done | InvalidArgument | NotAvailable | NotCapable

  // ---- edits of every stream

  /** What is done to every stream of a call: releasing what the accept was waiting for, waiting for
      a stream, taking up sending once the other side accepted, and comparing with the members that
      hold the call. */
  datatype Edit = Release | Await | TakeUp | CheckHold(members: map<Handle, MemberFlags>)

  ghost function Apply(edit: Edit, env: Env, s: Stream): Stream {
    match edit
    case Release => AcceptedStream(env, s)
    case Await => s.(waiting := s.waiting || s.line.initial)
    case TakeUp => RemoteAccepted(env, s)
    case CheckHold(members) => RemoteHoldStream(env, members, s)
  }

  /** The media once the streams `ps` are done. */
  ghost function Applied(edit: Edit, env: Env, m: Media, ps: seq<StreamId>): Media {
    m.(streams := map p | p in m.streams :: if p in ps then Apply(edit, env, m.streams[p]) else m.streams[p])
  }

  ghost function AppliedAll(edit: Edit, env: Env, streams: map<StreamId, Stream>): map<StreamId, Stream> {
    map p | p in streams :: Apply(edit, env, streams[p])
  }

  lemma ApplyTwice(edit: Edit, env: Env, s: Stream)
    ensures Apply(edit, env, Apply(edit, env, s)) == Apply(edit, env, s)
  {
  }

  lemma AppliedNone(edit: Edit, env: Env, m: Media, cs: seq<Content>)
    ensures Applied(edit, env, m, Order(cs[..0])) == m
  {
    assert Order(cs[..0]) == [];
    assert Applied(edit, env, m, []).streams == m.streams;
  }

  lemma AppliedNext(edit: Edit, env: Env, m: Media, ps: seq<StreamId>, p: StreamId)
    requires p in m.streams
    ensures var d := Applied(edit, env, m, ps);
            Put(d, p, Apply(edit, env, d.streams[p])) == Applied(edit, env, m, ps + [p])
  {
    ApplyTwice(edit, env, m.streams[p]);
    var d := Applied(edit, env, m, ps);
    assert Put(d, p, Apply(edit, env, d.streams[p])).streams == Applied(edit, env, m, ps + [p]).streams;
  }

  lemma AppliedNextAt(edit: Edit, env: Env, m: Media, done: seq<StreamId>, ps: seq<StreamId>, k: nat)
    requires k < |ps| && ps[k] in m.streams
    ensures var d := Applied(edit, env, m, done + ps[..k]);
            Put(d, ps[k], Apply(edit, env, d.streams[ps[k]])) == Applied(edit, env, m, done + ps[..k + 1])
  {
    assert done + ps[..k + 1] == (done + ps[..k]) + [ps[k]];
    AppliedNext(edit, env, m, done + ps[..k], ps[k]);
  }

  lemma AppliedEvery(edit: Edit, c: Call, m: Media)
    requires forall p :: p in m.streams ==> p in Order(c.contents)
    ensures Applied(edit, EnvOf(c), m, Order(c.contents[..|c.contents|])) == m.(streams := AppliedAll(edit, EnvOf(c), m.streams))
  {
    assert c.contents[..|c.contents|] == c.contents;
    assert Applied(edit, EnvOf(c), m, Order(c.contents)).streams == AppliedAll(edit, EnvOf(c), m.streams);
  }

  lemma AwaitsInitial(env: Env, m: Media)
    ensures WaitForStreams(m) == m.(streams := AppliedAll(Await, env, m.streams))
  {
    assert WaitForStreams(m).streams == AppliedAll(Await, env, m.streams);
  }

  lemma TakesUp(c: Call)
    requires CanRemoteAccept(c)
    ensures var d := RemoteAccepting(c);
            DoRemoteAccept(c) == d.(media := d.media.(streams := AppliedAll(TakeUp, EnvOf(d), d.media.streams)))
  {
    var d := RemoteAccepting(c);
    assert DoRemoteAccept(c).media.streams == AppliedAll(TakeUp, EnvOf(d), d.media.streams);
  }

  lemma ChecksHold(c: Call)
    ensures CheckRemoteHold(c)
            == c.(media := c.media.(streams := AppliedAll(CheckHold(c.roster.members), EnvOf(c), c.media.streams)))
  {
    assert CheckRemoteHold(c).media.streams == AppliedAll(CheckHold(c.roster.members), EnvOf(c), c.media.streams);
  }

  lemma BaseAcceptReleases(env: Env, m: Media)
    ensures BaseAccept(env, m) == m.(streams := AppliedAll(Release, env, m.streams), accepted := true, accepts := m.accepts + 1)
  {
    assert BaseAccept(env, m).streams == AppliedAll(Release, env, m.streams);
  }

  // ---- scanning streams one after the other

  ghost predicate Within(ps: seq<StreamId>, m: Media) {
    forall p :: p in ps ==> p in m.streams
  }

  lemma OrderNext(cs: seq<Content>, k: nat)
    requires k < |cs|
    ensures Order(cs[..k + 1]) == Order(cs[..k]) + cs[k].streams
  {
    assert cs[..k + 1] == cs[..k] + [cs[k]];
    OrderSnoc(cs[..k], cs[k]);
  }

  /** How many streams come before those of the k-th content. */
  ghost function Before(c: Call, k: nat): nat
    requires k <= |c.contents|
  {
    |Order(c.contents[..k])|
  }

  lemma BeforeEnds(c: Call)
    ensures Before(c, 0) == 0 && Before(c, |c.contents|) == |Order(c.contents)|
  {
    assert c.contents[..0] == [] && c.contents[..|c.contents|] == c.contents;
  }

  lemma {:induction false} OrderPrefix(cs: seq<Content>, k: nat)
    requires k <= |cs|
    ensures Order(cs[..k]) <= Order(cs)
    decreases |cs| - k
  {
    if k == |cs| {
      assert cs[..k] == cs;
    } else {
      OrderNext(cs, k);
      OrderPrefix(cs, k + 1);
    }
  }

  lemma OrderAt(c: Call, k: nat)
    requires k < |c.contents|
    ensures Before(c, k + 1) == Before(c, k) + |c.contents[k].streams| <= |Order(c.contents)|
    ensures forall j :: 0 <= j < |c.contents[k].streams| ==>
              c.contents[k].streams[j] == Order(c.contents)[Before(c, k) + j]
  {
    OrderNext(c.contents, k);
    OrderPrefix(c.contents, k + 1);
  }

  /** What a scan of the streams `ps` from `m` on reaches before each of its turns and at its end. */
  ghost predicate ScanTrail(env: Env, m: Media, ps: seq<StreamId>, trail: seq<(Media, bool)>) {
    && ScanLinks(env, ps, trail) && trail[0].0 == m
    && (forall i {:trigger NoMoreUnsettled(env, m, trail[i].0)} :: 0 <= i < |trail| ==> NoMoreUnsettled(env, m, trail[i].0))
  }

  ghost predicate ScanTurnOf(env: Env, ps: seq<StreamId>, trail: seq<(Media, bool)>, i: nat)
    requires i < |ps| && |trail| == |ps| + 1
  {
    ScanTurn(env, trail[i], ps[i], trail[i + 1])
  }

  ghost predicate NoMoreUnsettled(env: Env, m: Media, d: Media) {
    Unsettled(env, d) <= Unsettled(env, m)
  }

  ghost predicate ScanLinks(env: Env, ps: seq<StreamId>, trail: seq<(Media, bool)>) {
    && |trail| == |ps| + 1
    && (forall i {:trigger ScanTurnOf(env, ps, trail, i)} :: 0 <= i < |ps| ==> ScanTurnOf(env, ps, trail, i))
  }

  ghost predicate ScanTurn(env: Env, before: (Media, bool), p: StreamId, after: (Media, bool)) {
    && p in before.0.streams && Scannable(env, before.0)
    && after.0 == ScanStream(env, before.0, p).0 && after.1 == (before.1 && ScanStream(env, before.0, p).1)
  }

  lemma ScanTurnAt(env: Env, m: Media, ps: seq<StreamId>, trail: seq<(Media, bool)>, i: nat)
    requires ScanTrail(env, m, ps, trail) && i < |ps|
    ensures ScanTurn(env, trail[i], ps[i], trail[i + 1]) && Unsettled(env, trail[i].0) <= Unsettled(env, m)
  {
    assert ScanTurnOf(env, ps, trail, i);
    assert NoMoreUnsettled(env, m, trail[i].0);
  }

  lemma {:induction false} MakeScanTrail(env: Env, m: Media, ready: bool, ps: seq<StreamId>) returns (trail: seq<(Media, bool)>)
    requires Scannable(env, m) && Within(ps, m)
    ensures ScanTrail(env, m, ps, trail) && trail[0].1 == ready
    decreases |ps|
  {
    if ps == [] {
      trail := [(m, ready)];
    } else {
      var (d, one) := ScanStream(env, m, ps[0]);
      var rest := MakeScanTrail(env, d, ready && one, ps[1..]);
      trail := [(m, ready)] + rest;
      ScanTrailGrows(env, m, ready, ps, rest);
    }
  }

  lemma ScanTrailGrows(env: Env, m: Media, ready: bool, ps: seq<StreamId>, rest: seq<(Media, bool)>)
    requires Scannable(env, m) && Within(ps, m) && ps != []
    requires var (d, one) := ScanStream(env, m, ps[0]); ScanTrail(env, d, ps[1..], rest) && rest[0].1 == (ready && one)
    ensures ScanTrail(env, m, ps, [(m, ready)] + rest)
  {
    var trail := [(m, ready)] + rest;
    var d := ScanStream(env, m, ps[0]).0;
    forall i: nat | i < |ps|
      ensures ScanTurnOf(env, ps, trail, i)
    {
      if i > 0 {
        assert trail[i] == rest[i - 1] && trail[i + 1] == rest[i] && ps[i] == ps[1..][i - 1];
        assert ScanTurnOf(env, ps[1..], rest, i - 1);
      }
    }
    forall i: nat | i < |trail|
      ensures NoMoreUnsettled(env, m, trail[i].0)
    {
      if i > 0 {
        assert NoMoreUnsettled(env, d, rest[i - 1].0);
      }
    }
  }

  lemma ScanStep(env: Env, m: Media, ps: seq<StreamId>)
    requires Scannable(env, m) && Within(ps, m) && ps != []
    ensures var (d, one) := ScanStream(env, m, ps[0]);
            var (e, others) := Scan(env, d, ps[1..]);
            Scan(env, m, ps) == (e, one && others)
  {
  }

  lemma {:induction false} ScanTrailEnds(env: Env, ps: seq<StreamId>, trail: seq<(Media, bool)>)
    requires ScanLinks(env, ps, trail) && Scannable(env, trail[0].0) && Within(ps, trail[0].0)
    ensures var (e, all) := Scan(env, trail[0].0, ps);
            trail[|ps|].0 == e && trail[|ps|].1 == (trail[0].1 && all)
    decreases |ps|
  {
    if ps != [] {
      ScanStep(env, trail[0].0, ps);
      assert ScanTurnOf(env, ps, trail, 0);
      ScanLinksShrink(env, ps, trail);
      ScanTrailEnds(env, ps[1..], trail[1..]);
    }
  }

  lemma ScanLinksShrink(env: Env, ps: seq<StreamId>, trail: seq<(Media, bool)>)
    requires ScanLinks(env, ps, trail) && ps != []
    ensures ScanLinks(env, ps[1..], trail[1..])
  {
    var qs, tail := ps[1..], trail[1..];
    forall i: nat | i < |qs|
      ensures ScanTurnOf(env, qs, tail, i)
    {
      assert ScanTurnOf(env, ps, trail, i + 1);
    }
  }

  /** `r` is the call `c` once the stream stands in front of the k-th content's list and has learnt
      of its channel. */
  ghost predicate Attaches(c: Call, k: nat, p: StreamId, s: Stream, r: Call) {
    && k < |c.contents|
    && r == c.(contents := c.contents[k := Content(c.contents[k].initial, [p] + c.contents[k].streams)],
               media := c.media.(streams := c.media.streams[
                 p := UpdatedSending(EnvOf(c), s.(receiving := ReceiveGoal(EnvOf(c), s)))]))
    && (forall q :: q in Order(r.contents) <==> q in r.media.streams)
  }

  lemma StreamAdded(c: Call, k: nat, p: StreamId, s: Stream, history: seq<MembersChanged<SendingState>>)
    requires WellFormed(c) && k < |c.contents| && p !in c.media.streams && Unattached(s, c.contents[k].initial, history)
    ensures Attaches(c, k, p, s, TreeStep(c, TreeOp.AddStream(k, p, s.local, history, s.localSending, s.line.endpoints)))
  {
    TreeKeeps(c, TreeOp.AddStream(k, p, s.local, history, s.localSending, s.line.endpoints));
  }

  // ---- unfolding the flow recursion

  lemma AttemptUnfolds(c: Call, m: Media)
    requires Scannable(EnvOf(c), m) && !m.accepted
    ensures var (d, ready) := Scan(EnvOf(c), m, Order(c.contents));
            CallFlow.TryAccept(EnvOf(c), m) == if !ready && !IsHeld(c.holding.state) then d else BaseAccept(EnvOf(c), d)
  {
  }

  lemma ProposedUnfolds(env: Env, m: Media, p: StreamId)
    requires p in m.streams && Scannable(env, m)
    ensures var e := Put(m, p, Proposed(env, m.streams[p]));
            && Unsettled(env, e) == Unsettled(env, m) && e.streams[p].line == m.streams[p].line
            && ScanStream(env, m, p) == (if WantsReceive(m.streams[p].line) then CallFlow.UpdateReceiving(env, e, p) else e,
                                         !(WantsReceive(m.streams[p].line) && m.streams[p].receiving != Started && m.streams[p].line.initial))
  {
    PutProgress(env, m, p, Proposed(env, m.streams[p]));
  }

  /** The media once the stream `p` is asked to receive or to stop. */
  ghost function Moved(env: Env, m: Media, p: StreamId): Media
    requires p in m.streams
  {
    Put(m, p, m.streams[p].(receiving := ReceiveGoal(env, m.streams[p])))
  }

  lemma UpdateUnfolds(env: Env, m: Media, p: StreamId)
    requires p in m.streams && Scannable(env, m)
    ensures CallFlow.UpdateReceiving(env, m, p)
            == if p in Unsettled(env, m) then CallFlow.Notify(env, Moved(env, m, p), p) else m
    ensures p in Unsettled(env, m) ==> Unsettled(env, Moved(env, m, p)) < Unsettled(env, m)
  {
    if p in Unsettled(env, m) {
      Settles(env, m, p);
    }
  }

  ghost function Received(env: Env, m: Media, p: StreamId, found: bool): Media
    requires p in m.streams && Scannable(env, m)
  {
    if found then CallFlow.UpdateReceiving(env, m, p) else m
  }

  lemma UpdateTwice(env: Env, m: Media, p: StreamId)
    requires p in m.streams && Scannable(env, m)
    ensures var r := CallFlow.UpdateReceiving(env, m, p);
            CallFlow.UpdateReceiving(env, r, p) == r && r.streams[p].line == m.streams[p].line
            && Unsettled(env, r) <= Unsettled(env, m)
  {
    UpdatedReceiving(env, m, p);
    assert StreamStep(env, m.streams[p], CallFlow.UpdateReceiving(env, m, p).streams[p]);
  }

  lemma NotifyEmits(env: Env, m: Media, p: StreamId)
    requires p in m.streams && Scannable(env, m) && m.streams[p].waiting && p !in m.emitting
    ensures var e := CallFlow.EmissionPass(env, m.(emitting := m.emitting + {p}), p);
            CallFlow.Notify(env, m, p) == e.(emitting := e.emitting - {p})
    ensures Unsettled(env, m.(emitting := m.emitting + {p})) == Unsettled(env, m)
  {
    assert (m.emitting + {p}) - {p} == m.emitting;
  }

  ghost function Handled(env: Env, m: Media, p: StreamId): (e: Media)
    requires p in m.streams && Scannable(env, m)
    ensures Progress(env, m, e) && (p in e.restart ==> Unsettled(env, e) < Unsettled(env, m))
  {
    var e := CallFlow.HandlerPass(env, m.(restart := m.restart - {p}), p);
    RestartProgress(env, m, p, e);
    e
  }

  lemma PassUnfolds(env: Env, m: Media, p: StreamId)
    requires p in m.streams && Scannable(env, m)
    ensures CallFlow.EmissionPass(env, m, p) == AfterPass(env, Handled(env, m, p), p)
  {
  }

  ghost function AfterPass(env: Env, e: Media, p: StreamId): Media
    requires p in e.streams && Scannable(env, e)
  {
    if p in e.restart && e.streams[p].waiting then CallFlow.EmissionPass(env, e, p) else e.(restart := e.restart - {p})
  }
}
