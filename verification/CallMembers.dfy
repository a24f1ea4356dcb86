/** The members of a call and of its streams: what the signals tell an observer, and when a stream
    counts as held by the other side.
 */
module CallMembers {
  import opened CallTypes
  import opened CallHold
  import opened CallEngine
  import opened CallRuns

  // ---- replaying the signals

  lemma ReplaySnoc<V>(log: seq<MembersChanged<V>>, change: MembersChanged<V>)
    ensures Replay(log + [change]) == (Replay(log) + change.updates) - change.removed
  {
    assert (log + [change])[..|log|] == log;
  }

  predicate LineReplayed(l: Line) {
    Replay(l.remoteLog) == l.remote
  }

  /** Somebody who followed CallMembersChanged and every stream's RemoteMembersChanged from the empty
      table holds the current members of the call and of each stream. */
  predicate Replayed(c: Call) {
    && Replay(c.roster.log) == c.roster.members
    && (forall p :: p in c.media.streams ==> LineReplayed(c.media.streams[p].line))
  }

  lemma UpdateReplayed(r: Roster, h: Handle, flags: MemberFlags)
    requires Replay(r.log) == r.members
    ensures Replay(UpdatedRoster(r, h, flags).log) == UpdatedRoster(r, h, flags).members
  {
    ReplaySnoc(r.log, MembersChanged(map[h := flags], {}));
    assert r.members[h := flags] == (r.members + map[h := flags]) - {};
  }

  lemma RemoveReplayed(r: Roster, h: Handle)
    requires Replay(r.log) == r.members
    ensures Replay(ReducedRoster(r, h).log) == ReducedRoster(r, h).members
  {
    ReplaySnoc<MemberFlags>(r.log, MembersChanged(map[], {h}));
    assert r.members - {h} == (r.members + map[]) - {h};
  }

  lemma ChangeReplayed(l: Line, k: Line, change: MembersChanged<SendingState>)
    requires LineReplayed(l) && LineChanged(l, k, change)
    ensures LineReplayed(k)
  {
    ReplaySnoc(l.remoteLog, change);
  }

  lemma SameLinesReplayed(c: Call, r: Call)
    requires Replayed(c) && SameLines(c.media, r.media) && r.roster == c.roster
    ensures Replayed(r)
  {
    forall p | p in r.media.streams
      ensures LineReplayed(r.media.streams[p].line)
    {
      assert LineReplayed(c.media.streams[p].line) && SameLine(c.media.streams[p].line, r.media.streams[p].line);
      assert r.media.streams[p].line.remoteLog == c.media.streams[p].line.remoteLog;
    }
  }

  lemma OneStreamReplayed(c: Call, p: StreamId, op: StreamOp)
    requires ScannableCall(c) && p in c.media.streams && Replayed(c)
    ensures Replayed(OneStreamStep(c, p, op))
  {
    var r := OneStreamStep(c, p, op);
    if IsFlowOp(op) {
      FlowOpSummary(c, p, op);
      SameLinesReplayed(c, r);
    } else if IsEndpointOp(op) {
      EndpointOpSummary(c, p, op);
      assert LineReplayed(c.media.streams[p].line);
    } else {
      RemoteOpEffect(c, p, op);
      ChangeReplayed(c.media.streams[p].line, r.media.streams[p].line, RemoteChange(c, op));
      RemoteReplayed(c, p, r);
    }
  }

  lemma RemoteReplayed(c: Call, p: StreamId, r: Call)
    requires Replayed(c) && RemoteSummary(c, p, r) && p in r.media.streams && LineReplayed(r.media.streams[p].line)
    ensures Replayed(r)
  {
    forall q | q in r.media.streams && q != p
      ensures LineReplayed(r.media.streams[q].line)
    {
      assert LineReplayed(c.media.streams[q].line) && SameLine(c.media.streams[q].line, r.media.streams[q].line);
      assert r.media.streams[q].line.remoteLog == c.media.streams[q].line.remoteLog;
    }
  }

  lemma CallStepReplayed(c: Call, op: CallOp)
    requires ScannableCall(c) && Replayed(c)
    ensures Replayed(CallStep(c, op))
  {
    var r := CallStep(c, op);
    if IsStateOp(op) {
      StateOpSummary(c, op);
      SameLinesReplayed(c, r);
    } else if op.RequestHold? {
      FlowHold(c, r);
      SameLinesReplayed(c, r);
    } else {
      if op.UpdateMember? {
        UpdateReplayed(c.roster, op.h, op.memberFlags);
      } else {
        RemoveReplayed(c.roster, op.h);
      }
      RosterOpSummary(c, op);
      RosterLines(c, r);
    }
  }

  lemma RosterLines(c: Call, r: Call)
    requires RosterSummary(c, r) && forall p :: p in c.media.streams ==> LineReplayed(c.media.streams[p].line)
    ensures forall p :: p in r.media.streams ==> LineReplayed(r.media.streams[p].line)
  {
    forall p | p in r.media.streams
      ensures LineReplayed(r.media.streams[p].line)
    {
      assert LineReplayed(c.media.streams[p].line);
      assert r.media.streams[p].line.remoteLog == c.media.streams[p].line.remoteLog;
    }
  }

  lemma StepReplayed(c: Call, e: Event)
    requires WellFormed(c) && Replayed(c)
    ensures Replayed(Step(c, e))
  {
    match e
    case OnCall(op) => CallStepReplayed(c, op);
    case OnTree(op) => TreeStepReplayed(c, op);
    case OnStream(p, op) => if p in c.media.streams { OneStreamReplayed(c, p, op); }
  }

  lemma TreeStepReplayed(c: Call, op: TreeOp)
    requires Replayed(c)
    ensures Replayed(TreeStep(c, op))
  {
    var r := TreeStep(c, op);
    assert r.roster == c.roster;
    forall p | p in r.media.streams
      ensures LineReplayed(r.media.streams[p].line)
    {
      if p in c.media.streams {
        assert r.media.streams[p] == c.media.streams[p];
      } else {
        assert r.media.streams[p].line.remoteLog == op.history;
      }
    }
  }

  lemma {:induction false} ReplayedFrom(c: Call, es: seq<Event>)
    requires WellFormed(c) && Replayed(c)
    ensures Replayed(Run(c, es))
    decreases |es|
  {
    if es != [] {
      StepReplayed(c, es[0]);
      StepWellFormed(c, es[0]);
      ReplayedFrom(Step(c, es[0]), es[1..]);
    }
  }

  /** In every run the signals about members, replayed from the empty table, give the members. */
  lemma ObserversReplay(requested: bool, es: seq<Event>)
    ensures Replayed(Run(Initial(requested), es))
  {
    ReplayedFrom(Initial(requested), es);
  }

  // ---- remote hold

  /** A stream counts as held by the other side exactly when each of its remote members that is a
      member of the call is holding. */
  predicate Agreed(c: Call) {
    forall p :: p in c.media.streams ==> LineAgreed(c.roster.members, c.media.streams[p].line)
  }

  predicate LineAgreed(members: map<Handle, MemberFlags>, l: Line) {
    l.remotelyHeld == AllHeld(members, l)
  }

  /** The event changes the members of the call. */
  predicate ChangesRoster(c: Call, e: Event) {
    && e.OnCall?
    && ((e.call.UpdateMember? && !(e.call.h in c.roster.members && c.roster.members[e.call.h] == e.call.memberFlags))
        || (e.call.RemoveMember? && e.call.h in c.roster.members))
  }

  /** The event adds no stream, and adds and removes no remote member of a stream. */
  predicate KeepsMembership(c: Call, e: Event) {
    match e
    case OnCall(_) => true
    case OnTree(op) => !op.AddStream?
    case OnStream(p, op) =>
      p in c.media.streams ==>
        && (op.UpdateRemote? ==> op.h in c.media.streams[p].line.remote)
        && (op.RemoveRemote? ==> op.h !in c.media.streams[p].line.remote)
  }

  lemma RosterChangeAgrees(c: Call, e: Event)
    requires ScannableCall(c) && ChangesRoster(c, e)
    ensures Agreed(Step(c, e))
  {
    var d := c.(roster := Step(c, e).roster);
    assert Step(c, e) == CheckRemoteHold(d);
    forall p | p in c.media.streams
      ensures LineAgreed(d.roster.members, CheckRemoteHold(d).media.streams[p].line)
    {
      SameRemoteAgrees(d.roster.members, c.media.streams[p].line, CheckRemoteHold(d).media.streams[p].line);
    }
  }

  lemma SameRemoteAgrees(members: map<Handle, MemberFlags>, l: Line, k: Line)
    requires k.remote.Keys == l.remote.Keys
    ensures AllHeld(members, k) == AllHeld(members, l)
  {
    assert forall h :: h in k.remote <==> h in l.remote;
  }

  lemma SameLinesAgree(c: Call, r: Call)
    requires Agreed(c) && r.roster == c.roster && r.media.streams.Keys <= c.media.streams.Keys
    requires forall p :: p in r.media.streams ==>
               && r.media.streams[p].line.remote.Keys == c.media.streams[p].line.remote.Keys
               && r.media.streams[p].line.remotelyHeld == c.media.streams[p].line.remotelyHeld
    ensures Agreed(r)
  {
    forall p | p in r.media.streams
      ensures LineAgreed(r.roster.members, r.media.streams[p].line)
    {
      assert LineAgreed(c.roster.members, c.media.streams[p].line);
      SameRemoteAgrees(c.roster.members, c.media.streams[p].line, r.media.streams[p].line);
    }
  }

  predicate SameAgreement(l: Line, k: Line) {
    k.remote.Keys == l.remote.Keys && k.remotelyHeld == l.remotelyHeld
  }

  lemma ChangeKeepsKeys(c: Call, op: StreamOp, l: Line, k: Line)
    requires IsRemoteOp(op) && LineChanged(l, k, RemoteChange(c, op))
    requires if op.RemoveRemote? then op.h !in l.remote else op.h in l.remote
    ensures SameAgreement(l, k)
  {
    if k != l {
      var change := RemoteChange(c, op);
      assert ((l.remote + change.updates) - change.removed).Keys == l.remote.Keys;
    }
  }

  lemma RemoteOpAgrees(c: Call, p: StreamId, op: StreamOp)
    requires ScannableCall(c) && p in c.media.streams && Agreed(c) && KeepsMembership(c, OnStream(p, op)) && IsRemoteOp(op)
    ensures Agreed(RemoteStep(c, p, op))
  {
    var r := RemoteStep(c, p, op);
    if op.RequestReceiving? && op.h !in c.media.streams[p].line.remote {
      RequestReceivingMember(c, p, op.h, op.receive);
    } else {
      RemoteOpEffect(c, p, op);
      ChangeKeepsKeys(c, op, c.media.streams[p].line, r.media.streams[p].line);
      SameLinesAgree(c, r);
    }
  }

  lemma OneStreamAgrees(c: Call, p: StreamId, op: StreamOp)
    requires ScannableCall(c) && p in c.media.streams && Agreed(c) && KeepsMembership(c, OnStream(p, op))
    ensures Agreed(OneStreamStep(c, p, op))
  {
    if IsFlowOp(op) {
      FlowOpSummary(c, p, op);
      SameLinesAgree(c, OneStreamStep(c, p, op));
    } else if IsRemoteOp(op) {
      RemoteOpAgrees(c, p, op);
    } else {
      EndpointOpSummary(c, p, op);
      SameLinesAgree(c, OneStreamStep(c, p, op));
    }
  }

  lemma CallStepAgrees(c: Call, op: CallOp)
    requires ScannableCall(c) && Agreed(c) && !ChangesRoster(c, OnCall(op))
    ensures Agreed(CallStep(c, op))
  {
    if IsStateOp(op) {
      StateOpSummary(c, op);
      SameLinesAgree(c, CallStep(c, op));
    } else if op.RequestHold? {
      FlowHold(c, CallStep(c, op));
      SameLinesAgree(c, CallStep(c, op));
    }
  }

  lemma TreeStepAgrees(c: Call, op: TreeOp)
    requires Agreed(c) && !op.AddStream?
    ensures Agreed(TreeStep(c, op))
  {
    assert TreeStep(c, op).roster == c.roster;
    assert forall p :: p in TreeStep(c, op).media.streams ==>
      p in c.media.streams && TreeStep(c, op).media.streams[p] == c.media.streams[p];
    SameLinesAgree(c, TreeStep(c, op));
  }

  lemma StepAgrees(c: Call, e: Event)
    requires WellFormed(c) && Agreed(c) && KeepsMembership(c, e)
    ensures Agreed(Step(c, e))
  {
    match e
    case OnCall(op) =>
      if ChangesRoster(c, e) {
        RosterChangeAgrees(c, e);
      } else {
        CallStepAgrees(c, op);
      }
    case OnTree(op) => TreeStepAgrees(c, op);
    case OnStream(p, op) => if p in c.media.streams { OneStreamAgrees(c, p, op); }
  }

  ghost predicate KeepMembership(c: Call, es: seq<Event>)
    requires WellFormed(c)
    decreases |es|
  {
    es == [] || (KeepsMembership(c, es[0]) && (StepWellFormed(c, es[0]); KeepMembership(Step(c, es[0]), es[1..])))
  }

  lemma {:induction false} StaysAgreed(c: Call, es: seq<Event>)
    requires WellFormed(c) && Agreed(c) && KeepMembership(c, es)
    ensures Agreed(Run(c, es))
    decreases |es|
  {
    if es != [] {
      StepAgrees(c, es[0]);
      StepWellFormed(c, es[0]);
      StaysAgreed(Step(c, es[0]), es[1..]);
    }
  }

  /** From any state: once the members of the call change, every stream's remotely-held flag is
      right, and it stays right through every run that keeps the streams' own membership. */
  lemma RemoteHoldAgreement(c: Call, e: Event, es: seq<Event>)
    requires WellFormed(c) && ChangesRoster(c, e)
    requires WellFormed(Step(c, e)) && KeepMembership(Step(c, e), es)
    ensures Agreed(Run(Step(c, e), es))
  {
    RosterChangeAgrees(c, e);
    StaysAgreed(Step(c, e), es);
  }
}
