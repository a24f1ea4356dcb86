/** What the events about streams, members and contents do, in terms of the call before them. */
module CallStreamEvents {
  import opened CallTypes
  import opened CallFlow
  import opened CallHold
  import opened CallEngine
  import opened CallSafety
  import opened CallRuns
  import opened CallHoldRuns
  import opened CallEffects
  import opened CallAcceptDrains
  import opened CallUnhold

  /** Nothing but the stream `p` differs. */
  predicate OnlyStream(c: Call, p: StreamId, r: Call) {
    p in r.media.streams && r == c.(media := c.media.(streams := c.media.streams[p := r.media.streams[p]]))
  }

  /** The flow `f` has become `g` because it was asked to start or to stop. */
  predicate AskedTo(start: bool, f: FlowState, g: FlowState) {
    g == if start then (if f == Started then Started else PendingStart) else (if f == Stopped then Stopped else PendingStop)
  }

  /** Nothing but the wish decides whether the stream sends. */
  predicate MaySendOn(c: Call, s: Stream) {
    && c.acceptance.accepted && !(c.holding.state == PendingHold || c.holding.state == Held)
    && !s.line.remotelyHeld && !s.line.sendingFailure
  }

  // ---- what we send

  /** The local sending state becomes what is asked for, except that an incoming call nobody accepted keeps
      SENDING pending. */
  lemma UpdateLocalEffect(c: Call, p: StreamId, local: SendingState)
    requires ScannableCall(c) && p in c.media.streams
    ensures var r := Step(c, OnStream(p, UpdateLocal(local)));
            OnlyStream(c, p, r) && r.media.streams[p] == c.media.streams[p].(local := LocalFor(c, local))
  {
  }

  function LocalFor(c: Call, local: SendingState): SendingState {
    if local == Sending && !c.requested && !c.acceptance.accepted then PendingSend else local
  }

  /** A changed wish is stored, and asks the stream to send or to stop. */
  predicate Wished(c: Call, s: Stream, t: Stream, wish: bool) {
    && t == s.(localSending := wish, sending := t.sending)
    && (if s.localSending == wish then t == s else AskedTo(wish && MaySendOn(c, s), s.sending, t.sending))
  }

  lemma WishEffect(c: Call, p: StreamId, wish: bool)
    requires ScannableCall(c) && p in c.media.streams
    ensures var r := Step(c, OnStream(p, WishSending(wish)));
            OnlyStream(c, p, r) && Wished(c, c.media.streams[p], r.media.streams[p], wish)
  {
  }

  /** What SetSending makes of a stream. */
  predicate SendingSet(c: Call, s: Stream, t: Stream, send: bool, hook: bool) {
    if send == Sends(s.local) then t == s.(local := if send then LocalFor(c, Sending) else NotSending)
    else if send then t == if hook then s.(local := LocalFor(c, Sending)) else s
    else
      && Wished(c, s, t.(local := s.local), false)
      && t.local == if t.sending == Stopped && !hook then s.local else NotSending
  }

  lemma DoSetSendingEffect(c: Call, p: StreamId, send: bool, hook: bool)
    requires p in c.media.streams
    ensures var r := DoSetSending(c, p, send, hook);
            OnlyStream(c, p, r) && SendingSet(c, c.media.streams[p], r.media.streams[p], send, hook)
  {
    var s := c.media.streams[p];
    if send && !Sends(s.local) && !hook {
      PutBack(c, p);
    } else if !send && Sends(s.local) {
      StopSendingEffect(c, p, hook);
    }
  }

  lemma StopSendingEffect(c: Call, p: StreamId, hook: bool)
    requires p in c.media.streams && Sends(c.media.streams[p].local)
    ensures var r := DoSetSending(c, p, false, hook);
            OnlyStream(c, p, r) && SendingSet(c, c.media.streams[p], r.media.streams[p], false, hook)
  {
    var d := PutCall(c, p, WithLocalSending(EnvOf(c), c.media.streams[p], false));
    assert EnvOf(d) == EnvOf(c);
    assert Wished(c, c.media.streams[p], d.media.streams[p], false);
    var u := d.media.streams[p].(local := NotSending);
    assert d.media.streams[p := u] == c.media.streams[p := u];
  }

  /** SetSending for what is already so, or already under way, records it. To start, the hook must agree,
      and then the local sending state is SENDING or, on an incoming call nobody accepted, pending. To stop,
      the wish is dropped and the flow asked to stop, and the local sending state is NONE, unless there is
      nothing left to stop and the hook does not agree. */
  lemma SetSendingEffect(c: Call, p: StreamId, send: bool, hook: bool)
    requires ScannableCall(c) && p in c.media.streams
    ensures var r := Step(c, OnStream(p, SetSending(send, hook)));
            OnlyStream(c, p, r) && SendingSet(c, c.media.streams[p], r.media.streams[p], send, hook)
  {
    StepIsSetSending(c, OnStream(p, SetSending(send, hook)), p, send, hook);
    DoSetSendingEffect(c, p, send, hook);
  }

  lemma StepIsSetSending(c: Call, e: Event, p: StreamId, send: bool, hook: bool)
    requires ScannableCall(c) && p in c.media.streams && e == OnStream(p, SetSending(send, hook))
    ensures Step(c, e) == DoSetSending(c, p, send, hook)
  {
  }

  // ---- what they send

  /** The lines of all streams are as they were, except that the stream `p` has these remote members and one
      more signal about them; and it has been asked to receive exactly if the local client has accepted,
      the call is not held and somebody sends. */
  predicate MembersBecome(c: Call, p: StreamId, r: Call, remote: map<Handle, SendingState>, change: MembersChanged<SendingState>)
    requires p in c.media.streams
  {
    && r == c.(media := r.media) && r.media.streams.Keys == c.media.streams.Keys
    && (forall q :: q in c.media.streams && q != p ==> r.media.streams[q].line == c.media.streams[q].line)
    && var l := c.media.streams[p].line;
       && r.media.streams[p].line == l.(remote := remote, remoteLog := l.remoteLog + [change])
       && (Starting(r.media.streams[p].receiving) <==>
             c.acceptance.locally && !l.receivingFailure && !IsHeld(c.holding.state)
             && exists h :: h in remote && (remote[h] == PendingSend || remote[h] == Sending))
  }

  lemma NotifiedReceives(c: Call, p: StreamId)
    requires ScannableCall(c) && p in c.media.streams
    ensures var t := RemoteMembersNotified(c, p).media.streams[p];
            t.line == c.media.streams[p].line && (Starting(t.receiving) <==> ReceiveStart(EnvOf(c), t.line))
  {
    NotifiedLines(c, p);
    NotifiedSettles(c, p);
  }

  lemma NotifiedMembers(c: Call, p: StreamId, remote: map<Handle, SendingState>, change: MembersChanged<SendingState>)
    requires ScannableCall(c) && p in c.media.streams
    ensures MembersBecome(c, p, RemoteMembersNotified(PutCall(c, p, WithRemote(c.media.streams[p], remote, change)), p), remote, change)
  {
    var d := PutCall(c, p, WithRemote(c.media.streams[p], remote, change));
    NotifiedLines(d, p);
    NotifiedReceives(d, p);
    OthersBecome(c, p, remote, change, RemoteMembersNotified(d, p));
  }

  lemma OthersBecome(c: Call, p: StreamId, remote: map<Handle, SendingState>, change: MembersChanged<SendingState>, r: Call)
    requires p in c.media.streams
    requires var d := PutCall(c, p, WithRemote(c.media.streams[p], remote, change));
             && r == d.(media := r.media) && r.media.streams.Keys == d.media.streams.Keys
             && (forall q :: q in d.media.streams ==> r.media.streams[q].line == d.media.streams[q].line)
             && (Starting(r.media.streams[p].receiving) <==> ReceiveStart(EnvOf(d), r.media.streams[p].line))
    ensures MembersBecome(c, p, r, remote, change)
  {
  }

  function RemoteFor(c: Call, remote: SendingState): SendingState {
    if remote == Sending && c.requested && !c.acceptance.accepted then PendingSend else remote
  }

  /** A remote member gets the state it is said to have, except that an outgoing call nobody accepted keeps
      SENDING pending; saying what is known changes nothing. */
  predicate MemberBecomes(c: Call, p: StreamId, r: Call, h: Handle, remote: SendingState)
    requires p in c.media.streams
  {
    var members := c.media.streams[p].line.remote;
    if h in members && members[h] == RemoteFor(c, remote) then r == c
    else MembersBecome(c, p, r, members[h := RemoteFor(c, remote)], MembersChanged(map[h := RemoteFor(c, remote)], {}))
  }

  lemma UpdateRemoteBecomes(c: Call, p: StreamId, h: Handle, remote: SendingState)
    requires ScannableCall(c) && p in c.media.streams
    ensures MemberBecomes(c, p, DoUpdateRemote(c, p, h, remote), h, remote)
  {
    var state := GateRemote(c, remote);
    NotifiedMembers(c, p, c.media.streams[p].line.remote[h := state], MembersChanged(map[h := state], {}));
  }

  lemma RemoteUpdated(c: Call, p: StreamId, h: Handle, remote: SendingState)
    requires ScannableCall(c) && p in c.media.streams
    ensures MemberBecomes(c, p, Step(c, OnStream(p, UpdateRemote(h, remote))), h, remote)
  {
    UpdateRemoteBecomes(c, p, h, remote);
  }

  lemma RemoveRemoteBecomes(c: Call, p: StreamId, h: Handle)
    requires ScannableCall(c) && p in c.media.streams
    ensures var remote := c.media.streams[p].line.remote;
            var r := DoRemoveRemote(c, p, h);
            if h !in remote then r == c else MembersBecome(c, p, r, remote - {h}, MembersChanged(map[], {h}))
  {
    NotifiedMembers(c, p, c.media.streams[p].line.remote - {h}, MembersChanged(map[], {h}));
  }

  /** A remote member that is removed is gone; a stranger changes nothing. */
  lemma RemoteRemoved(c: Call, p: StreamId, h: Handle)
    requires ScannableCall(c) && p in c.media.streams
    ensures var remote := c.media.streams[p].line.remote;
            var r := Step(c, OnStream(p, RemoveRemote(h)));
            if h !in remote then r == c else MembersBecome(c, p, r, remote - {h}, MembersChanged(map[], {h}))
  {
    RemoveRemoteBecomes(c, p, h);
  }

  /** Asking to receive from a member who does not send makes that pending, and asking not to from one who
      does makes the end of it pending; anything else changes nothing. */
  lemma ReceivingRequested(c: Call, p: StreamId, h: Handle, receive: bool)
    requires ScannableCall(c) && p in c.media.streams
    ensures var remote := c.media.streams[p].line.remote;
            var r := Step(c, OnStream(p, RequestReceiving(h, receive)));
            if h !in remote || receive == (remote[h] == Sending || remote[h] == PendingSend) then r == c
            else MemberBecomes(c, p, r, h, if receive then PendingSend else PendingStopSending)
  {
    StepIsRequestReceiving(c, OnStream(p, RequestReceiving(h, receive)), p, h, receive);
    var remote := c.media.streams[p].line.remote;
    if h in remote && receive != (remote[h] == Sending || remote[h] == PendingSend) {
      UpdateRemoteBecomes(c, p, h, if receive then PendingSend else PendingStopSending);
      if receive {
        RequestReceivingUpdates(c, p, h);
      }
    }
  }

  lemma StepIsRequestReceiving(c: Call, e: Event, p: StreamId, h: Handle, receive: bool)
    requires ScannableCall(c) && p in c.media.streams && e == OnStream(p, RequestReceiving(h, receive))
    ensures Step(c, e) == DoRequestReceiving(c, p, h, receive)
  {
  }

  // ---- members of the call

  /** Every stream counts as held by the other side exactly if each of its members that is in the call
      holds; one for which that changed is asked to send or to stop, and the others are as they were. */
  predicate HoldChecked(c: Call, r: Call) {
    && r.media == c.media.(streams := r.media.streams) && r.media.streams.Keys == c.media.streams.Keys
    && (forall p :: p in c.media.streams ==> StreamChecked(c, r.roster.members, c.media.streams[p], r.media.streams[p]))
  }

  predicate StreamChecked(c: Call, members: map<Handle, MemberFlags>, s: Stream, t: Stream) {
    var held := forall h :: h in s.line.remote && h in members ==> members[h].held;
    if s.line.remotelyHeld == held then t == s
    else
      && t == s.(line := s.line.(remotelyHeld := held), sending := t.sending)
      && AskedTo(s.localSending && MaySendOn(c, t), s.sending, t.sending)
  }

  lemma CheckedStream(c: Call, members: map<Handle, MemberFlags>, s: Stream)
    ensures StreamChecked(c, members, s, RemoteHoldStream(EnvOf(c), members, s))
  {
  }

  lemma ChecksAll(c: Call, roster: Roster)
    ensures var r := CheckRemoteHold(c.(roster := roster));
            HoldChecked(c, r) && r == c.(roster := roster, media := r.media)
  {
    forall p | p in c.media.streams
      ensures StreamChecked(c, roster.members, c.media.streams[p], RemoteHoldStream(EnvOf(c), roster.members, c.media.streams[p]))
    {
      CheckedStream(c, roster.members, c.media.streams[p]);
    }
    assert EnvOf(c.(roster := roster)) == EnvOf(c);
  }

  /** A member gets the flags it is said to have, with one signal, and remote hold is checked; saying what is
      known changes nothing. */
  lemma UpdateMemberEffect(c: Call, h: Handle, flags: MemberFlags)
    requires ScannableCall(c)
    ensures var r := Step(c, OnCall(UpdateMember(h, flags)));
            if h in c.roster.members && c.roster.members[h] == flags then r == c
            else
              && r == c.(roster := r.roster, media := r.media) && HoldChecked(c, r)
              && r.roster == Roster(c.roster.members[h := flags], c.roster.log + [MembersChanged(map[h := flags], {})])
  {
    ChecksAll(c, UpdatedRoster(c.roster, h, flags));
  }

  /** A member that is removed is gone, with one signal, and remote hold is checked; a stranger changes
      nothing. */
  lemma RemoveMemberEffect(c: Call, h: Handle)
    requires ScannableCall(c)
    ensures var r := Step(c, OnCall(RemoveMember(h)));
            if h !in c.roster.members then r == c
            else
              && r == c.(roster := r.roster, media := r.media) && HoldChecked(c, r)
              && r.roster == Roster(c.roster.members - {h}, c.roster.log + [MembersChanged(map[], {h})])
  {
    ChecksAll(c, ReducedRoster(c.roster, h));
  }

  // ---- reports

  /** No hold or unhold is under way. */
  predicate Calm(c: Call) {
    c.holding.state == Unheld || c.holding.state == Held
  }

  /** Only a flow that is about to start can have started, and only one that is about to stop can have
      stopped; any other report changes nothing. */
  predicate Due(now: FlowState, flow: FlowState) {
    (now == PendingStart && flow == Started) || (now == PendingStop && flow == Stopped)
  }

  /** A report about what a stream sends stores it; if no hold or unhold is under way, nothing else
      happens. */
  lemma CompleteSendingEffect(c: Call, p: StreamId, flow: FlowState)
    requires ScannableCall(c) && p in c.media.streams
    ensures var s := c.media.streams[p];
            var r := Step(c, OnStream(p, CompleteSending(flow)));
            && (!Due(s.sending, flow) ==> r == c)
            && (Due(s.sending, flow) && Calm(c) ==> OnlyStream(c, p, r) && r.media.streams[p] == s.(sending := flow))
  {
    StepIsReport(c, OnStream(p, CompleteSending(flow)), p, flow);
    if Due(c.media.streams[p].sending, flow) && Calm(c) {
      CalmReport(c, p, c.media.streams[p].(sending := flow), false);
    }
  }

  lemma StepIsReport(c: Call, e: Event, p: StreamId, flow: FlowState)
    requires ScannableCall(c) && p in c.media.streams
    requires e == OnStream(p, CompleteSending(flow)) || e == OnStream(p, CompleteReceiving(flow))
    ensures var s := c.media.streams[p];
            Step(c, e) == if e.stream.CompleteSending?
                          then (if Due(s.sending, flow) then Report(c, p, s.(sending := flow), false, true) else c)
                          else (if Due(s.receiving, flow) then Report(c, p, s.(receiving := flow), true, true) else c)
  {
  }

  lemma CalmReport(c: Call, p: StreamId, t: Stream, receiving: bool)
    requires ScannableCall(c) && p in c.media.streams && Calm(c) && (receiving ==> !t.waiting)
    ensures Report(c, p, t, receiving, true) == PutCall(c, p, t)
  {
  }

  /** So does a report about what it receives, if no accept waits for the stream either. */
  lemma CompleteReceivingEffect(c: Call, p: StreamId, flow: FlowState)
    requires ScannableCall(c) && p in c.media.streams
    ensures var s := c.media.streams[p];
            var r := Step(c, OnStream(p, CompleteReceiving(flow)));
            && (!Due(s.receiving, flow) ==> r == c)
            && (Due(s.receiving, flow) && Calm(c) && !s.waiting ==>
                  OnlyStream(c, p, r) && r.media.streams[p] == s.(receiving := flow))
  {
    StepIsReport(c, OnStream(p, CompleteReceiving(flow)), p, flow);
    if Due(c.media.streams[p].receiving, flow) && Calm(c) && !c.media.streams[p].waiting {
      CalmReport(c, p, c.media.streams[p].(receiving := flow), true);
    }
  }

  /** A failure to send stops the flow, if it was not stopped. If no hold or unhold is under way, nothing else
      happens, except that a call that is not held gives up the wish to send. */
  lemma FailSendingEffect(c: Call, p: StreamId)
    requires ScannableCall(c) && p in c.media.streams && StreamSound(c.media.streams[p])
    ensures var s := c.media.streams[p];
            var r := Step(c, OnStream(p, FailSending));
            && (s.sending == Stopped ==> r == c)
            && (s.sending != Stopped && Calm(c) ==>
                  && OnlyStream(c, p, r)
                  && r.media.streams[p] == s.(sending := Stopped, localSending := s.localSending && c.holding.state == Held))
  {
    StepIsFailSending(c, OnStream(p, FailSending), p);
    if c.media.streams[p].sending != Stopped && Calm(c) {
      CalmFailSending(c, p);
    }
  }

  lemma StepIsFailSending(c: Call, e: Event, p: StreamId)
    requires ScannableCall(c) && p in c.media.streams && e == OnStream(p, FailSending)
    ensures Step(c, e) == DoFailSending(c, p)
  {
  }

  lemma CalmFailure(c: Call, p: StreamId, t: Stream, receiving: bool)
    requires ScannableCall(c) && p in c.media.streams && Calm(c) && (receiving ==> !t.waiting)
    ensures Report(c, p, t, receiving, false) == PutCall(c, p, t)
  {
  }

  lemma CalmFailSending(c: Call, p: StreamId)
    requires ScannableCall(c) && p in c.media.streams && StreamSound(c.media.streams[p])
    requires c.media.streams[p].sending != Stopped && Calm(c)
    ensures DoFailSending(c, p) == PutCall(c, p, c.media.streams[p].(
              sending := Stopped, localSending := c.media.streams[p].localSending && c.holding.state == Held))
  {
    var s := c.media.streams[p];
    var t := FailedSending(s);
    CalmFailure(c, p, t, false);
    FailSendingUnfolds(c, p, PutCall(c, p, t));
    assert SendingForgotten(t, c.holding.state != Unheld).line == s.line;
    PutTwice(c, p, t, SendingForgotten(t, c.holding.state != Unheld));
  }

  lemma PutTwice(c: Call, p: StreamId, t: Stream, u: Stream)
    ensures PutCall(PutCall(c, p, t), p, u) == PutCall(c, p, u)
  {
    assert c.media.streams[p := t][p := u] == c.media.streams[p := u];
  }

  /** A failure to receive stops the flow, if it was not stopped. If no hold or unhold is under way and no
      accept waits for the stream, nothing else happens. */
  lemma FailReceivingEffect(c: Call, p: StreamId)
    requires ScannableCall(c) && p in c.media.streams && StreamSound(c.media.streams[p])
    ensures var s := c.media.streams[p];
            var r := Step(c, OnStream(p, FailReceiving));
            && (s.receiving == Stopped ==> r == c)
            && (s.receiving != Stopped && Calm(c) && !s.waiting ==>
                  OnlyStream(c, p, r) && r.media.streams[p] == s.(receiving := Stopped))
  {
    StepIsFailReceiving(c, OnStream(p, FailReceiving), p);
    if c.media.streams[p].receiving != Stopped && Calm(c) && !c.media.streams[p].waiting {
      CalmFailReceiving(c, p);
    }
  }

  lemma StepIsFailReceiving(c: Call, e: Event, p: StreamId)
    requires ScannableCall(c) && p in c.media.streams && e == OnStream(p, FailReceiving)
    ensures Step(c, e) == DoFailReceiving(c, p)
  {
  }

  lemma CalmFailReceiving(c: Call, p: StreamId)
    requires ScannableCall(c) && p in c.media.streams && StreamSound(c.media.streams[p])
    requires c.media.streams[p].receiving != Stopped && Calm(c) && !c.media.streams[p].waiting
    ensures DoFailReceiving(c, p) == PutCall(c, p, c.media.streams[p].(receiving := Stopped))
  {
    var s := c.media.streams[p];
    var t := FailedReceiving(s);
    CalmFailure(c, p, t, true);
    FailReceivingUnfolds(c, p, PutCall(c, p, t));
    assert ReceivingForgotten(t).line == s.line;
    PutTwice(c, p, t, ReceivingForgotten(t));
  }

  // ---- a failure during an unhold

  /** The unhold has failed: that is signalled, and every flow is stopped or asked to stop. */
  predicate Relapses(c: Call, r: Call) {
    && Signalled(c, r, true, ResourceNotAvailable, r.holding.state == Held)
    && AllHalting(r.media)
  }

  lemma FailedRelapses(c: Call)
    requires WellFormed(c) && HoldReady(c) && c.holding.state == PendingUnhold
    ensures Relapses(c, HoldChangeFailed(c))
  {
    RelapseSignals(c);
    FailureAsksAll(c);
  }

  lemma ReactRelapses(c: Call, p: StreamId, receiving: bool)
    requires WellFormed(c) && HoldReady(c) && c.holding.state == PendingUnhold && p in c.media.streams
    ensures Relapses(c, React(c, p, receiving, false))
  {
    if receiving {
      var d := NotifyReceiving(c, p);
      FlowedHoldReady(c, d);
      FlowHold(c, d);
      ShapeKeeps(c, d);
      FailedRelapses(d);
    } else {
      FailedRelapses(c);
    }
  }

  lemma ReportRelapses(c: Call, p: StreamId, t: Stream, receiving: bool)
    requires WellFormed(c) && Fit(c) && c.holding.state == PendingUnhold && p in c.media.streams
    requires Reported(c.media.streams[p], t) && (t.line.receivingFailure ==> t.receiving == Stopped)
    ensures Relapses(c, Report(c, p, t, receiving, false))
  {
    FitHoldReady(c);
    ReportHoldReady(c, p, t);
    PutWellFormed(c, p, t);
    ReactRelapses(PutCall(c, p, t), p, receiving);
  }

  lemma PutWellFormed(c: Call, p: StreamId, t: Stream)
    requires WellFormed(c) && p in c.media.streams && t.line.initial == c.media.streams[p].line.initial
    ensures WellFormed(PutCall(c, p, t))
  {
    ShapeKeeps(c, PutCall(c, p, t));
  }

  lemma ForgetRelapses(c: Call, e: Call, p: StreamId, u: Stream)
    requires Relapses(c, e) && p in e.media.streams
    requires u.sending == e.media.streams[p].sending && u.receiving == e.media.streams[p].receiving
    ensures Relapses(c, PutCall(e, p, u))
  {
    assert Halting(e.media.streams[p]);
  }

  /** A failure to send during an unhold makes it a hold again, for want of a resource. */
  lemma FailSendingRelapses(c: Call, p: StreamId)
    requires WellFormed(c) && Fit(c) && c.holding.state == PendingUnhold && p in c.media.streams
    requires c.media.streams[p].sending != Stopped
    ensures Relapses(c, Step(c, OnStream(p, FailSending)))
  {
    var t := FailedSending(c.media.streams[p]);
    var e := Report(c, p, t, false, false);
    StepIsFailSending(c, OnStream(p, FailSending), p);
    assert StreamSound(c.media.streams[p]);
    ReportRelapses(c, p, t, false);
    FailSendingUnfolds(c, p, e);
    ForgetRelapses(c, e, p, SendingForgotten(e.media.streams[p], true));
  }

  /** And so does a failure to receive. */
  lemma FailReceivingRelapses(c: Call, p: StreamId)
    requires WellFormed(c) && Fit(c) && c.holding.state == PendingUnhold && p in c.media.streams
    requires c.media.streams[p].receiving != Stopped
    ensures Relapses(c, Step(c, OnStream(p, FailReceiving)))
  {
    var t := FailedReceiving(c.media.streams[p]);
    var e := Report(c, p, t, true, false);
    StepIsFailReceiving(c, OnStream(p, FailReceiving), p);
    assert StreamSound(c.media.streams[p]);
    ReportRelapses(c, p, t, true);
    FailReceivingUnfolds(c, p, e);
    ForgetRelapses(c, e, p, ReceivingForgotten(e.media.streams[p]));
  }

  // ---- contents and streams

  /** A new content is the first, and has no streams. */
  lemma AddContentEffect(c: Call, initial: bool)
    requires ScannableCall(c)
    ensures var r := Step(c, OnTree(AddContent(initial)));
            && r == c.(contents := r.contents) && |r.contents| == |c.contents| + 1
            && r.contents[0] == Content(initial, []) && r.contents[1..] == c.contents
  {
  }

  /** A new stream is the first of its content and of no other. It is as it was made, except that it receives
      if the local client has accepted, the call is not held and somebody sends, and that it sends if it
      wants to and may. Everything else stays. A stream that is there already, or whose content is not,
      changes nothing. */
  lemma AddStreamEffect(c: Call, i: nat, p: StreamId, local: SendingState, history: seq<MembersChanged<SendingState>>,
                        wish: bool, endpoints: seq<EndpointState>)
    requires ScannableCall(c)
    ensures var r := Step(c, OnTree(AddStream(i, p, local, history, wish, endpoints)));
            if i >= |c.contents| || p in c.media.streams then r == c
            else
              && r == c.(contents := r.contents, media := r.media) && OnlyStream(c.(contents := r.contents), p, r)
              && |r.contents| == |c.contents| && r.contents[i] == Content(c.contents[i].initial, [p] + c.contents[i].streams)
              && (forall j :: 0 <= j < |c.contents| && j != i ==> r.contents[j] == c.contents[j])
              && StreamAttached(c, c.contents[i].initial, local, history, wish, endpoints, r.media.streams[p])
  {
    StepIsTree(c, OnTree(AddStream(i, p, local, history, wish, endpoints)));
    if i < |c.contents| {
      AttachesStream(c, c.contents[i].initial, local, history, wish, endpoints);
    }
  }

  lemma AttachesStream(c: Call, initial: bool, local: SendingState, history: seq<MembersChanged<SendingState>>,
                       wish: bool, endpoints: seq<EndpointState>)
    ensures StreamAttached(c, initial, local, history, wish, endpoints,
                           AttachedStream(EnvOf(c), initial, local, history, wish, endpoints))
  {
  }

  predicate StreamAttached(c: Call, initial: bool, local: SendingState, history: seq<MembersChanged<SendingState>>,
                           wish: bool, endpoints: seq<EndpointState>, t: Stream)
  {
    var remote := Replay(history);
    && t.line == Line(initial, remote, history, false, false, false, endpoints)
    && t.local == local && t.localSending == wish && !t.waiting
    && t.receiving == (if c.acceptance.locally && !IsHeld(c.holding.state)
                          && exists h :: h in remote && (remote[h] == PendingSend || remote[h] == Sending)
                       then PendingStart else Stopped)
    && t.sending == if c.acceptance.accepted && !IsHeld(c.holding.state) && wish then PendingStart else Stopped
  }

  lemma StepIsTree(c: Call, e: Event)
    requires ScannableCall(c) && e.OnTree?
    ensures Step(c, e) == TreeStep(c, e.tree)
  {
  }

  /** The streams that are left are those that are not taken away, each as it was. */
  predicate Keeps(c: Call, r: Call, taken: set<StreamId>) {
    && r == c.(contents := r.contents, media := c.media.(streams := r.media.streams))
    && r.media.streams.Keys == c.media.streams.Keys - taken
    && (forall q :: q in r.media.streams ==> r.media.streams[q] == c.media.streams[q])
  }

  lemma RemovedEverywhere(c: Call, p: StreamId)
    requires WellFormed(c) && p in c.media.streams
    ensures var r := TreeStep(c, RemoveStream(p));
            && Keeps(c, r, {p}) && |r.contents| == |c.contents|
            && (forall i :: 0 <= i < |c.contents| ==> Lacks(c.contents[i], p, r.contents[i]))
  {
    var r := TreeStep(c, RemoveStream(p));
    forall i | 0 <= i < |c.contents|
      ensures Lacks(c.contents[i], p, r.contents[i])
    {
      WithoutElements(c.contents[i].streams, p);
    }
  }

  /** The content `b` has the streams of `a` but for `p`. */
  ghost predicate Lacks(a: Content, p: StreamId, b: Content) {
    b.initial == a.initial && forall q :: q in b.streams <==> q in a.streams && q != p
  }

  /** A stream that is removed is gone from its content and from the call; a stranger changes nothing. */
  lemma RemoveStreamEffect(c: Call, p: StreamId)
    requires WellFormed(c)
    ensures var r := Step(c, OnTree(RemoveStream(p)));
            if p !in c.media.streams then r == c
            else
              && Keeps(c, r, {p}) && |r.contents| == |c.contents|
              && (forall i :: 0 <= i < |c.contents| ==> Lacks(c.contents[i], p, r.contents[i]))
  {
    StepIsTree(c, OnTree(RemoveStream(p)));
    if p in c.media.streams {
      RemovedEverywhere(c, p);
    }
  }

  /** A content that is removed is gone with all its streams, and the other contents stay in their order. */
  lemma RemoveContentEffect(c: Call, i: nat)
    requires ScannableCall(c)
    ensures var r := Step(c, OnTree(RemoveContent(i)));
            if i >= |c.contents| then r == c
            else
              && Keeps(c, r, set q | q in c.contents[i].streams)
              && |r.contents| == |c.contents| - 1
              && (forall j :: 0 <= j < |r.contents| ==> r.contents[j] == c.contents[if j < i then j else j + 1])
  {
    StepIsTree(c, OnTree(RemoveContent(i)));
  }

  // ---- the other side accepts

  /** Streams of initial contents we mean to send on get the wish to; all of them are asked to send or to
      stop; and no other stream changes. */
  predicate TakenUp(r: Call, s: Stream, t: Stream) {
    if !s.line.initial then t == s
    else
      && t == s.(localSending := s.localSending || s.local == Sending, sending := t.sending)
      && AskedTo(t.localSending && MaySendOn(r, s), s.sending, t.sending)
  }

  lemma TakesUpStream(c: Call, s: Stream)
    ensures TakenUp(c, s, RemoteAccepted(EnvOf(c), s))
  {
  }

  lemma RemoteAcceptStreams(c: Call)
    requires ScannableCall(c) && c.requested && !c.acceptance.accepted
    requires c.status.state == Initialised || c.status.state == Initialising
    ensures var r := Step(c, OnCall(RemoteAccept));
            && r.media == c.media.(streams := r.media.streams) && r.media.streams.Keys == c.media.streams.Keys
            && (forall p :: p in c.media.streams ==> TakenUp(r, c.media.streams[p], r.media.streams[p]))
  {
    StepIsRemoteAccept(c, OnCall(RemoteAccept));
    var d := RemoteAccepting(c);
    var r := DoRemoteAccept(c);
    assert EnvOf(r) == EnvOf(d);
    forall p | p in c.media.streams
      ensures TakenUp(r, c.media.streams[p], r.media.streams[p])
    {
      TakesUpStream(r, c.media.streams[p]);
    }
  }

  lemma StepIsRemoteAccept(c: Call, e: Event)
    requires ScannableCall(c) && e.OnCall? && e.call.RemoteAccept?
    ensures Step(c, e) == DoRemoteAccept(c)
  {
  }
}
