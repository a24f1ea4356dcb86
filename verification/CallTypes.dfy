/** The state of a call channel: the channel itself, the list of its contents and the table of
    the streams those contents hold. Everything here is a value; the objects of the program are in
    CallObjects.
 */
module CallTypes {

  type Handle = nat
  type StreamId = nat

  datatype CallState =
    Unknown | PendingInitiator | Initialising | Initialised | Accepted | Active | Ended

  datatype CallFlags = CallFlags(ringing: bool, queued: bool)

  datatype SendingState = NotSending | PendingSend | Sending | PendingStopSending

  datatype FlowState = Stopped | PendingStart | PendingStop | Started

  datatype EndpointState =
    Connecting | ProvisionallyConnected | FullyConnected | ExhaustedCandidates | Failed

  datatype HoldState = Unheld | PendingHold | Held | PendingUnhold

  datatype HoldReason = NoHoldReason | Requested | ResourceNotAvailable

  /** A TpCallMemberFlags word, split into the bit the call engine reads and the rest. */
  datatype MemberFlags = MemberFlags(held: bool, others: nat)

  /** One CallMembersChanged or RemoteMembersChanged signal. */
  datatype MembersChanged<V> = MembersChanged(updates: map<Handle, V>, removed: set<Handle>)

  /** One HoldStateChanged signal. */
  datatype HoldChanged = HoldChanged(state: HoldState, reason: HoldReason)

  /** One CallStateChanged signal. */
  datatype StateChanged = StateChanged(state: CallState, flags: CallFlags)

  /** What a stream carries besides its own sending and flow states. `initial` is the disposition of
      the content the stream belongs to, which never changes. */
  datatype Line = Line(
    initial: bool,
    remote: map<Handle, SendingState>,
    remoteLog: seq<MembersChanged<SendingState>>,
    remotelyHeld: bool,
    sendingFailure: bool,
    receivingFailure: bool,
    endpoints: seq<EndpointState>)

  /** A TpBaseMediaCallStream attached to a channel. `waiting` says that streams_changed_cb is
      connected to the stream's notifications. */
  datatype Stream = Stream(
    line: Line,
    local: SendingState,
    sending: FlowState,
    receiving: FlowState,
    localSending: bool,
    waiting: bool)

  datatype Content = Content(initial: bool, streams: seq<StreamId>)

  /** The streams and the media channel's accept. `emitting` holds the streams whose
      notify::receiving-state emission is running, and `restart` those whose running emission has to
      start over. `accepts` counts the runs of the base class's accept. */
  datatype Media = Media(
    streams: map<StreamId, Stream>,
    accepted: bool,
    accepts: nat,
    emitting: set<StreamId>,
    restart: set<StreamId>)

  /** The call state and its signals. `published` is what the properties said when the channel was
      registered on the bus; `log` holds the signals since then. */
  datatype Status = Status(
    registered: bool,
    published: StateChanged,
    state: CallState,
    flags: CallFlags,
    log: seq<StateChanged>)

  /** Whether the local client and the call as a whole have accepted; `replies` counts the
      successful replies to the D-Bus method Accept. */
  datatype Acceptance = Acceptance(locally: bool, accepted: bool, replies: nat)

  datatype Holding = Holding(state: HoldState, reason: HoldReason, log: seq<HoldChanged>)

  /** The members of the call and the signals about them. */
  datatype Roster = Roster(members: map<Handle, MemberFlags>, log: seq<MembersChanged<MemberFlags>>)

  datatype Call = Call(
    requested: bool,
    status: Status,
    acceptance: Acceptance,
    holding: Holding,
    roster: Roster,
    contents: seq<Content>,
    media: Media)

  /** The streams in the order in which nested loops over contents and streams visit them. */
  function Order(contents: seq<Content>): seq<StreamId> {
    if contents == [] then [] else contents[0].streams + Order(contents[1..])
  }

  lemma {:induction false} OrderSnoc(contents: seq<Content>, content: Content)
    ensures Order(contents + [content]) == Order(contents) + content.streams
  {
    if contents == [] {
      assert contents + [content] == [content];
      assert Order([content]) == content.streams + Order([]);
    } else {
      assert (contents + [content])[1..] == contents[1..] + [content];
      OrderSnoc(contents[1..], content);
    }
  }

  predicate Lists(contents: seq<Content>, i: int, p: StreamId) {
    0 <= i < |contents| && p in contents[i].streams
  }

  predicate NoRepeats(ps: seq<StreamId>) {
    forall a, b :: 0 <= a < b < |ps| ==> ps[a] != ps[b]
  }

  /** No content lists a stream twice, no two contents share one, and the table of streams holds
      exactly the listed streams, each with the disposition of its content. */
  ghost predicate Tree(contents: seq<Content>, streams: map<StreamId, Stream>) {
    && (forall i :: 0 <= i < |contents| ==> NoRepeats(contents[i].streams))
    && (forall i, j, p :: Lists(contents, i, p) && Lists(contents, j, p) ==> i == j)
    && (forall i, p :: Lists(contents, i, p) ==>
          p in streams && streams[p].line.initial == contents[i].initial)
    && (forall p :: p in streams ==> exists i :: Lists(contents, i, p))
  }

  ghost predicate WellFormed(c: Call) {
    && Tree(c.contents, c.media.streams)
    && (forall p :: p in Order(c.contents) <==> p in c.media.streams)
  }

  lemma {:induction false} OrderElements(contents: seq<Content>, p: StreamId)
    ensures p in Order(contents) <==> exists i :: Lists(contents, i, p)
  {
    if contents != [] {
      OrderElements(contents[1..], p);
      if i :| Lists(contents[1..], i, p) {
        assert Lists(contents, i + 1, p);
      }
      if p in contents[0].streams {
        assert Lists(contents, 0, p);
      }
      if i :| Lists(contents, i, p) {
        assert i == 0 || Lists(contents[1..], i - 1, p);
      }
    }
  }

  lemma OrderCovers(contents: seq<Content>, streams: map<StreamId, Stream>)
    requires Tree(contents, streams)
    ensures forall p :: p in Order(contents) <==> p in streams
  {
    forall p ensures p in Order(contents) <==> p in streams {
      OrderElements(contents, p);
    }
  }

  predicate Sends(local: SendingState) {
    local == Sending || local == PendingStopSending
  }

  predicate WantsReceive(l: Line) {
    exists h :: h in l.remote && (l.remote[h] == PendingSend || l.remote[h] == Sending)
  }

  predicate EndpointConnected(e: EndpointState) {
    e == ProvisionallyConnected || e == FullyConnected
  }

  predicate StreamConnected(l: Line) {
    exists k :: 0 <= k < |l.endpoints| && EndpointConnected(l.endpoints[k])
  }

  /** Every stream has a connected endpoint. */
  predicate Connected(c: Call) {
    forall p :: p in c.media.streams ==> StreamConnected(c.media.streams[p].line)
  }

  predicate IsHeld(hold: HoldState) {
    hold == PendingHold || hold == Held
  }

  /** What an observer that started from an empty table holds after following the signals. */
  function Replay<V>(log: seq<MembersChanged<V>>): map<Handle, V> {
    if log == [] then map[]
    else
      var last := log[|log| - 1];
      (Replay(log[..|log| - 1]) + last.updates) - last.removed
  }
}
