/** The objects of a call: a channel, its contents and their streams, each updated in place. Every
    method is specified by a function of the value the object stands for.
 */
module CallObjects {
  import opened CallTypes
  import opened CallFlow
  import opened CallHold
  import opened CallEngine
  import opened CallLoops

  class MediaStream {
    const id: StreamId
    var line: Line
    var local: SendingState
    var sending: FlowState
    var receiving: FlowState
    var localSending: bool
    var waiting: bool

    constructor (id: StreamId, line: Line, local: SendingState, wish: bool)
      ensures this.id == id && View() == Stream(line, local, Stopped, Stopped, wish, false)
    {
      this.id, this.line, this.local := id, line, local;
      sending, receiving, localSending, waiting := Stopped, Stopped, wish, false;
    }

    ghost function View(): Stream
      reads this
    {
      Stream(line, local, sending, receiving, localSending, waiting)
    }

    /** Somebody on the other side sends, or is about to. */
    method Wanted() returns (wants: bool)
      ensures wants == WantsReceive(line)
    {
      var left := line.remote.Keys;
      wants := false;
      while left != {} && !wants
        invariant left <= line.remote.Keys
        invariant wants ==> WantsReceive(line)
        invariant WantsReceive(line) ==>
                    wants || exists h :: h in left && (line.remote[h] == PendingSend || line.remote[h] == Sending)
        decreases |left|
      {
        var h :| h in left;
        left := left - {h};
        if line.remote[h] == PendingSend || line.remote[h] == Sending {
          wants := true;
        }
      }
    }

    method HasConnectedEndpoint() returns (connected: bool)
      ensures connected == StreamConnected(line)
    {
      connected := false;
      var k := 0;
      while k < |line.endpoints| && !connected
        invariant 0 <= k <= |line.endpoints|
        invariant connected ==> StreamConnected(line)
        invariant !connected ==> forall i :: 0 <= i < k ==> !EndpointConnected(line.endpoints[i])
        decreases |line.endpoints| - k, !connected
      {
        if line.endpoints[k] == ProvisionallyConnected || line.endpoints[k] == FullyConnected {
          assert EndpointConnected(line.endpoints[k]);
          connected := true;
        }
        k := k + 1;
      }
    }

    /** set_sending_state */
    method SetSendingState(state: FlowState)
      requires state == PendingStart || state == PendingStop
      modifies this`sending
      ensures sending == Flow(old(sending), state == PendingStart)
    {
      if sending == state || (state == PendingStart && sending == Started) || (state == PendingStop && sending == Stopped) {
        return;
      }
      sending := state;
    }
  }

  function Ids(streams: seq<MediaStream>): seq<StreamId> {
    if streams == [] then [] else [streams[0].id] + Ids(streams[1..])
  }

  class MediaContent {
    const initial: bool
    var streams: seq<MediaStream>

    constructor (initial: bool)
      ensures View() == Content(initial, []) && this.initial == initial && streams == []
    {
      this.initial, streams := initial, [];
    }

    ghost function View(): Content
      reads this
    {
      Content(initial, Ids(streams))
    }

    method IsConnected() returns (connected: bool)
      ensures connected == forall s :: s in streams ==> StreamConnected(s.line)
    {
      var k := 0;
      while k < |streams|
        invariant 0 <= k <= |streams|
        invariant forall i :: 0 <= i < k ==> StreamConnected(streams[i].line)
      {
        var has := streams[k].HasConnectedEndpoint();
        if !has {
          return false;
        }
        k := k + 1;
      }
      return true;
    }
  }

  ghost function Views(contents: seq<MediaContent>): seq<Content>
    reads contents
  {
    if contents == [] then [] else [contents[0].View()] + Views(contents[1..])
  }

  lemma {:induction false} IdListed(streams: seq<MediaStream>, p: StreamId) returns (s: MediaStream)
    requires p in Ids(streams)
    ensures s in streams && s.id == p
  {
    if streams[0].id == p {
      s := streams[0];
    } else {
      s := IdListed(streams[1..], p);
    }
  }

  lemma {:induction false} Listed(contents: seq<MediaContent>, p: StreamId) returns (c: MediaContent, s: MediaStream)
    requires p in Order(Views(contents))
    ensures c in contents && s in c.streams && s.id == p
  {
    assert Views(contents)[1..] == Views(contents[1..]);
    if p in Ids(contents[0].streams) {
      c := contents[0];
      s := IdListed(c.streams, p);
    } else {
      c, s := Listed(contents[1..], p);
    }
  }

  lemma {:induction false} IdsAt(streams: seq<MediaStream>, k: nat)
    ensures |Ids(streams)| == |streams| && (k < |streams| ==> Ids(streams)[k] == streams[k].id)
  {
    if streams != [] {
      IdsAt(streams[1..], if k == 0 then 0 else k - 1);
    }
  }

  lemma {:induction false} ViewsAt(contents: seq<MediaContent>, k: nat)
    ensures |Views(contents)| == |contents| && (k < |contents| ==> Views(contents)[k] == contents[k].View())
  {
    if contents != [] {
      ViewsAt(contents[1..], if k == 0 then 0 else k - 1);
    }
  }

  lemma ViewsAll(contents: seq<MediaContent>)
    ensures |Views(contents)| == |contents|
    ensures forall i :: 0 <= i < |contents| ==> Views(contents)[i] == contents[i].View()
  {
    ViewsAt(contents, 0);
    forall i | 0 <= i < |contents|
      ensures Views(contents)[i] == contents[i].View()
    {
      ViewsAt(contents, i);
    }
  }

  class CallChannel {
    const requested: bool
    var status: Status
    var acceptance: Acceptance
    var holding: Holding
    var roster: Roster
    var contents: seq<MediaContent>
    var accepted: bool
    var accepts: nat
    var emitting: set<StreamId>
    var restart: set<StreamId>
    ghost var table: map<StreamId, MediaStream>

    /** A channel that was just made: nothing is connected to it, so an incoming call is initialised
        at once. */
    constructor (requested: bool)
      ensures Valid() && View() == Initial(requested) && contents == [] && table == map[]
    {
      this.requested := requested;
      status := Status(false, StateChanged(Unknown, NO_FLAGS), Unknown, NO_FLAGS, []);
      acceptance := Acceptance(false, false, 0);
      holding := Holding(Unheld, Requested, []);
      roster := Roster(map[], []);
      contents := [];
      accepted, accepts, emitting, restart := false, 0, {}, {};
      table := map[];
      new;
      SetState(if requested then PendingInitiator else Initialising, View());
    }

    ghost predicate Member(s: MediaStream)
      reads this`table
    {
      s.id in table && table[s.id] == s
    }

    /** The table knows exactly the streams in the lists, each under its own identifier. */
    ghost predicate Valid()
      reads this`table, this`contents, contents
    {
      && (forall p :: p in table ==> table[p].id == p)
      && (forall c, s :: c in contents && s in c.streams ==> Member(s))
      && (forall p :: p in Order(Views(contents)) <==> p in table)
    }

    ghost function Streams(): map<StreamId, Stream>
      reads this`table, table.Values
    {
      map p | p in table :: table[p].View()
    }

    ghost function MediaView(): Media
      reads this`table, table.Values, this`accepted, this`accepts, this`emitting, this`restart
    {
      Media(Streams(), accepted, accepts, emitting, restart)
    }

    ghost function View(): (r: Call)
      reads this, contents, table.Values
      ensures Valid() ==> ScannableCall(r)
    {
      Call(requested, status, acceptance, holding, roster, Views(contents), MediaView())
    }

    // ---- connectivity and the call state

    /** tp_base_media_call_channel_is_connected */
    method IsConnected() returns (connected: bool)
      requires Valid()
      ensures connected == Connected(View())
    {
      ConnectedByLists();
      var k := 0;
      while k < |contents|
        invariant 0 <= k <= |contents|
        invariant forall i :: 0 <= i < k ==> forall s :: s in contents[i].streams ==> StreamConnected(s.line)
      {
        var all := contents[k].IsConnected();
        if !all {
          return false;
        }
        k := k + 1;
      }
      return true;
    }

    lemma ConnectedByLists()
      requires Valid()
      ensures Connected(View()) <==> forall c, s :: c in contents && s in c.streams ==> StreamConnected(s.line)
    {
      forall p | p in table
        ensures exists c, s :: c in contents && s in c.streams && s == table[p]
      {
        var c, s := Listed(contents, p);
        assert Member(s);
      }
      forall c, s | c in contents && s in c.streams
        ensures Connected(View()) ==> StreamConnected(s.line)
      {
        assert Member(s) && View().media.streams[s.id].line == s.line;
      }
    }

    method EmitStateChanged()
      modifies this`status
      ensures status == Emit(old(status))
    {
      if status.registered {
        status := status.(log := status.log + [StateChanged(status.state, status.flags)]);
      }
    }

    /** tp_base_call_channel_set_state */
    method SetState(state: CallState, ghost c: Call)
      requires Valid() && View() == c
      modifies this`status
      ensures Valid() && View() == CallEngine.SetState(c, state)
    {
      var connected := IsConnected();
      EnterState(state, connected);
      FieldsChanged(c);
    }

    /** Only fields of the channel itself were written, and not its lists. */
    twostate lemma FieldsChanged(new c: Call)
      requires old(Valid()) && old(View()) == c
      requires unchanged(`contents) && unchanged(`table) && unchanged(contents) && unchanged(table.Values)
      ensures Valid()
      ensures View() == Call(requested, status, acceptance, holding, roster, c.contents,
                             Media(c.media.streams, accepted, accepts, emitting, restart))
    {
      assert Views(contents) == old(Views(contents));
      assert Streams() == old(Streams());
    }

    method EnterState(state: CallState, connected: bool)
      modifies this`status
      ensures status == Enter(old(status), connected, state)
    {
      var before := status.state;
      status := status.(state := state);
      if before == state {
        return;
      }
      if status.state != Initialised {
        status := status.(flags := status.flags.(ringing := false));
      }
      if status.state != Initialising && status.state != Initialised {
        status := status.(flags := status.flags.(queued := false));
      }
      EmitStateChanged();
      if status.state == Initialising && connected {
        status := status.(state := Initialised);
        EmitStateChanged();
      }
      if status.state == Accepted && connected {
        status := status.(state := Active);
        EmitStateChanged();
      }
    }

    /** The D-Bus method SetRinging. */
    method SetRinging() returns (reply: Reply)
      modifies this`status
      ensures status == DoSetRinging(requested, old(status))
      ensures reply == if requested then InvalidArgument else if old(status).state != Initialised then NotAvailable else Done
    {
      if requested {
        return InvalidArgument;
      } else if status.state != Initialised {
        return NotAvailable;
      }
      if !status.flags.ringing {
        status := status.(flags := CallFlags(true, false));
        EmitStateChanged();
      }
      return Done;
    }

    /** The D-Bus method SetQueued. */
    method SetQueued() returns (reply: Reply)
      modifies this`status
      ensures status == DoSetQueued(requested, old(status))
      ensures reply == if requested then InvalidArgument
                       else if old(status).state != Initialising && old(status).state != Initialised then NotAvailable
                       else Done
    {
      if requested {
        return InvalidArgument;
      } else if status.state != Initialising && status.state != Initialised {
        return NotAvailable;
      }
      if !status.flags.queued {
        status := status.(flags := status.flags.(queued := true));
        EmitStateChanged();
      }
      return Done;
    }

    /** The D-Bus method Hangup. */
    method Hangup(ghost c: Call) returns (reply: Reply)
      requires Valid() && View() == c
      modifies this`status
      ensures Valid() && View() == CallEngine.SetState(c, Ended)
      ensures reply == if c.status.state == Ended then NotAvailable else Done
    {
      if status.state == Ended {
        return NotAvailable;
      }
      SetState(Ended, c);
      return Done;
    }

    /** _tp_base_media_call_channel_endpoint_state_changed */
    method EndpointStateChanged(ghost c: Call)
      requires Valid() && View() == c
      modifies this`status
      ensures Valid() && View() == c.(status := EndpointChanged(c.status, Connected(c)))
    {
      var connected := IsConnected();
      FollowEndpoints(connected);
      FieldsChanged(c);
    }

    method FollowEndpoints(connected: bool)
      modifies this`status
      ensures status == EndpointChanged(old(status), connected)
    {
      match status.state
      case Initialising => if connected { EnterState(Initialised, connected); }
      case Active => if !connected { EnterState(Accepted, connected); }
      case Accepted => if connected { EnterState(Active, connected); }
      case _ =>
    }

    /** The D-Bus method Accept. */
    method Accept(ghost c: Call) returns (reply: Reply)
      requires Valid() && View() == c
      modifies this`status, this`acceptance, table.Values, this`accepted, this`accepts, this`emitting, this`restart
      ensures Valid() && View() == DoAccept(c)
      ensures reply == if CanAccept(c) then Done else NotAvailable
    {
      reply := BeginAccept(c);
      if reply == Done {
        AcceptMedia(Accepting(c));
      }
    }

    /** Everything of the D-Bus method up to the class's accept; the reply that follows it is
        counted here. */
    method BeginAccept(ghost c: Call) returns (reply: Reply)
      requires Valid() && View() == c
      modifies this`status, this`acceptance
      ensures Valid() && reply == (if CanAccept(c) then Done else NotAvailable)
      ensures View() == if CanAccept(c) then Accepting(c) else c.(acceptance := c.acceptance.(locally := true))
    {
      var connected := IsConnected();
      reply := AcceptFields(connected);
      FieldsChanged(c);
    }

    method AcceptFields(connected: bool) returns (reply: Reply)
      modifies this`status, this`acceptance
      ensures var can := old(status).state == if requested then PendingInitiator else Initialised;
              && reply == (if can then Done else NotAvailable)
              && status == (if can then Enter(old(status), connected, if requested then Initialising else Accepted)
                            else old(status))
              && acceptance == if can then Acceptance(true, old(acceptance).accepted || !requested, old(acceptance).replies + 1)
                               else old(acceptance).(locally := true)
    {
      acceptance := acceptance.(locally := true);
      if requested {
        if status.state == PendingInitiator {
          EnterState(Initialising, connected);
        } else {
          return NotAvailable;
        }
      } else {
        if status.state == Initialised {
          EnterState(Accepted, connected);
        } else {
          return NotAvailable;
        }
        acceptance := acceptance.(accepted := true);
      }
      acceptance := acceptance.(replies := acceptance.replies + 1);
      return Done;
    }

    /** tp_base_media_call_channel_accept */
    method AcceptMedia(ghost c: Call)
      requires Valid() && View() == c
      modifies table.Values, this`accepted, this`accepts, this`emitting, this`restart
      ensures Valid() && View() == c.(media := CallEngine.AcceptMedia(EnvOf(c), c.media))
    {
      TryAccept(c, c.media);
      if !accepted {
        WaitForStreamsToReceive(c, CallFlow.TryAccept(EnvOf(c), c.media));
      }
    }

    /** wait_for_streams_to_be_receiving */
    method WaitForStreamsToReceive(ghost c: Call, ghost m: Media)
      requires Shows(c, m)
      modifies table.Values
      ensures Shows(c, WaitForStreams(m))
    {
      AwaitsInitial(EnvOf(c), m);
      EditAll(Await, c, m);
    }

    /** tp_base_call_channel_remote_accept */
    method RemoteAccept(ghost c: Call)
      requires Valid() && View() == c
      modifies this`status, this`acceptance, table.Values
      ensures Valid() && View() == DoRemoteAccept(c)
    {
      var can := BeginRemoteAccept(c);
      if can {
        TakesUp(c);
        EditAll(TakeUp, RemoteAccepting(c), c.media);
      }
    }

    method BeginRemoteAccept(ghost c: Call) returns (can: bool)
      requires Valid() && View() == c
      modifies this`status, this`acceptance
      ensures Valid() && can == CanRemoteAccept(c) && View() == if can then RemoteAccepting(c) else c
    {
      if !requested || acceptance.accepted || (status.state != Initialised && status.state != Initialising) {
        return false;
      }
      TakeRemoteAccept(c);
      return true;
    }

    method TakeRemoteAccept(ghost c: Call)
      requires Valid() && View() == c
      modifies this`status, this`acceptance
      ensures Valid() && View() == RemoteAccepting(c)
    {
      var connected := IsConnected();
      acceptance := acceptance.(accepted := true);
      EnterState(Accepted, connected);
      FieldsChanged(c);
    }

    // ---- flows and the deferred accept

    /** The channel stands for the call `c` with the media `m`. */
    ghost predicate Shows(c: Call, m: Media)
      reads this, contents, table.Values
    {
      Valid() && View() == c.(media := m) && Scannable(EnvOf(c), m)
    }

    /** Only the stream `s` was edited. */
    twostate lemma Edited(s: MediaStream, new c: Call, new m: Media)
      requires old(Shows(c, m)) && Member(s) && unchanged(this) && unchanged(contents)
      requires forall t :: t in table.Values && t != s ==> unchanged(t)
      ensures Shows(c, Put(m, s.id, s.View()))
    {
      forall p | p in table && p != s.id
        ensures Streams()[p] == old(Streams())[p]
      {
        assert table[p] in table.Values && table[p] != s;
      }
      assert Streams() == m.streams[s.id := s.View()];
    }

    /** tp_base_media_call_stream_update_sending_state */
    method UpdateSending(s: MediaStream)
      modifies s`sending
      ensures s.View() == UpdatedSending(EnvOf(View()), old(s.View()))
    {
      var send := false;
      if !(holding.state == PendingHold || holding.state == Held)
         && acceptance.accepted && !s.line.remotelyHeld && !s.line.sendingFailure
      {
        send := s.localSending;
      }
      s.SetSendingState(if send then PendingStart else PendingStop);
    }

    /** tp_base_media_call_stream_set_local_sending */
    method SetLocalSending(s: MediaStream, wish: bool)
      modifies s`sending, s`localSending
      ensures s.View() == WithLocalSending(EnvOf(View()), old(s.View()), wish)
    {
      if wish == s.localSending {
        return;
      }
      s.localSending := wish;
      UpdateSending(s);
    }

    /** What update_receiving_state asks for. */
    method ReceivingGoal(s: MediaStream) returns (goal: FlowState)
      ensures goal == ReceiveGoal(EnvOf(View()), s.View())
    {
      var start := false;
      if acceptance.locally && !s.line.receivingFailure && !(holding.state == PendingHold || holding.state == Held) {
        start := s.Wanted();
      }
      goal := if start then PendingStart else PendingStop;
      if (goal == PendingStart && s.receiving == Started) || (goal == PendingStop && s.receiving == Stopped) {
        goal := s.receiving;
      }
    }

    method SetReceiving(s: MediaStream, flow: FlowState, ghost c: Call, ghost m: Media)
      requires Shows(c, m) && Member(s)
      modifies s`receiving
      ensures Shows(c, Put(m, s.id, m.streams[s.id].(receiving := flow)))
    {
      s.receiving := flow;
      Edited(s, c, m);
    }

    /** tp_base_media_call_stream_update_receiving_state */
    method UpdateReceiving(s: MediaStream, ghost c: Call, ghost m: Media)
      requires Shows(c, m) && Member(s)
      modifies table.Values, this`accepted, this`accepts, this`emitting, this`restart
      ensures Shows(c, CallFlow.UpdateReceiving(EnvOf(c), m, s.id))
      decreases Unsettled(EnvOf(c), m), 0, 1
    {
      UpdateUnfolds(EnvOf(c), m, s.id);
      var goal := ReceivingGoal(s);
      if goal != s.receiving {
        MoveReceiving(s, goal, c, m);
      }
    }

    method MoveReceiving(s: MediaStream, goal: FlowState, ghost c: Call, ghost m: Media)
      requires Shows(c, m) && Member(s) && s.id in Unsettled(EnvOf(c), m) && goal == ReceiveGoal(EnvOf(c), m.streams[s.id])
      modifies table.Values, this`accepted, this`accepts, this`emitting, this`restart
      ensures Shows(c, CallFlow.Notify(EnvOf(c), Moved(EnvOf(c), m, s.id), s.id))
      decreases Unsettled(EnvOf(c), m), 0, 0
    {
      UpdateUnfolds(EnvOf(c), m, s.id);
      SetReceiving(s, goal, c, m);
      Notify(s, c, Moved(EnvOf(c), m, s.id));
    }

    method SetEmitting(s: MediaStream, running: bool, ghost c: Call, ghost m: Media)
      requires Shows(c, m)
      modifies this`emitting
      ensures Shows(c, m.(emitting := if running then m.emitting + {s.id} else m.emitting - {s.id}))
    {
      emitting := if running then emitting + {s.id} else emitting - {s.id};
      FieldsChanged(c.(media := m));
    }

    method SetRestart(s: MediaStream, wanted: bool, ghost c: Call, ghost m: Media)
      requires Shows(c, m)
      modifies this`restart
      ensures Shows(c, m.(restart := if wanted then m.restart + {s.id} else m.restart - {s.id}))
    {
      restart := if wanted then restart + {s.id} else restart - {s.id};
      FieldsChanged(c.(media := m));
    }

    /** An emission of notify::receiving-state. */
    method Notify(s: MediaStream, ghost c: Call, ghost m: Media)
      requires Shows(c, m) && Member(s)
      modifies table.Values, this`accepted, this`accepts, this`emitting, this`restart
      ensures Shows(c, CallFlow.Notify(EnvOf(c), m, s.id))
      decreases Unsettled(EnvOf(c), m), 6
    {
      if s.waiting {
        if s.id in emitting {
          SetRestart(s, true, c, m);
        } else {
          NotifyEmits(EnvOf(c), m, s.id);
          Emission(s, c, m, m.(emitting := m.emitting + {s.id}));
        }
      }
    }

    method Emission(s: MediaStream, ghost c: Call, ghost m: Media, ghost d: Media)
      requires Shows(c, m) && Member(s) && d == m.(emitting := m.emitting + {s.id})
      requires Unsettled(EnvOf(c), d) == Unsettled(EnvOf(c), m)
      modifies table.Values, this`accepted, this`accepts, this`emitting, this`restart
      ensures var e := CallFlow.EmissionPass(EnvOf(c), d, s.id); Shows(c, e.(emitting := e.emitting - {s.id}))
      decreases Unsettled(EnvOf(c), m), 5, 2
    {
      SetEmitting(s, true, c, m);
      EmissionPass(s, c, d);
      SetEmitting(s, false, c, CallFlow.EmissionPass(EnvOf(c), d, s.id));
    }

    /** The emission is repeated as long as it is to restart. */
    method EmissionPass(s: MediaStream, ghost c: Call, ghost m: Media)
      requires Shows(c, m) && Member(s)
      modifies table.Values, this`accepted, this`accepts, this`emitting, this`restart
      ensures Shows(c, CallFlow.EmissionPass(EnvOf(c), m, s.id))
      decreases Unsettled(EnvOf(c), m), 5, 1
    {
      PassUnfolds(EnvOf(c), m, s.id);
      HandlersAndAfter(s, c, m);
    }

    method HandlersAndAfter(s: MediaStream, ghost c: Call, ghost m: Media)
      requires Shows(c, m) && Member(s)
      modifies table.Values, this`accepted, this`accepts, this`emitting, this`restart
      ensures Shows(c, AfterPass(EnvOf(c), Handled(EnvOf(c), m, s.id), s.id))
      decreases Unsettled(EnvOf(c), m), 5, 0
    {
      RunHandlers(s, c, m);
      AfterHandlers(s, c, m, Handled(EnvOf(c), m, s.id));
    }

    method AfterHandlers(s: MediaStream, ghost c: Call, ghost m: Media, ghost e: Media)
      requires Shows(c, e) && Member(s) && (s.id in e.restart ==> Unsettled(EnvOf(c), e) < Unsettled(EnvOf(c), m))
      modifies table.Values, this`accepted, this`accepts, this`emitting, this`restart
      ensures Shows(c, AfterPass(EnvOf(c), e, s.id))
      decreases Unsettled(EnvOf(c), m), 4, 3
    {
      assert s.View() == e.streams[s.id];
      if s.id in restart && s.waiting {
        EmissionPass(s, c, e);
      } else {
        SetRestart(s, false, c, e);
      }
    }

    /** One pass over the handlers connected to the stream's notification. */
    method RunHandlers(s: MediaStream, ghost c: Call, ghost m: Media)
      requires Shows(c, m) && Member(s)
      modifies table.Values, this`accepted, this`accepts, this`emitting, this`restart
      ensures Shows(c, Handled(EnvOf(c), m, s.id))
      decreases Unsettled(EnvOf(c), m), 4, 2
    {
      SetRestart(s, false, c, m);
      assert Unsettled(EnvOf(c), m.(restart := m.restart - {s.id})) == Unsettled(EnvOf(c), m);
      HandlerPass(s, c, m.(restart := m.restart - {s.id}));
    }

    method Disconnect(s: MediaStream, ghost c: Call, ghost m: Media)
      requires Shows(c, m) && Member(s)
      modifies s`waiting
      ensures Shows(c, Put(m, s.id, m.streams[s.id].(waiting := false)))
    {
      s.waiting := false;
      Edited(s, c, m);
    }

    /** streams_changed_cb */
    method HandlerPass(s: MediaStream, ghost c: Call, ghost m: Media)
      requires Shows(c, m) && Member(s)
      modifies table.Values, this`accepted, this`accepts, this`emitting, this`restart
      ensures Shows(c, CallFlow.HandlerPass(EnvOf(c), m, s.id))
      decreases Unsettled(EnvOf(c), m), 4, 1
    {
      TryAccept(c, m);
      if accepted {
        Disconnect(s, c, CallFlow.TryAccept(EnvOf(c), m));
      }
    }

    /** tp_base_media_call_channel_try_accept */
    method TryAccept(ghost c: Call, ghost m: Media)
      requires Shows(c, m)
      modifies table.Values, this`accepted, this`accepts, this`emitting, this`restart
      ensures Shows(c, CallFlow.TryAccept(EnvOf(c), m))
      decreases Unsettled(EnvOf(c), m), 4, 0
    {
      if !accepted {
        AttemptUnfolds(c, m);
        var ready := AllReadyToAccept(c, m);
        if ready || holding.state == PendingHold || holding.state == Held {
          AcceptReal(c, Scan(EnvOf(c), m, Order(c.contents)).0);
        }
      }
    }

    /** tp_base_call_channel_accept_real, and the note that it ran */
    method AcceptReal(ghost c: Call, ghost m: Media)
      requires Shows(c, m)
      modifies table.Values, this`accepted, this`accepts
      ensures Shows(c, BaseAccept(EnvOf(c), m))
    {
      EditAll(Release, c, m);
      BaseAcceptReleases(EnvOf(c), m);
      NoteAccept(c, m.(streams := AppliedAll(Release, EnvOf(c), m.streams)));
    }

    method NoteAccept(ghost c: Call, ghost m: Media)
      requires Shows(c, m)
      modifies this`accepted, this`accepts
      ensures Shows(c, m.(accepted := true, accepts := m.accepts + 1))
    {
      accepts := accepts + 1;
      accepted := true;
      FieldsChanged(c.(media := m));
    }

    method AllReadyToAccept(ghost c: Call, ghost m: Media) returns (ready: bool)
      requires Shows(c, m)
      modifies table.Values, this`accepted, this`accepts, this`emitting, this`restart
      ensures ready == Scan(EnvOf(c), m, Order(c.contents)).1 && Shows(c, Scan(EnvOf(c), m, Order(c.contents)).0)
      decreases Unsettled(EnvOf(c), m), 3, 4
    {
      ghost var trail := MakeScanTrail(EnvOf(c), m, true, Order(c.contents));
      ScanTrailEnds(EnvOf(c), Order(c.contents), trail);
      ready := ContentsReady(c, m, trail);
    }

    /** The loop of try_accept over the contents; `trail` holds what each turn reaches. */
    method ContentsReady(ghost c: Call, ghost m: Media, ghost trail: seq<(Media, bool)>) returns (ready: bool)
      requires Shows(c, m) && ScanTrail(EnvOf(c), m, Order(c.contents), trail) && trail[0].1
      modifies table.Values, this`accepted, this`accepts, this`emitting, this`restart
      ensures Shows(c, trail[|Order(c.contents)|].0) && ready == trail[|Order(c.contents)|].1
      decreases Unsettled(EnvOf(c), m), 3, 3
    {
      ViewsAt(contents, 0);
      ready := true;
      var k := 0;
      while k < |contents|
        invariant 0 <= k <= |contents| == |c.contents| && Before(c, k) <= |Order(c.contents)|
        invariant Shows(c, trail[Before(c, k)].0) && ready == trail[Before(c, k)].1
      {
        var content := ContentTurn(k, c, m, trail);
        ready := ready && content;
        k := k + 1;
      }
      assert c.contents[..k] == c.contents;
    }

    method ContentTurn(k: nat, ghost c: Call, ghost m: Media, ghost trail: seq<(Media, bool)>) returns (content: bool)
      requires k < |contents| == |c.contents| && ScanTrail(EnvOf(c), m, Order(c.contents), trail)
      requires Before(c, k) <= |Order(c.contents)| && Shows(c, trail[Before(c, k)].0)
      modifies table.Values, this`accepted, this`accepts, this`emitting, this`restart
      ensures Before(c, k + 1) <= |Order(c.contents)|
      ensures Shows(c, trail[Before(c, k + 1)].0) && trail[Before(c, k + 1)].1 == (trail[Before(c, k)].1 && content)
      decreases Unsettled(EnvOf(c), m), 3, 2
    {
      ListedAt(k, c);
      content := ReadyToAccept(contents[k], c, m, Before(c, k), trail);
    }

    /** _tp_base_media_call_content_ready_to_accept; the streams of the content are those from the
        `first` on. */
    method ReadyToAccept(content: MediaContent, ghost c: Call, ghost m: Media, ghost first: nat, ghost trail: seq<(Media, bool)>)
      returns (ready: bool)
      requires ScanTrail(EnvOf(c), m, Order(c.contents), trail) && ListedFrom(content, c, first) && Shows(c, trail[first].0)
      modifies table.Values, this`accepted, this`accepts, this`emitting, this`restart
      ensures first + |content.streams| <= |Order(c.contents)| && Shows(c, trail[first + |content.streams|].0)
      ensures trail[first + |content.streams|].1 == (trail[first].1 && ready)
      decreases Unsettled(EnvOf(c), m), 3, 1
    {
      ready := true;
      var k := 0;
      while k < |content.streams|
        invariant 0 <= k <= |content.streams| && Reached(content, c, first, trail[first + k].0)
        invariant trail[first + k].1 == (trail[first].1 && ready)
      {
        var one := NextStreamReady(content, k, c, m, first, trail);
        ready := ready && one;
        k := k + 1;
      }
    }

    method NextStreamReady(content: MediaContent, k: nat, ghost c: Call, ghost m: Media, ghost first: nat,
                           ghost trail: seq<(Media, bool)>) returns (one: bool)
      requires ScanTrail(EnvOf(c), m, Order(c.contents), trail)
      requires k < |content.streams| && first + |content.streams| <= |Order(c.contents)|
      requires Reached(content, c, first, trail[first + k].0)
      modifies table.Values, this`accepted, this`accepts, this`emitting, this`restart
      ensures Reached(content, c, first, trail[first + k + 1].0) && trail[first + k + 1].1 == (trail[first + k].1 && one)
      decreases Unsettled(EnvOf(c), m), 3, 0, 1
    {
      ScanTurnAt(EnvOf(c), m, Order(c.contents), trail, first + k);
      one := StreamTurn(content, k, c, m, first, trail[first + k], trail[first + k + 1]);
    }

    method StreamTurn(content: MediaContent, k: nat, ghost c: Call, ghost m: Media, ghost first: nat,
                      ghost before: (Media, bool), ghost after: (Media, bool)) returns (one: bool)
      requires Reached(content, c, first, before.0) && k < |content.streams|
      requires ScanTurn(EnvOf(c), before, content.streams[k].id, after)
      requires Unsettled(EnvOf(c), before.0) <= Unsettled(EnvOf(c), m)
      modifies table.Values, this`accepted, this`accepts, this`emitting, this`restart
      ensures Reached(content, c, first, after.0) && after.1 == (before.1 && one)
      decreases Unsettled(EnvOf(c), m), 3, 0, 0
    {
      one := ListedReadyToAccept(content, k, c, m, content.streams[k].id, before, after);
    }

    ghost predicate Reached(content: MediaContent, c: Call, first: nat, m: Media)
      reads this, contents, table.Values, content
    {
      ListedFrom(content, c, first) && Shows(c, m)
    }

    /** The streams of `content` stand in the order of all streams from `first` on. */
    ghost predicate ListedFrom(content: MediaContent, c: Call, first: nat)
      reads this`contents, content
    {
      && content in contents && first + |content.streams| <= |Order(c.contents)|
      && (forall j :: 0 <= j < |content.streams| ==> content.streams[j].id == Order(c.contents)[first + j])
    }

    lemma ListedAt(k: nat, c: Call)
      requires Views(contents) == c.contents && k < |contents| == |c.contents|
      ensures ListedFrom(contents[k], c, Before(c, k))
      ensures Before(c, k + 1) == Before(c, k) + |contents[k].streams| <= |Order(c.contents)|
    {
      OrderAt(c, k);
      ViewsAt(contents, k);
      IdsAt(contents[k].streams, 0);
      forall j | 0 <= j < |contents[k].streams|
        ensures contents[k].streams[j].id == Order(c.contents)[Before(c, k) + j]
      {
        IdsAt(contents[k].streams, j);
      }
    }

    method ListedReadyToAccept(content: MediaContent, k: nat, ghost c: Call, ghost m: Media, ghost p: StreamId,
                               ghost before: (Media, bool), ghost after: (Media, bool)) returns (ready: bool)
      requires Shows(c, before.0) && content in contents && k < |content.streams| && p == content.streams[k].id
      requires ScanTurn(EnvOf(c), before, p, after) && Unsettled(EnvOf(c), before.0) <= Unsettled(EnvOf(c), m)
      modifies table.Values, this`accepted, this`accepts, this`emitting, this`restart
      ensures Shows(c, after.0) && after.1 == (before.1 && ready)
      decreases Unsettled(EnvOf(c), m), 2, 1
    {
      assert Member(content.streams[k]);
      ready := StreamReadyToAccept(content.streams[k], c, before.0);
    }

    method StreamReadyToAccept(s: MediaStream, ghost c: Call, ghost m: Media) returns (ready: bool)
      requires Shows(c, m) && Member(s)
      modifies table.Values, this`accepted, this`accepts, this`emitting, this`restart
      ensures ready == ScanStream(EnvOf(c), m, s.id).1 && Shows(c, ScanStream(EnvOf(c), m, s.id).0)
      decreases Unsettled(EnvOf(c), m), 2, 0
    {
      var receiving, initial := s.receiving, s.line.initial;
      Propose(s, c, m);
      ProposedUnfolds(EnvOf(c), m, s.id);
      var wanted := ReceiveFromMembers(s, c, Put(m, s.id, Proposed(EnvOf(c), m.streams[s.id])));
      ready := !(wanted && receiving != Started && initial);
    }

    method Propose(s: MediaStream, ghost c: Call, ghost m: Media)
      requires Shows(c, m) && Member(s)
      modifies s
      ensures Shows(c, Put(m, s.id, Proposed(EnvOf(c), m.streams[s.id])))
    {
      if s.line.initial && !requested && s.local == PendingSend {
        SetLocalSending(s, true);
      }
      UpdateSending(s);
      Edited(s, c, m);
    }

    /** The receiving state is updated for every member that sends; once it is, the later updates
        change nothing. */
    method ReceiveFromMembers(s: MediaStream, ghost c: Call, ghost m: Media) returns (found: bool)
      requires Shows(c, m) && Member(s)
      modifies table.Values, this`accepted, this`accepts, this`emitting, this`restart
      ensures found == WantsReceive(m.streams[s.id].line)
      ensures Shows(c, Received(EnvOf(c), m, s.id, found))
      decreases Unsettled(EnvOf(c), m), 1, 1
    {
      var remote := s.line.remote;
      var left := remote.Keys;
      found := false;
      while left != {}
        invariant Member(s) && left <= remote.Keys && Shows(c, Received(EnvOf(c), m, s.id, found))
        invariant found <==> exists h :: h in remote.Keys - left && (remote[h] == PendingSend || remote[h] == Sending)
        decreases |left|
      {
        var h :| h in left;
        left := left - {h};
        if remote[h] == PendingSend || remote[h] == Sending {
          ReceiveFromMember(s, found, c, m);
          found := true;
        }
      }
    }

    method ReceiveFromMember(s: MediaStream, before: bool, ghost c: Call, ghost m: Media)
      requires Member(s) && s.id in m.streams && Scannable(EnvOf(c), m) && Shows(c, Received(EnvOf(c), m, s.id, before))
      modifies table.Values, this`accepted, this`accepts, this`emitting, this`restart
      ensures Shows(c, Received(EnvOf(c), m, s.id, true))
      decreases Unsettled(EnvOf(c), m), 1, 0
    {
      UpdateTwice(EnvOf(c), m, s.id);
      UpdateReceiving(s, c, Received(EnvOf(c), m, s.id, before));
    }

    // ---- going over all streams

    method EditStream(edit: Edit, s: MediaStream, ghost c: Call, ghost m: Media)
      requires Shows(c, m) && Member(s)
      modifies s
      ensures Shows(c, Put(m, s.id, Apply(edit, EnvOf(c), m.streams[s.id])))
    {
      EditRecord(edit, s);
      Edited(s, c, m);
    }

    method EditRecord(edit: Edit, s: MediaStream)
      modifies s
      ensures s.View() == Apply(edit, EnvOf(View()), old(s.View()))
    {
      match edit {
        case Release =>
          if s.line.initial && s.local == PendingSend {
            UpdateLocalState(s, Sending);
          }
        case Await =>
          if s.line.initial {
            s.waiting := true;
          }
        case TakeUp =>
          if s.line.initial {
            if s.local == Sending {
              SetLocalSending(s, true);
            }
            UpdateSending(s);
          }
        case CheckHold(members) =>
          CheckRemotelyHeld(s, members);
      }
    }

    /** tp_base_call_stream_update_local_sending_state */
    method UpdateLocalState(s: MediaStream, wish: SendingState)
      modifies s`local
      ensures s.View() == old(s.View()).(local := GateLocal(EnvOf(View()), wish))
    {
      var state := wish;
      if wish == Sending && !acceptance.accepted && !requested {
        state := PendingSend;
      }
      if s.local != state {
        s.local := state;
      }
    }

    method CheckRemotelyHeld(s: MediaStream, members: map<Handle, MemberFlags>)
      modifies s`line, s`sending
      ensures s.View() == RemoteHoldStream(EnvOf(View()), members, old(s.View()))
    {
      var left := s.line.remote.Keys;
      var held := true;
      while left != {}
        invariant left <= s.line.remote.Keys
        invariant held <==> forall h :: h in s.line.remote.Keys - left && h in members ==> members[h].held
        decreases |left|
      {
        var h :| h in left;
        left := left - {h};
        if h in members && !members[h].held {
          held := false;
        }
      }
      if held != s.line.remotelyHeld {
        s.line := s.line.(remotelyHeld := held);
        UpdateSending(s);
      }
    }

    method EditAll(edit: Edit, ghost c: Call, ghost m: Media)
      requires Shows(c, m)
      modifies table.Values
      ensures Shows(c, m.(streams := AppliedAll(edit, EnvOf(c), m.streams)))
    {
      ViewsAt(contents, 0);
      AppliedNone(edit, EnvOf(c), m, c.contents);
      var k := 0;
      while k < |contents|
        invariant 0 <= k <= |contents| == |c.contents|
        invariant Shows(c, Applied(edit, EnvOf(c), m, Order(c.contents[..k])))
      {
        EditContent(edit, c, m, k);
        k := k + 1;
      }
      AppliedEvery(edit, c, m);
    }

    method EditContent(edit: Edit, ghost c: Call, ghost m: Media, k: nat)
      requires k < |contents| == |c.contents| && Shows(c, Applied(edit, EnvOf(c), m, Order(c.contents[..k])))
      modifies table.Values
      ensures Shows(c, Applied(edit, EnvOf(c), m, Order(c.contents[..k + 1])))
    {
      ViewsAt(contents, k);
      EditStreams(edit, contents[k], c, m, Order(c.contents[..k]), c.contents[k].streams);
      assert c.contents[..k + 1] == c.contents[..k] + [c.contents[k]];
      OrderSnoc(c.contents[..k], c.contents[k]);
    }

    ghost predicate EditingAt(edit: Edit, content: MediaContent, c: Call, m: Media,
                              done: seq<StreamId>, ps: seq<StreamId>, k: nat)
      reads this, contents, table.Values, content
    {
      && content in contents && ps == Ids(content.streams) && k <= |content.streams| == |ps|
      && Shows(c, Applied(edit, EnvOf(c), m, done + ps[..k]))
    }

    method EditStreams(edit: Edit, content: MediaContent, ghost c: Call, ghost m: Media,
                       ghost done: seq<StreamId>, ghost ps: seq<StreamId>)
      requires content in contents && ps == Ids(content.streams) && Shows(c, Applied(edit, EnvOf(c), m, done))
      modifies table.Values
      ensures Shows(c, Applied(edit, EnvOf(c), m, done + ps))
    {
      EditingBegins(edit, content, c, m, done, ps);
      var k := 0;
      while k < |content.streams|
        invariant 0 <= k <= |content.streams|
        invariant EditingAt(edit, content, c, m, done, ps, k)
      {
        EditNext(edit, content, c, m, done, ps, k);
        k := k + 1;
      }
      EditingEnds(edit, content, c, m, done, ps);
    }

    lemma EditingBegins(edit: Edit, content: MediaContent, c: Call, m: Media, done: seq<StreamId>, ps: seq<StreamId>)
      requires content in contents && ps == Ids(content.streams) && Shows(c, Applied(edit, EnvOf(c), m, done))
      ensures EditingAt(edit, content, c, m, done, ps, 0)
    {
      IdsAt(content.streams, 0);
      assert done + ps[..0] == done;
    }

    lemma EditingEnds(edit: Edit, content: MediaContent, c: Call, m: Media, done: seq<StreamId>, ps: seq<StreamId>)
      requires EditingAt(edit, content, c, m, done, ps, |content.streams|)
      ensures Shows(c, Applied(edit, EnvOf(c), m, done + ps))
    {
      IdsAt(content.streams, 0);
      assert ps[..|ps|] == ps;
    }

    method EditNext(edit: Edit, content: MediaContent, ghost c: Call, ghost m: Media,
                    ghost done: seq<StreamId>, ghost ps: seq<StreamId>, k: nat)
      requires EditingAt(edit, content, c, m, done, ps, k) && k < |content.streams|
      modifies table.Values
      ensures EditingAt(edit, content, c, m, done, ps, k + 1)
    {
      ListedStream(content, k);
      EditStream(edit, content.streams[k], c, Applied(edit, EnvOf(c), m, done + ps[..k]));
      AppliedNextAt(edit, EnvOf(c), m, done, ps, k);
    }

    lemma ListedStream(content: MediaContent, k: nat)
      requires Valid() && content in contents && k < |content.streams|
      ensures |Ids(content.streams)| == |content.streams| && Ids(content.streams)[k] == content.streams[k].id
      ensures Member(content.streams[k])
    {
      IdsAt(content.streams, k);
    }

    // ---- local hold

    /** Both flows of a stream are brought to what the channel asks for. */
    method RefreshStream(s: MediaStream, ghost c: Call, ghost m: Media)
      requires Shows(c, m) && Member(s)
      modifies table.Values, this`accepted, this`accepts, this`emitting, this`restart
      ensures Shows(c, Refresh(EnvOf(c), m, s.id))
    {
      UpdateReceiving(s, c, m);
      RefreshSending(s, c, CallFlow.UpdateReceiving(EnvOf(c), m, s.id));
    }

    method RefreshSending(s: MediaStream, ghost c: Call, ghost m: Media)
      requires Shows(c, m) && Member(s)
      modifies s`sending
      ensures Shows(c, Put(m, s.id, UpdatedSending(EnvOf(c), m.streams[s.id])))
    {
      UpdateSending(s);
      Edited(s, c, m);
    }

    /** One turn of the inner loop of update_hold_state. */
    method HoldStream(s: MediaStream, ghost c: Call, ghost m: Media) returns (stopped: bool, started: bool)
      requires Shows(c, m) && Member(s)
      modifies table.Values, this`accepted, this`accepts, this`emitting, this`restart
      ensures var d := Refresh(EnvOf(c), m, s.id);
              && Shows(c, d) && stopped == StreamStopped(d.streams[s.id])
              && started == StreamStarted(m.streams[s.id].local, m.streams[s.id].line, d.streams[s.id])
    {
      var wants := s.Wanted();
      var local := s.local;
      RefreshStream(s, c, m);
      assert s.View() == Refresh(EnvOf(c), m, s.id).streams[s.id];
      stopped := !(s.sending != Stopped || s.receiving != Stopped);
      started := !((s.sending != Started && local == Sending) || (s.receiving != Started && wants));
    }

    /** The loops of update_hold_state. */
    method HoldContents(ghost c: Call, ghost m: Media) returns (stopped: bool, started: bool)
      requires Shows(c, m)
      modifies table.Values, this`accepted, this`accepts, this`emitting, this`restart
      ensures Shows(c, HoldScan(EnvOf(c), m, Order(c.contents)).0)
      ensures stopped == HoldScan(EnvOf(c), m, Order(c.contents)).1 && started == HoldScan(EnvOf(c), m, Order(c.contents)).2
    {
      ghost var trail := MakeHoldTrail(EnvOf(c), (m, true, true), Order(c.contents));
      HoldTrailEnds(EnvOf(c), Order(c.contents), trail);
      stopped, started := HoldAll(c, m, trail);
    }

    method HoldAll(ghost c: Call, ghost m: Media, ghost trail: seq<(Media, bool, bool)>) returns (stopped: bool, started: bool)
      requires Shows(c, m) && HoldTrail(EnvOf(c), Order(c.contents), trail) && trail[0] == (m, true, true)
      modifies table.Values, this`accepted, this`accepts, this`emitting, this`restart
      ensures var (d, allStopped, allStarted) := trail[|Order(c.contents)|];
              Shows(c, d) && stopped == allStopped && started == allStarted
    {
      ViewsAt(contents, 0);
      BeforeEnds(c);
      stopped, started := true, true;
      var k := 0;
      while k < |contents|
        invariant 0 <= k <= |contents| == |c.contents| && Before(c, k) <= |Order(c.contents)|
        invariant Shows(c, trail[Before(c, k)].0)
        invariant stopped == trail[Before(c, k)].1 && started == trail[Before(c, k)].2
      {
        stopped, started := HoldContent(k, c, trail, stopped, started);
        k := k + 1;
      }
    }

    method HoldContent(k: nat, ghost c: Call, ghost trail: seq<(Media, bool, bool)>, stopped0: bool, started0: bool)
      returns (stopped: bool, started: bool)
      requires k < |contents| == |c.contents| && HoldTrail(EnvOf(c), Order(c.contents), trail)
      requires Before(c, k) <= |Order(c.contents)| && Shows(c, trail[Before(c, k)].0)
      requires stopped0 == trail[Before(c, k)].1 && started0 == trail[Before(c, k)].2
      modifies table.Values, this`accepted, this`accepts, this`emitting, this`restart
      ensures Before(c, k + 1) <= |Order(c.contents)| && Shows(c, trail[Before(c, k + 1)].0)
      ensures stopped == trail[Before(c, k + 1)].1 && started == trail[Before(c, k + 1)].2
    {
      ListedAt(k, c);
      stopped, started := HoldStreams(contents[k], c, Before(c, k), trail, stopped0, started0);
    }

    method HoldStreams(content: MediaContent, ghost c: Call, ghost first: nat, ghost trail: seq<(Media, bool, bool)>,
                       stopped0: bool, started0: bool) returns (stopped: bool, started: bool)
      requires HoldTrail(EnvOf(c), Order(c.contents), trail) && ListedFrom(content, c, first) && Shows(c, trail[first].0)
      requires stopped0 == trail[first].1 && started0 == trail[first].2
      modifies table.Values, this`accepted, this`accepts, this`emitting, this`restart
      ensures first + |content.streams| <= |Order(c.contents)| && Shows(c, trail[first + |content.streams|].0)
      ensures stopped == trail[first + |content.streams|].1 && started == trail[first + |content.streams|].2
    {
      stopped, started := stopped0, started0;
      var k := 0;
      while k < |content.streams|
        invariant 0 <= k <= |content.streams| && Reached(content, c, first, trail[first + k].0)
        invariant stopped == trail[first + k].1 && started == trail[first + k].2
      {
        stopped, started := HoldNext(content, k, c, first, trail, stopped, started);
        k := k + 1;
      }
    }

    method HoldNext(content: MediaContent, k: nat, ghost c: Call, ghost first: nat, ghost trail: seq<(Media, bool, bool)>,
                    stopped0: bool, started0: bool) returns (stopped: bool, started: bool)
      requires HoldTrail(EnvOf(c), Order(c.contents), trail)
      requires k < |content.streams| && first + |content.streams| <= |Order(c.contents)|
      requires Reached(content, c, first, trail[first + k].0)
      requires stopped0 == trail[first + k].1 && started0 == trail[first + k].2
      modifies table.Values, this`accepted, this`accepts, this`emitting, this`restart
      ensures Reached(content, c, first, trail[first + k + 1].0)
      ensures stopped == trail[first + k + 1].1 && started == trail[first + k + 1].2
    {
      assert HoldTurnOf(EnvOf(c), Order(c.contents), trail, first + k);
      stopped, started := HoldTurned(content, k, c, first, trail[first + k], Order(c.contents)[first + k], stopped0, started0);
    }

    method HoldTurned(content: MediaContent, k: nat, ghost c: Call, ghost first: nat, ghost before: (Media, bool, bool),
                      ghost p: StreamId, stopped0: bool, started0: bool) returns (stopped: bool, started: bool)
      requires Reached(content, c, first, before.0) && k < |content.streams| && stopped0 == before.1 && started0 == before.2
      requires p == content.streams[k].id && p in before.0.streams
      modifies table.Values, this`accepted, this`accepts, this`emitting, this`restart
      ensures var after := Turned(EnvOf(c), before, p);
              Reached(content, c, first, after.0) && stopped == after.1 && started == after.2
    {
      stopped, started := HoldListed(content, k, c, before.0, p);
      stopped, started := stopped0 && stopped, started0 && started;
    }

    method HoldListed(content: MediaContent, k: nat, ghost c: Call, ghost m: Media, ghost p: StreamId)
      returns (stopped: bool, started: bool)
      requires Shows(c, m) && content in contents && k < |content.streams| && p == content.streams[k].id && p in m.streams
      modifies table.Values, this`accepted, this`accepts, this`emitting, this`restart
      ensures var d := Refresh(EnvOf(c), m, p);
              && Shows(c, d) && stopped == StreamStopped(d.streams[p])
              && started == StreamStarted(m.streams[p].local, m.streams[p].line, d.streams[p])
    {
      assert Member(content.streams[k]);
      stopped, started := HoldStream(content.streams[k], c, m);
    }

    /** Whether the streams have reached what either pending state waits for. */
    method HoldReached(ghost c: Call) returns (stopped: bool, started: bool)
      requires Valid() && View() == c
      modifies table.Values, this`accepted, this`accepts, this`emitting, this`restart
      ensures Shows(c, HoldScanned(c).0) && stopped == HoldScanned(c).1 && started == HoldScanned(c).2
    {
      stopped, started := true, true;
      if acceptance.accepted {
        stopped, started := HoldContents(c, c.media);
      }
    }

    /** update_hold_state */
    method UpdateHold(ghost c: Call)
      requires Valid() && View() == c
      modifies this`holding, table.Values, this`accepted, this`accepts, this`emitting, this`restart
      ensures Valid() && View() == CallHold.UpdateHold(c)
      decreases IsPending(c.holding.state), 0
    {
      if holding.state != PendingHold && holding.state != PendingUnhold {
        return;
      }
      var next := holding.state;
      var stopped, started := HoldReached(c);
      if holding.state == PendingHold && stopped {
        next := Held;
      } else if holding.state == PendingUnhold && started {
        next := Unheld;
      }
      if next != holding.state {
        SetHold(next, holding.reason, c.(media := HoldScanned(c).0));
      }
    }

    /** set_hold_state */
    method SetHold(hold: HoldState, reason: HoldReason, ghost c: Call)
      requires Valid() && View() == c
      modifies this`holding, table.Values, this`accepted, this`accepts, this`emitting, this`restart
      ensures Valid() && View() == CallHold.SetHold(c, hold, reason)
      decreases IsPending(hold), 1
    {
      var changed := holding.state != hold;
      holding := holding.(state := hold, reason := reason);
      if changed {
        holding := holding.(log := holding.log + [HoldChanged(hold, reason)]);
      }
      FieldsChanged(c);
      if changed {
        UpdateHold(c.(holding := Holding(hold, reason, c.holding.log + [HoldChanged(hold, reason)])));
      }
    }

    /** hold_change_failed. Its loops refresh every stream, as those of update_hold_state do. */
    method HoldChangeFailed(ghost c: Call)
      requires Valid() && View() == c
      modifies this`holding, table.Values, this`accepted, this`accepts, this`emitting, this`restart
      ensures Valid() && View() == CallHold.HoldChangeFailed(c)
    {
      if holding.state != PendingUnhold {
        return;
      }
      SetHold(PendingHold, ResourceNotAvailable, c);
      ghost var d := CallHold.SetHold(c, PendingHold, ResourceNotAvailable);
      HoldScanRefreshes(EnvOf(d), d.media, Order(d.contents));
      var _, _ := HoldContents(d, d.media);
      UpdateHold(d.(media := RefreshAll(EnvOf(d), d.media, Order(d.contents))));
    }

    /** The D-Bus method RequestHold. */
    method RequestHold(hold: bool, ghost c: Call)
      requires Valid() && View() == c
      modifies this`holding, table.Values, this`accepted, this`accepts, this`emitting, this`restart
      ensures Valid() && View() == CallHold.RequestHold(c, hold)
    {
      if (hold && (holding.state == Held || holding.state == PendingHold))
         || (!hold && (holding.state == Unheld || holding.state == PendingUnhold))
      {
        holding := holding.(reason := Requested);
        FieldsChanged(c);
      } else if hold {
        SetHold(PendingHold, Requested, c);
      } else {
        SetHold(PendingUnhold, Requested, c);
      }
    }

    // ---- reports of the streaming implementation

    /** Only the stream `s` was written. */
    twostate lemma StreamWritten(s: MediaStream, new c: Call)
      requires old(Valid()) && old(View()) == c && Member(s) && unchanged(this) && unchanged(contents)
      requires forall t :: t in table.Values && t != s ==> unchanged(t)
      ensures Valid() && View() == PutCall(c, s.id, s.View())
    {
      Edited(s, c, c.media);
    }

    /** The receiving state is notified, and the channel looks at its pending hold. */
    method React(s: MediaStream, receiving: bool, success: bool, ghost c: Call)
      requires Valid() && View() == c && Member(s)
      modifies this`holding, table.Values, this`accepted, this`accepts, this`emitting, this`restart
      ensures Valid() && View() == CallHold.React(c, s.id, receiving, success)
    {
      ghost var d := c;
      if receiving {
        Notify(s, c, c.media);
        d := NotifyReceiving(c, s.id);
      }
      if success {
        UpdateHold(d);
      } else {
        HoldChangeFailed(d);
      }
    }

    /** The D-Bus method CompleteSendingStateChange. */
    method CompleteSending(s: MediaStream, flow: FlowState, ghost c: Call) returns (reply: Reply)
      requires Valid() && View() == c && Member(s)
      modifies this`holding, table.Values, this`accepted, this`accepts, this`emitting, this`restart
      ensures Valid() && View() == DoCompleteSending(c, s.id, flow)
      ensures reply == if CorrectTransition(c.media.streams[s.id].sending, flow) then Done else InvalidArgument
    {
      if !CorrectTransition(s.sending, flow) {
        return InvalidArgument;
      }
      s.sending := flow;
      StreamWritten(s, c);
      React(s, false, true, PutCall(c, s.id, s.View()));
      return Done;
    }

    /** The D-Bus method CompleteReceivingStateChange. */
    method CompleteReceiving(s: MediaStream, flow: FlowState, ghost c: Call) returns (reply: Reply)
      requires Valid() && View() == c && Member(s)
      modifies this`holding, table.Values, this`accepted, this`accepts, this`emitting, this`restart
      ensures Valid() && View() == DoCompleteReceiving(c, s.id, flow)
      ensures reply == if CorrectTransition(c.media.streams[s.id].receiving, flow) then Done else InvalidArgument
    {
      if !CorrectTransition(s.receiving, flow) {
        return InvalidArgument;
      }
      s.receiving := flow;
      StreamWritten(s, c);
      React(s, true, true, PutCall(c, s.id, s.View()));
      return Done;
    }

    /** The D-Bus method ReportSendingFailure. */
    method FailSending(s: MediaStream, ghost c: Call)
      requires Valid() && View() == c && Member(s)
      modifies this`holding, table.Values, this`accepted, this`accepts, this`emitting, this`restart
      ensures Valid() && View() == DoFailSending(c, s.id)
    {
      if s.sending == Stopped {
        return;
      }
      NoteFailure(s, false, c);
      var wasHeld := holding.state != Unheld;
      React(s, false, false, PutCall(c, s.id, FailedSending(c.media.streams[s.id])));
      ForgetSending(s, wasHeld, Report(c, s.id, FailedSending(c.media.streams[s.id]), false, false));
    }

    method NoteFailure(s: MediaStream, receiving: bool, ghost c: Call)
      requires Valid() && View() == c && Member(s)
      modifies s
      ensures var t := c.media.streams[s.id];
              Valid() && View() == PutCall(c, s.id, if receiving then FailedReceiving(t) else FailedSending(t))
    {
      if receiving {
        s.receiving := Stopped;
        s.line := s.line.(receivingFailure := true);
      } else {
        s.line := s.line.(sendingFailure := true);
        s.sending := Stopped;
      }
      StreamWritten(s, c);
    }

    method ForgetSending(s: MediaStream, wasHeld: bool, ghost c: Call)
      requires Valid() && View() == c && Member(s)
      modifies s
      ensures Valid() && View() == PutCall(c, s.id, SendingForgotten(c.media.streams[s.id], wasHeld))
    {
      if !wasHeld {
        s.localSending := false;
      }
      s.line := s.line.(sendingFailure := false);
      StreamWritten(s, c);
    }

    /** The D-Bus method ReportReceivingFailure. */
    method FailReceiving(s: MediaStream, ghost c: Call)
      requires Valid() && View() == c && Member(s)
      modifies this`holding, table.Values, this`accepted, this`accepts, this`emitting, this`restart
      ensures Valid() && View() == DoFailReceiving(c, s.id)
    {
      if s.receiving == Stopped {
        return;
      }
      NoteFailure(s, true, c);
      React(s, true, false, PutCall(c, s.id, FailedReceiving(c.media.streams[s.id])));
      ForgetReceiving(s, Report(c, s.id, FailedReceiving(c.media.streams[s.id]), true, false));
    }

    method ForgetReceiving(s: MediaStream, ghost c: Call)
      requires Valid() && View() == c && Member(s)
      modifies s
      ensures Valid() && View() == PutCall(c, s.id, ReceivingForgotten(c.media.streams[s.id]))
    {
      s.line := s.line.(receivingFailure := false);
      StreamWritten(s, c);
    }

    // ---- sending states

    /** tp_base_call_stream_update_local_sending_state, called from outside. */
    method UpdateLocal(s: MediaStream, wish: SendingState, ghost c: Call)
      requires Valid() && View() == c && Member(s)
      modifies s`local
      ensures Valid() && View() == DoUpdateLocal(c, s.id, wish)
    {
      UpdateLocalState(s, wish);
      StreamWritten(s, c);
    }

    /** The D-Bus method SetSending; `hook` is what the subclass's set_sending answers. */
    method SetSending(s: MediaStream, send: bool, hook: bool, ghost c: Call) returns (done: bool)
      requires Valid() && View() == c && Member(s)
      modifies s`local, s`localSending, s`sending
      ensures Valid() && View() == DoSetSending(c, s.id, send, hook)
      ensures done <==> hook || send == Sends(c.media.streams[s.id].local) || (!send && s.sending != Stopped)
      ensures !done ==> s.local == c.media.streams[s.id].local
    {
      var settled := if s.local == NotSending || s.local == PendingSend then !send else send;
      if settled {
        UpdateLocal(s, if send then Sending else NotSending, c);
        return true;
      }
      if send {
        if !hook {
          return false;
        }
        UpdateLocal(s, Sending, c);
        return true;
      }
      StopSending(s, c);
      if s.sending == Stopped && !hook {
        return false;
      }
      UpdateLocal(s, NotSending, PutCall(c, s.id, WithLocalSending(EnvOf(c), c.media.streams[s.id], false)));
      return true;
    }

    method StopSending(s: MediaStream, ghost c: Call)
      requires Valid() && View() == c && Member(s)
      modifies s`localSending, s`sending
      ensures Valid() && View() == PutCall(c, s.id, WithLocalSending(EnvOf(c), c.media.streams[s.id], false))
      ensures s.View() == WithLocalSending(EnvOf(c), c.media.streams[s.id], false)
    {
      SetLocalSending(s, false);
      StreamWritten(s, c);
    }

    /** notify::remote-members */
    method RemoteMembersChanged(s: MediaStream, ghost c: Call)
      requires Valid() && View() == c && Member(s)
      modifies table.Values, this`accepted, this`accepts, this`emitting, this`restart
      ensures Valid() && View() == RemoteMembersNotified(c, s.id)
    {
      UpdateReceiving(s, c, c.media);
      ghost var m := CallFlow.UpdateReceiving(EnvOf(c), c.media, s.id);
      assert s.View() == m.streams[s.id];
      if s.waiting {
        HandlerPass(s, c, m);
      }
    }

    /** tp_base_call_stream_update_remote_sending_state */
    method UpdateRemote(s: MediaStream, h: Handle, wish: SendingState, ghost c: Call) returns (changed: bool)
      requires Valid() && View() == c && Member(s)
      modifies table.Values, this`accepted, this`accepts, this`emitting, this`restart
      ensures Valid() && View() == DoUpdateRemote(c, s.id, h, wish)
      ensures var remote := c.media.streams[s.id].line.remote;
              changed <==> !(h in remote && remote[h] == GateRemote(c, wish))
    {
      var state := wish;
      if wish == Sending && requested && !acceptance.accepted {
        state := PendingSend;
      }
      if h in s.line.remote && s.line.remote[h] == state {
        return false;
      }
      ghost var t := c.media.streams[s.id];
      var change := MembersChanged(map[h := state], {});
      WriteRemote(s, s.line.remote[h := state], change, c);
      RemoteMembersChanged(s, PutCall(c, s.id, WithRemote(t, t.line.remote[h := state], change)));
      return true;
    }

    /** The table of remote members is changed and the change signalled. */
    method WriteRemote(s: MediaStream, remote: map<Handle, SendingState>, change: MembersChanged<SendingState>, ghost c: Call)
      requires Valid() && View() == c && Member(s)
      modifies s`line
      ensures Valid() && View() == PutCall(c, s.id, WithRemote(c.media.streams[s.id], remote, change))
    {
      s.line := s.line.(remote := remote, remoteLog := s.line.remoteLog + [change]);
      StreamWritten(s, c);
    }

    /** tp_base_call_stream_remove_member */
    method RemoveRemote(s: MediaStream, h: Handle, ghost c: Call) returns (removed: bool)
      requires Valid() && View() == c && Member(s)
      modifies table.Values, this`accepted, this`accepts, this`emitting, this`restart
      ensures Valid() && View() == DoRemoveRemote(c, s.id, h)
      ensures removed == (h in c.media.streams[s.id].line.remote)
    {
      if h !in s.line.remote {
        return false;
      }
      ghost var t := c.media.streams[s.id];
      var change := MembersChanged(map[], {h});
      WriteRemote(s, s.line.remote - {h}, change, c);
      RemoteMembersChanged(s, PutCall(c, s.id, WithRemote(t, t.line.remote - {h}, change)));
      return true;
    }

    /** The D-Bus method RequestReceiving; `capable` is the stream's can-request-receiving. */
    method RequestReceiving(s: MediaStream, h: Handle, receive: bool, capable: bool, ghost c: Call) returns (reply: Reply)
      requires Valid() && View() == c && Member(s)
      modifies table.Values, this`accepted, this`accepts, this`emitting, this`restart
      ensures Valid() && View() == if capable then DoRequestReceiving(c, s.id, h, receive) else c
      ensures reply == if !capable then NotCapable
                       else if h in c.media.streams[s.id].line.remote then Done else InvalidArgument
    {
      if !capable {
        return NotCapable;
      }
      if h !in s.line.remote {
        return InvalidArgument;
      }
      var sends := s.line.remote[h] == Sending || s.line.remote[h] == PendingSend;
      if receive == sends {
        return Done;
      }
      if receive {
        var _ := UpdateRemote(s, h, PendingSend, c);
        ghost var d := DoUpdateRemote(c, s.id, h, PendingSend);
        UpdateRemoteKeeps(c, s.id, h, PendingSend);
        UpdateReceiving(s, d, d.media);
      } else {
        var _ := UpdateRemote(s, h, PendingStopSending, c);
      }
      return Done;
    }

    // ---- endpoints

    /** The D-Bus method SetEndpointState; the endpoint may have been removed from the stream. */
    method SetEndpoint(s: MediaStream, k: nat, endpoint: EndpointState, ghost c: Call)
      requires Valid() && View() == c && Member(s)
      modifies s`line, this`status
      ensures Valid() && View() == DoSetEndpoint(c, s.id, k, endpoint)
    {
      if k < |s.line.endpoints| {
        WriteEndpoints(s, s.line.endpoints[k := endpoint], c);
        EndpointStateChanged(WithEndpoints(c, s.id, c.media.streams[s.id].line.endpoints[k := endpoint]));
      } else {
        EndpointStateChanged(c);
      }
    }

    method WriteEndpoints(s: MediaStream, endpoints: seq<EndpointState>, ghost c: Call)
      requires Valid() && View() == c && Member(s)
      modifies s`line
      ensures Valid() && View() == WithEndpoints(c, s.id, endpoints)
    {
      s.line := s.line.(endpoints := endpoints);
      StreamWritten(s, c);
    }

    /** tp_base_media_call_stream_add_endpoint */
    method AddEndpoint(s: MediaStream, endpoint: EndpointState, ghost c: Call)
      requires Valid() && View() == c && Member(s)
      modifies s`line
      ensures Valid() && View() == DoAddEndpoint(c, s.id, endpoint)
    {
      WriteEndpoints(s, s.line.endpoints + [endpoint], c);
    }

    /** tp_base_media_call_stream_remove_endpoint */
    method RemoveEndpoint(s: MediaStream, k: nat, ghost c: Call)
      requires Valid() && View() == c && Member(s)
      modifies s`line
      ensures Valid() && View() == DoRemoveEndpoint(c, s.id, k)
    {
      if k < |s.line.endpoints| {
        WriteEndpoints(s, s.line.endpoints[..k] + s.line.endpoints[k + 1..], c);
      }
    }

    // ---- members of the call

    /** tp_base_call_channel_update_member_flags, with call_members_changed_cb */
    method UpdateMember(h: Handle, flags: MemberFlags, ghost c: Call)
      requires Valid() && View() == c
      modifies this`roster, table.Values
      ensures Valid() && View() == DoUpdateMember(c, h, flags)
    {
      if h in roster.members && roster.members[h] == flags {
        return;
      }
      roster := Roster(roster.members[h := flags], roster.log + [MembersChanged(map[h := flags], {})]);
      FieldsChanged(c);
      CheckMembers(c.(roster := UpdatedRoster(c.roster, h, flags)));
    }

    /** tp_base_call_channel_remove_member, with call_members_changed_cb */
    method RemoveMember(h: Handle, ghost c: Call)
      requires Valid() && View() == c
      modifies this`roster, table.Values
      ensures Valid() && View() == DoRemoveMember(c, h)
    {
      if h !in roster.members {
        return;
      }
      roster := Roster(roster.members - {h}, roster.log + [MembersChanged(map[], {h})]);
      FieldsChanged(c);
      CheckMembers(c.(roster := ReducedRoster(c.roster, h)));
    }

    /** call_members_changed_cb */
    method CheckMembers(ghost c: Call)
      requires Valid() && View() == c
      modifies table.Values
      ensures Valid() && View() == CheckRemoteHold(c)
    {
      ChecksHold(c);
      EditAll(CheckHold(roster.members), c, c.media);
    }

    // ---- contents and streams

    ghost predicate Tidy()
      reads this`contents
    {
      forall i, j :: 0 <= i < j < |contents| ==> contents[i] != contents[j]
    }

    /** tp_base_call_channel_add_content */
    method AddContent(initial: bool, ghost c: Call) returns (content: MediaContent)
      requires Valid() && Tidy() && View() == c
      modifies this`contents
      ensures Valid() && Tidy() && View() == TreeStep(c, TreeOp.AddContent(initial))
      ensures fresh(content) && contents == [content] + old(contents)
    {
      content := new MediaContent(initial);
      ListContent(content, c);
    }

    method ListContent(content: MediaContent, ghost c: Call)
      requires Valid() && View() == c && content !in contents && content.streams == []
      modifies this`contents
      ensures Valid() && View() == c.(contents := [Content(content.initial, [])] + c.contents)
      ensures contents == [content] + old(contents)
    {
      contents := [content] + contents;
      ContentListed(content, c);
    }

    twostate lemma ContentListed(new content: MediaContent, new c: Call)
      requires old(Valid()) && old(View()) == c && content.streams == []
      requires contents == [content] + old(contents) && unchanged(`table) && unchanged(old(contents))
      ensures Views(contents) == [content.View()] + c.contents && Order(Views(contents)) == Order(c.contents)
    {
      assert contents[1..] == old(contents);
      assert Views(old(contents)) == c.contents;
      assert (content.View().streams + Order(c.contents)) == Order(c.contents);
    }

    /** tp_base_call_content_add_stream: the stream learns of its channel, then the list of it. */
    method AddStream(content: MediaContent, s: MediaStream, ghost k: nat,
                     ghost history: seq<MembersChanged<SendingState>>, ghost c: Call)
      requires Valid() && Tidy() && WellFormed(c) && View() == c && k < |contents| && contents[k] == content
      requires s.id !in table && s !in table.Values && Unattached(s.View(), content.initial, history)
      modifies s`receiving, s`sending, content`streams, this`table
      ensures Valid() && Tidy() && Member(s)
      ensures View() == TreeStep(c, TreeOp.AddStream(k, s.id, s.local, history, s.localSending, s.line.endpoints))
    {
      ViewsAll(contents);
      StreamAdded(c, k, s.id, s.View(), history);
      ListStream(content, s, k, c, TreeStep(c, TreeOp.AddStream(k, s.id, s.local, history, s.localSending, s.line.endpoints)));
    }

    method ListStream(content: MediaContent, s: MediaStream, ghost k: nat, ghost c: Call, ghost r: Call)
      requires Valid() && Tidy() && View() == c && k < |contents| == |c.contents| && contents[k] == content
      requires forall i :: 0 <= i < |contents| ==> c.contents[i] == contents[i].View()
      requires s.id !in table && s !in table.Values && Attaches(c, k, s.id, s.View(), r)
      modifies s`receiving, s`sending, content`streams, this`table
      ensures Valid() && Member(s) && View() == r
    {
      var goal := ReceivingGoal(s);
      s.receiving := goal;
      UpdateSending(s);
      content.streams := [s] + content.streams;
      table := table[s.id := s];
      StreamListed(content, s, k, c);
    }

    /** What the lists and the table are once `s` stands in front of the streams of the k-th content. */
    twostate lemma StreamListed(new content: MediaContent, s: MediaStream, new k: nat, new c: Call)
      requires old(Valid()) && old(Tidy()) && old(Streams()) == c.media.streams
      requires unchanged(`contents) && k < |contents| == |c.contents| && contents[k] == content
      requires forall i :: 0 <= i < |old(contents)| ==> c.contents[i] == old(contents[i].View())
      requires old(s.id !in table) && content.streams == [s] + old(content.streams)
      requires table == old(table)[s.id := s] && old(s !in table.Values)
      requires forall d :: d in contents && d != content ==> unchanged(d)
      requires forall t :: t in old(table.Values) ==> unchanged(t)
      ensures Views(contents) == c.contents[k := Content(content.initial, [s.id] + c.contents[k].streams)]
      ensures Streams() == c.media.streams[s.id := s.View()]
      ensures forall d, t :: d in contents && t in d.streams ==> Member(t)
    {
      ContentGrown(content, s, k, c);
      forall p | p in table && p != s.id
        ensures Streams()[p] == c.media.streams[p]
      {
        assert table[p] in old(table.Values);
      }
      forall d, t | d in contents && t in d.streams
        ensures Member(t)
      {
        if d == content && t == s {
        } else {
          assert t in old(d.streams);
          assert old(Member(t));
        }
      }
    }

    twostate lemma ContentGrown(new content: MediaContent, s: MediaStream, new k: nat, new c: Call)
      requires old(Tidy()) && unchanged(`contents) && k < |contents| == |c.contents| && contents[k] == content
      requires forall i :: 0 <= i < |old(contents)| ==> c.contents[i] == old(contents[i].View())
      requires content.streams == [s] + old(content.streams)
      requires forall d :: d in contents && d != content ==> unchanged(d)
      ensures Views(contents) == c.contents[k := Content(content.initial, [s.id] + c.contents[k].streams)]
    {
      ViewsAll(contents);
      assert content.View() == Content(content.initial, [s.id] + old(Ids(content.streams))) by {
        assert content.streams[1..] == old(content.streams);
      }
      forall i | 0 <= i < |contents| && i != k
        ensures Views(contents)[i] == c.contents[i]
      {
        assert contents[i] in contents && contents[i] != content;
        assert contents[i].View() == old(contents[i].View());
      }
    }
  }
}
