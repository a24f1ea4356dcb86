# Telepathy-GLib: calls, requests, accounts

This project models the parts of telepathy-glib whose correctness is spread over several callbacks,
and proves what they keep over whole runs.

**The call engine** (`Call*.dfy`). A call channel, its contents and their streams form one state
machine driven by D-Bus methods, reports of the streaming implementation and calls of a connection
manager. `CallTypes` is the state, `CallFlow` the media flow and the deferred accept with all its
re-entrancy, `CallHold` the hold machine, `CallEngine` the events. `CallSafety` and `CallRuns` hold what
every event keeps; `CallLifecycle`, `CallSending`, `CallMembers` and `CallHoldRuns` theorems over runs;
`CallStateEvents` and `CallStreamEvents` what every event does, in terms of the call before it;
`CallEffects` what holding and accepting ask of the streams, and `CallCompletion` and `CallUnhold` that
the answers end the wait, with `CallUnholdStuck` for a wait that does not end. How often the base class's accept runs is counted for one attempt in `CallAccept`, for every
event in `CallAcceptCount` and over runs in `CallAcceptRuns`; `CallAcceptTwice` has the runs with more
than one, and `CallAcceptDrains` what accepting does to the streams. `CallObjects` has the objects
themselves: a channel, contents and streams updated in place by methods with the program's loops, each
proved to compute the function the theorems are about; `CallLoops` says what those loops reach turn by
turn.

Changing a stream's receiving state emits notify::receiving-state, and while an accept is deferred that
runs streams_changed_cb, which tries to accept, which goes over all streams, which may change another
receiving state. The model follows this recursion. Notifications are emitted as GObject declares them: a
notification of a stream that is already emitting restarts the running emission instead of nesting.

**One-shot operations.** `ChannelRequest` is a request to the channel dispatcher, `DispatchContext` the
Approver's side of AddDispatchOperation.

**Accounts.** `AccountConnection`, `AccountStatus` and `AccountPath` are three parts of TpAccount,
`AccountManager` the two views of presence of TpAccountManager.

Each of these, except `AccountPath`, which is functions, has values and step functions for the theorems
and a class whose methods are the program's callbacks; `Options` is shared. A method of a class takes the
value its object stands for as a ghost argument where that keeps its contract short. D-Bus signals are
appended to logs, D-Bus replies are results or are counted, and replies of the bus, of factories and of
virtual hooks are parameters of the events.

## What the code does not keep

Where a property is false of the code, the model keeps the code, a lemma exhibits a run or an input on
which it fails, and the exact condition is proved.

- The base class's accept can run more than once per call: try_accept has no guard against being
  re-entered on a held call (`HeldAttempt`). Every event has its exact count (`StepGrows`), and a run
  stays at one exactly if none of its events adds two (`AcceptsOnceExactly`). Runs with two are a hold of
  an accepted call (`AcceptRunsTwice`) and a report on an outgoing call that was held before anybody
  accepted it (`ReportRunsTwice`).
- Adding or removing streams or endpoints does not re-evaluate the call state (`TreeLinkedExactly`,
  `EndpointLinkedExactly`; runs: `ActiveUnconnected`, `EndpointLost`).
- Attaching a stream does not pass through the gate that keeps an unaccepted call from sending
  (`TreeGatedExactly`; run: `AttachedSending`).
- An unhold waits for a stream that is to send also while the other side holds it or nobody wants it to
  send, so reports alone may not complete it (`UnholdCompletes` has the exact condition; run:
  `UnholdStuck`).
- A handler that is called before the reply to its request came can find another channel than the one it
  was given (`OutcomeExactly`, `ChannelReplaced`).
- A second terminal event of the dispatcher ends the process in complete_result's assertion
  (`AbortsExactly`, `ProceedFailsLate`).
- A helper that returns NULL without an error leaves an AddDispatchOperation call unanswered
  (`OneReply`, `SilentHelper`); for the dispatch operation itself the program would read the missing
  error's message, which the model treats as no answer either.
- connection_prepare_cb marks whatever connection is current as prepared (`FeatureSoundExactly`,
  `UnpreparedShown`), and the idle path of the same feature hides a connection without a notification
  (`IdleFeature`, `TakenBackSilently`).
- A notification of the account's status need not mean a change (`TellsExactly`, `ToldInVain`).
- A protocol name containing "-2d" does not survive printing and parsing (`RoundTrip`, `Misread`).
- Changes to or from UNSET make the presence cache differ from a rescan (`StepExactly`, `UnsetMissed`).
- The documentation of tp_account_manager_get_most_available_presence guarantees an account with the
  returned presence. The code returns AVAILABLE when the best it has is UNSET, and OFFLINE when nobody is
  online, whether or not an account has that (`GivenOut` has the exact condition, `GivenOutByNobody` both
  failing tables).

## Model

| member | source | states |
|---|---|---|
| CallLifecycle.Lifecycle | telepathy-glib/base-call-channel.c:795-866 | In every run of a call, with any contents, streams, endpoints, members, reports and D-Bus calls in any order, as long as the subclass does not set states itself and changes of contents and endpoints respect the guards of TreeLinkedExactly and EndpointLinkedExactly: ACTIVE implies accepted and connected, ACCEPTED accepted and not connected, INITIALISING not connected; an accepted call is ACCEPTED, ACTIVE or ENDED; the signalled states form a path whose only backward move is ACTIVE to ACCEPTED; Accept succeeds at most once; an ended call stays ended |
| CallLifecycle.StepAlive | telepathy-glib/base-media-call-channel.c:519-558 | One event keeps state, acceptance and connectivity in step and moves the state forward, except ACTIVE to ACCEPTED |
| CallLifecycle.TreeLinkedExactly | telepathy-glib/base-call-channel.c:1043-1086 | Adding or removing contents and streams keeps state and connectivity in step if and only if a stream added to an ACTIVE call brings a connected endpoint and removals from a call waiting for a connection leave it unconnected: add and remove do not re-evaluate the state |
| CallLifecycle.EndpointLinkedExactly | telepathy-glib/base-media-call-stream.c:713-794 | Adding or removing an endpoint leaves the state alone, and keeps it in step with connectivity if and only if no connected endpoint goes to the last unconnected stream of a waiting call and the last connected endpoint of a stream stays on an ACTIVE call |
| CallLifecycle.ActiveUnconnected | telepathy-glib/base-call-content.c:666-691 | A run from the start that is ACTIVE and not connected: Accept, then a stream without endpoints is added |
| CallLifecycle.EndpointLost | telepathy-glib/base-media-call-stream.c:755-794 | A run from the start after which removing an endpoint leaves the call ACTIVE and not connected |
| CallLifecycle.ObserversUpToDate | telepathy-glib/base-call-channel.c:757-866 | In every run, also with arbitrary set_state calls of a subclass, bumped transitions and silent same-state calls: who read the properties at registration and followed CallStateChanged holds the current state and flags; LOCALLY_RINGING implies an incoming call in INITIALISED, LOCALLY_QUEUED an incoming call in INITIALISING or INITIALISED |
| CallRuns.StepWellFormed | telepathy-glib/base-call-content.c:666-715 | Every event leaves a tree: no stream listed twice, no two contents sharing one, every stream known with its content's disposition |
| CallRuns.RunFit | telepathy-glib/base-call-channel.c:1380-1430 | In every run without outside set_state: the phase invariant linking state, acceptance and replies; waiting handlers only on initial streams and only after a successful Accept; streams receive only from senders |
| CallFlow.UpdateReceiving | telepathy-glib/base-media-call-stream.c:1003-1053 | The re-entrant update of a receiving state terminates; it changes flows only towards what the channel asks for, local sending states only from pending to sending on initial contents, and accepts only through a waiting handler of that stream |
| CallFlow.TryAccept | telepathy-glib/base-media-call-channel.c:178-201 | Trying to accept terminates although it can run itself through notify::receiving-state; unsettled streams only settle, the base accept runs if and only if the call becomes accepted, and then nothing initial stays pending |
| CallFlow.Scan | telepathy-glib/base-media-call-content.c:839-888 | Going over the streams keeps the frame of the recursion whatever nested attempts do |
| CallAccept.UnheldAttempt | telepathy-glib/base-media-call-channel.c:178-201 | On a call that is not held an attempt runs the base accept exactly once if every initial content is ready, and otherwise changes no started stream and accepts nothing, nested attempts included |
| CallAccept.HeldAttempt | telepathy-glib/base-media-call-channel.c:178-201 | On a held call an attempt always accepts, and runs the base accept once plus once for every waiting stream the scan still has to stop: nested attempts are not guarded |
| CallAcceptCount.StepGrows | telepathy-glib/base-media-call-channel.c:178-252 | For every event on a call that has not accepted yet: exactly how often it runs the base accept, as a function of the call and the event; reports, failures, remote members, Accept and RequestHold each have a case, all other events add nothing |
| CallAcceptRuns.AcceptsOnceExactly | telepathy-glib/base-media-call-channel.c:178-252 | In every run from the start, without outside set_state, the base accept has run as often as the events add up to, and it has run at most once if and only if no event of the run adds two or more |
| CallAcceptRuns.AcceptsAtMostOnce | telepathy-glib/base-media-call-channel.c:178-252 | In particular it runs at most once in every run in which the call is not held, and not asked to hold, while its accept is deferred |
| CallAcceptRuns.HeldReportAccepts | telepathy-glib/base-media-call-stream.c:1289-1333 | On a held call whose accept is deferred, a report about one waiting stream runs the base accept once and once more for every other waiting stream that receives or is about to |
| CallAcceptCount.HoldAcceptsPerStream | telepathy-glib/base-media-call-channel.c:204-212 | RequestHold(TRUE) on an accepted call whose accept is deferred runs the base accept once for each waiting stream that receives or is about to |
| CallAcceptCount.HoldAcceptsOnceExactly | telepathy-glib/base-media-call-channel.c:178-201 | So it runs at most once if and only if at most one such stream exists |
| CallAcceptTwice.AcceptsPerStreamInRuns | telepathy-glib/base-media-call-channel.c:215-252 | From every reachable incoming call whose initial streams all have a sender, Accept followed by RequestHold(TRUE) runs the base accept once per stream |
| CallAcceptTwice.AcceptRunsTwice | telepathy-glib/base-media-call-channel.c:178-201 | A concrete run on which the base accept runs twice: it is not once per call in general |
| CallAcceptTwice.ReportsPerStreamInRuns | telepathy-glib/base-media-call-channel.c:204-212 | From every reachable outgoing call whose initial streams all have a sender: Accept, RequestHold(TRUE), which holds the unaccepted call at once, and one report that a stream receives run the base accept once per stream |
| CallAcceptTwice.ReportRunsTwice | telepathy-glib/base-media-call-channel.c:178-201 | A concrete run of an outgoing call on which the base accept runs twice |
| CallAcceptDrains.StepDrains | telepathy-glib/base-call-content.c:841-862 | Whatever event makes the media channel accept, afterwards no stream of an INITIAL content is PENDING_SEND, and only pending streams of initial contents changed their local sending state |
| CallHold.SetHold | telepathy-glib/base-media-call-channel.c:332-357 | The mutual recursion of setting and checking hold states terminates and changes nothing but the hold fields and what the flow recursion may change |
| CallHold.HoldSettles | telepathy-glib/base-media-call-channel.c:360-431 | A pending hold is completed if and only if the call is not accepted or every stream is stopped both ways, a pending unhold if and only if the call is not accepted or every stream has the flows it wants, as the streams are after the check; completion is signalled once with the pending reason, and otherwise nothing is |
| CallHold.HoldScanStopped | telepathy-glib/base-media-call-channel.c:375-418 | The verdict is_stopped is the truth about the streams as the loops leave them, although nested accepts scan them again meanwhile |
| CallHold.HoldScanStarted | telepathy-glib/base-media-call-channel.c:375-418 | The verdict is_started is the truth about the streams as the loops leave them, and the loops accept nothing |
| CallHoldRuns.HoldSignalsTrace | telepathy-glib/base-media-call-channel.c:332-460 | In every run the HoldStateChanged signals form a path from UNHELD in the hold graph, and the last one carries the stored state, after nested calls have returned |
| CallHoldRuns.HoldGuarantee | telepathy-glib/base-media-call-channel.c:420-431 | Any event that makes the call HELD leaves it not accepted or every stream stopped both ways; any that makes it UNHELD leaves it not accepted or every sending stream started sending and every stream with a sender started receiving |
| CallHoldRuns.HoldInRuns | telepathy-glib/base-media-call-channel.c:434-503 | Guarantee and trace for the next event of every reachable call whose subclass leaves the state alone |
| CallEffects.HoldAsksAll | telepathy-glib/base-media-call-channel.c:375-418 | A request to hold an accepted call stops every flow of every stream or asks it to stop |
| CallEffects.FailureAsksAll | telepathy-glib/base-media-call-channel.c:434-460 | An unhold that fails leaves every flow of every stream stopped or asked to stop, whether or not the call is accepted |
| CallEffects.AcceptStarts | telepathy-glib/base-media-call-content.c:839-888 | A successful Accept of a call that is not held asks every stream with a sender to receive; on an incoming call it takes up and starts the sending the other side proposed, unless it holds the stream; and it gives no other stream the wish to send |
| CallEffects.RemoteAcceptStarts | telepathy-glib/base-media-call-content.c:891-910 | Once the other side accepts, every initial stream we send on starts sending unless the call or the stream is held |
| CallCompletion.HoldCompletes | telepathy-glib/base-media-call-channel.c:360-431 | After RequestHold(TRUE) on an accepted call, for all reports that flows stopped, in any order and with repetitions: the call is HELD if and only if every flow is stopped, and it is HELD once every stream was reported both ways |
| CallCompletion.AcceptCompletes | telepathy-glib/base-media-call-channel.c:178-252 | After a successful Accept of a call that is not held, for all reports that streams receive, in any order and with repetitions: the media channel has accepted if and only if every initial stream with a sender is STARTED, and it has once all of these were reported |
| CallUnhold.RequestSignals | telepathy-glib/base-media-call-channel.c:474-503 | A request that changes the direction appends PENDING_HOLD or PENDING_UNHOLD with reason REQUESTED to the signals, and HELD or UNHELD too if and only if the call is not accepted or every flow is as wanted by then; any other request changes nothing but the reason |
| CallUnhold.UnholdAsksAll | telepathy-glib/base-media-call-channel.c:375-418 | RequestHold(FALSE) on a held, accepted call starts receiving on every stream with a sender and sending on every stream that wants to send and is not held by the other side, or asks for it |
| CallUnhold.UnholdCompletes | telepathy-glib/base-media-call-channel.c:360-431 | After RequestHold(FALSE) on an accepted call, for all reports that flows started, in any order and with repetitions: UNHELD if and only if every wanted flow has started; and once the media channel has accepted and all streams were reported both ways, if and only if every stream that is to send wants to and is not held by the other side |
| CallUnhold.NeverUnheld | telepathy-glib/base-media-call-channel.c:410-416 | With a stream that is to send, but that nobody wants to send on or the other side holds, no reports that flows started complete an unhold |
| CallUnholdStuck.UnholdStuck | telepathy-glib/base-media-call-channel.c:410-416 | A run from the start after which no such reports make the call UNHELD |
| CallUnhold.RelapseSignals | telepathy-glib/base-media-call-channel.c:434-460 | An unhold that fails appends PENDING_HOLD with reason RESOURCE_NOT_AVAILABLE to the signals, and HELD too if and only if the call is not accepted or every flow is stopped by then |
| CallUnhold.AcceptedHoldScan | telepathy-glib/base-media-call-channel.c:375-418 | Once the media channel has accepted, going over the streams brings exactly the flows of each to what the channel asks for, and changes nothing else of any |
| CallStreamEvents.FailSendingRelapses | telepathy-glib/base-media-call-stream.c:1241-1286 | A failure to send during an unhold signals the pending hold and asks every flow to stop |
| CallStreamEvents.FailReceivingRelapses | telepathy-glib/base-media-call-stream.c:1336-1378 | So does a failure to receive |
| CallStateEvents.InitialEffect | telepathy-glib/base-call-channel.c:240-263 | A new outgoing call waits for its initiator, a new incoming one is INITIALISED; nothing is accepted, held or listed |
| CallStateEvents.RegisterEffect | telepathy-glib/base-call-channel.c:757-773 | Registering publishes the present state and flags, once |
| CallStateEvents.AcceptEffect | telepathy-glib/base-call-channel.c:1380-1430 | Accept enters INITIALISING on an outgoing call in PENDING_INITIATOR and ACCEPTED, with the call accepted, on an incoming one in INITIALISED, bumped if connected and signalled state by state; elsewhere it only records the local accept |
| CallStateEvents.RemoteAcceptEffect | telepathy-glib/base-call-channel.c:1239-1260 | An unaccepted outgoing call in INITIALISING or INITIALISED enters ACCEPTED, bumped to ACTIVE if connected, and is accepted; any other call stays |
| CallStateEvents.EnterEffect | telepathy-glib/base-call-channel.c:795-866 | Hangup enters ENDED, and a subclass enters the state it says: the flags kept are those that belong to the state, and registered observers are told of the state and of the bump |
| CallStateEvents.RingingEffect | telepathy-glib/base-call-channel.c:1282-1320 | On an incoming, INITIALISED call that is not ringing: ringing on, queued off, one signal; otherwise nothing |
| CallStateEvents.QueuedEffect | telepathy-glib/base-call-channel.c:1323-1361 | On an incoming call in INITIALISING or INITIALISED that is not queued: queued on, ringing as it was, one signal; otherwise nothing |
| CallStateEvents.EndpointReported | telepathy-glib/call-stream-endpoint.c:822-869 | The endpoint has the reported state and nothing else of any stream changes; with connected meaning that all other streams are and that this endpoint or another of its stream is, ACTIVE becomes ACCEPTED if not connected, ACCEPTED becomes ACTIVE and INITIALISING becomes INITIALISED if connected, and every other state stays |
| CallStateEvents.RemovedEndpointReported | telepathy-glib/call-stream-endpoint.c:822-869 | A removed endpoint stores nothing, and the state follows the connection |
| CallStateEvents.AddEndpointEffect | telepathy-glib/base-media-call-stream.c:713-743 | One endpoint more, and the call state as it was |
| CallStateEvents.RemoveEndpointEffect | telepathy-glib/base-media-call-stream.c:755-794 | One endpoint less, and the call state as it was; one that is not there changes nothing |
| CallStreamEvents.UpdateLocalEffect | telepathy-glib/base-call-stream.c:544-579 | The local sending state is the given one, except that SENDING is pending on an unaccepted incoming call; nothing else changes |
| CallStreamEvents.WishEffect | telepathy-glib/base-media-call-stream.c:932-943 | A changed wish is stored and asks the flow to start exactly if the call is accepted and neither side holds; an unchanged one does nothing |
| CallStreamEvents.SetSendingEffect | telepathy-glib/base-call-stream.c:881-924 | Starting gives SENDING, or PENDING_SEND on an unaccepted incoming call, if the hook agrees; stopping drops the wish, asks the flow to stop and gives NONE, unless nothing is left to stop and the hook does not agree; what is already so is recorded |
| CallStreamEvents.RemoteUpdated | telepathy-glib/base-call-stream.c:628-685 | The member has the given state, except that SENDING is pending on an unaccepted outgoing call, with one signal; the stream then receives exactly if the local client accepted, the call is not held and somebody sends; what is known changes nothing |
| CallStreamEvents.RemoteRemoved | telepathy-glib/base-call-stream.c:708-740 | The member is gone, with one signal, and receiving follows; a stranger changes nothing |
| CallStreamEvents.ReceivingRequested | telepathy-glib/base-call-stream.c:766-830 | A member who does not send becomes PENDING_SEND, one who does PENDING_STOP_SENDING, and receiving follows; anything else changes nothing |
| CallStreamEvents.UpdateMemberEffect | telepathy-glib/base-call-channel.c:1108-1155 | The member has the given flags, with one signal; each stream is held by the other side exactly if every member of it in the call holds, and one for which that changed is asked to send or to stop |
| CallStreamEvents.RemoveMemberEffect | telepathy-glib/base-call-channel.c:1176-1207 | The member is gone, with one signal and the same check of every stream |
| CallStreamEvents.CompleteSendingEffect | telepathy-glib/base-media-call-stream.c:1203-1238 | A report that is not due changes nothing; one that is due is stored, and is all that happens unless a hold or unhold is under way |
| CallStreamEvents.CompleteReceivingEffect | telepathy-glib/base-media-call-stream.c:1289-1333 | The same for receiving, unless an accept waits for the stream |
| CallStreamEvents.FailSendingEffect | telepathy-glib/base-media-call-stream.c:1241-1286 | The flow is stopped; without a hold or unhold under way, the wish to send is given up exactly if the call is not held, and nothing else changes |
| CallStreamEvents.FailReceivingEffect | telepathy-glib/base-media-call-stream.c:1336-1378 | The flow is stopped, and without a hold, unhold or waiting accept nothing else changes |
| CallStreamEvents.AddContentEffect | telepathy-glib/base-call-channel.c:1043-1086 | The new content is the first and empty, and the others follow in their order |
| CallStreamEvents.AddStreamEffect | telepathy-glib/base-call-content.c:666-691 | The new stream is the first of its content, as it was made, receiving and sending exactly if it is to; all else stays |
| CallStreamEvents.RemoveStreamEffect | telepathy-glib/base-call-content.c:694-715 | The stream is gone from its content and from the call, and all others are as they were |
| CallStreamEvents.RemoveContentEffect | telepathy-glib/base-call-channel.c:967-987 | The content is gone with its streams, and all others are as they were, in their order |
| CallStreamEvents.RemoteAcceptStreams | telepathy-glib/base-media-call-content.c:891-910 | Once the other side accepts, streams of initial contents with local state SENDING get the wish to send, all of those contents are asked to send or to stop, and no other stream changes |
| CallSending.NobodySendsEarly | telepathy-glib/base-call-stream.c:544-685 | In every run in which streams are attached before they start to send: no local SENDING on an unaccepted incoming call and no remote member SENDING on an unaccepted outgoing one |
| CallSending.TreeGatedExactly | telepathy-glib/base-call-content.c:666-691 | Attaching a stream keeps the gate closed if and only if the stream had not started to send |
| CallSending.AttachedSending | telepathy-glib/base-call-content.c:666-691 | A run from the start on which a stream attached while SENDING sends on an incoming call nobody accepted |
| CallMembers.ObserversReplay | telepathy-glib/base-call-channel.c:1108-1207 | In every run, folding all CallMembersChanged signals from the empty table gives the call's members, and folding each stream's RemoteMembersChanged signals gives that stream's members |
| CallMembers.RemoteHoldAgreement | telepathy-glib/base-media-call-channel.c:133-175 | From any state: after a change of the call's members every stream's remotely-held flag is whether each remote member that is a call member holds, and it stays so through every run that keeps the streams' membership |
| CallMembers.RosterChangeAgrees | telepathy-glib/base-media-call-channel.c:133-175 | The change itself makes every stream's flag right |
| CallObjects.CallChannel.constructor | telepathy-glib/base-call-channel.c:240-263 | A new channel is the initial call: an incoming one without contents counts as connected and is INITIALISED at once |
| CallObjects.CallChannel.IsConnected | telepathy-glib/base-media-call-channel.c:262-296 | The nested loops answer whether every stream of every content has a provisionally or fully connected endpoint |
| CallObjects.MediaStream.HasConnectedEndpoint | telepathy-glib/base-media-call-channel.c:274-289 | The inner loop finds a connected endpoint exactly if there is one |
| CallObjects.MediaStream.Wanted | telepathy-glib/base-media-call-channel.c:387-400 | The loop over remote members finds a sender exactly if there is one |
| CallObjects.CallChannel.EnterState | telepathy-glib/base-call-channel.c:795-866 | Entering a state with its flags, signals and bumps is the step the lifecycle theorems are about |
| CallObjects.CallChannel.SetState | telepathy-glib/base-call-channel.c:795-866 | The same on the whole object; nothing but the status changes |
| CallObjects.CallChannel.SetRinging | telepathy-glib/base-call-channel.c:1282-1320 | Error replies exactly for outgoing calls and wrong states; otherwise the flags step of the flag theorem |
| CallObjects.CallChannel.SetQueued | telepathy-glib/base-call-channel.c:1323-1361 | Error replies exactly for outgoing calls and wrong states; otherwise the flags step of the flag theorem |
| CallObjects.CallChannel.Hangup | telepathy-glib/base-call-channel.c:1440-1466 | An ended call answers with an error and stays; any other ends |
| CallObjects.CallChannel.EndpointStateChanged | telepathy-glib/base-media-call-channel.c:519-558 | The state follows connectivity as in the lifecycle theorem |
| CallObjects.CallChannel.Accept | telepathy-glib/base-call-channel.c:1380-1430 | The D-Bus method succeeds exactly in the one state that allows it, and the whole call is then what the accept theorems are about |
| CallObjects.CallChannel.AcceptMedia | telepathy-glib/base-media-call-channel.c:244-252 | Try, then wait for the initial streams if that did not do it |
| CallObjects.CallChannel.RemoteAccept | telepathy-glib/base-call-channel.c:1239-1260 | Only an outgoing, unaccepted call in INITIALISING or INITIALISED is accepted, and its initial streams take up sending |
| CallObjects.CallChannel.TryAccept | telepathy-glib/base-media-call-channel.c:178-201 | The method with its re-entrant loops leaves the objects as the attempt function of the accept theorems says, and terminates |
| CallObjects.CallChannel.ContentsReady | telepathy-glib/base-media-call-channel.c:189-190 | The loop over contents reaches, turn by turn, the states of the scan, and its flag is whether all so far were ready |
| CallObjects.CallChannel.ReadyToAccept | telepathy-glib/base-media-call-content.c:839-888 | The loop over a content's streams does the same within the scan of all streams |
| CallObjects.CallChannel.ReceiveFromMembers | telepathy-glib/base-media-call-content.c:869-884 | Updating the receiving state once for every sending member is the same as updating it once if there is one |
| CallObjects.CallChannel.HandlerPass | telepathy-glib/base-media-call-channel.c:204-212 | The callback tries to accept and disconnects itself exactly if the call is accepted |
| CallObjects.CallChannel.Notify | telepathy-glib/base-media-call-stream.c:977-992 | A notification runs the connected handler, or restarts the emission already running for the stream |
| CallObjects.CallChannel.UpdateReceiving | telepathy-glib/base-media-call-stream.c:1003-1053 | The method on the objects is the function of the flow recursion |
| CallObjects.CallChannel.UpdateSending | telepathy-glib/base-media-call-stream.c:868-902 | Sending starts exactly if the call is not held, is accepted, the stream is not held remotely or failing, and sending is wanted |
| CallObjects.CallChannel.SetLocalSending | telepathy-glib/base-media-call-stream.c:932-943 | A changed wish updates the sending state, an unchanged one does nothing |
| CallObjects.CallChannel.AcceptReal | telepathy-glib/base-call-channel.c:1433-1437 | Exactly the pending streams of initial contents are released, through the gate |
| CallObjects.CallChannel.WaitForStreamsToReceive | telepathy-glib/base-media-call-channel.c:215-241 | Exactly the streams of initial contents are waited for |
| CallObjects.CallChannel.EditAll | telepathy-glib/base-call-channel.c:1433-1437 | The nested loops edit every stream of the call exactly as if each were edited once |
| CallObjects.CallChannel.CheckMembers | telepathy-glib/base-media-call-channel.c:133-175 | The nested loops set every stream's remotely-held flag by the members |
| CallObjects.CallChannel.CheckRemotelyHeld | telepathy-glib/base-media-call-channel.c:152-173 | The loop over one stream's members finds whether each that is in the call holds |
| CallObjects.CallChannel.HoldContents | telepathy-glib/base-media-call-channel.c:375-418 | The nested loops refresh every stream and their two flags are the verdicts of the hold theorems |
| CallObjects.CallChannel.HoldStream | telepathy-glib/base-media-call-channel.c:380-416 | One turn: both flows refreshed, then compared with what the stream wanted before |
| CallObjects.CallChannel.UpdateHold | telepathy-glib/base-media-call-channel.c:360-431 | The method is the checking function of the hold theorems, and terminates with SetHold |
| CallObjects.CallChannel.SetHold | telepathy-glib/base-media-call-channel.c:332-357 | The method is the setting function of the hold theorems |
| CallObjects.CallChannel.HoldChangeFailed | telepathy-glib/base-media-call-channel.c:434-460 | A pending unhold falls back to pending hold, all streams are refreshed and the hold is checked again; any other state stays |
| CallObjects.CallChannel.RequestHold | telepathy-glib/base-media-call-channel.c:474-503 | A request for what is already so only records the reason; any other starts the hold machine |
| CallObjects.CallChannel.React | telepathy-glib/base-media-call-channel.c:578-607 | A report is followed by the notification and by a check or a failure of the pending hold |
| CallObjects.CallChannel.CompleteSending | telepathy-glib/base-media-call-stream.c:1203-1238 | Only PENDING_START to STARTED and PENDING_STOP to STOPPED are accepted; the hold machine then reacts |
| CallObjects.CallChannel.CompleteReceiving | telepathy-glib/base-media-call-stream.c:1289-1333 | Only the two correct transitions are accepted; handlers and the hold machine then react |
| CallObjects.CallChannel.FailSending | telepathy-glib/base-media-call-stream.c:1241-1286 | The stream stops, the hold machine reacts with the failure noted, and the wish to send is dropped unless the call was held |
| CallObjects.CallChannel.FailReceiving | telepathy-glib/base-media-call-stream.c:1336-1378 | The stream stops, handlers and the hold machine react with the failure noted |
| CallObjects.CallChannel.UpdateLocal | telepathy-glib/base-call-stream.c:544-579 | SENDING becomes PENDING_SEND on an unaccepted incoming call |
| CallObjects.CallChannel.SetSending | telepathy-glib/base-call-stream.c:881-924 | A settled wish is recorded; otherwise the hook decides: the call fails if and only if the hook fails on a change of direction and, when stopping, nothing is left to stop, and then the sending state stays |
| CallObjects.CallChannel.UpdateRemote | telepathy-glib/base-call-stream.c:628-685 | SENDING becomes PENDING_SEND on an unaccepted outgoing call; a change is signalled once, receiving updated and a waiting accept tried |
| CallObjects.CallChannel.RemoveRemote | telepathy-glib/base-call-stream.c:708-740 | Only members are removed, with one signal |
| CallObjects.CallChannel.RequestReceiving | telepathy-glib/base-call-stream.c:766-830 | NOT_CAPABLE without can-request-receiving, INVALID_ARGUMENT for those who are not members, each leaving the call alone; otherwise a change of direction updates the member and the receiving state |
| CallObjects.CallChannel.SetEndpoint | telepathy-glib/call-stream-endpoint.c:822-869 | A report about an endpoint, removed or not, makes the call state follow connectivity |
| CallObjects.CallChannel.AddEndpoint | telepathy-glib/base-media-call-stream.c:713-743 | The endpoint comes last, and the call state stays |
| CallObjects.CallChannel.RemoveEndpoint | telepathy-glib/base-media-call-stream.c:755-794 | Only an endpoint of the stream is removed, and the call state stays |
| CallObjects.CallChannel.UpdateMember | telepathy-glib/base-call-channel.c:1108-1155 | An unchanged member is silent; any other is signalled once and remote hold checked |
| CallObjects.CallChannel.RemoveMember | telepathy-glib/base-call-channel.c:1176-1207 | Only members are removed, with one signal and a check of remote hold |
| CallObjects.CallChannel.AddContent | telepathy-glib/base-call-channel.c:1043-1086 | The content comes first in the list, and the tree stays one |
| CallObjects.CallChannel.AddStream | telepathy-glib/base-call-content.c:666-691 | The stream learns of its channel, updates both flows and comes first in its content's list, and the tree stays one |
| ChannelRequest.OneCallback | telepathy-glib/account-channel-request.c:672-681 | In every run and interleaving, for all three actions, scheduled callbacks plus pending result equal one once the request is started |
| ChannelRequest.RunBalances | telepathy-glib/account-channel-request.c:672-884 | After n terminal events of the dispatcher, n plus the pending result equals one plus the channels being prepared plus one if the assertion failed |
| ChannelRequest.AbortsExactly | telepathy-glib/account-channel-request.c:672-681 | The assertion of complete_result never fails with at most one terminal event; once nothing is being prepared, it failed if and only if there were two or more |
| ChannelRequest.SuccessDelivers | telepathy-glib/account-channel-request.c:692-783 | In every run a handled success has both channel and context, and an observed one has its channel |
| ChannelRequest.WaitingExactly | telepathy-glib/account-channel-request.c:884-1137 | As long as nothing has ended the operation, the request waits for exactly what the events before have made due: the handler, the reply, Proceed, the signals |
| ChannelRequest.OutcomeExactly | telepathy-glib/account-channel-request.c:672-884 | In every run that does not abort and leaves nothing being prepared, the callback finds success if and only if the event that ended the operation was one channel for the handler, a success to forget, or a success with a channel to observe, which is the channel delivered; it finds failure after every other end. A handler has its context, and its channel unless it was called before the reply came |
| ChannelRequest.Unended | telepathy-glib/account-channel-request.c:672-884 | Without such an event nobody is called back |
| ChannelRequest.ChannelReplaced | telepathy-glib/account-channel-request.c:828-884 | A handler that was called before the reply came can find another channel |
| ChannelRequest.ProceedFailsLate | telepathy-glib/account-channel-request.c:786-805 | A run on which the assertion fails: Proceed fails after the channel was handed over |
| ChannelRequest.ChannelRequestObject.CompleteResult | telepathy-glib/account-channel-request.c:672-681 | The result is completed once and the signals disconnected; without a result the process ends |
| ChannelRequest.ChannelRequestObject.GoingToRequest | telepathy-glib/account-channel-request.c:1004-1040 | A second request is ignored and a cancelled one answered at once |
| ChannelRequest.ChannelRequestObject.RequestAsync | telepathy-glib/account-channel-request.c:1043-1137 | Starting a request, with the early failures of a cancelled operation and an unregistered handler |
| ChannelRequest.ChannelRequestObject.OnRequestReply | telepathy-glib/account-channel-request.c:920-980 | A refused request and a bad path fail; otherwise signals are connected and Proceed called unless cancelled |
| ChannelRequest.ChannelRequestObject.OnProceedReply | telepathy-glib/account-channel-request.c:786-805 | Only a failure of Proceed matters |
| ChannelRequest.ChannelRequestObject.OnInvalidated | telepathy-glib/account-channel-request.c:808-825 | A removed channel request is no failure |
| ChannelRequest.ChannelRequestObject.OnSucceeded | telepathy-glib/account-channel-request.c:828-884 | Success completes, fails as handled by another, or starts preparing, by action |
| ChannelRequest.ChannelRequestObject.OnHandleChannels | telepathy-glib/account-channel-request.c:715-763 | One channel completes a pending request or is handled again; any other number fails |
| ChannelRequest.ChannelRequestObject.OnChannelPrepared | telepathy-glib/account-channel-request.c:766-783 | The end of the preparation completes the observation, whether or not it succeeded |
| DispatchContext.OneReply | telepathy-glib/base-client.c:2077-2191 | For every argument list, arrival order, preparation outcome, answer of the implementation and disposal: at most one reply, one by the time the context is disposed of, and one at once without a context if and only if no helper returned NULL without an error |
| DispatchContext.ReplyExactly | telepathy-glib/add-dispatch-operation-context.c:373-430 | For every order of events: the method returns if and only if the first answer that is no delay is to accept, and replies an error if and only if that is to fail, where an implementation without an answer and the disposal fail; the state is ANSWERED or REJECTED accordingly |
| DispatchContext.CalledExactly | telepathy-glib/base-client.c:2077-2191 | NOT_IMPLEMENTED if and only if the client is no approver or does not implement the method; an error for a bad path and for the first helper that fails with one; nothing for the first that fails without one; otherwise a context with everything to prepare |
| DispatchContext.RunSound | telepathy-glib/add-dispatch-operation-context.c:373-430 | In every run the invocation is at hand if and only if the context is unanswered or delayed, and replies and invocation at hand add up to one |
| DispatchContext.CompletesOnLast | telepathy-glib/add-dispatch-operation-context.c:446-606 | For any number n of channels there are n + 3 callbacks, and in any order the preparation completes on the last and on no earlier one |
| DispatchContext.ArriveJoins | telepathy-glib/add-dispatch-operation-context.c:446-554 | num_pending equals the outstanding callbacks while the result is live, and completion happens exactly when the last arrives |
| DispatchContext.SilentHelper | telepathy-glib/base-client.c:1813-1894 | A call whose helper returns NULL without an error is never answered |
| DispatchContext.EnsureChannels | telepathy-glib/base-client.c:1854-1880 | The loop builds the array of all channels, or reports how the first missing one failed |
| DispatchContext.AddDispatchOperation | telepathy-glib/base-client.c:2077-2191 | The method replies itself or leaves a context being prepared, for every role check and argument failure |
| DispatchContext.ContextObject.constructor | telepathy-glib/add-dispatch-operation-context.c:557-585 | The loop of context_prepare counts three proxies and every channel |
| DispatchContext.ContextObject.Accept | telepathy-glib/add-dispatch-operation-context.c:373-384 | Only an unanswered or delayed context returns, once |
| DispatchContext.ContextObject.Fail | telepathy-glib/add-dispatch-operation-context.c:396-408 | Only an unanswered or delayed context fails, once |
| DispatchContext.ContextObject.Delay | telepathy-glib/add-dispatch-operation-context.c:424-430 | Only an unanswered context is delayed |
| DispatchContext.ContextObject.Dispose | telepathy-glib/add-dispatch-operation-context.c:99-117 | Disposing answers what was not answered |
| DispatchContext.ContextObject.OnContextPrepared | telepathy-glib/base-client.c:2032-2074 | An implementation that gave no answer is answered for |
| DispatchContext.ContextObject.OnPrepared | telepathy-glib/add-dispatch-operation-context.c:446-554 | One arrival counts down, and the last runs the implementation |
| AccountConnection.OnlyPreparedShown | telepathy-glib/account.c:456-570 | Once the feature is prepared, every interleaving of path changes, invalidations and preparations, stale ones included, shows only no connection or the current one after a successful preparation, and observers re-reading on notify::connection hold what is shown |
| AccountConnection.ChangesNotified | telepathy-glib/account.c:495-570 | With or without the feature, a path change, invalidation or preparation that changes what is shown is notified with the new value |
| AccountConnection.ShownExactly | telepathy-glib/account.c:456-570 | With the feature in use, after a change of path and until the next or the loss of the connection: the new connection is shown if and only if one of its preparations has succeeded since |
| AccountConnection.PreparationEffects | telepathy-glib/account.c:456-480 | The preparation of the current connection, if it succeeds, shows it with one notification that carries it; no other one shows or notifies anything |
| AccountConnection.PathEffects | telepathy-glib/account.c:495-570 | A new path replaces the connection; it is shown and notified at once without the feature, and hidden and being prepared with it; losing what was shown is notified |
| AccountConnection.EndEffects | telepathy-glib/account.c:485-492 | The same path changes nothing, and the end of the current connection leaves none, notified if it was shown |
| AccountConnection.FeatureSoundExactly | telepathy-glib/account.c:4279-4298 | The unguarded end of the feature's own preparation is sound if and only if it failed, no connection is left, or the current one is that one or was prepared before |
| AccountConnection.FeatureEffects | telepathy-glib/account.c:4279-4327 | The feature waits for the connection there is, or for the idle callback, and is in use after the first only if its preparation succeeded, after the second at once |
| AccountConnection.IdleFeature | telepathy-glib/account.c:4301-4327 | Without a connection to prepare the feature is sound but takes a connection that came up meanwhile back silently |
| AccountConnection.UnpreparedShown | telepathy-glib/account.c:4279-4298 | A run that shows a connection that was never prepared |
| AccountConnection.TakenBackSilently | telepathy-glib/account.c:4301-4327 | A run that shows a connection and takes it back without a notification |
| AccountConnection.AccountObject.SetPath | telepathy-glib/account.c:495-570 | The method is the step of the exposure theorem, notifications included |
| AccountConnection.AccountObject.OnInvalidated | telepathy-glib/account.c:485-492 | Losing the connection is a change to no path |
| AccountConnection.AccountObject.OnPrepared | telepathy-glib/account.c:456-480 | Only the preparation of the current connection makes it public |
| AccountConnection.AccountObject.PrepareFeature | telepathy-glib/account.c:4301-4327 | The feature waits for the current connection, or for an idle callback |
| AccountConnection.AccountObject.OnFeaturePrepared | telepathy-glib/account.c:4279-4298 | The flag is set whatever was prepared |
| AccountConnection.AccountObject.GetConnection | telepathy-glib/account.c:2302-2315 | What is shown |
| AccountStatus.ErrorFitsStatus | telepathy-glib/account.c:640-720 | In every run of partial updates and invalidations, for any guess of errors: error is NULL if and only if CONNECTED, details are empty when CONNECTED, and observers re-reading on notification hold the condition |
| AccountStatus.UpdateEffects | telepathy-glib/account.c:640-720 | Status, reason, and on an account that is not connected details and error, are those carried and otherwise the old ones; an error that is missing or carried empty is guessed from the new reason and the old status; a connected account has neither error nor details |
| AccountStatus.InvalidationEffects | telepathy-glib/account.c:394-437 | Removed: disconnected on request, cancelled; otherwise disconnected for no stated reason; with the message and one notification; a disconnected account stays |
| AccountStatus.TellsExactly | telepathy-glib/account.c:640-720 | An update notifies if and only if it changes the condition, or says again what does not stay: an error or details while CONNECTED, the same details, or no error where the guess is the present one; it does so once |
| AccountStatus.ToldInVain | telepathy-glib/account.c:640-720 | The same details once more notify an unchanged condition |
| AccountStatus.StatusObject.OnUpdate | telepathy-glib/account.c:640-720 | The method is the update of the coherence theorem |
| AccountStatus.StatusObject.OnInvalidated | telepathy-glib/account.c:394-437 | An account that is not disconnected becomes so with a reason, an error and a message; a disconnected one stays |
| AccountPath.RoundTrip | telepathy-glib/account.c:3786-3855 | For every valid connection manager, protocol and identifier: parsing the path printed with hyphens as underscores gives the same three back if and only if the protocol has no "-2d" |
| AccountPath.LegacyRoundTrip | telepathy-glib/account.c:2269-2289 | Parsing the path printed with hyphens as "_2d" always gives the same three back |
| AccountPath.Decoded | telepathy-glib/account.c:2269-2289 | A decoded protocol has no underscore, and decoding is idempotent |
| AccountPath.EscapeUndone | telepathy-glib/account.c:2269-2289 | Decoding undoes the specified escaping if and only if the name has no "-2d" |
| AccountPath.UnescapeReplaces | telepathy-glib/account.c:2269-2289 | Splitting, joining and delimiting is replacing every "_2d" from the left and then every underscore |
| AccountPath.AcceptsExactly | telepathy-glib/account.c:3786-3855 | A path is accepted if and only if it is the prefix followed by three well-formed segments, and then it is taken apart into these |
| AccountPath.ValidExactly | telepathy-glib/dbus.c:556-604 | The character loop accepts a path if and only if it is the root or is built from non-empty elements of letters, digits and underscores, as section "Valid Object Paths" of the D-Bus Specification has it |
| AccountPath.Misread | telepathy-glib/account.c:2269-2289 | The protocol "a-2d" is read back as another one |
| AccountManager.CacheAgrees | telepathy-glib/account-manager.c:923-970 | In every run of presence changes over a fixed table without UNSET, with the hash table listed in any order at each rescan: the cache is the greatest presence floored at OFFLINE, witnessed by the cached account above OFFLINE, and the last signal carries it |
| AccountManager.CacheRight | telepathy-glib/account-manager.c:923-970 | The same with UNSET accounts allowed, in every run without one of the changes StepExactly excludes: the cache is what a rescan finds, and the last signal carries it |
| AccountManager.StepExactly | telepathy-glib/account-manager.c:923-970 | With UNSET accounts allowed, one change keeps the cache equal to what a rescan finds if and only if it is none of three kinds of change to or from UNSET while nobody is online |
| AccountManager.RescanFinds | telepathy-glib/account-manager.c:342-403 | In whatever order the accounts are listed, a rescan finds the greatest presence with an account that has it, else an UNSET account, else (OFFLINE, offline, empty) |
| AccountManager.UnsetMissed | telepathy-glib/account-manager.c:342-403 | A change that leaves the cache different from what a rescan finds |
| AccountManager.GivenOut | telepathy-glib/account-manager.c:1247-1308 | The documentation guarantees an account with the returned presence: there is one if and only if somebody is online, or nobody is UNSET and somebody is OFFLINE; if somebody is online the cached account has it, with status and message; nobody is ever more available |
| AccountManager.GivenOutByNobody | telepathy-glib/account-manager.c:1276-1308 | One account of unknown presence gives OFFLINE, one UNSET account AVAILABLE, and no account has either |
| AccountManager.WishSpreads | telepathy-glib/account-manager.c:1203-1244 | In every run of set-all, insertions, removals and losses: if a presence is wanted, it is the last one requested on every account of the table that is still prepared; the manager is ready if and only if its accounts are listed and none is left to prepare |
| AccountManager.AskingEffects | telepathy-glib/account-manager.c:1203-1244 | Set-all asks every prepared account and no other and stays wanted; an account that comes later is asked for what is wanted; no other event asks anybody |
| AccountManager.AccountEffects | telepathy-glib/account-manager.c:258-464 | Which accounts are there and prepared after each event |
| AccountManager.MadeCounts | telepathy-glib/account-manager.c:486-512 | The accounts to prepare are as many as could be made |
| AccountManager.WishStepSpreads | telepathy-glib/account-manager.c:406-514 | One step keeps that, and accounts to prepare are conserved: what is left plus what finished is what there was plus what was listed |
| AccountManager.ReadyExactly | telepathy-glib/account-manager.c:406-514 | In every run from the start the manager is ready if and only if its accounts were listed and as many preparations finished as accounts were made, at once if there are none |
| AccountManager.AskedTwice | telepathy-glib/account-manager.c:406-432 | Asking again when the manager becomes ready changes nothing |
| AccountManager.ManagerObject.UpdateMostAvailable | telepathy-glib/account-manager.c:342-403 | The loop is the rescan of the cache theorems |
| AccountManager.ManagerObject.OnPresenceChanged | telepathy-glib/account-manager.c:923-970 | The callback is the incremental step of the cache theorems, signals included |
| AccountManager.ManagerObject.GetMostAvailable | telepathy-glib/account-manager.c:1276-1308 | What is given out when the cache is right: nobody is more available, and some account has it if and only if somebody is online, or nobody is UNSET and somebody is OFFLINE |
| AccountManager.ManagerObject.SetAllRequestedPresences | telepathy-glib/account-manager.c:1203-1244 | The loop asks exactly the prepared accounts, and the wish is stored |
| AccountManager.ManagerObject.InsertAccount | telepathy-glib/account-manager.c:1009-1024 | A new account is asked for the wanted presence, if there is one |
| AccountManager.ManagerObject.CheckCoreReady | telepathy-glib/account-manager.c:406-432 | Becoming ready asks all accounts again and leaves the most available presence in the cache; otherwise the cache stays |
| AccountManager.ManagerObject.OnListed | telepathy-glib/account-manager.c:467-515 | The loop counts the accounts that could be made; an error changes nothing; without accounts the manager is ready at once with the cache right |
| AccountManager.ManagerObject.OnAccountPrepared | telepathy-glib/account-manager.c:435-464 | Only a valid, prepared account is inserted; the count goes down either way, and the last one makes the manager ready with the cache right |

## Left out

- CallFlow.UpdateReceiving: streams that were removed from the call and still notify are not followed; a removed stream's events reach no one.
- CallEngine: reasons, actors and details of signals, object paths, initial tones, DTMF, mutable-contents checks and Close are not modelled.
- CallEngine: virtual hooks of subclasses do not call back into the channel; what set_sending answers is a parameter, and the bookkeeping of stop requests and receiving requests for hooks is left out, since no modelled state depends on it.
- CallObjects.CallChannel: removing a content or a stream is modelled on values only (CallEngine.TreeStep), so taking a link out of a list in place is not captured; the emission of notify::receiving-state restarts by recursion where GObject jumps back.
- CallObjects.CallChannel.EditAll: one nested loop stands for the four loops of accepting, waiting, remote accepting and checking remote hold, which differ only in what they do to a stream.
- CallEngine: an endpoint that was removed and still reports re-evaluates the state as long as its stream is part of the call; afterwards it reaches no one.
- ChannelRequest: the answer to a handler's own invocation, hints, factories, delegation, the default TargetHandleType and the cancel call are left out; a cancelled operation shows only in whether Proceed is called.
- DispatchContext: reference counts are not modelled; a context is disposed of once nothing is outstanding.
- AccountStatus: presence, storage, addressing and the other properties of an account would only add fields that are copied.
- AccountManager.CacheAgrees: the table of accounts is fixed, since inserting and removing accounts does not refresh the cache.
- Channel delegation in base-client.c, account-request.c, client filters, automatic factories, contact lists, text channels, debugging, marshalling and all generated code: outside these state machines or easy members.
