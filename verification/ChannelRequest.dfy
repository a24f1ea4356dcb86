/** Requesting a channel from the channel dispatcher: one asynchronous operation whose callback must
    run once, whatever order the dispatcher's replies, signals and calls arrive in.
 */
module ChannelRequest {
  import opened Options

  type Id = nat

  /** What the caller wants done with the channel. */
  datatype Action = Handle | Forget | Observe

  /** What the callback of the operation finds; an observed channel is part of the result. */
  datatype Outcome = Failed | Done(channel: Option<Id>)

  /** What may still call back: the handler while it is registered, the replies to CreateChannel or
      EnsureChannel and to Proceed, the signals of the channel request while they are connected, and
      the channels being prepared. */
  datatype Expected = Expected(handler: bool, reply: bool, proceed: bool, signals: bool, preparing: multiset<Id>)

  /** `pending` says that the result object exists; `outcomes` are the callbacks scheduled so far. An
      assertion that fails ends the process. */
  datatype Request = Request(
    requested: bool,
    action: Action,
    pending: bool,
    outcomes: seq<Outcome>,
    channel: Option<Id>,
    context: Option<Id>,
    expected: Expected,
    aborted: bool)

  const NOTHING := Expected(false, false, false, false, multiset{})
  const FRESH := Request(false, Forget, false, [], None, None, NOTHING, false)

  datatype Reply = Refused | BadPath | Path

  datatype Event =
    | Start(action: Action, cancelled: bool, registered: bool)
    | RequestReply(reply: Reply, cancelled: bool)
    | ProceedReply(ok: bool)
    | Invalidated(removed: bool)
    | SucceededWith(channel: Option<Id>)
    | HandleChannels(channels: seq<Id>, context: Id)
    | ChannelPrepared(source: Id)

  /** complete_result, which asserts that there is a result. */
  function Complete(r: Request, outcome: Outcome): Request {
    if !r.pending then r.(aborted := true)
    else r.(pending := false, expected := r.expected.(signals := false), outcomes := r.outcomes + [outcome])
  }

  function Started(r: Request, action: Action, cancelled: bool, registered: bool): Request {
    if r.requested then r
    else
      var d := r.(requested := true, action := action);
      if cancelled || (action == Handle && !registered) then d.(outcomes := d.outcomes + [Failed])
      else d.(pending := true, expected := d.expected.(handler := action == Handle, reply := true))
  }

  function Replied(r: Request, reply: Reply, cancelled: bool): Request {
    if !r.expected.reply then r
    else
      var d := r.(expected := r.expected.(reply := false));
      if reply != Path then Complete(d, Failed)
      else d.(expected := d.expected.(signals := true, proceed := !cancelled))
  }

  function Proceeded(r: Request, ok: bool): Request {
    if !r.expected.proceed then r
    else if ok then r.(expected := r.expected.(proceed := false))
    else Complete(r.(expected := r.expected.(proceed := false)), Failed)
  }

  function Dropped(r: Request, removed: bool): Request {
    if !r.expected.signals || removed then r else Complete(r, Failed)
  }

  function Satisfied(r: Request, channel: Option<Id>): Request {
    if !r.expected.signals then r
    else
      var d := if channel.Some? then r.(channel := channel) else r;
      match d.action
      case Handle => if !d.pending then d else Complete(d, Failed)
      case Observe =>
        if d.channel.None? then Complete(d, Failed)
        else d.(expected := d.expected.(preparing := d.expected.preparing + multiset{d.channel.value}))
      case Forget => Complete(d, Done(None))
  }

  function Handled(r: Request, channels: seq<Id>, context: Id): Request {
    if !r.expected.handler then r
    else if |channels| != 1 then Complete(r, Failed)
    else if !r.pending then r
    else Complete(r.(channel := Some(channels[0]), context := Some(context)), Done(None))
  }

  function Prepared(r: Request, channel: Id): Request {
    if channel !in r.expected.preparing then r
    else Complete(r.(expected := r.expected.(preparing := r.expected.preparing - multiset{channel})), Done(Some(channel)))
  }

  /** Replies and signals that were not asked for reach no one, and nothing happens after an abort. */
  function Step(r: Request, e: Event): Request {
    if r.aborted then r
    else match e
      case Start(action, cancelled, registered) => Started(r, action, cancelled, registered)
      case RequestReply(reply, cancelled) => Replied(r, reply, cancelled)
      case ProceedReply(ok) => Proceeded(r, ok)
      case Invalidated(removed) => Dropped(r, removed)
      case SucceededWith(channel) => Satisfied(r, channel)
      case HandleChannels(channels, context) => Handled(r, channels, context)
      case ChannelPrepared(channel) => Prepared(r, channel)
  }

  function Run(r: Request, es: seq<Event>): Request
    decreases |es|
  {
    if es == [] then r else Run(Step(r, es[0]), es[1..])
  }

  // ---- one callback

  function Unit(b: bool): nat {
    if b then 1 else 0
  }

  /** A request that was started has either its result or one scheduled callback, and one that was
      not started has neither and expects nothing. */
  predicate Conserved(r: Request) {
    if r.requested then |r.outcomes| + Unit(r.pending) == 1 && (r.expected.handler ==> r.action == Handle)
    else r.outcomes == [] && !r.pending && r.expected == NOTHING && !r.aborted
  }

  lemma StepConserves(r: Request, e: Event)
    requires Conserved(r)
    ensures Conserved(Step(r, e)) && (r.requested ==> Step(r, e).requested && Step(r, e).action == r.action)
  {
  }

  /** In every run the callbacks scheduled and the pending result add up to one once the request is
      started. */
  lemma {:induction false} OneCallback(r: Request, es: seq<Event>)
    requires Conserved(r)
    ensures Conserved(Run(r, es))
    decreases |es|
  {
    if es != [] {
      StepConserves(r, es[0]);
      OneCallback(Step(r, es[0]), es[1..]);
    }
  }

  // ---- when the assertion fails

  /** The dispatcher brings the operation to an end: it refuses or fails, reports success to somebody
      who did not hear of it yet, or hands over channels. A removed channel request, a success
      reported to a handler that already has its channel, and one channel handed over again do not
      count, and a prepared channel is the end of an earlier success. */
  predicate Terminal(r: Request, e: Event) {
    match e
    case Start(action, cancelled, registered) => !r.requested && (cancelled || (action == Handle && !registered))
    case RequestReply(reply, _) => r.expected.reply && reply != Path
    case ProceedReply(ok) => r.expected.proceed && !ok
    case Invalidated(removed) => r.expected.signals && !removed
    case SucceededWith(_) => r.expected.signals && (r.action != Handle || r.pending)
    case HandleChannels(channels, _) => r.expected.handler && (|channels| != 1 || r.pending)
    case ChannelPrepared(_) => false
  }

  /** The number of terminal events in a run. */
  function Terminals(r: Request, es: seq<Event>): nat
    decreases |es|
  {
    if es == [] || r.aborted then 0
    else Unit(Terminal(r, es[0])) + Terminals(Step(r, es[0]), es[1..])
  }

  /** After `n` terminal events, each has been answered by a callback, is being prepared, or hit the
      assertion. */
  predicate Balanced(r: Request, n: nat) {
    && (r.requested ==> n + Unit(r.pending) == 1 + |r.expected.preparing| + Unit(r.aborted))
    && (!r.requested ==> n == 0)
    && (r.action != Observe ==> r.expected.preparing == multiset{})
    && (r.aborted ==> !r.pending)
  }

  lemma SuccessBalances(r: Request, channel: Option<Id>, n: nat)
    requires Conserved(r) && Balanced(r, n) && !r.aborted
    ensures Balanced(Satisfied(r, channel), n + Unit(Terminal(r, SucceededWith(channel))))
  {
  }

  lemma PreparedBalances(r: Request, channel: Id, n: nat)
    requires Conserved(r) && Balanced(r, n) && !r.aborted
    ensures Balanced(Prepared(r, channel), n)
  {
    if channel in r.expected.preparing {
      assert |r.expected.preparing - multiset{channel}| == |r.expected.preparing| - 1;
    }
  }

  lemma StepBalances(r: Request, e: Event, n: nat)
    requires Conserved(r) && Balanced(r, n) && !r.aborted
    ensures Balanced(Step(r, e), n + Unit(Terminal(r, e)))
  {
    match e {
      case SucceededWith(channel) => SuccessBalances(r, channel, n);
      case ChannelPrepared(channel) => PreparedBalances(r, channel, n);
      case _ =>
    }
  }

  lemma {:induction false} RunBalances(r: Request, es: seq<Event>, n: nat)
    requires Conserved(r) && Balanced(r, n)
    ensures Balanced(Run(r, es), n + Terminals(r, es))
    decreases |es|
  {
    if es != [] {
      StepConserves(r, es[0]);
      if r.aborted {
        RunBalances(Step(r, es[0]), es[1..], n);
      } else {
        StepBalances(r, es[0], n);
        RunBalances(Step(r, es[0]), es[1..], n + Unit(Terminal(r, es[0])));
      }
    }
  }

  /** The assertion never fails as long as the dispatcher sends at most one terminal event; and once
      no channel is being prepared any more, it failed exactly if there were two or more. */
  lemma AbortsExactly(es: seq<Event>)
    ensures var r := Run(FRESH, es);
            && (Terminals(FRESH, es) <= 1 ==> !r.aborted)
            && (r.expected.preparing == multiset{} ==> (r.aborted <==> Terminals(FRESH, es) >= 2))
            && (r.action != Observe ==> (r.aborted <==> Terminals(FRESH, es) >= 2))
  {
    OneCallback(FRESH, es);
    RunBalances(FRESH, es, 0);
  }

  /** Two terminal events do happen: Proceed may fail after the channel was handed over. */
  lemma ProceedFailsLate()
    ensures exists es :: Run(FRESH, es).aborted
  {
    var es := [Start(Handle, false, true), RequestReply(Path, false), HandleChannels([1], 2), ProceedReply(false)];
    var r1 := Step(FRESH, es[0]);
    var r2 := Step(r1, es[1]);
    var r3 := Step(r2, es[2]);
    assert r3.outcomes == [Done(None)];
    assert es[1..][1..][1..][1..] == [];
    assert Run(FRESH, es) == Run(r1, es[1..]) == Run(r2, es[1..][1..]) == Run(r3, es[1..][1..][1..]);
    assert Run(r3, es[1..][1..][1..]) == Step(r3, es[3]);
  }

  // ---- what success carries

  /** A handled channel comes with its context, and an observed one with itself. */
  predicate Delivers(r: Request) {
    forall i :: 0 <= i < |r.outcomes| && r.outcomes[i].Done? ==>
      match r.action
      case Handle => r.channel.Some? && r.context.Some?
      case Observe => r.outcomes[i].channel.Some?
      case Forget => true
  }

  lemma StepDelivers(r: Request, e: Event)
    requires Conserved(r) && Delivers(r) && (r.requested && r.action != Observe ==> r.expected.preparing == multiset{})
    ensures Delivers(Step(r, e)) && (Step(r, e).requested && Step(r, e).action != Observe ==> Step(r, e).expected.preparing == multiset{})
  {
  }

  /** In every run a success of a handled request has both the channel and the context, and one of an
      observed request has the channel. */
  lemma {:induction false} SuccessDelivers(r: Request, es: seq<Event>)
    requires Conserved(r) && Delivers(r) && (r.requested && r.action != Observe ==> r.expected.preparing == multiset{})
    ensures Delivers(Run(r, es))
    decreases |es|
  {
    if es != [] {
      StepConserves(r, es[0]);
      StepDelivers(r, es[0]);
      SuccessDelivers(Step(r, es[0]), es[1..]);
    }
  }

  // ---- which outcome

  /** The first request that was made, while everything later is ignored. */
  function Begun(es: seq<Event>): Option<Event> {
    if es == [] then None
    else
      var before := Begun(es[..|es| - 1]);
      if before.None? && es[|es| - 1].Start? then Some(es[|es| - 1]) else before
  }

  predicate Starts(e: Event) {
    e.Start? && !e.cancelled && (e.action == Handle ==> e.registered)
  }

  /** A request went out to the dispatcher. */
  predicate Going(es: seq<Event>) {
    Begun(es).Some? && Starts(Begun(es).value)
  }

  /** The dispatcher's first reply to it. */
  function Answered(es: seq<Event>): Option<Event> {
    if es == [] then None
    else
      var init := es[..|es| - 1];
      if Answered(init).None? && Going(init) && es[|es| - 1].RequestReply? then Some(es[|es| - 1]) else Answered(init)
  }

  /** There is a channel request. */
  predicate HasPath(es: seq<Event>) {
    Answered(es).Some? && Answered(es).value.RequestReply? && Answered(es).value.reply == Path
  }

  /** Its Proceed was called and has not returned. */
  predicate Proceeding(es: seq<Event>) {
    if es == [] then false
    else
      var init := es[..|es| - 1];
      var e := es[|es| - 1];
      if !HasPath(init) && HasPath(es) then e.RequestReply? && !e.cancelled else Proceeding(init) && !e.ProceedReply?
  }

  /** After the events, none of which ended the operation, this one does: the request cannot be made,
      is refused, or Proceed fails; the channel request is invalidated other than by its removal, or
      succeeds; or the handler is called. */
  predicate Ends(es: seq<Event>, e: Event) {
    match e
    case Start(_, _, _) => Begun(es).None? && !Starts(e)
    case RequestReply(reply, _) => Going(es) && Answered(es).None? && reply != Path
    case ProceedReply(ok) => Proceeding(es) && !ok
    case Invalidated(removed) => HasPath(es) && !removed
    case SucceededWith(_) => HasPath(es)
    case HandleChannels(_, _) => Going(es) && Begun(es).value.action == Handle
    case ChannelPrepared(_) => false
  }

  predicate NoEnd(es: seq<Event>) {
    forall k :: 0 <= k < |es| ==> !Ends(es[..k], es[k])
  }

  /** What is known of a request that has not ended: nothing but its events. */
  function Waiting(es: seq<Event>): Request {
    Request(Begun(es).Some?, if Begun(es).Some? && Begun(es).value.Start? then Begun(es).value.action else Forget,
            Going(es), [], None, None,
            Expected(Going(es) && Begun(es).value.action == Handle, Going(es) && Answered(es).None?, Proceeding(es),
                     HasPath(es), multiset{}),
            false)
  }

  lemma {:induction false} RunSnoc(r: Request, es: seq<Event>, e: Event)
    ensures Run(r, es + [e]) == Step(Run(r, es), e)
    decreases |es|
  {
    if es == [] {
      assert ([] + [e])[1..] == [];
    } else {
      assert (es + [e])[1..] == es[1..] + [e];
      RunSnoc(Step(r, es[0]), es[1..], e);
    }
  }

  lemma {:induction false} BegunStarts(es: seq<Event>)
    ensures Begun(es).Some? ==> Begun(es).value.Start?
  {
    if es != [] {
      BegunStarts(es[..|es| - 1]);
    }
  }

  lemma {:induction false} AnsweredReplies(es: seq<Event>)
    ensures Answered(es).Some? ==> Answered(es).value.RequestReply? && Going(es)
    ensures Proceeding(es) ==> HasPath(es)
  {
    if es != [] {
      AnsweredReplies(es[..|es| - 1]);
    }
  }

  lemma WaitingNext(es: seq<Event>, e: Event)
    requires !Ends(es, e)
    ensures Step(Waiting(es), e) == Waiting(es + [e])
  {
    BegunStarts(es);
    AnsweredReplies(es);
    assert (es + [e])[..|es|] == es;
  }

  /** As long as nothing has ended the operation, the request waits for exactly what its events have
      made due. */
  lemma {:induction false} WaitingExactly(es: seq<Event>)
    requires NoEnd(es)
    ensures Run(FRESH, es) == Waiting(es)
  {
    if es != [] {
      var init, e := es[..|es| - 1], es[|es| - 1];
      assert es == init + [e];
      forall k | 0 <= k < |init|
        ensures !Ends(init[..k], init[k])
      {
        assert init[..k] == es[..k];
      }
      WaitingExactly(init);
      RunSnoc(FRESH, init, e);
      WaitingNext(init, e);
    }
  }

  /** The event is the one the caller hopes for. */
  predicate Succeeds(action: Action, e: Event) {
    match action
    case Handle => e.HandleChannels? && |e.channels| == 1
    case Forget => e.SucceededWith?
    case Observe => e.SucceededWith? && e.channel.Some?
  }

  lemma EndStep(before: seq<Event>, e: Event)
    requires NoEnd(before) && Ends(before, e)
    ensures var r := Step(Run(FRESH, before), e);
            && r.requested && !r.aborted
            && (!Succeeds(r.action, e) ==> !r.pending && r.outcomes == [Failed] && r.expected.preparing == multiset{})
            && (Succeeds(r.action, e) ==>
                  if r.action == Observe
                  then r.pending && r.outcomes == [] && r.expected.preparing == multiset{e.channel.value}
                  else !r.pending && r.outcomes == [Done(None)] && r.expected.preparing == multiset{})
            && (Succeeds(r.action, e) && r.action == Handle ==>
                  && r.channel == Some(e.channels[0]) && r.context == Some(e.context)
                  && !r.expected.signals && (r.expected.reply <==> Answered(before).None?))
  {
    WaitingExactly(before);
    BegunStarts(before);
    AnsweredReplies(before);
  }

  lemma {:induction false} StaysAborted(r: Request, es: seq<Event>)
    requires r.aborted
    ensures Run(r, es) == r
    decreases |es|
  {
    if es != [] {
      StaysAborted(r, es[1..]);
    }
  }

  /** The channel given by the last success signal that reached the request, if any did. */
  function Given(r: Request, es: seq<Event>, channel: Option<Id>): Option<Id>
    decreases |es|
  {
    if es == [] then channel
    else
      var e := es[0];
      Given(Step(r, e), es[1..],
            if e.SucceededWith? && e.channel.Some? && r.expected.signals && !r.aborted then e.channel else channel)
  }

  /** Once the result is gone, no callback is scheduled any more. */
  lemma {:induction false} NothingMore(r: Request, es: seq<Event>)
    requires r.requested && !r.pending && !Run(r, es).aborted
    ensures var q := Run(r, es);
            q.outcomes == r.outcomes && q.action == r.action && q.context == r.context && q.channel == Given(r, es, r.channel)
    decreases |es|
  {
    if es != [] {
      var d := Step(r, es[0]);
      if d.aborted {
        StaysAborted(d, es[1..]);
      }
      NothingMore(d, es[1..]);
    }
  }

  /** More channels are being prepared than there are results to complete. */
  lemma {:induction false} Doomed(r: Request, es: seq<Event>)
    requires r.requested && |r.expected.preparing| > Unit(r.pending)
    ensures Run(r, es).aborted || |Run(r, es).expected.preparing| > 0
    decreases |es|
  {
    if es != [] {
      var d := Step(r, es[0]);
      if d.aborted {
        StaysAborted(d, es[1..]);
      } else {
        DoomedStep(r, es[0]);
        Doomed(d, es[1..]);
      }
    }
  }

  lemma DoomedStep(r: Request, e: Event)
    requires r.requested && |r.expected.preparing| > Unit(r.pending) && !Step(r, e).aborted
    ensures Step(r, e).requested && |Step(r, e).expected.preparing| > Unit(Step(r, e).pending)
  {
    if e.ChannelPrepared? && e.source in r.expected.preparing {
      assert |r.expected.preparing - multiset{e.source}| == |r.expected.preparing| - 1;
    }
  }

  /** A request that is observing the channel. */
  predicate Observing(r: Request, channel: Id) {
    && r.requested && r.action == Observe && r.pending && r.outcomes == []
    && r.expected.preparing == multiset{channel} && !r.aborted
  }

  lemma ObservingStep(r: Request, channel: Id, e: Event)
    requires Observing(r, channel) && !Step(r, e).aborted
    ensures var d := Step(r, e);
            || Observing(d, channel)
            || (d.requested && |d.expected.preparing| > Unit(d.pending))
            || (d.requested && !d.pending && d.outcomes == [Done(Some(channel))])
  {
    assert |multiset{channel}| == 1;
    if e.ChannelPrepared? && e.source in r.expected.preparing {
      assert e.source == channel;
    }
  }

  lemma {:induction false} ObservedOutcome(r: Request, channel: Id, es: seq<Event>)
    requires Observing(r, channel) && !Run(r, es).aborted && Run(r, es).expected.preparing == multiset{}
    ensures Run(r, es).outcomes == [Done(Some(channel))] && Run(r, es).action == Observe
    decreases |es|
  {
    var d := Step(r, es[0]);
    if d.aborted {
      StaysAborted(d, es[1..]);
    } else {
      ObservingStep(r, channel, es[0]);
      if Observing(d, channel) {
        ObservedOutcome(d, channel, es[1..]);
      } else if d.requested && |d.expected.preparing| > Unit(d.pending) {
        Doomed(d, es[1..]);
      } else {
        NothingMore(d, es[1..]);
      }
    }
  }

  lemma {:induction false} RunSplit(r: Request, before: seq<Event>, e: Event, after: seq<Event>)
    ensures Run(r, before + [e] + after) == Run(Step(Run(r, before), e), after)
    decreases |before|
  {
    if before == [] {
      assert ([] + [e] + after)[1..] == after;
    } else {
      assert (before + [e] + after)[1..] == before[1..] + [e] + after;
      RunSplit(Step(r, before[0]), before[1..], e, after);
    }
  }

  /** Signals that are not connected, and will not be, bring no channel. */
  lemma {:induction false} DeafTo(r: Request, es: seq<Event>, channel: Option<Id>)
    requires r.requested && !r.expected.signals && !r.expected.reply
    ensures Given(r, es, channel) == channel
    decreases |es|
  {
    if es != [] {
      DeafTo(Step(r, es[0]), es[1..], channel);
    }
  }

  /** The callback finds what the event that ended the operation says: success exactly if the handler
      was given one channel, the channel request to be forgotten succeeded, or the one to be observed
      succeeded with a channel, which is then the one delivered; failure in every other case. A handler
      has its context, and the channel it was given, unless it was called before the reply to the request
      came and a success signal brought another channel later. */
  lemma OutcomeExactly(before: seq<Event>, e: Event, after: seq<Event>)
    requires NoEnd(before) && Ends(before, e)
    ensures var d := Step(Run(FRESH, before), e);
            var r := Run(FRESH, before + [e] + after);
            !r.aborted && r.expected.preparing == multiset{} ==>
              && r.outcomes == [if !Succeeds(r.action, e) then Failed
                                else if r.action == Observe then Done(e.channel) else Done(None)]
              && (r.action == Handle && Succeeds(r.action, e) ==>
                    && r.context == Some(e.context) && r.channel == Given(d, after, Some(e.channels[0]))
                    && (Answered(before).Some? ==> r.channel == Some(e.channels[0])))
  {
    var d := Step(Run(FRESH, before), e);
    var r := Run(FRESH, before + [e] + after);
    EndStep(before, e);
    RunSplit(FRESH, before, e, after);
    if d.action == Handle && Succeeds(d.action, e) && Answered(before).Some? {
      DeafTo(d, after, d.channel);
    }
    if !r.aborted && r.expected.preparing == multiset{} {
      if d.pending {
        ObservedOutcome(d, e.channel.value, after);
      } else {
        NothingMore(d, after);
      }
    }
  }

  /** And without such an event nobody is called back. */
  lemma Unended(es: seq<Event>)
    requires NoEnd(es)
    ensures var r := Run(FRESH, es);
            r.outcomes == [] && !r.aborted && (r.pending <==> Going(es))
  {
    WaitingExactly(es);
  }

  /** A success signal that comes after the handler was called replaces its channel: the signals are
      connected when the reply comes, even if the handler was called before. */
  lemma ChannelReplaced(x: Id, y: Id, context: Id)
    requires x != y
    ensures exists es :: Run(FRESH, es).outcomes == [Done(None)] && Run(FRESH, es).channel == Some(y)
                         && HandleChannels([x], context) in es
  {
    var a, b, c, d := Start(Handle, false, true), HandleChannels([x], context), RequestReply(Path, false), SucceededWith(Some(y));
    var es := [] + [a] + [b] + [c] + [d];
    RunSnoc(FRESH, [], a);
    RunSnoc(FRESH, [] + [a], b);
    RunSnoc(FRESH, [] + [a] + [b], c);
    RunSnoc(FRESH, [] + [a] + [b] + [c], d);
    assert es[1] == b;
  }

  // ---- the object

  /** TpAccountChannelRequest */
  class ChannelRequestObject {
    var requested: bool
    var action: Action
    var pending: bool
    var outcomes: seq<Outcome>
    var channel: Option<Id>
    var context: Option<Id>
    var handler: bool
    var awaiting: bool
    var proceeding: bool
    var listening: bool
    var preparing: multiset<Id>
    var aborted: bool

    constructor ()
      ensures View() == FRESH
    {
      requested, action, pending, outcomes, channel, context := false, Forget, false, [], None, None;
      handler, awaiting, proceeding, listening, preparing, aborted := false, false, false, false, multiset{}, false;
    }

    ghost function View(): Request
      reads this
    {
      Request(requested, action, pending, outcomes, channel, context,
              Expected(handler, awaiting, proceeding, listening, preparing), aborted)
    }

    /** complete_result */
    method CompleteResult(outcome: Outcome)
      modifies this
      ensures View() == Complete(old(View()), outcome)
    {
      if !pending {
        aborted := true;
        return;
      }
      listening := false;
      outcomes := outcomes + [outcome];
      pending := false;
    }

    /** going_to_request: whether the operation goes on. */
    method GoingToRequest(what: Action, cancelled: bool) returns (going: bool)
      modifies this
      ensures going == (!old(requested) && !cancelled)
      ensures View() == if old(requested) then old(View())
                        else old(View()).(requested := true, action := what,
                                          outcomes := if cancelled then old(outcomes) + [Failed] else old(outcomes))
    {
      if requested {
        return false;
      }
      requested := true;
      action := what;
      if cancelled {
        outcomes := outcomes + [Failed];
        return false;
      }
      return true;
    }

    /** request_and_handle_channel_async, request_channel_async, request_and_observe_channel_async */
    method RequestAsync(what: Action, cancelled: bool, registered: bool)
      modifies this
      ensures !old(aborted) ==> View() == Step(old(View()), Start(what, cancelled, registered))
    {
      var going := GoingToRequest(what, cancelled);
      if !going {
        return;
      }
      if what == Handle {
        if !registered {
          outcomes := outcomes + [Failed];
          return;
        }
        handler := true;
      } else {
        handler := false;
      }
      pending := true;
      awaiting := true;
    }

    /** acr_request_cb */
    method OnRequestReply(reply: Reply, cancelled: bool)
      requires awaiting && !aborted
      modifies this
      ensures View() == Step(old(View()), RequestReply(reply, cancelled))
    {
      awaiting := false;
      if reply == Refused || reply == BadPath {
        CompleteResult(Failed);
        return;
      }
      listening := true;
      proceeding := false;
      if !cancelled {
        proceeding := true;
      }
    }

    /** acr_channel_request_proceed_cb */
    method OnProceedReply(ok: bool)
      requires proceeding && !aborted
      modifies this
      ensures View() == Step(old(View()), ProceedReply(ok))
    {
      proceeding := false;
      if !ok {
        CompleteResult(Failed);
      }
    }

    /** acr_channel_request_invalidated_cb */
    method OnInvalidated(removed: bool)
      requires listening && !aborted
      modifies this
      ensures View() == Step(old(View()), Invalidated(removed))
    {
      if removed {
        return;
      }
      CompleteResult(Failed);
    }

    /** acr_channel_request_succeeded_with_channel */
    method OnSucceeded(given: Option<Id>)
      requires listening && !aborted
      modifies this
      ensures View() == Step(old(View()), SucceededWith(given))
    {
      if given.Some? {
        channel := given;
      }
      if action == Handle {
        if !pending {
          return;
        }
        CompleteResult(Failed);
      } else if action == Observe {
        if channel.None? {
          CompleteResult(Failed);
          return;
        }
        preparing := preparing + multiset{channel.value};
      } else {
        CompleteResult(Done(None));
      }
    }

    /** handle_channels: whether this re-handles a channel that was delivered before. */
    method OnHandleChannels(channels: seq<Id>, given: Id) returns (again: bool)
      requires handler && !aborted
      modifies this
      ensures View() == Step(old(View()), HandleChannels(channels, given))
      ensures again <==> |channels| == 1 && !old(pending)
    {
      if |channels| != 1 {
        CompleteResult(Failed);
        return false;
      }
      if !pending {
        return true;
      }
      channel := Some(channels[0]);
      context := Some(given);
      CompleteResult(Done(None));
      return false;
    }

    /** channel_prepare_cb; a preparation that fails counts as one that succeeds. */
    method OnChannelPrepared(source: Id)
      requires source in preparing && !aborted
      modifies this
      ensures View() == Step(old(View()), ChannelPrepared(source))
    {
      preparing := preparing - multiset{source};
      CompleteResult(Done(Some(source)));
    }
  }
}
