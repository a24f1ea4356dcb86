/** The Approver's side of AddDispatchOperation: each invocation is answered once, after the account,
    the connection, the dispatch operation and every channel have been prepared.
 */
module DispatchContext {
  import opened Options

  /** What a helper that makes a proxy hands back: the proxy, NULL with an error set, or NULL without
      one. */
  datatype Made = Made | Refused | Silent

  datatype Arguments = Arguments(
    approver: bool,
    implemented: bool,
    accountPath: bool,
    connectionPath: bool,
    account: Made,
    connection: Made,
    channels: seq<Made>,
    operation: Made)

  datatype Reply = Returned | NotImplemented | Error

  datatype State = Unanswered | Delayed | Answered | Rejected

  /** What is being prepared. */
  datatype Target = Account | Connection | Operation | Channel(index: nat)

  /** What an implementation of AddDispatchOperation may call on the context. */
  datatype Answer = Accept | Fail | Delay

  /** `invocation` says that the D-Bus invocation is still at hand, `result` that the preparation has
      not completed; `pending` is the counter of the program and `outstanding` what is really being
      prepared. `completions` counts how often the preparation completed. */
  datatype Context = Context(
    state: State,
    invocation: bool,
    result: bool,
    pending: nat,
    outstanding: set<Target>,
    completions: nat,
    disposed: bool)

  /** One D-Bus invocation: its replies, and its context if it got one. */
  datatype Session = Session(replies: seq<Reply>, context: Option<Context>)

  // ---- the call

  datatype Ensured = Ready | Missing(error: bool)

  function FirstMissing(channels: seq<Made>): Ensured {
    if channels == [] then Ready
    else if channels[0] != Made then Missing(channels[0] == Refused)
    else FirstMissing(channels[1..])
  }

  /** ensure_account_connection_channels */
  function Ensure(a: Arguments): Ensured {
    if a.account != Made then Missing(a.account == Refused)
    else if a.connection != Made then Missing(a.connection == Refused)
    else if a.channels == [] then Missing(true)
    else FirstMissing(a.channels)
  }

  function Targets(n: nat): set<Target> {
    if n == 0 then {Account, Connection, Operation} else Targets(n - 1) + {Channel(n - 1)}
  }

  function Prepare(n: nat): Context {
    Context(Unanswered, true, true, 3 + n, Targets(n), 0, false)
  }

  function ErrorReply(present: bool): Session {
    Session(if present then [Error] else [], None)
  }

  /** _tp_base_client_add_dispatch_operation up to its return. */
  function Called(a: Arguments): Session {
    if !a.approver || !a.implemented then Session([NotImplemented], None)
    else if !a.accountPath || !a.connectionPath then ErrorReply(true)
    else
      var e := Ensure(a);
      if e.Missing? then ErrorReply(e.error)
      else if a.operation != Made then ErrorReply(a.operation == Refused)
      else Session([], Some(Prepare(|a.channels|)))
  }

  // ---- the context

  function Reject(s: Session): Session {
    if s.context.None? then s
    else
      var c := s.context.value;
      if (c.state == Unanswered || c.state == Delayed) && c.invocation
      then Session(s.replies + [Error], Some(c.(state := Rejected, invocation := false)))
      else s
  }

  function Give(s: Session, answer: Answer): Session {
    if s.context.None? then s
    else
      var c := s.context.value;
      match answer
      case Accept =>
        if (c.state == Unanswered || c.state == Delayed) && c.invocation
        then Session(s.replies + [Returned], Some(c.(state := Answered, invocation := false)))
        else s
      case Fail => Reject(s)
      case Delay => if c.state == Unanswered then s.(context := Some(c.(state := Delayed))) else s
  }

  function GiveAll(s: Session, answers: seq<Answer>): Session
    decreases |answers|
  {
    if answers == [] then s else GiveAll(Give(s, answers[0]), answers[1..])
  }

  /** add_dispatch_context_prepare_cb: the implementation gives any number of answers, and one that
      gave none is answered for. */
  function Implemented(s: Session, answers: seq<Answer>): Session {
    var r := GiveAll(s, answers);
    if r.context.Some? && r.context.value.state == Unanswered then Reject(r) else r
  }

  /** One of the callbacks of context_prepare; whether its preparation succeeded does not matter. */
  function Arrive(c: Context, target: Target): Context {
    var d := c.(outstanding := c.outstanding - {target});
    if !c.result || c.pending == 0 then d
    else if c.pending > 1 then d.(pending := c.pending - 1)
    else d.(pending := 0, result := false, completions := c.completions + 1)
  }

  function Drop(s: Session): Session
    requires s.context.Some?
  {
    var r := Reject(s);
    if r.context.None? then r else r.(context := Some(r.context.value.(disposed := true)))
  }

  datatype Event =
    | Prepared(target: Target, ok: bool, answers: seq<Answer>)
    | Later(answer: Answer)
    | Disposed

  /** A callback comes once for each preparation, the implementation can answer later once it was
      called, and the context is disposed of when nothing is outstanding. */
  function Step(s: Session, e: Event): Session {
    if s.context.None? then s
    else
      var c := s.context.value;
      match e
      case Prepared(target, _, answers) =>
        if target !in c.outstanding then s
        else
          var d := s.(context := Some(Arrive(c, target)));
          if Arrive(c, target).completions > c.completions then Implemented(d, answers) else d
      case Later(answer) => if c.completions > 0 && !c.disposed then Give(s, answer) else s
      case Disposed => if c.outstanding == {} then Drop(s) else s
  }

  function Run(s: Session, es: seq<Event>): Session
    decreases |es|
  {
    if es == [] then s else Run(Step(s, es[0]), es[1..])
  }

  // ---- the join

  /** The counter tells how much is outstanding as long as the result is live, and the preparation
      completed once, exactly when nothing was left. */
  predicate Joined(c: Context) {
    && (c.result ==> c.pending == |c.outstanding| && c.pending > 0 && c.completions == 0)
    && (!c.result ==> c.outstanding == {} && c.completions == 1)
  }

  lemma {:induction false} TargetsCount(n: nat)
    ensures |Targets(n)| == n + 3
    ensures forall i: nat :: Channel(i) in Targets(n) <==> i < n
  {
    if n > 0 {
      TargetsCount(n - 1);
    }
  }

  lemma ArriveJoins(c: Context, target: Target)
    requires Joined(c) && target in c.outstanding
    ensures Joined(Arrive(c, target))
    ensures Arrive(c, target).completions > c.completions <==> c.outstanding == {target}
  {
    if c.pending == 1 {
      assert |c.outstanding - {target}| == 0;
    } else {
      assert c.outstanding != {target};
    }
  }

  // ---- the reply

  /** The invocation is at hand exactly while the context is unanswered or delayed; the replies and
      the invocation at hand add up to one; and a disposed context has been answered. */
  predicate Replied(s: Session) {
    s.context.Some? ==>
      var c := s.context.value;
      && (c.invocation <==> c.state == Unanswered || c.state == Delayed)
      && |s.replies| == (if c.invocation then 0 else 1)
      && (c.disposed ==> |s.replies| == 1)
      && (c.completions > 0 ==> c.state != Unanswered)
  }

  lemma GiveReplies(s: Session, answer: Answer)
    requires s.context.Some? && Replied(s)
    ensures Replied(Give(s, answer)) && Give(s, answer).context.Some? && Replied(Reject(s))
    ensures Give(s, answer).context.value == s.context.value.(state := Give(s, answer).context.value.state,
                                                              invocation := Give(s, answer).context.value.invocation)
  {
  }

  /** As Replied, except that the implementation is still running. */
  predicate Replying(s: Session) {
    && s.context.Some?
    && var c := s.context.value;
       && (c.invocation <==> c.state == Unanswered || c.state == Delayed)
       && |s.replies| == (if c.invocation then 0 else 1)
       && (c.disposed ==> |s.replies| == 1)
  }

  predicate SameJoin(c: Context, d: Context) {
    d == c.(state := d.state, invocation := d.invocation)
  }

  lemma {:induction false} GiveAllReplies(s: Session, answers: seq<Answer>)
    requires Replying(s)
    ensures Replying(GiveAll(s, answers)) && SameJoin(s.context.value, GiveAll(s, answers).context.value)
    decreases |answers|
  {
    if answers != [] {
      GiveAllReplies(Give(s, answers[0]), answers[1..]);
    }
  }

  predicate Sound(s: Session) {
    Replied(s) && (s.context.Some? ==> Joined(s.context.value))
  }

  lemma StepSound(s: Session, e: Event)
    requires Sound(s)
    ensures Sound(Step(s, e)) && Step(s, e).context.Some? == s.context.Some?
  {
    if s.context.Some? {
      match e
      case Prepared(target, _, answers) =>
        if target in s.context.value.outstanding {
          ArriveJoins(s.context.value, target);
          GiveAllReplies(s.(context := Some(Arrive(s.context.value, target))), answers);
        }
      case Later(answer) => GiveReplies(s, answer);
      case Disposed =>
    }
  }

  lemma {:induction false} RunSound(s: Session, es: seq<Event>)
    requires Sound(s)
    ensures Sound(Run(s, es)) && Run(s, es).context.Some? == s.context.Some?
    decreases |es|
  {
    if es != [] {
      StepSound(s, es[0]);
      RunSound(Step(s, es[0]), es[1..]);
    }
  }

  /** The first argument that cannot be made is one for which no error was set. */
  predicate FailsSilently(a: Arguments) {
    && a.approver && a.implemented && a.accountPath && a.connectionPath
    && (Ensure(a) == Missing(false) || (Ensure(a) == Ready && a.operation == Silent))
  }

  /** Whatever the arguments, the order of the preparations and the answers of the implementation: an
      invocation is answered at most once; it is answered by the time its context is disposed of; and
      one that gets no context is answered at once, unless a helper returned NULL without an error.
      While it has a context, the counter and the completion of the preparation are right. */
  lemma OneReply(a: Arguments, es: seq<Event>)
    ensures var s := Run(Called(a), es);
            && |s.replies| <= 1
            && (s.context.Some? ==> Joined(s.context.value) && (s.context.value.disposed ==> |s.replies| == 1))
            && (s.context.None? ==> (|s.replies| == 1 <==> !FailsSilently(a)))
  {
    TargetsCount(|a.channels|);
    RunSound(Called(a), es);
    if Called(a).context.None? {
      NothingFollows(Called(a), es);
    }
  }

  lemma {:induction false} NothingFollows(s: Session, es: seq<Event>)
    requires s.context.None?
    ensures Run(s, es) == s
    decreases |es|
  {
    if es != [] {
      NothingFollows(s, es[1..]);
    }
  }

  /** Every silent helper shows: some call is never answered. */
  lemma SilentHelper()
    ensures exists a :: forall es :: Run(Called(a), es).replies == []
  {
    var a := Arguments(true, true, true, true, Silent, Made, [Made], Made);
    forall es ensures Run(Called(a), es).replies == [] {
      NothingFollows(Called(a), es);
    }
  }

  // ---- which reply

  /** The helpers in the order in which they are asked; without channels there is an error at once. */
  function Helpers(a: Arguments): seq<Made> {
    [a.account, a.connection] + (if a.channels == [] then [Refused] else a.channels) + [a.operation]
  }

  predicate FirstBad(hs: seq<Made>, k: nat) {
    k < |hs| && hs[k] != Made && forall i :: 0 <= i < k ==> hs[i] == Made
  }

  lemma {:induction false} FirstMissingAt(channels: seq<Made>)
    ensures FirstMissing(channels) == Ready ==> forall i :: 0 <= i < |channels| ==> channels[i] == Made
    ensures forall k: nat :: FirstBad(channels, k) ==> FirstMissing(channels) == Missing(channels[k] == Refused)
  {
    if channels != [] {
      FirstMissingAt(channels[1..]);
      forall k: nat | FirstBad(channels, k)
        ensures FirstMissing(channels) == Missing(channels[k] == Refused)
      {
        if k > 0 {
          assert FirstBad(channels[1..], k - 1);
        }
      }
    }
  }

  /** A call is turned away exactly if it comes to somebody who is no approver or does not implement it;
      it is an error for a bad path and for the first helper that sets one, and nothing for the first
      helper that sets none; otherwise a context is made, with everything to be prepared. */
  lemma CalledExactly(a: Arguments)
    ensures var s := Called(a);
            && (s.replies == [NotImplemented] <==> !a.approver || !a.implemented)
            && (a.approver && a.implemented && !(a.accountPath && a.connectionPath) ==> s == Session([Error], None))
            && (a.approver && a.implemented && a.accountPath && a.connectionPath ==>
                  && (forall k: nat :: FirstBad(Helpers(a), k) ==>
                        s == Session(if Helpers(a)[k] == Refused then [Error] else [], None))
                  && ((forall k :: 0 <= k < |Helpers(a)| ==> Helpers(a)[k] == Made) ==>
                        && s.replies == [] && s.context.Some? && s.context.value.state == Unanswered
                        && forall t :: t in s.context.value.outstanding <==> t in Targets(|a.channels|)))
  {
    if a.approver && a.implemented && a.accountPath && a.connectionPath {
      forall k: nat | FirstBad(Helpers(a), k)
        ensures Called(a) == Session(if Helpers(a)[k] == Refused then [Error] else [], None)
      {
        BadHelper(a, k);
      }
      if forall k :: 0 <= k < |Helpers(a)| ==> Helpers(a)[k] == Made {
        GoodHelpers(a);
      }
    }
  }

  /** The helpers one by one. */
  predicate Lists(hs: seq<Made>, a: Arguments) {
    && a.channels != [] && |hs| == |a.channels| + 3
    && hs[0] == a.account && hs[1] == a.connection && hs[|a.channels| + 2] == a.operation
    && (forall i :: 0 <= i < |a.channels| ==> hs[i + 2] == a.channels[i])
  }

  lemma HelpersList(a: Arguments)
    requires a.channels != []
    ensures Lists(Helpers(a), a)
  {
  }

  lemma BadHelper(a: Arguments, k: nat)
    requires a.approver && a.implemented && a.accountPath && a.connectionPath && FirstBad(Helpers(a), k)
    ensures Called(a) == Session(if Helpers(a)[k] == Refused then [Error] else [], None)
  {
    var hs := Helpers(a);
    if a.channels == [] {
      assert hs == [a.account, a.connection, Refused, a.operation];
      assert hs[0] == a.account && hs[1] == a.connection && hs[2] == Refused;
      assert k <= 2;
    } else {
      HelpersList(a);
      BadListed(a, hs, k);
    }
  }

  lemma BadListed(a: Arguments, hs: seq<Made>, k: nat)
    requires a.approver && a.implemented && a.accountPath && a.connectionPath && Lists(hs, a) && FirstBad(hs, k)
    ensures Called(a) == Session(if hs[k] == Refused then [Error] else [], None)
  {
    FirstMissingAt(a.channels);
    if 2 <= k < |hs| - 1 {
      forall i | 0 <= i < k - 2
        ensures a.channels[i] == Made
      {
        assert hs[i + 2] == Made;
      }
      assert hs[(k - 2) + 2] == a.channels[k - 2];
      assert FirstBad(a.channels, k - 2);
    } else if k == |hs| - 1 {
      forall i | 0 <= i < |a.channels|
        ensures a.channels[i] == Made
      {
        assert hs[i + 2] == Made;
      }
      AllMade(a.channels);
    }
  }

  lemma {:induction false} AllMade(channels: seq<Made>)
    requires forall i :: 0 <= i < |channels| ==> channels[i] == Made
    ensures FirstMissing(channels) == Ready
  {
    if channels != [] {
      AllMade(channels[1..]);
    }
  }

  lemma GoodHelpers(a: Arguments)
    requires a.approver && a.implemented && a.accountPath && a.connectionPath
    requires forall k :: 0 <= k < |Helpers(a)| ==> Helpers(a)[k] == Made
    ensures Called(a) == Session([], Some(Prepare(|a.channels|)))
  {
    var hs := Helpers(a);
    assert hs[0] == a.account && hs[1] == a.connection && hs[|hs| - 1] == a.operation;
    assert hs[2] == if a.channels == [] then Refused else a.channels[0];
    assert forall i :: 0 <= i < |a.channels| ==> hs[i + 2] == a.channels[i];
    AllMade(a.channels);
  }

  /** What has been prepared of what there is to prepare with `n` channels. */
  function Heard(n: nat, es: seq<Event>): set<Target> {
    if es == [] then {}
    else
      var e := es[|es| - 1];
      Heard(n, es[..|es| - 1]) + if e.Prepared? && e.target in Targets(n) then {e.target} else {}
  }

  /** The answers that reach the context with an event: those of the implementation, called when the last
      preparation arrives, or a failure if it gives none; later ones; and a failure on disposal. */
  function Said(n: nat, es: seq<Event>, e: Event): seq<Answer> {
    match e
    case Prepared(target, _, answers) =>
      if target in Targets(n) && Heard(n, es) == Targets(n) - {target} then (if answers == [] then [Fail] else answers) else []
    case Later(answer) => if Heard(n, es) == Targets(n) then [answer] else []
    case Disposed => if Heard(n, es) == Targets(n) then [Fail] else []
  }

  /** All of them, in their order. */
  function AllSaid(n: nat, es: seq<Event>): seq<Answer> {
    if es == [] then [] else AllSaid(n, es[..|es| - 1]) + Said(n, es[..|es| - 1], es[|es| - 1])
  }

  /** The first of them that is not a delay. */
  function Decision(answers: seq<Answer>): Option<Answer> {
    if answers == [] then None
    else
      var before := Decision(answers[..|answers| - 1]);
      if before.None? && answers[|answers| - 1] != Delay then Some(answers[|answers| - 1]) else before
  }

  function Decided(answers: seq<Answer>): State {
    match Decision(answers)
    case None => if answers == [] then Unanswered else Delayed
    case Some(a) => if a == Accept then Answered else Rejected
  }

  function RepliesTo(answers: seq<Answer>): seq<Reply> {
    match Decision(answers)
    case None => []
    case Some(a) => if a == Accept then [Returned] else [Error]
  }

  /** The session is what the answers make it. */
  predicate Follows(s: Session, answers: seq<Answer>) {
    && s.context.Some?
    && s.context.value.state == Decided(answers) && s.replies == RepliesTo(answers)
    && (s.context.value.invocation <==> Decision(answers).None?)
  }

  lemma GiveFollows(s: Session, answers: seq<Answer>, a: Answer)
    requires Follows(s, answers)
    ensures Follows(Give(s, a), answers + [a]) && (a == Fail ==> Give(s, a) == Reject(s))
    ensures SameJoin(s.context.value, Give(s, a).context.value)
  {
    assert (answers + [a])[..|answers|] == answers;
  }

  lemma {:induction false} GiveAllFollows(s: Session, answers: seq<Answer>, more: seq<Answer>)
    requires Follows(s, answers)
    ensures Follows(GiveAll(s, more), answers + more) && SameJoin(s.context.value, GiveAll(s, more).context.value)
    decreases |more|
  {
    if more == [] {
      assert answers + more == answers;
    } else {
      GiveFollows(s, answers, more[0]);
      GiveAllFollows(Give(s, more[0]), answers + [more[0]], more[1..]);
      assert answers + [more[0]] + more[1..] == answers + more;
    }
  }

  /** What the events have made of a session with `n` channels. */
  predicate Told(s: Session, n: nat, es: seq<Event>) {
    && Follows(s, AllSaid(n, es))
    && var c := s.context.value;
       && c.outstanding == Targets(n) - Heard(n, es)
       && (c.completions > 0 <==> Heard(n, es) == Targets(n))
       && (Heard(n, es) != Targets(n) ==> AllSaid(n, es) == [])
       && (c.disposed ==> Decision(AllSaid(n, es)).Some?)
  }

  lemma {:induction false} HeardTargets(n: nat, es: seq<Event>)
    ensures Heard(n, es) <= Targets(n)
  {
    if es != [] {
      HeardTargets(n, es[..|es| - 1]);
    }
  }

  lemma SaidNext(n: nat, es: seq<Event>, e: Event)
    ensures Heard(n, es + [e]) == Heard(n, es) + if e.Prepared? && e.target in Targets(n) then {e.target} else {}
    ensures AllSaid(n, es + [e]) == AllSaid(n, es) + Said(n, es, e)
  {
    assert (es + [e])[..|es|] == es;
  }

  /** The last preparation arrives. */
  lemma LastTells(s: Session, n: nat, es: seq<Event>, e: Event)
    requires Sound(s) && Told(s, n, es) && e.Prepared? && s.context.value.outstanding == {e.target}
    ensures Told(Step(s, e), n, es + [e])
  {
    var c := s.context.value;
    SaidNext(n, es, e);
    HeardTargets(n, es);
    ArriveJoins(c, e.target);
    assert Heard(n, es) == Targets(n) - {e.target};
    assert Heard(n, es + [e]) == Targets(n);
    ImplementedFollows(s.(context := Some(Arrive(c, e.target))), e.answers);
    assert [] + Said(n, es, e) == Said(n, es, e);
    DecisionDecides(Said(n, es, e));
  }

  /** Another preparation arrives, or one that nobody waits for. */
  lemma EarlierTells(s: Session, n: nat, es: seq<Event>, e: Event)
    requires Sound(s) && Told(s, n, es) && e.Prepared? && s.context.value.outstanding != {e.target}
    ensures Told(Step(s, e), n, es + [e])
  {
    var c := s.context.value;
    SaidNext(n, es, e);
    HeardTargets(n, es);
    assert AllSaid(n, es) + [] == AllSaid(n, es);
    EarlierHeard(n, es, e.target, c.outstanding);
    if e.target in c.outstanding {
      ArriveJoins(c, e.target);
    }
  }

  lemma EarlierHeard(n: nat, es: seq<Event>, target: Target, left: set<Target>)
    requires left == Targets(n) - Heard(n, es) && left != {target} && Heard(n, es) <= Targets(n)
    ensures target in Targets(n) ==> Heard(n, es) != Targets(n) - {target}
    ensures left - {target} == Targets(n) - (Heard(n, es) + if target in Targets(n) then {target} else {})
    ensures Heard(n, es) + (if target in Targets(n) then {target} else {}) == Targets(n) <==> Heard(n, es) == Targets(n)
    ensures target !in left ==> Heard(n, es) + (if target in Targets(n) then {target} else {}) == Heard(n, es)
  {
    if t :| t in left && t != target {
      assert t in Targets(n) && t !in Heard(n, es);
    } else {
      assert left == {};
    }
  }

  lemma PreparedTells(s: Session, n: nat, es: seq<Event>, e: Event)
    requires Sound(s) && Told(s, n, es) && e.Prepared?
    ensures Told(Step(s, e), n, es + [e])
  {
    if s.context.value.outstanding == {e.target} {
      LastTells(s, n, es, e);
    } else {
      EarlierTells(s, n, es, e);
    }
  }

  lemma ImplementedFollows(s: Session, answers: seq<Answer>)
    requires Follows(s, [])
    ensures Follows(Implemented(s, answers), if answers == [] then [Fail] else answers)
    ensures SameJoin(s.context.value, Implemented(s, answers).context.value)
  {
    GiveAllFollows(s, [], answers);
    assert [] + answers == answers;
    if answers == [] {
      GiveFollows(s, [], Fail);
      assert [] + [Fail] == [Fail];
    }
  }

  lemma StepTells(s: Session, n: nat, es: seq<Event>, e: Event)
    requires Sound(s) && Told(s, n, es)
    ensures Told(Step(s, e), n, es + [e])
  {
    SaidNext(n, es, e);
    match e
    case Prepared(_, _, _) => PreparedTells(s, n, es, e);
    case Later(a) => LaterTells(s, n, es, a);
    case Disposed =>
      HeardTargets(n, es);
      GiveFollows(s, AllSaid(n, es), Fail);
      assert AllSaid(n, es) + [] == AllSaid(n, es);
      assert (s.context.value.outstanding == {}) == (Heard(n, es) == Targets(n));
  }

  lemma LaterTells(s: Session, n: nat, es: seq<Event>, a: Answer)
    requires Sound(s) && Told(s, n, es)
    ensures Told(Step(s, Later(a)), n, es + [Later(a)])
  {
    SaidNext(n, es, Later(a));
    GiveFollows(s, AllSaid(n, es), a);
    assert AllSaid(n, es) + [] == AllSaid(n, es);
    if s.context.value.disposed {
      assert (AllSaid(n, es) + [a])[..|AllSaid(n, es)|] == AllSaid(n, es);
    }
  }

  lemma {:induction false} RunSnoc(s: Session, es: seq<Event>, e: Event)
    ensures Run(s, es + [e]) == Step(Run(s, es), e)
    decreases |es|
  {
    if es == [] {
      assert ([] + [e])[1..] == [];
    } else {
      assert (es + [e])[1..] == es[1..] + [e];
      RunSnoc(Step(s, es[0]), es[1..], e);
    }
  }

  lemma {:induction false} RunTells(n: nat, es: seq<Event>)
    ensures Told(Run(Session([], Some(Prepare(n))), es), n, es)
  {
    var s := Session([], Some(Prepare(n)));
    TargetsCount(n);
    if es == [] {
      assert Account in Targets(n) by { TargetsBase(n); }
    } else {
      var init, e := es[..|es| - 1], es[|es| - 1];
      assert es == init + [e];
      RunTells(n, init);
      RunSound(s, init);
      RunSnoc(s, init, e);
      StepTells(Run(s, init), n, init, e);
    }
  }

  lemma {:induction false} TargetsBase(n: nat)
    ensures Account in Targets(n) && Connection in Targets(n) && Operation in Targets(n)
  {
    if n > 0 {
      TargetsBase(n - 1);
    }
  }

  /** With a context, the reply is what the first answer says that is no delay: the method returns if
      that is to accept and gives an error if that is to fail, where an implementation that gives no
      answer fails, and so does disposing of the context; without such an answer there is no reply. The
      implementation is heard once everything is prepared. */
  lemma ReplyExactly(a: Arguments, es: seq<Event>)
    requires Called(a).context.Some?
    ensures var s := Run(Called(a), es);
            var said := AllSaid(|a.channels|, es);
            && s.context.Some?
            && (s.replies == [Returned] <==> Decision(said) == Some(Accept))
            && (s.replies == [Error] <==> Decision(said) == Some(Fail))
            && (s.replies == [] <==> Decision(said).None?)
            && (s.context.value.state == Answered <==> s.replies == [Returned])
            && (s.context.value.state == Rejected <==> s.replies == [Error])
            && (s.context.value.state == Unanswered <==> said == [])
  {
    RunTells(|a.channels|, es);
    RepliesDecide(Run(Called(a), es), AllSaid(|a.channels|, es));
  }

  lemma RepliesDecide(s: Session, said: seq<Answer>)
    requires Follows(s, said)
    ensures s.replies == [Returned] <==> Decision(said) == Some(Accept)
    ensures s.replies == [Error] <==> Decision(said) == Some(Fail)
    ensures s.replies == [] <==> Decision(said).None?
    ensures s.context.value.state == Answered <==> s.replies == [Returned]
    ensures s.context.value.state == Rejected <==> s.replies == [Error]
    ensures s.context.value.state == Unanswered <==> said == []
  {
    DecisionDecides(said);
  }

  lemma {:induction false} DecisionDecides(answers: seq<Answer>)
    ensures Decision(answers).Some? ==> Decision(answers).value != Delay && answers != []
  {
    if answers != [] {
      DecisionDecides(answers[..|answers| - 1]);
    }
  }

  // ---- preparing as a run

  /** All callbacks in some order. */
  ghost predicate Arrivals(ts: seq<Target>, n: nat) {
    && (forall i, j :: 0 <= i < j < |ts| ==> ts[i] != ts[j])
    && (forall t :: t in ts <==> t in Targets(n))
  }

  function Arriving(c: Context, ts: seq<Target>): Context
    decreases |ts|
  {
    if ts == [] then c else Arriving(Arrive(c, ts[0]), ts[1..])
  }

  lemma {:induction false} ArrivingJoins(c: Context, ts: seq<Target>)
    requires Joined(c) && (forall i, j :: 0 <= i < j < |ts| ==> ts[i] != ts[j]) && forall t :: t in ts ==> t in c.outstanding
    ensures var r := Arriving(c, ts);
            Joined(r) && r.outstanding == c.outstanding - (set t | t in ts)
    decreases |ts|
  {
    if ts != [] {
      ArriveJoins(c, ts[0]);
      assert forall t :: t in ts <==> t == ts[0] || t in ts[1..];
      assert ts[0] !in ts[1..];
      ArrivingJoins(Arrive(c, ts[0]), ts[1..]);
    }
  }

  /** However the callbacks of a call with `n` channels are ordered, the preparation completes on the
      last of them and on no earlier one. */
  lemma CompletesOnLast(n: nat, ts: seq<Target>, k: nat)
    requires Arrivals(ts, n) && k <= |ts|
    ensures |ts| == n + 3
    ensures Arriving(Prepare(n), ts[..k]).completions == if k == |ts| then 1 else 0
  {
    TargetsCount(n);
    ArrivalsCount(ts, Targets(n));
    PrefixArrivals(ts, n, k);
    ArrivingJoins(Prepare(n), ts[..k]);
    LeftAfter(ts, n, k);
  }

  lemma PrefixArrivals(ts: seq<Target>, n: nat, k: nat)
    requires Arrivals(ts, n) && k <= |ts|
    ensures var us := ts[..k];
            (forall i, j :: 0 <= i < j < |us| ==> us[i] != us[j]) && forall t :: t in us ==> t in Targets(n)
  {
    forall t | t in ts[..k]
      ensures t in Targets(n)
    {
      assert t in ts;
    }
  }

  /** Something is left before the last arrival, and nothing after it. */
  lemma LeftAfter(ts: seq<Target>, n: nat, k: nat)
    requires Arrivals(ts, n) && k <= |ts|
    ensures Targets(n) - (set t | t in ts[..k]) == {} <==> k == |ts|
  {
    if k == |ts| {
      assert ts[..k] == ts;
    } else {
      assert ts[k] in ts && ts[k] !in ts[..k];
      assert ts[k] in Targets(n) - (set t | t in ts[..k]);
    }
  }

  lemma {:induction false} ArrivalsCount(ts: seq<Target>, all: set<Target>)
    requires (forall i, j :: 0 <= i < j < |ts| ==> ts[i] != ts[j]) && forall t :: t in ts <==> t in all
    ensures |ts| == |all|
    decreases |ts|
  {
    if ts == [] {
      assert all == {};
    } else {
      assert forall t :: t in ts <==> t == ts[0] || t in ts[1..];
      ArrivalsCount(ts[1..], all - {ts[0]});
    }
  }

  // ---- the objects

  /** TpAddDispatchOperationContext, with the replies its invocation got. */
  class ContextObject {
    var state: State
    var invocation: bool
    var result: bool
    var pending: nat
    var completions: nat
    var disposed: bool
    var replies: seq<Reply>
    ghost var outstanding: set<Target>

    ghost function View(): Session
      reads this
    {
      Session(replies, Some(Context(state, invocation, result, pending, outstanding, completions, disposed)))
    }

    /** A context whose preparation has been started: context_prepare asks for three proxies, then for
        every channel. */
    constructor (channels: nat)
      ensures View() == Session([], Some(Prepare(channels)))
    {
      state, invocation, replies := Unanswered, true, [];
      result, completions, disposed := true, 0, false;
      pending := 3;
      outstanding := Targets(0);
      new;
      var i := 0;
      while i < channels
        invariant 0 <= i <= channels && pending == 3 + i && outstanding == Targets(i)
        invariant View() == Session([], Some(Prepare(0).(pending := pending, outstanding := outstanding)))
      {
        pending := pending + 1;
        outstanding := outstanding + {Channel(i)};
        i := i + 1;
      }
    }

    /** tp_add_dispatch_operation_context_accept */
    method Accept()
      modifies this
      ensures View() == Give(old(View()), Answer.Accept)
    {
      if (state != Unanswered && state != Delayed) || !invocation {
        return;
      }
      state := Answered;
      replies := replies + [Returned];
      invocation := false;
    }

    /** tp_add_dispatch_operation_context_fail */
    method Fail()
      modifies this
      ensures View() == Reject(old(View()))
    {
      if (state != Unanswered && state != Delayed) || !invocation {
        return;
      }
      state := Rejected;
      replies := replies + [Error];
      invocation := false;
    }

    /** tp_add_dispatch_operation_context_delay */
    method Delay()
      modifies this
      ensures View() == Give(old(View()), Answer.Delay)
    {
      if state != Unanswered {
        return;
      }
      state := Delayed;
    }

    method Dispose()
      modifies this
      ensures View() == Drop(old(View()))
    {
      if state == Unanswered || state == Delayed {
        Fail();
      }
      disposed := true;
    }

    /** The implementation of AddDispatchOperation, giving its answers. */
    method Implementation(answers: seq<Answer>)
      modifies this
      ensures View() == GiveAll(old(View()), answers)
    {
      var left := answers;
      while left != []
        invariant GiveAll(View(), left) == GiveAll(old(View()), answers)
        decreases |left|
      {
        match left[0] {
          case Accept => Accept();
          case Fail => Fail();
          case Delay => Delay();
        }
        left := left[1..];
      }
    }

    /** add_dispatch_context_prepare_cb */
    method OnContextPrepared(answers: seq<Answer>)
      modifies this
      ensures View() == Implemented(old(View()), answers)
    {
      Implementation(answers);
      if state == Unanswered {
        Fail();
      }
    }

    /** account_prepare_cb, conn_prepare_cb, cdo_prepare_cb and adoc_channel_prepare_cb, with
        context_check_prepare */
    method OnPrepared(ghost target: Target, ok: bool, answers: seq<Answer>)
      requires target in outstanding && (result ==> pending > 0)
      modifies this
      ensures View() == Step(old(View()), Prepared(target, ok, answers))
    {
      outstanding := outstanding - {target};
      if !result {
        return;
      }
      pending := pending - 1;
      if pending != 0 {
        return;
      }
      result := false;
      completions := completions + 1;
      OnContextPrepared(answers);
    }
  }

  /** The loop of ensure_account_connection_channels: the array it builds, or how it failed. */
  method EnsureChannels(channels: seq<Made>) returns (e: Ensured, built: seq<Made>)
    ensures e == FirstMissing(channels)
    ensures e == Ready ==> built == channels
    ensures e != Ready ==> built == []
  {
    built := [];
    var i := 0;
    while i < |channels|
      invariant 0 <= i <= |channels| && built == channels[..i]
      invariant FirstMissing(channels) == FirstMissing(channels[i..])
    {
      if channels[i] != Made {
        return Missing(channels[i] == Refused), [];
      }
      built := built + [channels[i]];
      i := i + 1;
    }
    return Ready, built;
  }

  /** _tp_base_client_add_dispatch_operation: the replies it sends itself, or the context it leaves. */
  method AddDispatchOperation(a: Arguments) returns (replies: seq<Reply>, context: ContextObject?)
    ensures context == null ==> Session(replies, None) == Called(a)
    ensures context != null ==> fresh(context) && context.View() == Called(a) && replies == []
  {
    replies, context := [], null;
    if !a.approver || !a.implemented {
      replies := [NotImplemented];
      return;
    }
    var error := false;
    if !a.accountPath || !a.connectionPath {
      error := true;
    } else if a.account != Made {
      error := a.account == Refused;
    } else if a.connection != Made {
      error := a.connection == Refused;
    } else if a.channels == [] {
      error := true;
    } else {
      var e, built := EnsureChannels(a.channels);
      if e.Missing? {
        error := e.error;
      } else if a.operation != Made {
        error := a.operation == Refused;
      } else {
        context := new ContextObject(|built|);
        return;
      }
    }
    if error {
      replies := [Error];
    }
  }
}
