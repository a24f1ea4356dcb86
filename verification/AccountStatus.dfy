/** The connection status of an account and the error that goes with it, kept together under partial
    updates of the account's properties.
 */
module AccountStatus {
  import opened Options

  datatype Status = Connected | Connecting | Disconnected

  type Reason = nat
  type Details = map<string, string>

  const NONE_SPECIFIED: Reason := 0
  const REQUESTED: Reason := 1
  const DISCONNECTED_ERROR := "org.freedesktop.Telepathy.Error.Disconnected"
  const CANCELLED_ERROR := "org.freedesktop.Telepathy.Error.Cancelled"

  /** What users of the account can read. */
  datatype Condition = Condition(status: Status, reason: Reason, error: Option<string>, details: Details)

  /** The condition, and what could be read at every notification of it. */
  datatype Account = Account(condition: Condition, log: seq<Condition>)

  const INITIAL := Account(Condition(Disconnected, NONE_SPECIFIED, Some(DISCONNECTED_ERROR), map[]), [])

  /** The properties that a change signal or GetAll happens to carry. Details that are not a map count
      as none. */
  datatype Properties = Properties(
    status: Option<Status>,
    reason: Option<Reason>,
    error: Option<string>,
    details: Option<Details>)

  /** How an error is guessed from a reason and the status before the update; it may have nothing to
      offer. */
  type Guess = (Reason, Status) -> Option<string>

  function NewError(p: Properties, kept: Option<string>): Option<string> {
    if p.error.None? then kept else if p.error.value == "" then None else Some(p.error.value)
  }

  function Carried(p: Properties, c: Condition): Condition {
    Condition(if p.status.Some? then p.status.value else c.status,
              if p.reason.Some? then p.reason.value else c.reason,
              NewError(p, c.error),
              if p.details.Some? then p.details.value else c.details)
  }

  /** The update touched what users can read, or rewrote details that were or are not empty. */
  predicate Touched(p: Properties, c: Condition) {
    || Carried(p, c).status != c.status || Carried(p, c).reason != c.reason || Carried(p, c).error != c.error
    || (p.details.Some? && (p.details.value != map[] || c.details != map[]))
  }

  function Cohere(c: Condition, before: Status, guess: Guess): Condition {
    if c.status == Connected then c.(error := None, details := map[])
    else if c.error.None? then
      var guessed := guess(c.reason, before);
      c.(error := Some(if guessed.Some? then guessed.value else DISCONNECTED_ERROR))
    else c
  }

  function Update(a: Account, p: Properties, guess: Guess): Account {
    if !Touched(p, a.condition) then a
    else
      var c := Cohere(Carried(p, a.condition), a.condition.status, guess);
      Account(c, a.log + [c])
  }

  /** _tp_account_invalidated_cb; `debug` is the message it records. */
  function Invalidate(a: Account, removed: bool, debug: string): Account {
    if a.condition.status == Disconnected then a
    else
      var c := Condition(Disconnected, if removed then REQUESTED else NONE_SPECIFIED,
                         Some(if removed then CANCELLED_ERROR else DISCONNECTED_ERROR), map["debug-message" := debug]);
      Account(c, a.log + [c])
  }

  datatype Event = Updated(properties: Properties) | Invalidated(removed: bool, debug: string)

  function Step(a: Account, e: Event, guess: Guess): Account {
    match e
    case Updated(p) => Update(a, p, guess)
    case Invalidated(removed, debug) => Invalidate(a, removed, debug)
  }

  function Run(a: Account, es: seq<Event>, guess: Guess): Account
    decreases |es|
  {
    if es == [] then a else Run(Step(a, es[0], guess), es[1..], guess)
  }

  /** There is an error exactly when the account is not connected, and a connected account has no
      details. */
  predicate Coherent(c: Condition) {
    (c.error.None? <==> c.status == Connected) && (c.status == Connected ==> c.details == map[])
  }

  /** Who read the condition at first and after every notification knows what it is. */
  predicate Told(a: Account, first: Condition) {
    (if a.log == [] then first else a.log[|a.log| - 1]) == a.condition
  }

  lemma StepCoherent(a: Account, e: Event, guess: Guess, first: Condition)
    requires Coherent(a.condition) && Told(a, first)
    ensures var r := Step(a, e, guess);
            && Coherent(r.condition) && Told(r, first)
            && (r.condition != a.condition ==> |r.log| == |a.log| + 1)
  {
    match e
    case Updated(p) =>
      if !Touched(p, a.condition) {
        assert Carried(p, a.condition) == a.condition;
      }
    case Invalidated(_, _) =>
  }

  /** From the initial condition, whatever the updates carry, however the error is guessed and whenever
      the account is invalidated: the error and its details fit the status, and observers are told of
      every change. */
  lemma {:induction false} ErrorFitsStatus(a: Account, es: seq<Event>, guess: Guess, first: Condition)
    requires Coherent(a.condition) && Told(a, first)
    ensures var r := Run(a, es, guess); Coherent(r.condition) && Told(r, first)
    decreases |es|
  {
    if es != [] {
      StepCoherent(a, es[0], guess, first);
      ErrorFitsStatus(Step(a, es[0], guess), es[1..], guess, first);
    }
  }

  /** What an update carries is what can be read afterwards, and the rest stays. A connected account has
      neither error nor details; one that is not connected has the error it was told last, or, if it was
      told that there is none or has just lost its connection without being told one, the one guessed
      from the reason and the status before. */
  lemma UpdateEffects(a: Account, p: Properties, guess: Guess)
    requires Coherent(a.condition)
    ensures var c, r := a.condition, Update(a, p, guess).condition;
            && (p.status.Some? ==> r.status == p.status.value) && (p.status.None? ==> r.status == c.status)
            && (p.reason.Some? ==> r.reason == p.reason.value) && (p.reason.None? ==> r.reason == c.reason)
            && (r.status == Connected ==> r.error.None? && r.details == map[])
            && (r.status != Connected ==>
                  && (p.details.Some? ==> r.details == p.details.value) && (p.details.None? ==> r.details == c.details)
                  && (p.error.Some? && p.error.value != "" ==> r.error == p.error)
                  && (p.error.None? && c.error.Some? ==> r.error == c.error)
                  && ((p.error.Some? && p.error.value == "") || (p.error.None? && c.error.None?) ==>
                        r.error == Some(match guess(r.reason, c.status) case None => DISCONNECTED_ERROR case Some(x) => x)))
  {
    if !Touched(p, a.condition) {
      assert Carried(p, a.condition) == a.condition;
    }
  }

  /** An account that is not disconnected is so once it is invalidated: at the user's request and
      cancelled if it was removed, and for no stated reason otherwise, with the message; that is notified
      once. A disconnected one stays as it is. */
  lemma InvalidationEffects(a: Account, removed: bool, debug: string, guess: Guess)
    ensures var r := Step(a, Invalidated(removed, debug), guess);
            if a.condition.status == Disconnected then r == a
            else
              && r.condition.status == Disconnected && r.log == a.log + [r.condition]
              && r.condition.reason == (if removed then REQUESTED else NONE_SPECIFIED)
              && r.condition.error == Some(if removed then CANCELLED_ERROR else DISCONNECTED_ERROR)
              && r.condition.details.Keys == {"debug-message"} && r.condition.details["debug-message"] == debug
  {
  }

  /** The error that takes the place of a missing one. */
  function Substitute(c: Condition, guess: Guess): string {
    var guessed := guess(c.reason, c.status);
    if guessed.Some? then guessed.value else DISCONNECTED_ERROR
  }

  /** The update says nothing new and yet not nothing: a connected account is told of an error or of
      details, which do not stay; or an account that is not connected gets its details once more, or
      loses an error that is at once guessed again. */
  predicate InVain(p: Properties, c: Condition, guess: Guess) {
    && (p.status.Some? ==> p.status.value == c.status)
    && (p.reason.Some? ==> p.reason.value == c.reason)
    && var cleared := p.error.Some? && p.error.value == "";
       if c.status == Connected then (p.error.Some? && !cleared) || (p.details.Some? && p.details.value != map[])
       else
         && (p.details.Some? ==> p.details.value == c.details)
         && (if cleared then c.error == Some(Substitute(c, guess)) else p.error.Some? ==> p.error == c.error)
         && (cleared || (p.details.Some? && c.details != map[]))
  }

  /** Observers are told of every update that changes the condition, once, and besides only of those
      that are in vain. */
  lemma TellsExactly(a: Account, p: Properties, guess: Guess)
    requires Coherent(a.condition)
    ensures var r := Update(a, p, guess);
            && (r.log != a.log <==> r.condition != a.condition || InVain(p, a.condition, guess))
            && (r.condition != a.condition ==> !InVain(p, a.condition, guess))
            && (r.log != a.log ==> r.log == a.log + [r.condition])
  {
    if Touched(p, a.condition) {
      assert Update(a, p, guess).log == a.log + [Update(a, p, guess).condition];
    } else {
      assert Carried(p, a.condition) == a.condition;
    }
  }

  /** So a notification need not mean a change: the same details once more are enough. */
  lemma ToldInVain(c: Condition, guess: Guess)
    requires Coherent(c) && c.details != map[]
    ensures var a := Account(c, []);
            var r := Update(a, Properties(None, None, None, Some(c.details)), guess);
            r.condition == c && r.log == [c]
  {
    TellsExactly(Account(c, []), Properties(None, None, None, Some(c.details)), guess);
  }

  // ---- the object

  /** The status part of TpAccount. */
  class StatusObject {
    var status: Status
    var reason: Reason
    var error: Option<string>
    var details: Details
    var log: seq<Condition>

    constructor ()
      ensures View() == INITIAL
    {
      status, reason, error, details, log := Disconnected, NONE_SPECIFIED, Some(DISCONNECTED_ERROR), map[], [];
    }

    ghost function View(): Account
      reads this
    {
      Account(Condition(status, reason, error, details), log)
    }

    method NotifyStatus()
      modifies this`log
      ensures log == old(log) + [Condition(status, reason, error, details)]
    {
      log := log + [Condition(status, reason, error, details)];
    }

    /** The status part of _tp_account_update. */
    method OnUpdate(p: Properties, guess: Guess)
      modifies this
      ensures View() == Update(old(View()), p, guess)
    {
      var before := status;
      var changed := TakeStatus(p);
      var more := TakeError(p);
      if changed || more {
        Settle(before, guess);
        NotifyStatus();
      }
    }

    method TakeStatus(p: Properties) returns (changed: bool)
      modifies this`status, this`reason
      ensures status == (if p.status.Some? then p.status.value else old(status))
      ensures reason == (if p.reason.Some? then p.reason.value else old(reason))
      ensures changed <==> status != old(status) || reason != old(reason)
    {
      changed := false;
      if p.status.Some? {
        if p.status.value != status {
          changed := true;
        }
        status := p.status.value;
      }
      if p.reason.Some? {
        if reason != p.reason.value {
          changed := true;
        }
        reason := p.reason.value;
      }
    }

    method TakeError(p: Properties) returns (changed: bool)
      modifies this`error, this`details
      ensures error == NewError(p, old(error)) && details == if p.details.Some? then p.details.value else old(details)
      ensures changed <==> error != old(error) || (p.details.Some? && (p.details.value != map[] || old(details) != map[]))
    {
      changed := false;
      if p.error.Some? {
        var next := if p.error.value == "" then None else Some(p.error.value);
        if next != error {
          error := next;
          changed := true;
        }
      }
      if p.details.Some? && (|p.details.value| > 0 || |details| > 0) {
        details := p.details.value;
        changed := true;
      }
    }

    method Settle(before: Status, guess: Guess)
      modifies this`error, this`details
      ensures Condition(status, reason, error, details)
              == Cohere(Condition(status, reason, old(error), old(details)), before, guess)
    {
      if status == Connected {
        details := map[];
        error := None;
      } else if error.None? {
        var guessed := guess(reason, before);
        if guessed.None? {
          guessed := Some(DISCONNECTED_ERROR);
        }
        error := guessed;
      }
    }

    /** _tp_account_invalidated_cb */
    method OnInvalidated(removed: bool, debug: string)
      modifies this
      ensures View() == Invalidate(old(View()), removed, debug)
    {
      if status == Disconnected {
        return;
      }
      status := Disconnected;
      if removed {
        reason := REQUESTED;
        error := Some(CANCELLED_ERROR);
      } else {
        reason := NONE_SPECIFIED;
        error := Some(DISCONNECTED_ERROR);
      }
      details := map["debug-message" := debug];
      NotifyStatus();
    }
  }
}
