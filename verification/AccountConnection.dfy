/** Which connection an account shows to its users: none until it has been prepared, once the
    connection feature is in use.
 */
module AccountConnection {
  import opened Options

  type Id = nat

  /** A TpConnection object and the path it stands for. */
  datatype Conn = Conn(id: Id, path: string)

  /** Preparing TP_ACCOUNT_FEATURE_CONNECTION: not asked for, finished in an idle callback because
      there was no connection, waiting for a connection, done. */
  datatype Feature = Unasked | Idle | Waiting(id: Id) | Ready | Broken

  /** `preparing` holds the preparations started for connections that became current, `good` the
      connections that were prepared successfully. `log` holds, for every notify::connection, what
      could be read at that moment. */
  datatype Account = Account(
    connection: Option<Conn>,
    prepared: bool,
    feature: Feature,
    preparing: multiset<Id>,
    good: set<Id>,
    log: seq<Option<Conn>>)

  const NO_CONNECTION := "/"

  /** connection_is_internal */
  predicate Internal(a: Account) {
    a.feature == Ready && !a.prepared
  }

  /** tp_account_get_connection */
  function Public(a: Account): Option<Conn> {
    if Internal(a) then None else a.connection
  }

  function Notify(a: Account): Account {
    a.(log := a.log + [Public(a)])
  }

  function NotifyIf(a: Account, wanted: bool): Account {
    if wanted then Notify(a) else a
  }

  predicate HasPublic(a: Account) {
    a.connection.Some? && !Internal(a)
  }

  /** The account without its connection, then with the one made for `path`, if one was made. */
  function Replaced(a: Account, path: string, made: Option<Id>): Account {
    var b := a.(connection := None, prepared := false);
    if path == NO_CONNECTION || made.None? then b
    else b.(connection := Some(Conn(made.value, path)),
            preparing := if a.feature == Ready then a.preparing + multiset{made.value} else a.preparing)
  }

  /** _tp_account_set_connection; `made` is what the factory hands back for the path. */
  function SetConnection(a: Account, path: string, made: Option<Id>): Account {
    if a.connection.Some? && a.connection.value.path == path then a
    else
      var c := Replaced(a, path, made);
      NotifyIf(c, HasPublic(a) || (path != NO_CONNECTION && HasPublic(c)))
  }

  datatype Event =
    | PathChanged(path: string, made: Option<Id>)
    | Invalidated(id: Id)
    | PreparationDone(id: Id, ok: bool)
    | BeginFeature
    | FeatureIdle
    | FeatureDone(ok: bool)

  predicate IsCurrent(a: Account, id: Id) {
    a.connection.Some? && a.connection.value.id == id
  }

  /** set_connection_prepare_cb */
  function Prepared(a: Account, id: Id, ok: bool): Account {
    var b := a.(preparing := a.preparing - multiset{id}, good := if ok then a.good + {id} else a.good);
    if ok && IsCurrent(a, id) then Notify(b.(prepared := true)) else b
  }

  function Step(a: Account, e: Event): Account {
    match e
    case PathChanged(path, made) => SetConnection(a, path, made)
    case Invalidated(id) => if IsCurrent(a, id) then SetConnection(a, NO_CONNECTION, None) else a
    case PreparationDone(id, ok) => if id in a.preparing then Prepared(a, id, ok) else a
    case BeginFeature =>
      if a.feature != Unasked then a
      else if a.connection.None? then a.(feature := Idle)
      else a.(feature := Waiting(a.connection.value.id))
    case FeatureIdle => if a.feature == Idle then a.(feature := Ready) else a
    case FeatureDone(ok) =>
      if !a.feature.Waiting? then a
      else a.(prepared := true, feature := if ok then Ready else Broken,
              good := if ok then a.good + {a.feature.id} else a.good)
  }

  function Run(a: Account, es: seq<Event>): Account
    decreases |es|
  {
    if es == [] then a else Run(Step(a, es[0]), es[1..])
  }

  // ---- what is shown

  /** What is shown is the current connection, and it was prepared successfully. */
  predicate ShowsPrepared(a: Account) {
    Public(a).Some? ==> Public(a) == a.connection && Public(a).value.id in a.good
  }

  /** Who read the property at first and after every notification knows what it is. */
  predicate Told(a: Account, first: Option<Conn>) {
    (if a.log == [] then first else a.log[|a.log| - 1]) == Public(a)
  }

  lemma StepShows(a: Account, e: Event, first: Option<Conn>)
    requires a.feature == Ready && ShowsPrepared(a) && Told(a, first)
    ensures var r := Step(a, e);
            && r.feature == Ready && ShowsPrepared(r) && Told(r, first)
            && (Public(r) != Public(a) ==> |r.log| == |a.log| + 1)
  {
  }

  /** Once the feature is prepared and shows a prepared connection or none, every interleaving of path
      changes, invalidations and preparations, stale ones included, shows only the current connection
      after it was prepared successfully, or none, and observers are told of every change. */
  lemma {:induction false} OnlyPreparedShown(a: Account, es: seq<Event>, first: Option<Conn>)
    requires a.feature == Ready && ShowsPrepared(a) && Told(a, first)
    ensures var r := Run(a, es); ShowsPrepared(r) && Told(r, first)
    decreases |es|
  {
    if es != [] {
      StepShows(a, es[0], first);
      OnlyPreparedShown(Step(a, es[0]), es[1..], first);
    }
  }

  /** Whether or not the feature is in use, a path change or an invalidation that changes what is shown
      is notified, and so is every preparation that does. */
  lemma ChangesNotified(a: Account, e: Event)
    requires e.PathChanged? || e.Invalidated? || e.PreparationDone?
    ensures var r := Step(a, e);
            Public(r) != Public(a) ==> |r.log| == |a.log| + 1 && r.log[|a.log|] == Public(r)
  {
  }

  // ---- what gets shown

  predicate AtPath(a: Account, path: string) {
    a.connection.Some? && a.connection.value.path == path
  }

  /** A change to another path replaces the connection, by one that is not prepared or by none. Before
      the feature is in use a new connection is shown and notified at once; once it is, nothing is shown
      any more, and the preparation of the new connection begins. Losing what was shown is notified. */
  lemma PathEffects(a: Account, path: string, made: Option<Id>)
    requires !AtPath(a, path)
    ensures var r := Step(a, PathChanged(path, made));
            var conn := if path != NO_CONNECTION && made.Some? then Some(Conn(made.value, path)) else None;
            && r.connection == conn && !r.prepared && r.feature == a.feature && r.good == a.good
            && Public(r) == (if a.feature == Ready then None else conn)
            && r.log == (if Public(r) != None || Public(a) != None then a.log + [Public(r)] else a.log)
            && r.preparing == (if a.feature == Ready && conn.Some? then a.preparing + multiset{made.value} else a.preparing)
  {
  }

  /** A path that has not changed changes nothing, and the end of a connection is a change to no path,
      unless it is another one. */
  lemma EndEffects(a: Account, path: string, made: Option<Id>, id: Id)
    ensures AtPath(a, path) ==> Step(a, PathChanged(path, made)) == a
    ensures var r := Step(a, Invalidated(id));
            if IsCurrent(a, id) && a.connection.value.path != NO_CONNECTION
            then r.connection.None? && !r.prepared && r.log == (if Public(a) != None then a.log + [None] else a.log)
            else r == a
  {
  }

  /** Once the feature is in use, the current connection is shown, and that is notified, when its
      preparation succeeds; no other preparation shows or tells anything. */
  lemma PreparationEffects(a: Account, id: Id, ok: bool)
    requires a.feature == Ready && id in a.preparing
    ensures var r := Step(a, PreparationDone(id, ok));
            && r.connection == a.connection && r.feature == Ready && r.preparing == a.preparing - multiset{id}
            && (if ok && IsCurrent(a, id) then Public(r) == a.connection && r.log == a.log + [a.connection]
                else Public(r) == Public(a) && r.log == a.log)
  {
  }

  /** How many preparations of the connection have come to an end. */
  function Ended(es: seq<Event>, id: Id): nat {
    if es == [] then 0
    else Ended(es[..|es| - 1], id) + if es[|es| - 1].PreparationDone? && es[|es| - 1].id == id then 1 else 0
  }

  /** No event changes the path, and the connection is not lost. */
  predicate Stays(es: seq<Event>, path: string, id: Id) {
    forall k :: 0 <= k < |es| ==>
      (es[k].PathChanged? ==> es[k].path == path) && (es[k].Invalidated? ==> es[k].id != id)
  }

  /** One of `begun` preparations of the connection has succeeded. */
  predicate Succeeded(es: seq<Event>, id: Id, begun: nat) {
    exists k :: 0 <= k < |es| && es[k] == PreparationDone(id, true) && Ended(es[..k], id) < begun
  }

  lemma SucceededNext(es: seq<Event>, e: Event, id: Id, begun: nat)
    ensures Succeeded(es + [e], id, begun)
            <==> Succeeded(es, id, begun) || (e == PreparationDone(id, true) && Ended(es, id) < begun)
    ensures Ended(es + [e], id) == Ended(es, id) + if e.PreparationDone? && e.id == id then 1 else 0
  {
    var more := es + [e];
    assert more[..|es|] == es;
    if k :| 0 <= k < |es| && es[k] == PreparationDone(id, true) && Ended(es[..k], id) < begun {
      assert more[k] == es[k] && more[..k] == es[..k];
    }
    if k :| 0 <= k < |more| && more[k] == PreparationDone(id, true) && Ended(more[..k], id) < begun {
      if k < |es| {
        assert es[k] == more[k] && more[..k] == es[..k];
      }
    }
  }

  lemma {:induction false} RunSnoc(a: Account, es: seq<Event>, e: Event)
    ensures Run(a, es + [e]) == Step(Run(a, es), e)
    decreases |es|
  {
    if es == [] {
      assert ([] + [e])[1..] == [];
    } else {
      assert (es + [e])[1..] == es[1..] + [e];
      RunSnoc(Step(a, es[0]), es[1..], e);
    }
  }

  /** What the events since the connection came up have made of it. */
  predicate Watched(r: Account, conn: Conn, es: seq<Event>, begun: nat) {
    && r.feature == Ready && r.connection == Some(conn)
    && r.preparing[conn.id] == (if Ended(es, conn.id) < begun then begun - Ended(es, conn.id) else 0)
    && (r.prepared <==> Succeeded(es, conn.id, begun))
  }

  lemma WatchedNext(r: Account, conn: Conn, es: seq<Event>, begun: nat, e: Event)
    requires Watched(r, conn, es, begun)
    requires (e.PathChanged? ==> e.path == conn.path) && (e.Invalidated? ==> e.id != conn.id)
    ensures Watched(Step(r, e), conn, es + [e], begun)
  {
    SucceededNext(es, e, conn.id, begun);
  }

  lemma {:induction false} WatchedRun(a: Account, conn: Conn, es: seq<Event>, begun: nat)
    requires Watched(a, conn, [], begun) && Stays(es, conn.path, conn.id)
    ensures Watched(Run(a, es), conn, es, begun)
  {
    if es != [] {
      var init, e := es[..|es| - 1], es[|es| - 1];
      assert es == init + [e];
      WatchedRun(a, conn, init, begun);
      RunSnoc(a, init, e);
      WatchedNext(Run(a, init), conn, init, begun, e);
    }
  }

  /** Once the feature is in use: after a change to a path, and until the next one or the end of the
      connection, the new connection is shown exactly if one of its preparations has succeeded since,
      counting those that were begun for it before; until then nothing is shown. */
  lemma ShownExactly(a: Account, path: string, id: Id, es: seq<Event>)
    requires a.feature == Ready && path != NO_CONNECTION && !AtPath(a, path) && Stays(es, path, id)
    ensures var r := Run(Step(a, PathChanged(path, Some(id))), es);
            Public(r) == if Succeeded(es, id, a.preparing[id] + 1) then Some(Conn(id, path)) else None
  {
    var b := Step(a, PathChanged(path, Some(id)));
    PathEffects(a, path, Some(id));
    assert b.preparing[id] == a.preparing[id] + 1;
    WatchedRun(b, Conn(id, path), es, a.preparing[id] + 1);
  }

  // ---- how the feature gets prepared

  /** The end of the feature's own preparation is sound exactly when the preparation failed, there is
      no connection any more, or the connection it prepared is still current or the current one was
      prepared before. */
  lemma FeatureSoundExactly(a: Account, ok: bool)
    requires a.feature.Waiting?
    ensures var r := Step(a, FeatureDone(ok));
            (r.feature == Ready ==> ShowsPrepared(r))
            <==> !ok || a.connection.None? || a.connection.value.id in a.good + {a.feature.id}
  {
  }

  /** Asking for the feature waits for the connection there is, or for the idle callback; it is in use
      once that comes, and with a connection only if its preparation succeeded. */
  lemma FeatureEffects(a: Account, ok: bool)
    requires a.feature == Unasked
    ensures var b := Step(a, BeginFeature);
            && b == a.(feature := b.feature) && b.feature != Ready && Step(b, BeginFeature) == b
            && (if a.connection.Some?
                then b.feature == Waiting(a.connection.value.id) && Step(b, FeatureIdle) == b
                     && (Step(b, FeatureDone(ok)).feature == Ready <==> ok)
                     && (ok ==> Public(Step(b, FeatureDone(ok))) == a.connection)
                else Step(b, FeatureDone(ok)) == b && Step(b, FeatureIdle) == b.(feature := Ready))
  {
  }

  /** When there was no connection to prepare, the feature is sound, and it takes a connection that came
      up meanwhile back without telling anybody. */
  lemma IdleFeature(a: Account)
    requires a.feature == Idle && !a.prepared
    ensures var r := Step(a, FeatureIdle);
            && ShowsPrepared(r) && r.log == a.log
            && (Public(r) != Public(a) <==> a.connection.Some?)
  {
  }

  const INITIAL := Account(None, false, Unasked, multiset{}, {}, [])

  /** A connection that was never prepared is shown when the path changes while the feature waits. */
  lemma UnpreparedShown(x: string, y: string)
    requires x != y && x != NO_CONNECTION && y != NO_CONNECTION
    ensures exists es :: Run(INITIAL, es).feature == Ready && !ShowsPrepared(Run(INITIAL, es))
  {
    var e1, e2, e3, e4 := PathChanged(x, Some(1)), BeginFeature, PathChanged(y, Some(2)), FeatureDone(true);
    var a1 := Step(INITIAL, e1);
    var a2 := Step(a1, e2);
    var a3 := Step(a2, e3);
    var a4 := Step(a3, e4);
    assert a3.connection == Some(Conn(2, y)) && a4.good == {1};
    FourSteps(INITIAL, e1, e2, e3, e4);
  }

  /** A connection that came up before the idle callback ran is shown and then taken back, and nobody is
      told. */
  lemma TakenBackSilently(x: string)
    requires x != NO_CONNECTION
    ensures var c := Run(INITIAL, [BeginFeature, PathChanged(x, Some(1))]);
            var r := Run(INITIAL, [BeginFeature, PathChanged(x, Some(1)), FeatureIdle]);
            && Public(c) == Some(Conn(1, x)) && c.log == [Public(c)]
            && Public(r) == None && r.log == c.log
  {
    var e1, e2, e3 := BeginFeature, PathChanged(x, Some(1)), FeatureIdle;
    var a1 := Step(INITIAL, e1);
    var a2 := Step(a1, e2);
    assert [e1, e2][1..] == [e2] && [e2][1..] == [];
    assert Run(a1, [e2]) == Run(a2, []) == a2;
    assert [e1, e2, e3][1..] == [e2, e3] && [e2, e3][1..] == [e3] && [e3][1..] == [];
    assert Run(a2, [e3]) == Step(a2, e3);
    assert Run(a1, [e2, e3]) == Run(a2, [e3]);
  }

  lemma FourSteps(a: Account, e1: Event, e2: Event, e3: Event, e4: Event)
    ensures Run(a, [e1, e2, e3, e4]) == Step(Step(Step(Step(a, e1), e2), e3), e4)
  {
    var a1 := Step(a, e1);
    var a2 := Step(a1, e2);
    var a3 := Step(a2, e3);
    assert [e4][1..] == [];
    assert Run(a3, [e4]) == Step(a3, e4);
    assert [e3, e4][1..] == [e4];
    assert Run(a2, [e3, e4]) == Run(a3, [e4]);
    assert [e2, e3, e4][1..] == [e3, e4];
    assert Run(a1, [e2, e3, e4]) == Run(a2, [e3, e4]);
    assert [e1, e2, e3, e4][1..] == [e2, e3, e4];
  }

  // ---- the object

  /** The connection part of TpAccount. */
  class AccountObject {
    var connection: Option<Conn>
    var prepared: bool
    var feature: Feature
    var preparing: multiset<Id>
    var log: seq<Option<Conn>>
    ghost var good: set<Id>

    constructor ()
      ensures View() == INITIAL
    {
      connection, prepared, feature, preparing, log := None, false, Unasked, multiset{}, [];
      good := {};
    }

    ghost function View(): Account
      reads this
    {
      Account(connection, prepared, feature, preparing, good, log)
    }

    method IsInternal() returns (internal: bool)
      ensures internal == Internal(View())
    {
      if feature != Ready {
        return false;
      }
      return !prepared;
    }

    method GetConnection() returns (shown: Option<Conn>)
      ensures shown == Public(View())
    {
      var internal := IsInternal();
      if internal {
        return None;
      }
      return connection;
    }

    method NotifyConnection()
      modifies this`log
      ensures View() == Notify(old(View()))
    {
      var shown := GetConnection();
      log := log + [shown];
    }

    /** _tp_account_set_connection */
    method SetPath(path: string, made: Option<Id>)
      modifies this
      ensures View() == SetConnection(old(View()), path, made)
    {
      if connection.Some? && connection.value.path == path {
        return;
      }
      var internal := IsInternal();
      var had := connection.Some? && !internal;
      connection := None;
      prepared := false;
      if path == NO_CONNECTION {
        if had {
          NotifyConnection();
        }
        return;
      }
      if made.Some? {
        connection := Some(Conn(made.value, path));
        if feature == Ready {
          preparing := preparing + multiset{made.value};
        }
      }
      internal := IsInternal();
      var have := connection.Some? && !internal;
      if had || have {
        NotifyConnection();
      }
    }

    /** connection_invalidated_cb, connected to the current connection only */
    method OnInvalidated(id: Id)
      requires connection.Some? && connection.value.id == id
      modifies this
      ensures View() == Step(old(View()), Invalidated(id))
    {
      SetPath(NO_CONNECTION, None);
    }

    /** set_connection_prepare_cb */
    method OnPrepared(id: Id, ok: bool)
      requires id in preparing
      modifies this
      ensures View() == Step(old(View()), PreparationDone(id, ok))
    {
      preparing := preparing - multiset{id};
      if !ok {
        return;
      }
      good := good + {id};
      if connection.Some? && connection.value.id == id {
        prepared := true;
        NotifyConnection();
      }
    }

    /** tp_account_prepare_connection_async */
    method PrepareFeature()
      requires feature == Unasked
      modifies this`feature
      ensures View() == Step(old(View()), BeginFeature)
    {
      if connection.None? {
        feature := Idle;
        return;
      }
      feature := Waiting(connection.value.id);
    }

    /** connection_prepare_cb, and the proxy's note of how the feature fared */
    method OnFeaturePrepared(ok: bool)
      requires feature.Waiting?
      modifies this
      ensures View() == Step(old(View()), FeatureDone(ok))
    {
      prepared := true;
      if ok {
        good := good + {feature.id};
        feature := Ready;
      } else {
        feature := Broken;
      }
    }
  }
}
