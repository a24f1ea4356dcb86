/** The account manager's two views of presence: the most available presence of its accounts, kept in a
    cache, and the presence requested for all accounts, present and future.
 */
module AccountManager {
  import opened Options

  type Id = nat

  datatype PresenceType =
    Unset | Offline | Available | Away | ExtendedAway | Hidden | Busy | Unknown | Error | Unexpected(value: nat)

  datatype Presence = Presence(kind: PresenceType, status: string, message: string)

  /** get_presence_type_availability */
  function Availability(kind: PresenceType): nat {
    match kind
    case Unset => 0
    case Unknown => 1
    case Error => 2
    case Offline => 3
    case Hidden => 4
    case ExtendedAway => 5
    case Away => 6
    case Busy => 7
    case Available => 8
    case Unexpected(_) => 1
  }

  predicate Above(a: PresenceType, b: PresenceType) {
    Availability(a) > Availability(b)
  }

  predicate Online(kind: PresenceType) {
    Above(kind, Offline)
  }

  // ---- the most available presence

  type Table = map<Id, Presence>

  datatype Cache = Cache(account: Option<Id>, presence: Presence)

  const OFFLINE_PRESENCE := Presence(Offline, "offline", "")

  /** What the loop of the rescan has found: the best account so far and one without presence. */
  datatype Found = Found(account: Option<Id>, kind: PresenceType, unset: Option<Id>)

  const NOBODY := Found(None, Offline, None)

  function Look(table: Table, f: Found, a: Id): Found
    requires a in table
  {
    if table[a].kind == Unset then f.(unset := Some(a))
    else if Above(table[a].kind, f.kind) then f.(account := Some(a), kind := table[a].kind)
    else f
  }

  function LookAll(table: Table, f: Found, order: seq<Id>): Found
    requires forall a :: a in order ==> a in table
    decreases |order|
  {
    if order == [] then f else LookAll(table, Look(table, f, order[0]), order[1..])
  }

  function Chosen(f: Found): Option<Id> {
    if f.kind == Offline && f.unset.Some? then f.unset else f.account
  }

  predicate Enumerates(order: seq<Id>, table: Table) {
    (forall a :: a in order ==> a in table) && (forall a :: a in table ==> a in order)
  }

  /** _tp_account_manager_update_most_available_presence, visiting the accounts in the order in which
      the hash table happens to list them. */
  function Rescan(table: Table, order: seq<Id>): Cache
    requires forall a :: a in order ==> a in table
  {
    var chosen := Chosen(LookAll(table, NOBODY, order));
    if chosen.Some? && chosen.value in table then Cache(chosen, table[chosen.value]) else Cache(None, OFFLINE_PRESENCE)
  }

  /** tp_account_manager_get_most_available_presence */
  function Effective(c: Cache): Presence {
    if c.presence.kind == Unset then Presence(Available, "available", "") else c.presence
  }

  datatype Watch = Watch(table: Table, cache: Cache, log: seq<Presence>)

  datatype Change = Change(account: Id, presence: Presence, order: seq<Id>)

  predicate Proper(w: Watch, e: Change) {
    e.account in w.table && Enumerates(e.order, w.table)
  }

  /** The account's presence changes, then _tp_account_manager_account_presence_changed_cb runs. */
  function Changed(w: Watch, e: Change): Watch
    requires Proper(w, e)
  {
    var table := w.table[e.account := e.presence];
    if Above(e.presence.kind, w.cache.presence.kind) then
      var c := Cache(Some(e.account), e.presence);
      Watch(table, c, w.log + [Effective(c)])
    else if w.cache.account == Some(e.account) then
      var c := Rescan(table, e.order);
      Watch(table, c, w.log + [Effective(c)])
    else w.(table := table)
  }

  ghost predicate AllProper(w: Watch, es: seq<Change>)
    decreases |es|
  {
    es == [] || (Proper(w, es[0]) && AllProper(Changed(w, es[0]), es[1..]))
  }

  ghost function Run(w: Watch, es: seq<Change>): Watch
    requires AllProper(w, es)
    decreases |es|
  {
    if es == [] then w else Run(Changed(w, es[0]), es[1..])
  }

  // ---- the cache and a full rescan agree

  predicate NoneUnset(table: Table) {
    forall a :: a in table ==> table[a].kind != Unset
  }

  predicate SomeUnset(table: Table) {
    exists a :: a in table && table[a].kind == Unset
  }

  predicate SomeOnline(table: Table) {
    exists a :: a in table && Online(table[a].kind)
  }

  /** The presence is the greatest of the table's and belongs to the cached account. */
  predicate IsMost(table: Table, c: Cache) {
    && c.account.Some? && c.account.value in table && table[c.account.value] == c.presence
    && (forall a :: a in table ==> !Above(table[a].kind, c.presence.kind))
  }

  /** The cache holds the most available presence: a greatest one above OFFLINE together with an account
      that has it; or, if nobody is online, UNSET together with an account that is UNSET; or OFFLINE. */
  predicate Most(table: Table, c: Cache) {
    if SomeOnline(table) then IsMost(table, c)
    else if SomeUnset(table) then
      c.presence.kind == Unset && c.account.Some? && c.account.value in table && table[c.account.value] == c.presence
    else c.presence.kind == Offline
  }

  predicate FoundSoFar(table: Table, f: Found, seen: set<Id>) {
    && (forall a :: a in seen && a in table ==> !Above(table[a].kind, f.kind))
    && (f.account.Some? ==> f.account.value in table && table[f.account.value].kind == f.kind && Online(f.kind))
    && (f.account.None? ==> f.kind == Offline)
    && (f.unset.Some? ==> f.unset.value in table && table[f.unset.value].kind == Unset)
    && (f.unset.None? ==> forall a :: a in seen && a in table ==> table[a].kind != Unset)
  }

  lemma {:induction false} LookAllFinds(table: Table, f: Found, order: seq<Id>, seen: set<Id>)
    requires (forall a :: a in order ==> a in table) && FoundSoFar(table, f, seen)
    ensures FoundSoFar(table, LookAll(table, f, order), seen + set a | a in order)
    decreases |order|
  {
    if order == [] {
      assert seen + (set a | a in order) == seen;
    } else {
      var g := Look(table, f, order[0]);
      assert FoundSoFar(table, g, seen + {order[0]});
      LookAllFinds(table, g, order[1..], seen + {order[0]});
      assert seen + {order[0]} + (set a | a in order[1..]) == seen + set a | a in order;
    }
  }

  /** Whatever the order of the hash table, a rescan finds the most available presence. */
  lemma RescanFinds(table: Table, order: seq<Id>)
    requires Enumerates(order, table)
    ensures Most(table, Rescan(table, order))
    ensures !SomeOnline(table) && !SomeUnset(table) ==> Rescan(table, order) == Cache(None, Presence(Offline, "offline", ""))
  {
    LookAllFinds(table, NOBODY, order, {});
    var f := LookAll(table, NOBODY, order);
    assert forall a :: a in table ==> a in ({} + set a | a in order);
  }

  /** When the incremental update goes wrong: nobody online is cached, and either an account without
      presence leaves room for something that is not even OFFLINE, or for OFFLINE while another account
      is still without presence, or an account that is not the cached one loses its presence. */
  predicate Misses(w: Watch, e: Change)
    requires e.account in w.table
  {
    var kind := e.presence.kind;
    var cached := w.cache.presence.kind;
    || (cached == Unset && kind != Unset && !Online(kind) && (kind != Offline || SomeUnset(w.table[e.account := e.presence])))
    || (!Online(cached) && cached != Unset && kind == Unset && w.cache.account != Some(e.account))
  }

  /** The updated cache holds the most available presence exactly when the step is not one of those. */
  lemma StepExactly(w: Watch, e: Change)
    requires Proper(w, e) && Most(w.table, w.cache)
    ensures Changed(w, e).table == w.table[e.account := e.presence]
    ensures Most(Changed(w, e).table, Changed(w, e).cache) <==> !Misses(w, e)
  {
    var table := w.table[e.account := e.presence];
    assert table[e.account] == e.presence;
    if Above(e.presence.kind, w.cache.presence.kind) {
      RiseExactly(w, e, table);
    } else if w.cache.account == Some(e.account) {
      assert Enumerates(e.order, table);
      RescanFinds(table, e.order);
    } else {
      KeepExactly(w, e, table);
    }
  }

  lemma RiseExactly(w: Watch, e: Change, table: Table)
    requires Proper(w, e) && Most(w.table, w.cache) && table == w.table[e.account := e.presence]
    requires Above(e.presence.kind, w.cache.presence.kind)
    ensures Most(table, Cache(Some(e.account), e.presence)) <==> !Misses(w, e)
  {
    forall a | a in table && a != e.account
      ensures a in w.table && table[a] == w.table[a]
    {
    }
    if Online(e.presence.kind) {
      assert Online(table[e.account].kind);
      forall a | a in table
        ensures !Above(table[a].kind, e.presence.kind)
      {
        if a != e.account && Online(w.table[a].kind) {
          assert SomeOnline(w.table);
        }
      }
    } else {
      assert !SomeOnline(w.table);
      assert !SomeOnline(table) by {
        forall a | a in table
          ensures !Online(table[a].kind)
        {
          assert a != e.account ==> !Online(w.table[a].kind);
        }
      }
    }
  }

  lemma KeepExactly(w: Watch, e: Change, table: Table)
    requires Proper(w, e) && Most(w.table, w.cache) && table == w.table[e.account := e.presence]
    requires !Above(e.presence.kind, w.cache.presence.kind) && w.cache.account != Some(e.account)
    ensures Most(table, w.cache) <==> !Misses(w, e)
  {
    forall a | a in table && a != e.account
      ensures a in w.table && table[a] == w.table[a]
    {
    }
    if SomeOnline(w.table) {
      assert Online(table[w.cache.account.value].kind);
      assert IsMost(table, w.cache);
    } else {
      assert !Online(e.presence.kind);
      assert !SomeOnline(table) by {
        forall a | a in table
          ensures !Online(table[a].kind)
        {
          assert a != e.account ==> !Online(w.table[a].kind);
        }
      }
      if SomeUnset(w.table) {
        assert table[w.cache.account.value].kind == Unset;
      } else if e.presence.kind != Unset {
        assert !SomeUnset(table);
      } else {
        assert table[e.account].kind == Unset;
      }
    }
  }

  predicate Told(w: Watch, first: Presence) {
    (if w.log == [] then first else w.log[|w.log| - 1]) == Effective(w.cache)
  }

  ghost predicate NeverMisses(w: Watch, es: seq<Change>)
    requires AllProper(w, es)
    decreases |es|
  {
    es == [] || (!Misses(w, es[0]) && NeverMisses(Changed(w, es[0]), es[1..]))
  }

  /** In every run over a fixed table in which no change is one of those, the cache holds the most
      available presence, and observers were told of it. */
  lemma {:induction false} CacheRight(w: Watch, es: seq<Change>, first: Presence)
    requires Most(w.table, w.cache) && Told(w, first) && AllProper(w, es) && NeverMisses(w, es)
    ensures var r := Run(w, es); Most(r.table, r.cache) && Told(r, first)
    decreases |es|
  {
    if es != [] {
      StepExactly(w, es[0]);
      CacheRight(Changed(w, es[0]), es[1..], first);
    }
  }

  lemma {:induction false} NoneUnsetNeverMisses(w: Watch, es: seq<Change>)
    requires NoneUnset(w.table) && Most(w.table, w.cache) && AllProper(w, es)
    requires forall k :: 0 <= k < |es| ==> es[k].presence.kind != Unset
    ensures NeverMisses(w, es) && NoneUnset(Run(w, es).table)
    decreases |es|
  {
    assert !SomeUnset(w.table);
    if es != [] {
      var d := Changed(w, es[0]);
      assert NoneUnset(d.table);
      assert !Misses(w, es[0]);
      StepExactly(w, es[0]);
      NoneUnsetNeverMisses(d, es[1..]);
    }
  }

  /** In every run over a fixed table in which no account is ever without presence, the cache holds the
      greatest presence floored at OFFLINE, with an account that has it when it is above OFFLINE, and
      observers were told of it. */
  lemma CacheAgrees(w: Watch, es: seq<Change>, first: Presence)
    requires NoneUnset(w.table) && Most(w.table, w.cache) && Told(w, first)
    requires AllProper(w, es) && forall k :: 0 <= k < |es| ==> es[k].presence.kind != Unset
    ensures var r := Run(w, es);
            && Most(r.table, r.cache) && Told(r, first)
            && (if SomeOnline(r.table) then IsMost(r.table, r.cache) else r.cache.presence.kind == Offline)
  {
    NoneUnsetNeverMisses(w, es);
    CacheRight(w, es, first);
    assert !SomeUnset(Run(w, es).table);
  }

  /** With accounts that lose their presence the cache does go wrong: it keeps saying OFFLINE when the
      rescan would pretend to be available. */
  lemma UnsetMissed(a: Id, b: Id)
    requires a != b
    ensures exists w, e :: Proper(w, e) && Most(w.table, w.cache) && !Most(Changed(w, e).table, Changed(w, e).cache)
  {
    var w := Watch(map[a := OFFLINE_PRESENCE, b := OFFLINE_PRESENCE], Cache(None, OFFLINE_PRESENCE), []);
    var e := Change(a, Presence(Unset, "", ""), [a, b]);
    assert !SomeOnline(w.table) && !SomeUnset(w.table);
    assert Proper(w, e) && Most(w.table, w.cache);
    StepExactly(w, e);
    assert Misses(w, e);
  }

  // ---- what is given out, and who has it

  predicate SomeoneHas(table: Table, kind: PresenceType) {
    exists a :: a in table && table[a].kind == kind
  }

  /** Nobody is more available than the presence that is given out. The documentation promises an
      account that has it: there is one exactly if somebody is online, or nobody is without presence
      and somebody is OFFLINE. */
  lemma GivenOut(table: Table, c: Cache)
    requires Most(table, c)
    ensures forall a :: a in table ==> !Above(table[a].kind, Effective(c).kind)
    ensures SomeoneHas(table, Effective(c).kind)
            <==> SomeOnline(table) || (!SomeUnset(table) && SomeoneHas(table, Offline))
    ensures SomeOnline(table) ==> c.account.Some? && c.account.value in table && table[c.account.value] == Effective(c)
    ensures !SomeOnline(table) && SomeUnset(table) ==> Effective(c) == Presence(Available, "available", "")
  {
    if SomeOnline(table) {
      var a :| a in table && Online(table[a].kind);
      assert !Above(table[a].kind, c.presence.kind);
      assert table[c.account.value].kind == Effective(c).kind;
    } else if SomeUnset(table) {
      forall a | a in table
        ensures table[a].kind != Available
      {
        assert !Online(table[a].kind);
      }
    }
  }

  /** An account of unknown presence is given out as OFFLINE, one without presence as AVAILABLE. */
  lemma GivenOutByNobody(a: Id, status: string)
    ensures var unknown := map[a := Presence(Unknown, status, "")];
            var c := Rescan(unknown, [a]);
            Most(unknown, c) && Effective(c).kind == Offline && !SomeoneHas(unknown, Offline)
    ensures var unset := map[a := Presence(Unset, status, "")];
            var c := Rescan(unset, [a]);
            Most(unset, c) && Effective(c).kind == Available && !SomeoneHas(unset, Available)
  {
    var unknown: Table := map[a := Presence(Unknown, status, "")];
    assert Enumerates([a], unknown);
    RescanFinds(unknown, [a]);
    assert !SomeOnline(unknown) && !SomeUnset(unknown);
    var unset: Table := map[a := Presence(Unset, status, "")];
    assert Enumerates([a], unset);
    RescanFinds(unset, [a]);
    assert !SomeOnline(unset) && unset[a].kind == Unset;
  }

  // ---- the requested presence

  /** Which accounts the manager has and whether they are still prepared, the last presence requested on
      each, and the presence wanted for all; `listed` says that the service has listed its accounts, and
      `preparing` counts those still to be prepared before the manager is ready. */
  datatype Wish = Wish(
    accounts: map<Id, bool>,
    asked: map<Id, Presence>,
    wanted: Presence,
    listed: bool,
    preparing: nat,
    ready: bool)

  const NO_WISH := Presence(Unset, "", "")

  /** A manager as its constructor leaves it. */
  const START := Wish(map[], map[], NO_WISH, false, 0, false)

  /** The part of tp_account_manager_set_all_requested_presences that speaks to the accounts. */
  function AskAll(w: Wish, p: Presence): Wish {
    w.(asked := w.asked + map a | a in w.accounts && w.accounts[a] :: p)
  }

  function SetAll(w: Wish, p: Presence): Wish {
    AskAll(w, p).(wanted := p)
  }

  function Insert(w: Wish, a: Id, prepared: bool): Wish {
    var d := w.(accounts := w.accounts[a := prepared]);
    if w.wanted.kind == Unset then d else d.(asked := w.asked[a := w.wanted])
  }

  /** _tp_account_manager_check_core_ready */
  function CheckReady(w: Wish): Wish {
    if w.ready || w.preparing > 0 then w
    else (if w.wanted.kind != Unset then SetAll(w, w.wanted) else w).(ready := true)
  }

  /** How many of the listed accounts objects could be made for. */
  function Made(list: seq<bool>): nat {
    if list == [] then 0 else Made(list[..|list| - 1]) + if list[|list| - 1] then 1 else 0
  }

  lemma {:induction false} MadeCounts(list: seq<bool>)
    ensures Made(list) == |set i: nat | i < |list| && list[i]|
  {
    var now := set i: nat | i < |list| && list[i];
    if list == [] {
      assert now == {};
    } else {
      var n := |list| - 1;
      MadeCounts(list[..n]);
      var before := set i: nat | i < n && list[..n][i];
      assert now == before + if list[n] then {n} else {};
    }
  }

  /** `Listed` is the answer of the service that lists its accounts: for each whether an object could be
      made for it. An answer that is an error changes nothing. */
  datatype WishEvent =
    | Listed(list: Option<seq<bool>>)
    | SetAllRequested(presence: Presence)
    | AccountPrepared(account: Id, ok: bool, valid: bool)
    | AccountBecameValid(account: Id)
    | AccountRemoved(account: Id)
    | AccountLost(account: Id)

  /** An account that is invalidated without being removed stays in the table and is not prepared any
      more. */
  function WishStep(w: Wish, e: WishEvent): Wish {
    match e
    case Listed(list) =>
      if w.listed || list.None? then w else CheckReady(w.(listed := true, preparing := w.preparing + Made(list.value)))
    case SetAllRequested(p) => SetAll(w, p)
    case AccountPrepared(a, ok, valid) =>
      if w.preparing == 0 then w
      else
        var d := if ok && valid then Insert(w, a, true) else w;
        CheckReady(d.(preparing := w.preparing - 1))
    case AccountBecameValid(a) => Insert(w, a, true)
    case AccountRemoved(a) => w.(accounts := w.accounts - {a})
    case AccountLost(a) => if a in w.accounts then w.(accounts := w.accounts[a := false]) else w
  }

  function WishRun(w: Wish, es: seq<WishEvent>): Wish
    decreases |es|
  {
    if es == [] then w else WishRun(WishStep(w, es[0]), es[1..])
  }

  /** If a presence is wanted, it is the last one requested on every account that is still prepared; and
      the manager is ready exactly when its accounts have been listed and none is left to prepare. */
  predicate Spread(w: Wish) {
    && (w.wanted.kind != Unset ==> forall a :: a in w.accounts && w.accounts[a] ==> a in w.asked && w.asked[a] == w.wanted)
    && (w.ready <==> w.listed && w.preparing == 0)
    && (!w.listed ==> w.preparing == 0)
  }

  /** The accounts that are still to be prepared, with those that the event adds or finishes. */
  function Added(w: Wish, e: WishEvent): nat {
    if e.Listed? && e.list.Some? && !w.listed then Made(e.list.value) else 0
  }

  function Finished(w: Wish, e: WishEvent): nat {
    if e.AccountPrepared? && w.preparing > 0 then 1 else 0
  }

  lemma WishStepSpreads(w: Wish, e: WishEvent)
    requires Spread(w)
    ensures Spread(WishStep(w, e))
    ensures WishStep(w, e).preparing + Finished(w, e) == w.preparing + Added(w, e)
  {
  }

  /** The accounts after an event: one that was prepared and is valid is there and prepared, whether it
      was listed or became valid later; one that was removed is not; one that was lost is there but not
      prepared; and all others are as they were. */
  lemma AccountEffects(w: Wish, e: WishEvent, a: Id)
    ensures var r := WishStep(w, e);
            match e
            case AccountPrepared(b, ok, valid) =>
              r.accounts == if ok && valid && w.preparing > 0 then w.accounts[b := true] else w.accounts
            case AccountBecameValid(b) => r.accounts == w.accounts[b := true]
            case AccountRemoved(b) => b !in r.accounts && (a != b ==> (a in r.accounts <==> a in w.accounts))
            case AccountLost(b) =>
              r.accounts.Keys == w.accounts.Keys && (b in w.accounts ==> !r.accounts[b])
              && (a != b && a in w.accounts ==> r.accounts[a] == w.accounts[a])
            case _ => r.accounts == w.accounts
  {
  }

  /** What is asked of the accounts: a presence wanted for all is asked of every account that is prepared
      and of no other, and stays wanted; an account that comes later is asked for what is wanted, if
      anything is; and no other event asks anything of anybody. */
  lemma AskingEffects(w: Wish, e: WishEvent)
    requires Spread(w)
    ensures var r := WishStep(w, e);
            && r.wanted == (if e.SetAllRequested? then e.presence else w.wanted)
            && (e.SetAllRequested? ==>
                  && (forall a :: a in w.accounts && w.accounts[a] ==> a in r.asked && r.asked[a] == e.presence)
                  && (forall a :: a !in w.accounts || !w.accounts[a] ==>
                        (a in r.asked <==> a in w.asked) && (a in r.asked ==> r.asked[a] == w.asked[a])))
            && (!e.SetAllRequested? ==>
                  r.asked == if w.wanted.kind != Unset && Joins(w, e) then w.asked[e.account := w.wanted] else w.asked)
  {
    if e.AccountPrepared? && w.preparing > 0 && w.wanted.kind != Unset {
      var d := if e.ok && e.valid then Insert(w, e.account, true) else w;
      ReadyAsks(d.(preparing := w.preparing - 1));
    } else if e.Listed? && e.list.Some? && !w.listed && w.wanted.kind != Unset {
      ReadyAsks(w.(listed := true, preparing := w.preparing + Made(e.list.value)));
    }
  }

  /** A valid account has been prepared. */
  predicate Joins(w: Wish, e: WishEvent) {
    (e.AccountPrepared? && e.ok && e.valid && w.preparing > 0) || e.AccountBecameValid?
  }

  /** Becoming ready asks nobody for anything new. */
  lemma ReadyAsks(w: Wish)
    requires w.wanted.kind != Unset ==> forall a :: a in w.accounts && w.accounts[a] ==> a in w.asked && w.asked[a] == w.wanted
    ensures CheckReady(w).asked == w.asked && CheckReady(w).wanted == w.wanted
  {
    if w.wanted.kind != Unset {
      assert SetAll(w, w.wanted).asked == w.asked;
    }
  }

  function AddedBy(w: Wish, es: seq<WishEvent>): nat
    decreases |es|
  {
    if es == [] then 0 else Added(w, es[0]) + AddedBy(WishStep(w, es[0]), es[1..])
  }

  function FinishedBy(w: Wish, es: seq<WishEvent>): nat
    decreases |es|
  {
    if es == [] then 0 else Finished(w, es[0]) + FinishedBy(WishStep(w, es[0]), es[1..])
  }

  /** In every run the wanted presence reaches every account that is still prepared, whether it was there
      first or came later, and every account that was listed is prepared or still to be prepared. */
  lemma {:induction false} WishSpreads(w: Wish, es: seq<WishEvent>)
    requires Spread(w)
    ensures Spread(WishRun(w, es))
    ensures WishRun(w, es).preparing + FinishedBy(w, es) == w.preparing + AddedBy(w, es)
    decreases |es|
  {
    if es != [] {
      WishStepSpreads(w, es[0]);
      WishSpreads(WishStep(w, es[0]), es[1..]);
    }
  }

  /** From the start: the manager is ready exactly when its accounts were listed and as many
      preparations as there were accounts have finished, in particular at once if there are none. */
  lemma ReadyExactly(es: seq<WishEvent>)
    ensures var r := WishRun(START, es);
            r.ready <==> r.listed && FinishedBy(START, es) == AddedBy(START, es)
  {
    WishSpreads(START, es);
  }

  /** Asking everybody again changes nothing, so becoming ready is silent when everybody was asked. */
  lemma AskedTwice(w: Wish)
    requires Spread(w) && w.wanted.kind != Unset
    ensures SetAll(w, w.wanted) == w
  {
    assert SetAll(w, w.wanted).asked == w.asked;
  }

  // ---- asking one account after the other

  /** What has been asked of the accounts while those in `left` are still to come. */
  ghost function Asked(before: map<Id, Presence>, accounts: map<Id, bool>, left: set<Id>, p: Presence): map<Id, Presence> {
    before + map a | a in accounts && a !in left && accounts[a] :: p
  }

  lemma AskedNobody(before: map<Id, Presence>, accounts: map<Id, bool>, p: Presence)
    ensures Asked(before, accounts, accounts.Keys, p) == before
  {
  }

  lemma AskedNext(before: map<Id, Presence>, accounts: map<Id, bool>, left: set<Id>, p: Presence, a: Id)
    requires a in left && a in accounts
    ensures var now := Asked(before, accounts, left, p);
            Asked(before, accounts, left - {a}, p) == if accounts[a] then now[a := p] else now
  {
  }

  lemma AskedEverybody(before: map<Id, Presence>, accounts: map<Id, bool>, p: Presence)
    ensures Asked(before, accounts, {}, p) == before + map a | a in accounts && accounts[a] :: p
  {
  }

  // ---- the object

  /** TpAccountManager, as far as presence goes. */
  class ManagerObject {
    var presences: Table
    var cached: Option<Id>
    var most: Presence
    var log: seq<Presence>
    var accounts: map<Id, bool>
    var asked: map<Id, Presence>
    var wanted: Presence
    var listed: bool
    var preparing: nat
    var ready: bool

    constructor ()
      ensures WatchView() == Watch(map[], Cache(None, OFFLINE_PRESENCE), [])
      ensures WishView() == START
    {
      presences, cached, most, log := map[], None, OFFLINE_PRESENCE, [];
      accounts, asked, wanted, listed, preparing, ready := map[], map[], NO_WISH, false, 0, false;
    }

    ghost function WatchView(): Watch
      reads this
    {
      Watch(presences, Cache(cached, most), log)
    }

    ghost function WishView(): Wish
      reads this
    {
      Wish(accounts, asked, wanted, listed, preparing, ready)
    }

    /** _tp_account_manager_update_most_available_presence */
    method UpdateMostAvailable(order: seq<Id>)
      requires forall a :: a in order ==> a in presences
      modifies this`cached, this`most
      ensures Cache(cached, most) == Rescan(presences, order)
    {
      var kind := Offline;
      var account: Option<Id> := None;
      var unset: Option<Id> := None;
      var left := order;
      while left != []
        invariant forall a :: a in left ==> a in presences
        invariant LookAll(presences, Found(account, kind, unset), left) == LookAll(presences, NOBODY, order)
        invariant (account.Some? ==> account.value in presences) && (unset.Some? ==> unset.value in presences)
        decreases |left|
      {
        var a := left[0];
        var p := presences[a].kind;
        left := left[1..];
        if p == Unset {
          unset := Some(a);
          continue;
        }
        if Above(p, kind) {
          account, kind := Some(a), p;
        }
      }
      if kind == Offline && unset.Some? {
        account := unset;
      }
      cached := account;
      if account.None? {
        most := OFFLINE_PRESENCE;
        return;
      }
      most := presences[account.value];
    }

    /** tp_account_manager_get_most_available_presence */
    method GetMostAvailable() returns (p: Presence)
      ensures p == Effective(Cache(cached, most))
      ensures Most(presences, Cache(cached, most)) ==>
                && (forall a :: a in presences ==> !Above(presences[a].kind, p.kind))
                && (SomeoneHas(presences, p.kind)
                    <==> SomeOnline(presences) || (!SomeUnset(presences) && SomeoneHas(presences, Offline)))
    {
      if Most(presences, Cache(cached, most)) {
        GivenOut(presences, Cache(cached, most));
      }
      if most.kind == Unset {
        return Presence(Available, "available", "");
      }
      return most;
    }

    /** _tp_account_manager_account_presence_changed_cb, once the account has its new presence */
    method OnPresenceChanged(a: Id, p: Presence, order: seq<Id>)
      requires Proper(WatchView(), Change(a, p, order))
      modifies this`presences, this`cached, this`most, this`log
      ensures WatchView() == Changed(old(WatchView()), Change(a, p, order))
    {
      presences := presences[a := p];
      if Above(p.kind, most.kind) {
        cached := Some(a);
        most := p;
      } else if cached == Some(a) {
        UpdateMostAvailable(order);
      } else {
        return;
      }
      var told := GetMostAvailable();
      log := log + [told];
    }

    /** tp_account_manager_set_all_requested_presences */
    method SetAllRequestedPresences(p: Presence)
      modifies this`asked, this`wanted
      ensures WishView() == SetAll(old(WishView()), p)
    {
      var left := accounts.Keys;
      ghost var before := asked;
      AskedNobody(before, accounts, p);
      while left != {}
        invariant left <= accounts.Keys
        invariant asked == Asked(before, accounts, left, p)
        decreases |left|
      {
        var a :| a in left;
        AskOne(a, p, before, left);
        left := left - {a};
      }
      AskedEverybody(before, accounts, p);
      wanted := p;
    }

    method AskOne(a: Id, p: Presence, ghost before: map<Id, Presence>, ghost left: set<Id>)
      requires a in left && a in accounts && asked == Asked(before, accounts, left, p)
      modifies this`asked
      ensures asked == Asked(before, accounts, left - {a}, p)
    {
      AskedNext(before, accounts, left, p, a);
      if accounts[a] {
        asked := asked[a := p];
      }
    }

    /** insert_account; `p` is the presence the account has. */
    method InsertAccount(a: Id, p: Presence)
      modifies this`presences, this`accounts, this`asked
      ensures WishView() == Insert(old(WishView()), a, true)
      ensures presences == old(presences)[a := p]
    {
      presences := presences[a := p];
      accounts := accounts[a := true];
      if wanted.kind != Unset {
        asked := asked[a := wanted];
      }
    }

    /** _tp_account_manager_check_core_ready */
    method CheckCoreReady(order: seq<Id>)
      requires Enumerates(order, presences)
      modifies this`asked, this`wanted, this`ready, this`cached, this`most
      ensures WishView() == CheckReady(old(WishView()))
      ensures if ready && !old(ready) then Most(presences, Cache(cached, most))
              else Cache(cached, most) == old(Cache(cached, most))
    {
      if ready {
        return;
      }
      if preparing > 0 {
        return;
      }
      if wanted.kind != Unset {
        SetAllRequestedPresences(wanted);
      }
      UpdateMostAvailable(order);
      RescanFinds(presences, order);
      ready := true;
    }

    /** _tp_account_manager_got_all_cb, the one answer to the manager's GetAll */
    method OnListed(list: Option<seq<bool>>, order: seq<Id>)
      requires !listed && Enumerates(order, presences)
      modifies this`listed, this`preparing, this`asked, this`wanted, this`ready, this`cached, this`most
      ensures WishView() == WishStep(old(WishView()), Listed(list))
      ensures if ready && !old(ready) then Most(presences, Cache(cached, most))
              else Cache(cached, most) == old(Cache(cached, most))
    {
      if list.None? {
        return;
      }
      listed := true;
      for i := 0 to |list.value|
        invariant preparing == old(preparing) + Made(list.value[..i])
        modifies this`preparing
      {
        assert list.value[..i + 1][..i] == list.value[..i];
        if list.value[i] {
          preparing := preparing + 1;
        }
      }
      assert list.value[..|list.value|] == list.value;
      CheckCoreReady(order);
    }

    /** account_prepared_cb */
    method OnAccountPrepared(a: Id, ok: bool, valid: bool, p: Presence, order: seq<Id>)
      requires preparing > 0 && Enumerates(order, if ok && valid then presences[a := p] else presences)
      modifies this`presences, this`accounts, this`asked, this`wanted, this`preparing, this`ready, this`cached, this`most
      ensures WishView() == WishStep(old(WishView()), AccountPrepared(a, ok, valid))
      ensures presences == if ok && valid then old(presences)[a := p] else old(presences)
      ensures ready && !old(ready) ==> Most(presences, Cache(cached, most))
    {
      if ok {
        if valid {
          InsertAccount(a, p);
        }
      }
      preparing := preparing - 1;
      CheckCoreReady(order);
    }
  }
}
