/** How often the base class's accept runs.

    On a call that is not held, a nested attempt never succeeds, so an attempt runs it once exactly
    when every initial content is ready. On a held call every nested attempt succeeds as well, and
    none of them stops the attempts around it: the base class runs once for the attempt itself and
    once more for each waiting stream whose receiving state the scan still has to stop.
 */
module CallAccept {
  import opened CallTypes
  import opened CallFlow

  predicate StreamReady(s: Stream) {
    s.line.initial && WantsReceive(s.line) ==> s.receiving == Started
  }

  predicate AllReady(m: Media, ps: seq<StreamId>)
    requires forall p :: p in ps ==> p in m.streams
  {
    forall p :: p in ps ==> StreamReady(m.streams[p])
  }

  // ---- a call that is not held

  /** The call is not held and was accepted locally; handlers wait only on streams of initial
      contents; a failed stream is stopped. */
  predicate Running(env: Env, m: Media) {
    && !env.held && env.locallyAccepted
    && Scannable(env, m)
    && (forall p :: p in m.streams && m.streams[p].waiting ==> p in env.order && m.streams[p].line.initial)
    && (forall p :: p in m.streams && m.streams[p].line.receivingFailure ==> m.streams[p].receiving == Stopped)
  }

  predicate QuietStream(s: Stream, t: Stream) {
    && t.line == s.line
    && (t.waiting ==> s.waiting)
    && (t.receiving == Started <==> s.receiving == Started)
    && (s.line.receivingFailure && s.receiving == Stopped ==> t.receiving == Stopped)
  }

  /** Nothing was accepted, the same streams are started, and whoever waits for an accept goes on
      waiting. */
  predicate Quiet(m: Media, r: Media) {
    && r.streams.Keys == m.streams.Keys
    && r.accepted == m.accepted && r.accepts == m.accepts
    && (forall p :: p in m.streams ==>
          QuietStream(m.streams[p], r.streams[p]) && (m.accepted || r.streams[p].waiting == m.streams[p].waiting))
  }

  lemma QuietCompose(m: Media, d: Media, r: Media)
    requires Quiet(m, d) && Quiet(d, r)
    ensures Quiet(m, r)
  {
  }

  lemma QuietKeeps(env: Env, m: Media, r: Media)
    requires Running(env, m) && Quiet(m, r)
    ensures Running(env, r) && AllReady(r, env.order) == AllReady(m, env.order)
  {
  }

  lemma QuietRecord(m: Media, p: StreamId, t: Stream)
    requires p in m.streams
    requires t.line == m.streams[p].line && t.receiving == m.streams[p].receiving && t.waiting == m.streams[p].waiting
    ensures Quiet(m, Put(m, p, t))
  {
  }

  /** On a running call a receiving state changes only from not started to pending. */
  lemma QuietPut(env: Env, m: Media, p: StreamId)
    requires Running(env, m) && p in Unsettled(env, m) && WantsReceive(m.streams[p].line)
    ensures var d := Put(m, p, m.streams[p].(receiving := ReceiveGoal(env, m.streams[p])));
            && Quiet(m, d) && Running(env, d)
            && (d.streams[p].waiting ==> !AllReady(d, env.order))
  {
    var d := Put(m, p, m.streams[p].(receiving := ReceiveGoal(env, m.streams[p])));
    assert d.streams[p].receiving == PendingStart;
    if d.streams[p].waiting {
      assert p in env.order && !StreamReady(d.streams[p]);
    }
  }

  lemma AllReadySplit(m: Media, d: Media, ps: seq<StreamId>)
    requires ps != [] && Quiet(m, d) && forall p :: p in ps ==> p in m.streams
    ensures AllReady(m, ps) == (StreamReady(m.streams[ps[0]]) && AllReady(d, ps[1..]))
  {
    assert forall p :: p in ps <==> p == ps[0] || p in ps[1..];
  }

  lemma {:induction false} QuietUpdate(env: Env, m: Media, p: StreamId)
    requires Running(env, m) && p in m.streams && WantsReceive(m.streams[p].line)
    ensures Quiet(m, UpdateReceiving(env, m, p))
    decreases Unsettled(env, m), 0
  {
    var s := m.streams[p];
    var f := ReceiveGoal(env, s);
    if f != s.receiving {
      var d := Put(m, p, s.(receiving := f));
      Settles(env, m, p);
      QuietPut(env, m, p);
      QuietNotify(env, d, p);
      QuietCompose(m, d, Notify(env, d, p));
    }
  }

  lemma {:induction false} QuietNotify(env: Env, m: Media, p: StreamId)
    requires Running(env, m) && p in m.streams
    requires m.streams[p].waiting ==> !AllReady(m, env.order)
    ensures Quiet(m, Notify(env, m, p))
    decreases Unsettled(env, m), 6
  {
    if m.streams[p].waiting && p !in m.emitting {
      var d := m.(emitting := m.emitting + {p});
      assert Unsettled(env, d) == Unsettled(env, m);
      QuietPass(env, d, p);
    }
  }

  lemma {:induction false} QuietPass(env: Env, m: Media, p: StreamId)
    requires Running(env, m) && p in m.streams && (m.accepted || !AllReady(m, env.order))
    ensures Quiet(m, EmissionPass(env, m, p))
    decreases Unsettled(env, m), 5
  {
    var d := m.(restart := m.restart - {p});
    assert Unsettled(env, d) == Unsettled(env, m);
    UnheldAttempt(env, d);
    var e := HandlerPass(env, d, p);
    RestartProgress(env, m, p, e);
    if p in e.restart && e.streams[p].waiting {
      QuietKeeps(env, d, e);
      QuietPass(env, e, p);
      QuietCompose(d, e, EmissionPass(env, e, p));
    }
  }

  /** An attempt to accept a call that is not held runs the base class once if every initial content
      is ready, and not at all otherwise. */
  lemma {:induction false} UnheldAttempt(env: Env, m: Media)
    requires Running(env, m)
    ensures var r := TryAccept(env, m);
            if !m.accepted && AllReady(m, env.order)
            then r.accepted && r.accepts == m.accepts + 1
            else Quiet(m, r)
    decreases Unsettled(env, m), 4
  {
    if !m.accepted {
      QuietScan(env, m, env.order);
    }
  }

  lemma {:induction false} QuietScan(env: Env, m: Media, ps: seq<StreamId>)
    requires Running(env, m) && forall p :: p in ps ==> p in m.streams
    ensures var r := Scan(env, m, ps);
            Quiet(m, r.0) && r.1 == AllReady(m, ps)
    decreases Unsettled(env, m), 3, |ps|
  {
    if ps != [] {
      QuietScanStream(env, m, ps[0]);
      var d := ScanStream(env, m, ps[0]).0;
      assert Unsettled(env, d) == Unsettled(env, m) || Unsettled(env, d) < Unsettled(env, m);
      QuietKeeps(env, m, d);
      QuietScan(env, d, ps[1..]);
      QuietCompose(m, d, Scan(env, d, ps[1..]).0);
      AllReadySplit(m, d, ps);
    }
  }

  lemma {:induction false} QuietScanStream(env: Env, m: Media, p: StreamId)
    requires Running(env, m) && p in m.streams
    ensures var r := ScanStream(env, m, p);
            Quiet(m, r.0) && r.1 == StreamReady(m.streams[p])
    decreases Unsettled(env, m), 2
  {
    var e := Put(m, p, Proposed(env, m.streams[p]));
    PutProgress(env, m, p, Proposed(env, m.streams[p]));
    QuietRecord(m, p, Proposed(env, m.streams[p]));
    QuietKeeps(env, m, e);
    if WantsReceive(m.streams[p].line) {
      QuietUpdate(env, e, p);
      QuietCompose(m, e, UpdateReceiving(env, e, p));
    }
  }

  /** After its notification a stream receives what the channel asks for. */
  lemma UpdatedReceiving(env: Env, m: Media, p: StreamId)
    requires p in m.streams && Scannable(env, m)
    ensures UpdateReceiving(env, m, p).streams[p].receiving == ReceiveGoal(env, m.streams[p])
  {
    if p in Unsettled(env, m) {
      Settles(env, m, p);
      var d := Put(m, p, m.streams[p].(receiving := ReceiveGoal(env, m.streams[p])));
      assert StreamStep(env, d.streams[p], Notify(env, d, p).streams[p]);
    }
  }

  lemma ScanStreamSettles(env: Env, m: Media, p: StreamId)
    requires Scannable(env, m) && p in m.streams && WantsReceive(m.streams[p].line)
    ensures p !in Unsettled(env, ScanStream(env, m, p).0)
  {
    var e := Put(m, p, Proposed(env, m.streams[p]));
    UpdatedReceiving(env, e, p);
    assert StreamStep(env, e.streams[p], UpdateReceiving(env, e, p).streams[p]);
  }

  /** Whoever is to receive has been asked to once the scan is over. */
  lemma {:induction false} ScanSettles(env: Env, m: Media, ps: seq<StreamId>)
    requires Scannable(env, m) && forall p :: p in ps ==> p in m.streams
    ensures var r := Scan(env, m, ps).0;
            forall p :: p in ps && WantsReceive(m.streams[p].line) ==> p !in Unsettled(env, r)
    decreases |ps|
  {
    if ps != [] {
      var d := ScanStream(env, m, ps[0]).0;
      ScanSettles(env, d, ps[1..]);
      forall p | p in ps && WantsReceive(m.streams[p].line)
        ensures p !in Unsettled(env, Scan(env, m, ps).0)
      {
        assert StreamStep(env, m.streams[p], d.streams[p]);
        if p !in ps[1..] {
          ScanStreamSettles(env, m, p);
        }
      }
    }
  }

  // ---- a held call

  /** The waiting streams whose receiving state the scan of a held call still has to stop. */
  function Restless(env: Env, m: Media): set<StreamId> {
    set p | p in Unsettled(env, m) && m.streams[p].waiting && WantsReceive(m.streams[p].line)
            && p in env.order && p !in m.emitting
  }

  /** An attempt to accept a held call runs the base class once, and once more for every restless
      stream. */
  lemma {:induction false} HeldAttempt(env: Env, m: Media)
    requires env.held && Scannable(env, m)
    ensures var r := TryAccept(env, m);
            r.accepted && r.accepts == m.accepts + if m.accepted then 0 else 1 + |Restless(env, m)|
    decreases Unsettled(env, m), 4
  {
    if !m.accepted {
      HeldScan(env, m, env.order);
    }
  }

  lemma {:induction false} HeldScan(env: Env, m: Media, ps: seq<StreamId>)
    requires env.held && Scannable(env, m) && !m.accepted
    requires forall p :: p in ps ==> p in env.order
    requires forall p :: p in Restless(env, m) ==> p in ps
    ensures var r := Scan(env, m, ps).0;
            r.accepted == (Restless(env, m) != {}) && r.accepts == m.accepts + |Restless(env, m)|
    decreases Unsettled(env, m), 3, |ps|
  {
    if ps == [] {
      assert Restless(env, m) == {};
    } else {
      HeldScanStream(env, m, ps[0]);
      var d := ScanStream(env, m, ps[0]).0;
      if !d.accepted {
        assert Unsettled(env, d) == Unsettled(env, m) || Unsettled(env, d) < Unsettled(env, m);
        HeldScan(env, d, ps[1..]);
      }
    }
  }

  lemma {:induction false} HeldScanStream(env: Env, m: Media, p: StreamId)
    requires env.held && Scannable(env, m) && !m.accepted && p in env.order
    ensures var r := ScanStream(env, m, p).0;
            if p in Restless(env, m) then r.accepted && r.accepts == m.accepts + |Restless(env, m)|
            else !r.accepted && Restless(env, r) == Restless(env, m)
    decreases Unsettled(env, m), 2
  {
    var e := Put(m, p, Proposed(env, m.streams[p]));
    PutProgress(env, m, p, Proposed(env, m.streams[p]));
    assert Restless(env, e) == Restless(env, m);
    if WantsReceive(m.streams[p].line) {
      HeldUpdate(env, e, p);
    }
  }

  lemma SettlesRestless(env: Env, m: Media, p: StreamId)
    requires p in Unsettled(env, m)
    ensures Restless(env, Put(m, p, m.streams[p].(receiving := ReceiveGoal(env, m.streams[p])))) == Restless(env, m) - {p}
  {
    Settles(env, m, p);
  }

  lemma {:induction false} HeldUpdate(env: Env, m: Media, p: StreamId)
    requires env.held && Scannable(env, m) && !m.accepted && p in env.order
    requires WantsReceive(m.streams[p].line)
    ensures var r := UpdateReceiving(env, m, p);
            if p in Restless(env, m) then r.accepted && r.accepts == m.accepts + |Restless(env, m)|
            else !r.accepted && Restless(env, r) == Restless(env, m)
    decreases Unsettled(env, m), 0
  {
    if p in Unsettled(env, m) {
      Settles(env, m, p);
      var d := Put(m, p, m.streams[p].(receiving := ReceiveGoal(env, m.streams[p])));
      SettlesRestless(env, m, p);
      HeldNotify(env, d, p);
    }
  }

  lemma {:induction false} HeldNotify(env: Env, m: Media, p: StreamId)
    requires env.held && Scannable(env, m) && !m.accepted && p in m.streams && p !in Restless(env, m)
    ensures var r := Notify(env, m, p);
            if m.streams[p].waiting && p !in m.emitting
            then r.accepted && r.accepts == m.accepts + 1 + |Restless(env, m)|
            else !r.accepted && Restless(env, r) == Restless(env, m)
    decreases Unsettled(env, m), 6
  {
    if m.streams[p].waiting && p !in m.emitting {
      var d := m.(emitting := m.emitting + {p});
      assert Unsettled(env, d) == Unsettled(env, m);
      assert Restless(env, d) == Restless(env, m);
      HeldPass(env, d, p);
    } else if m.streams[p].waiting {
      assert Restless(env, m.(restart := m.restart + {p})) == Restless(env, m);
    }
  }

  lemma {:induction false} HeldPass(env: Env, m: Media, p: StreamId)
    requires env.held && Scannable(env, m) && !m.accepted && p in m.streams
    ensures var r := EmissionPass(env, m, p);
            r.accepted && r.accepts == m.accepts + 1 + |Restless(env, m)|
    decreases Unsettled(env, m), 5
  {
    var d := m.(restart := m.restart - {p});
    assert Unsettled(env, d) == Unsettled(env, m);
    assert Restless(env, d) == Restless(env, m);
    HeldAttempt(env, d);
    assert !HandlerPass(env, d, p).streams[p].waiting;
  }
}
