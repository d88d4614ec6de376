/** Invariants of the whole system, kept by every event. */
module WorldProofs {
  import opened Common
  import opened Session
  import opened SessionProofs
  import opened SessionRuns
  import opened Engine
  import opened Moves
  import opened EngineProofs
  import opened World

  /** An unresolved entry awaits a result that has not been handed over. */
  ghost predicate Awaiting(ep: Endpoint, delivered: set<nat>) {
    forall i :: 0 <= i < |ep.inFlight| ==>
      (ep.inFlight[i].result.None? <==> ep.inFlight[i].token !in delivered)
  }

  ghost predicate EndpointOk(w: World, key: Key)
    requires key in w.endpoints
  {
    var ep := w.endpoints[key];
    && Queued(key, ep, w.origins) && Recorded(key, ep.ring, w.origins) && Matched(ep, w.session)
    && ep.ring.id < w.rings && ep.ring.head <= |ep.ring.tape| && Awaiting(ep, w.delivered)
  }

  /** A pending transfer of the engine's is in flight on its endpoint or being cancelled. */
  ghost predicate Tracked(w: World, q: nat)
    requires q in w.session.submits
  {
    var c := w.session.submits[q].reply;
    c.Urb? ==>
      && c.token < |w.origins|
      && (q in w.session.unlinks.Values
          || (w.origins[c.token].key in w.endpoints
              && Holds(w.endpoints[w.origins[c.token].key], c.token)))
  }

  ghost predicate NoOrphans(w: World) {
    forall q :: q in w.session.submits ==> Tracked(w, q)
  }

  ghost predicate Inv(w: World) {
    && Sound(w.session) && Ticketed(w.session, w.origins)
    && (forall key :: key in w.endpoints ==> EndpointOk(w, key))
    && NoOrphans(w)
    && (forall t :: t in w.delivered ==> t < |w.origins| && Urb(t) in w.session.replies)
    && (forall t :: 0 <= t < |w.origins| ==> w.origins[t].ring < w.rings)
  }

  lemma ScopeGood(w: World, key: Key)
    requires Inv(w) && key in w.endpoints
    ensures Good(key, ScopeAt(w, key))
  {
    hide Sound;
    var x := ScopeAt(w, key);
    assert EndpointOk(w, key);
    forall q | q in x.session.submits
      ensures CoveredAt(key, x, q)
    {
      assert Tracked(w, q);
    }
  }

  /** Work confined to one endpoint keeps the invariants of the others. */
  lemma ScopeInv(w: World, key: Key, y: Scope, delivered: set<nat>)
    requires Inv(w) && key in w.endpoints
    requires Good(key, y) && Extends(key, ScopeAt(w, key), y)
    requires w.delivered <= delivered && Awaiting(y.ep, delivered)
    requires forall t :: t in delivered ==> t < |w.origins| && Urb(t) in w.session.replies
    requires forall t :: t in delivered && t !in w.delivered ==> w.origins[t].key == key
    requires forall t :: |w.origins| <= t < |y.origins| ==> y.origins[t].ring == y.ep.ring.id
    requires y.ep.ring.head <= |y.ep.ring.tape|
    ensures Inv(WithScope(w.(delivered := delivered), key, y))
  {
    hide Sound;
    var v := WithScope(w.(delivered := delivered), key, y);
    forall k | k in v.endpoints
      ensures EndpointOk(v, k)
    {
      if k != key { OtherEndpointOk(w, k, v, key); }
      else { assert EndpointOk(w, key); }
    }
    forall q | q in v.session.submits
      ensures Tracked(v, q)
    {
      TrackedAfter(w, key, y, q);
    }
    forall t | 0 <= t < |v.origins|
      ensures v.origins[t].ring < v.rings
    {
      assert EndpointOk(w, key);
    }
  }

  lemma OtherEndpointOk(w: World, k: Key, v: World, key: Key)
    requires k in w.endpoints && EndpointOk(w, k) && k != key
    requires k in v.endpoints && v.endpoints[k] == w.endpoints[k] && v.rings >= w.rings
    requires Evolves(w.session, v.session) && w.origins <= v.origins
    requires w.delivered <= v.delivered
    requires forall t :: t in v.delivered && t !in w.delivered ==>
                t < |w.origins| && w.origins[t].key == key
    ensures EndpointOk(v, k)
  {
    var ep := w.endpoints[k];
    forall i | 0 <= i < |ep.inFlight|
      ensures Traces(k, ep.ring, ep.inFlight[i], v.origins)
      ensures EntryMatched(ep.inFlight[i], v.session)
      ensures ep.inFlight[i].result.None? <==> ep.inFlight[i].token !in v.delivered
    {
      assert Traces(k, ep.ring, ep.inFlight[i], w.origins);
      assert EntryMatched(ep.inFlight[i], w.session);
    }
    forall a | 0 <= a < |ep.ring.acts|
      ensures ActOk(k, ep.ring, ep.ring.acts[a], v.origins)
    {
      assert ActOk(k, ep.ring, ep.ring.acts[a], w.origins);
    }
  }

  lemma TrackedAfter(w: World, key: Key, y: Scope, q: nat)
    requires Inv(w) && key in w.endpoints
    requires Good(key, y) && Extends(key, ScopeAt(w, key), y)
    requires q in y.session.submits
    ensures forall d :: Tracked(WithScope(w.(delivered := d), key, y), q)
  {
    hide Sound;
    assert CoveredAt(key, y, q);
    if q in w.session.submits {
      assert Tracked(w, q);
    } else {
      var c := y.session.submits[q].reply;
      assert y.origins[c.token].key == key by {
        assert c.token < |y.origins| by { PendingHasOrigin(y, q); }
      }
    }
  }

  lemma PendingHasOrigin(y: Scope, q: nat)
    requires Sound(y.session) && Ticketed(y.session, y.origins) && q in y.session.submits
    ensures y.session.submits[q].reply.Urb? ==> y.session.submits[q].reply.token < |y.origins|
  {
  }

  // ---------------------------------------------------------------- work on one endpoint

  /** What the invariants ask of an endpoint besides `Good`, while it is worked on. */
  ghost predicate Tidy(n: nat, delivered: set<nat>, y: Scope) {
    && Awaiting(y.ep, delivered)
    && (forall t :: t in delivered ==> t < n) && n <= |y.origins|
    && (forall t :: n <= t < |y.origins| ==> y.origins[t].ring == y.ep.ring.id)
    && y.ep.ring.head <= |y.ep.ring.tape|
  }

  lemma MoveKeepsTidy(key: Key, n: nat, delivered: set<nat>, x: Scope, y: Scope)
    requires Tidy(n, delivered, x) && Move(key, x, y)
    ensures Tidy(n, delivered, y)
  {
    hide HideUas.Hide, HeadPlan, OutcomeOf, Submitted, Cancel;
  }

  lemma PumpKeepsTidy(key: Key, n: nat, delivered: set<nat>, x: Scope, offline: bool)
    requires Tidy(n, delivered, x)
    ensures Tidy(n, delivered, Pump(key, x, offline))
  {
    hide Tidy, Move, Pump;
    var p := (y: Scope) => Tidy(n, delivered, y);
    forall a, b | p(a) && Move(key, a, b)
      ensures p(b)
    {
      MoveKeepsTidy(key, n, delivered, a, b);
    }
    PumpKeeps(key, x, offline, p);
  }

  lemma ScopeTidy(w: World, key: Key)
    requires Inv(w) && key in w.endpoints
    ensures Tidy(|w.origins|, w.delivered, ScopeAt(w, key))
  {
    hide Sound;
    assert EndpointOk(w, key);
  }

  /** `ScopeInv` for work that hands over no result. */
  lemma WorkKeepsInv(w: World, key: Key, y: Scope)
    requires Inv(w) && key in w.endpoints
    requires Good(key, y) && Extends(key, ScopeAt(w, key), y)
    requires Tidy(|w.origins|, w.delivered, y)
    ensures Inv(WithScope(w, key, y))
  {
    hide Sound, Good, Extends;
    ScopeInv(w, key, y, w.delivered);
    assert w.(delivered := w.delivered) == w;
  }

  lemma DoorbellKeepsInv(w: World, key: Key)
    requires Inv(w) && key in w.endpoints
    ensures Inv(WithScope(w, key, Pump(key, ScopeAt(w, key), false)))
  {
    hide Inv, Good, Extends, Tidy, Pump;
    var x := ScopeAt(w, key);
    ScopeGood(w, key);
    ScopeTidy(w, key);
    PumpKeepsGood(key, x, false);
    PumpKeepsTidy(key, |w.origins|, w.delivered, x, false);
    WorkKeepsInv(w, key, Pump(key, x, false));
  }

  lemma DropKeepsInv(w: World, key: Key, setup: Option<SetupState>)
    requires Inv(w) && key in w.endpoints
    ensures var y := Dropped(ScopeAt(w, key), 0, 0);
            Inv(WithScope(w, key, y.(ep := y.ep.(setup := setup))))
  {
    hide Sound;
    var x := ScopeAt(w, key);
    ScopeGood(w, key);
    ScopeTidy(w, key);
    DropKeepsGood(key, x, 0, 0);
    var y := Dropped(x, 0, 0);
    var z := y.(ep := y.ep.(setup := setup));
    assert Covered(key, z) by {
      forall q | q in z.session.submits ensures CoveredAt(key, z, q) {
        assert CoveredAt(key, y, q);
      }
    }
    WorkKeepsInv(w, key, z);
  }

  // ---------------------------------------------------------------- results arriving

  lemma QueuedReplace(key: Key, ep: Endpoint, i: nat, f: InFlight, origins: seq<Origin>)
    requires Queued(key, ep, origins) && i < |ep.inFlight|
    requires f.(unlinking := ep.inFlight[i].unlinking, result := ep.inFlight[i].result)
             == ep.inFlight[i]
    requires f.unlinking ==> ep.inFlight[i].unlinking || Pausable(key)
    ensures Queued(key, ep.(inFlight := ep.inFlight[i := f]), origins)
  {
    var fs, fs' := ep.inFlight, ep.inFlight[i := f];
    assert forall k :: 0 <= k < |fs| ==> fs'[k].message == fs[k].message && fs'[k].token == fs[k].token;
    SameInLine(fs, fs');
    hide InLine;
    forall k | 0 <= k < |fs|
      ensures Traces(key, ep.ring, fs'[k], origins)
      ensures fs'[k].unlinking ==> Pausable(key)
    {
      assert Traces(key, ep.ring, fs[k], origins);
    }
  }

  lemma SameInLine(fs: seq<InFlight>, fs': seq<InFlight>)
    requires InLine(fs) && |fs'| == |fs|
    requires forall k :: 0 <= k < |fs| ==> fs'[k].message == fs[k].message && fs'[k].token == fs[k].token
    ensures InLine(fs')
  {
    forall i | 0 <= i < |fs'|
      ensures fs'[i].message == fs'[0].message + i
    {
      assert fs[i].message == fs[0].message + i;
    }
    forall i, j | 0 <= i < j < |fs'|
      ensures fs'[i].token < fs'[j].token
    {
      assert fs[i].token < fs[j].token;
    }
  }

  /** Replacing an entry by one with the same URB changes nothing the invariants look at. */
  lemma ReplaceKeepsGood(key: Key, x: Scope, i: nat, f: InFlight, s: State)
    requires Good(key, x) && i < |x.ep.inFlight|
    requires f.(unlinking := x.ep.inFlight[i].unlinking, result := x.ep.inFlight[i].result)
             == x.ep.inFlight[i]
    requires f.unlinking ==> x.ep.inFlight[i].unlinking || Pausable(key)
    requires Sound(s) && Evolves(x.session, s) && s.submits == x.session.submits
    requires s.tickets == x.session.tickets && EntryMatched(f, s)
    ensures var y := x.(ep := x.ep.(inFlight := x.ep.inFlight[i := f]), session := s);
            Good(key, y) && Extends(key, x, y)
  {
    hide Sound;
    var y := x.(ep := x.ep.(inFlight := x.ep.inFlight[i := f]), session := s);
    QueuedReplace(key, x.ep, i, f, x.origins);
    forall k | 0 <= k < |x.ep.inFlight|
      ensures EntryMatched(y.ep.inFlight[k], s)
    {
      assert EntryMatched(x.ep.inFlight[k], x.session);
    }
    assert Matched(y.ep, s);
    assert Recorded(key, y.ep.ring, y.origins);
    assert Ticketed(s, y.origins);
    assert Covered(key, y) by {
      forall q | q in s.submits
        ensures CoveredAt(key, y, q)
      {
        assert CoveredAt(key, x, q);
        var c := x.session.submits[q].reply;
        if c.Urb? && Holds(x.ep, c.token) {
          var k :| 0 <= k < |x.ep.inFlight| && x.ep.inFlight[k].token == c.token;
          assert y.ep.inFlight[k].token == c.token;
        }
      }
    }
  }

  lemma ArrivedGood(key: Key, x: Scope, i: nat)
    requires Good(key, x) && i < |x.ep.inFlight|
    requires Urb(x.ep.inFlight[i].token) in x.session.replies
    ensures var y := Arrived(x, i, x.session.replies[Urb(x.ep.inFlight[i].token)]);
            Good(key, y) && Extends(key, x, y)
  {
    hide Sound;
    var f := x.ep.inFlight[i];
    var result := x.session.replies[Urb(f.token)];
    if f.unlinking && result.Err? && result.error.Unlinked? {
      DropKeepsGood(key, x, i, i + 1);
    } else {
      assert EntryMatched(f, x.session);
      ReplaceKeepsGood(key, x, i, f.(result := Some(result)), x.session);
      assert x.(ep := x.ep.(inFlight := x.ep.inFlight[i := f.(result := Some(result))]))
             == x.(ep := x.ep.(inFlight := x.ep.inFlight[i := f.(result := Some(result))]),
                   session := x.session);
    }
  }

  lemma ArrivedTidy(key: Key, x: Scope, i: nat, result: TransferResult, delivered: set<nat>)
    requires Queued(key, x.ep, x.origins) && Tidy(|x.origins|, delivered, x)
    requires i < |x.ep.inFlight|
    ensures Tidy(|x.origins|, delivered + {x.ep.inFlight[i].token}, Arrived(x, i, result))
  {
    hide Cancel;
    var y := Arrived(x, i, result);
    assert Traces(key, x.ep.ring, x.ep.inFlight[i], x.origins);
    assert forall k :: 0 <= k < |y.ep.inFlight| ==> y.ep.inFlight[k].token == x.ep.inFlight[k].token;
  }

  lemma TakeHeldKeepsInv(w: World, t: nat, i: nat)
    requires Inv(w) && Allowed(w, TakeResult(t)) && w.origins[t].key in w.endpoints
    requires Position(w.endpoints[w.origins[t].key].inFlight, t) == Some(i)
    ensures Inv(Perform(w, TakeResult(t)))
  {
    hide Inv, Good, Extends, Tidy;
    var key := w.origins[t].key;
    var x := ScopeAt(w, key);
    ScopeGood(w, key);
    ScopeTidy(w, key);
    ArrivedGood(key, x, i);
    assert Queued(key, x.ep, x.origins) by { QueuedOf(key, x); }
    ArrivedTidy(key, x, i, w.session.replies[Urb(t)], w.delivered);
    FinishInv(w, t, Arrived(x, i, w.session.replies[Urb(t)]));
  }

  lemma FinishHeldKeepsInv(w: World, t: nat, i: nat)
    requires Inv(w) && Allowed(w, Finish(t)) && w.origins[t].key in w.endpoints
    requires Position(w.endpoints[w.origins[t].key].inFlight, t) == Some(i)
    ensures Inv(Perform(w, Finish(t)))
  {
    hide Inv, Good, Extends, Tidy, Pump;
    var key := w.origins[t].key;
    var x := ScopeAt(w, key);
    var result := w.session.replies[Urb(t)];
    var y := Arrived(x, i, result);
    ScopeGood(w, key);
    ScopeTidy(w, key);
    ArrivedGood(key, x, i);
    assert Queued(key, x.ep, x.origins) by { QueuedOf(key, x); }
    ArrivedTidy(key, x, i, result, w.delivered);
    var z := Pump(key, y, false);
    PumpKeepsGood(key, y, false);
    PumpKeepsTidy(key, |x.origins|, w.delivered + {t}, y, false);
    ExtendsTransitive(key, x, y, z);
    FinishInv(w, t, z);
  }

  lemma QueuedOf(key: Key, x: Scope)
    requires Good(key, x)
    ensures Queued(key, x.ep, x.origins)
  {
  }

  lemma FinishInv(w: World, t: nat, z: Scope)
    requires Inv(w) && Allowed(w, Finish(t)) && w.origins[t].key in w.endpoints
    requires Good(w.origins[t].key, z)
    requires Extends(w.origins[t].key, ScopeAt(w, w.origins[t].key), z)
    requires Tidy(|w.origins|, w.delivered + {t}, z)
    ensures Inv(WithScope(w.(delivered := w.delivered + {t}), w.origins[t].key, z))
  {
    hide Sound, Good, Extends;
    ScopeInv(w, w.origins[t].key, z, w.delivered + {t});
  }

  lemma StaleChangesNothing(w: World, t: nat)
    requires Deliverable(w, t)
    requires w.origins[t].key in w.endpoints ==>
               Position(w.endpoints[w.origins[t].key].inFlight, t).None?
    ensures Perform(w, Finish(t)) == w.(delivered := w.delivered + {t})
    ensures Perform(w, TakeResult(t)) == w.(delivered := w.delivered + {t})
  {
    var key := w.origins[t].key;
    if key in w.endpoints { assert w.endpoints[key := w.endpoints[key]] == w.endpoints; }
  }

  lemma FinishStaleKeepsInv(w: World, t: nat)
    requires Inv(w) && Allowed(w, Finish(t))
    requires w.origins[t].key in w.endpoints ==>
               Position(w.endpoints[w.origins[t].key].inFlight, t).None?
    ensures Perform(w, Finish(t)) == w.(delivered := w.delivered + {t})
    ensures Perform(w, TakeResult(t)) == Perform(w, Finish(t))
    ensures Inv(Perform(w, Finish(t)))
  {
    hide Sound;
    var v := w.(delivered := w.delivered + {t});
    var key := w.origins[t].key;
    StaleChangesNothing(w, t);
    hide Perform;
    forall k | k in v.endpoints
      ensures EndpointOk(v, k)
    {
      assert EndpointOk(w, k);
      var ep := w.endpoints[k];
      forall i | 0 <= i < |ep.inFlight|
        ensures ep.inFlight[i].token != t
      {
        assert Traces(k, ep.ring, ep.inFlight[i], w.origins);
      }
    }
    forall q | q in v.session.submits ensures Tracked(v, q) { assert Tracked(w, q); }
  }

  // ---------------------------------------------------------------- pausing

  lemma PauseOne(key: Key, x: Scope, i: nat)
    requires Good(key, x) && Pausable(key) && i < |x.ep.inFlight|
    ensures Good(key, PausedOne(x, i)) && Extends(key, x, PausedOne(x, i))
  {
    hide Sound;
    var f := x.ep.inFlight[i];
    UnlinkEvolves(x.session, f.seqnum);
    assert EntryMatched(f, x.session);
    ReplaceKeepsGood(key, x, i, f.(unlinking := true), UnlinkedAt(x.session, f.seqnum));
  }

  lemma {:induction false} PauseKeeps(key: Key, x: Scope, i: nat, n: nat, delivered: set<nat>)
    requires Good(key, x) && Pausable(key) && Tidy(n, delivered, x)
    ensures var y := PausedFrom(x, i);
            Good(key, y) && Extends(key, x, y) && Tidy(n, delivered, y)
    decreases |x.ep.inFlight| - i
  {
    hide Good, Extends;
    if i < |x.ep.inFlight| {
      if ToPause(x.ep.inFlight, i) {
        var y := PausedOne(x, i);
        PauseOne(key, x, i);
        PauseKeeps(key, y, i + 1, n, delivered);
        ExtendsTransitive(key, x, y, PausedFrom(y, i + 1));
      } else {
        PauseKeeps(key, x, i + 1, n, delivered);
      }
    } else {
      ExtendsReflexive(key, x);
    }
  }

  lemma PauseKeepsInv(w: World, key: Key)
    requires Inv(w) && key in w.endpoints && Pausable(key)
    ensures Inv(WithScope(w, key, PausedFrom(ScopeAt(w, key), 0)))
  {
    hide Inv, Good, Extends, Tidy, PausedFrom;
    ScopeGood(w, key);
    ScopeTidy(w, key);
    PauseKeeps(key, ScopeAt(w, key), 0, |w.origins|, w.delivered);
    WorkKeepsInv(w, key, PausedFrom(ScopeAt(w, key), 0));
  }

  // ---------------------------------------------------------------- work broken up

  lemma PumpStepKeepsInv(w: World, key: Key, next: Scope)
    requires Inv(w) && Allowed(w, PumpStep(key, next))
    ensures Inv(WithScope(w, key, next))
  {
    hide Inv, Good, Extends, Tidy, Move;
    ScopeGood(w, key);
    ScopeTidy(w, key);
    MoveKeepsGood(key, ScopeAt(w, key), next);
    MoveKeepsTidy(key, |w.origins|, w.delivered, ScopeAt(w, key), next);
    WorkKeepsInv(w, key, next);
  }

  lemma PauseStepKeepsInv(w: World, key: Key, at: nat)
    requires Inv(w) && Allowed(w, PauseStep(key, at))
    ensures Inv(WithScope(w, key, PausedOne(ScopeAt(w, key), at)))
  {
    hide Inv, Good, Extends;
    var x := ScopeAt(w, key);
    ScopeGood(w, key);
    ScopeTidy(w, key);
    PauseOne(key, x, at);
    WorkKeepsInv(w, key, PausedOne(x, at));
  }

  // ---------------------------------------------------------------- replacing and removing

  /** With its URBs cancelled, an endpoint may go or be replaced by one with nothing in flight. */
  lemma DiscardKeepsInv(w: World, v: World, key: Key)
    requires Inv(w)
    requires v.endpoints.Keys + {key} == w.endpoints.Keys + {key}
    requires forall k :: k in w.endpoints && k != key ==> v.endpoints[k] == w.endpoints[k]
    requires v.session == Discarded(w, key) && v.origins == w.origins
    requires v.delivered == w.delivered && w.rings <= v.rings
    requires key in v.endpoints ==> EndpointOk(v, key)
    ensures Inv(v)
  {
    hide Sound, Tracked, EndpointOk, Discarded, Ticketed;
    DiscardSession(w, key);
    TicketedKept(w.session, v.session, w.origins);
    forall k | k in v.endpoints && k != key
      ensures EndpointOk(v, k)
    {
      OtherEndpointOk(w, k, v, key);
    }
    forall q | q in v.session.submits
      ensures Tracked(v, q)
    {
      DiscardTracked(w, v, key, q);
    }
  }

  lemma DiscardSession(w: World, key: Key)
    requires Inv(w)
    ensures Sound(Discarded(w, key)) && Evolves(w.session, Discarded(w, key))
    ensures Discarded(w, key).tickets == w.session.tickets
  {
    hide Sound, Tracked, EndpointOk;
    if key in w.endpoints {
      CancelEvolves(w.session, w.endpoints[key].inFlight);
    }
  }

  lemma TicketedKept(s: State, t: State, origins: seq<Origin>)
    requires Ticketed(s, origins) && t.tickets == s.tickets
    ensures Ticketed(t, origins)
  {
  }

  lemma DiscardTracked(w: World, v: World, key: Key, q: nat)
    requires Inv(w)
    requires v.endpoints.Keys + {key} == w.endpoints.Keys + {key}
    requires forall k :: k in w.endpoints && k != key ==> v.endpoints[k] == w.endpoints[k]
    requires v.session == Discarded(w, key) && v.origins == w.origins
    requires q in v.session.submits
    ensures Tracked(v, q)
  {
    hide Sound;
    if key in w.endpoints {
      var x := ScopeAt(w, key);
      ScopeGood(w, key);
      DropKeepsGood(key, x, 0, 0);
      CancelEvolves(w.session, x.ep.inFlight);
      var y := Dropped(x, 0, 0);
      assert x.ep.inFlight[0..] == x.ep.inFlight;
      assert y.session == v.session && y.ep.inFlight == [];
      assert CoveredAt(key, y, q) by { GoodCovers(key, y, q); }
    }
    hide Good, EndpointOk;
    assert Tracked(w, q);
  }

  lemma GoodCovers(key: Key, x: Scope, q: nat)
    requires Good(key, x) && q in x.session.submits
    ensures CoveredAt(key, x, q)
  {
    hide Sound, Queued, Recorded, Matched, Ticketed;
  }

  lemma FreshEndpointOk(w: World, e: Action)
    requires e.AddEndpoint? && Allowed(w, e)
    ensures EndpointOk(Perform(w, e), e.key)
  {
  }

  // ---------------------------------------------------------------- the host

  /** The host appends, moves, stops or redescribes: what is in flight and what was done stays. */
  ghost predicate HostEdit(was: Endpoint, ep: Endpoint) {
    && ep.inFlight == was.inFlight
    && ep.ring.id == was.ring.id && ep.ring.acts == was.ring.acts
    && |ep.ring.tape| >= |was.ring.tape| && ep.ring.head <= |ep.ring.tape|
  }

  lemma HostKeepsQueued(key: Key, was: Endpoint, ep: Endpoint, origins: seq<Origin>)
    requires HostEdit(was, ep) && Queued(key, was, origins) && Recorded(key, was.ring, origins)
    ensures Queued(key, ep, origins) && Recorded(key, ep.ring, origins)
  {
    hide InLine;
    forall i | 0 <= i < |ep.inFlight|
      ensures Traces(key, ep.ring, ep.inFlight[i], origins)
    {
      assert Traces(key, was.ring, was.inFlight[i], origins);
    }
    forall a | 0 <= a < |ep.ring.acts|
      ensures ActOk(key, ep.ring, ep.ring.acts[a], origins)
    {
      assert ActOk(key, was.ring, was.ring.acts[a], origins);
    }
  }

  lemma HostKeepsEndpointOk(w: World, key: Key, ep: Endpoint)
    requires key in w.endpoints && EndpointOk(w, key) && HostEdit(w.endpoints[key], ep)
    ensures EndpointOk(w.(endpoints := w.endpoints[key := ep]), key)
  {
    hide Queued, Recorded;
    HostKeepsQueued(key, w.endpoints[key], ep, w.origins);
  }

  lemma HostKeepsInv(w: World, key: Key, ep: Endpoint)
    requires Inv(w) && key in w.endpoints && HostEdit(w.endpoints[key], ep)
    ensures Inv(w.(endpoints := w.endpoints[key := ep]))
  {
    hide Sound, Queued, Recorded, Matched;
    var v := w.(endpoints := w.endpoints[key := ep]);
    var was := w.endpoints[key];
    forall k | k in v.endpoints
      ensures EndpointOk(v, k)
    {
      assert EndpointOk(w, k);
      if k == key {
        HostKeepsEndpointOk(w, key, ep);
      }
    }
    forall q | q in v.session.submits
      ensures Tracked(v, q)
    {
      assert Tracked(w, q);
      var c := w.session.submits[q].reply;
      assert c.Urb? && c.token < |w.origins| && w.origins[c.token].key == key ==>
          (Holds(was, c.token) ==> Holds(ep, c.token));
    }
  }

  // ---------------------------------------------------------------- the rest of the session's users

  lemma TargetStays(s: State, n: Session.Event, q: nat)
    requires q in s.submits && q in s.unlinks.Values && q in Session.Step(s, n).submits
    ensures q in Session.Step(s, n).unlinks.Values
  {
    hide Seqnum.Next, CommandOf, Expectation;
    var t := Session.Step(s, n);
    var k :| k in s.unlinks && s.unlinks[k] == q;
    if n.DoUnlink? {
      Seqnum.NextFresh(Used(s), s.next);
    }
    assert k in t.unlinks && t.unlinks[k] == q;
  }

  lemma PendingBefore(s: State, n: Session.Event, q: nat)
    requires q in Session.Step(s, n).submits
    ensures q in s.submits || (n.DoSubmit? && Session.Step(s, n).submits[q].reply == n.reply)
    ensures q in s.submits && !n.DoSubmit? ==> Session.Step(s, n).submits[q] == s.submits[q]
  {
  }

  lemma NetworkKeepsTracked(w: World, n: Session.Event, q: nat)
    requires Inv(w) && Allowed(w, Network(n)) && q in Session.Step(w.session, n).submits
    ensures Tracked(w.(session := Session.Step(w.session, n)), q)
  {
    hide Sound, Session.Enabled;
    PendingBefore(w.session, n, q);
    if q in w.session.submits {
      assert Tracked(w, q);
      if n.DoSubmit? {
        Seqnum.NextFresh(Used(w.session), w.session.next);
      } else {
        hide Session.Step;
        if q in w.session.unlinks.Values { TargetStays(w.session, n, q); }
      }
    } else {
      hide Session.Step;
    }
  }

  lemma NetworkKeepsTicketed(s: State, n: Session.Event, origins: seq<Origin>)
    requires Ticketed(s, origins) && Accounted(s)
    requires Session.Enabled(s, n) && (n.DoSubmit? ==> n.reply.Caller?)
    ensures Ticketed(Session.Step(s, n), origins)
  {
    StepKeepsAnswers(s, n);
  }

  lemma NetworkKeepsInv(w: World, n: Session.Event)
    requires Inv(w) && Allowed(w, Network(n))
    ensures Inv(Perform(w, Network(n)))
  {
    hide Session.Step, Session.Enabled;
    var v := Perform(w, Network(n));
    StepKeepsSound(w.session, n);
    StepKeepsAnswers(w.session, n);
    NetworkKeepsTicketed(w.session, n, w.origins);
    hide Sound;
    forall k | k in v.endpoints
      ensures EndpointOk(v, k)
    {
      assert EndpointOk(w, k);
      var ep := w.endpoints[k];
      forall i | 0 <= i < |ep.inFlight|
        ensures EntryMatched(ep.inFlight[i], v.session)
      {
        assert EntryMatched(ep.inFlight[i], w.session);
      }
    }
    forall q | q in v.session.submits
      ensures Tracked(v, q)
    {
      NetworkKeepsTracked(w, n, q);
    }
  }

  // ---------------------------------------------------------------- every action, every run

  lemma EndpointPerformKeepsInv(w: World, e: Action)
    requires Inv(w) && Allowed(w, e) && OnEndpoint(e) && e.key in w.endpoints
    ensures Inv(EndpointPerform(w, e))
  {
    hide Inv, Pump, PausedFrom;
    var ep := w.endpoints[e.key];
    assert ep.ring.head <= |ep.ring.tape| by { HeadInTape(w, e.key); }
    match e {
      case Append(key, m) =>
        HostKeepsInv(w, key, ep.(ring := ep.ring.(tape := ep.ring.tape + [m])));
      case MoveHead(key, position) =>
        HostKeepsInv(w, key, ep.(ring := ep.ring.(head := position)));
      case SetActive(key, active) =>
        HostKeepsInv(w, key, ep.(ring := ep.ring.(active := active)));
      case SetRejects(key, rejects) =>
        HostKeepsInv(w, key, ep.(ring := ep.ring.(rejects := rejects)));
      case UpdateEndpoint(key, info) => HostKeepsInv(w, key, ep.(info := info));
      case ResetEndpoint(key) => DropKeepsInv(w, key, None);
      case PauseEndpoint(key) => if Pausable(key) { PauseKeepsInv(w, key); }
      case SyncEndpoint(key) => SyncKeepsInv(w, key);
      case Doorbell(key) => DoorbellKeepsInv(w, key);
      case PumpStep(key, next) => hide Move; PumpStepKeepsInv(w, key, next);
      case PauseStep(key, at) => hide PausedOne; PauseStepKeepsInv(w, key, at);
    }
  }

  lemma HeadInTape(w: World, key: Key)
    requires Inv(w) && key in w.endpoints
    ensures w.endpoints[key].ring.head <= |w.endpoints[key].ring.tape|
  {
    assert EndpointOk(w, key);
  }

  lemma SyncKeepsInv(w: World, key: Key)
    requires Inv(w) && key in w.endpoints
    ensures Inv(WithScope(w, key, Synced(ScopeAt(w, key))))
  {
    hide Inv;
    var x := ScopeAt(w, key);
    var y := Dropped(x, 0, 0);
    DropKeepsInv(w, key, y.ep.setup);
    assert y.(ep := y.ep.(setup := y.ep.setup)) == y;
    assert WithScope(w, key, x) == w by { assert w.endpoints[key := w.endpoints[key]] == w.endpoints; }
  }

  lemma PerformKeepsInv(w: World, e: Action)
    requires Inv(w) && Allowed(w, e)
    ensures Inv(Perform(w, e))
  {
    hide Inv, EndpointPerform, Finished;
    match e {
      case AddEndpoint(key, _, _, _, _, _) =>
        FreshEndpointOk(w, e);
        DiscardKeepsInv(w, Perform(w, e), key);
      case RemoveEndpoint(key) => DiscardKeepsInv(w, Perform(w, e), key);
      case Finish(t) =>
        hide Perform;
        var key := w.origins[t].key;
        if key in w.endpoints && Position(w.endpoints[key].inFlight, t).Some? {
          FinishHeldKeepsInv(w, t, Position(w.endpoints[key].inFlight, t).value);
        } else {
          FinishStaleKeepsInv(w, t);
        }
      case TakeResult(t) =>
        hide Perform;
        var key := w.origins[t].key;
        if key in w.endpoints && Position(w.endpoints[key].inFlight, t).Some? {
          TakeHeldKeepsInv(w, t, Position(w.endpoints[key].inFlight, t).value);
        } else {
          FinishStaleKeepsInv(w, t);
        }
      case Network(n) => hide Perform; NetworkKeepsInv(w, n);
      case _ => if e.key in w.endpoints { EndpointPerformKeepsInv(w, e); }
    }
  }

  lemma {:induction false} PerformedKeepsInv(w: World, es: seq<Action>)
    requires Inv(w) && AllAllowed(w, es)
    ensures Inv(Performed(w, es))
    decreases |es|
  {
    hide Inv, Perform, Allowed;
    if es != [] {
      PerformKeepsInv(w, es[0]);
      PerformedKeepsInv(Perform(w, es[0]), es[1..]);
    }
  }

  lemma {:induction false} PerformedAppend(w: World, es: seq<Action>, e: Action)
    requires AllAllowed(w, es) && Allowed(Performed(w, es), e)
    ensures AllAllowed(w, es + [e]) && Performed(w, es + [e]) == Perform(Performed(w, es), e)
    decreases |es|
  {
    hide Perform, Allowed;
    if es == [] {
      var v := Perform(w, e);
      assert es + [e] == [e] && [e][1..] == [];
      assert Performed(v, []) == v && AllAllowed(v, []);
      assert AllAllowed(w, [e]) && Performed(w, [e]) == v;
    } else {
      PerformedAppend(Perform(w, es[0]), es[1..], e);
      assert (es + [e])[0] == es[0] && (es + [e])[1..] == es[1..] + [e];
    }
  }

  lemma StartInv(speed: Speed, devid: u32)
    ensures Inv(Start(speed, devid))
  {
  }
}
