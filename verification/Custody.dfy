/** The engine never loses track of a URB: theorems over every run of the system. */
module Custody {
  import opened Common
  import opened Session
  import opened SessionRuns
  import opened Engine
  import opened EngineProofs
  import opened World
  import opened WorldProofs
  import opened Touches
  import opened NoStaleWrites

  /** `q` is an unresolved entry of the endpoint that sent it. */
  ghost predicate InFlightAs(w: World, t: nat, q: nat)
    requires t < |w.origins|
  {
    var key := w.origins[t].key;
    && key in w.endpoints
    && exists i :: && 0 <= i < |w.endpoints[key].inFlight|
                   && w.endpoints[key].inFlight[i].token == t
                   && w.endpoints[key].inFlight[i].seqnum == q
                   && w.endpoints[key].inFlight[i].result.None?
  }

  lemma HeldIsInFlight(w: World, q: nat, t: nat)
    requires Inv(w) && q in w.session.submits && w.session.submits[q].reply == Urb(t)
    requires t < |w.origins| && w.origins[t].key in w.endpoints
    requires Holds(w.endpoints[w.origins[t].key], t)
    ensures InFlightAs(w, t, q)
  {
    var key := w.origins[t].key;
    assert EndpointOk(w, key);
    var i :| 0 <= i < |w.endpoints[key].inFlight| && w.endpoints[key].inFlight[i].token == t;
    assert EntryMatched(w.endpoints[key].inFlight[i], w.session);
  }

  /**
   * In every reachable state, each transfer of the engine's that is pending on the server is either
   * waited for by its endpoint or already being cancelled, whatever was paused, reset, moved,
   * removed, replaced or rejected before.
   */
  lemma NoOrphanedUrb(speed: Speed, devid: u32, es: seq<Action>, q: nat, t: nat)
    requires AllAllowed(Start(speed, devid), es)
    requires var s := Performed(Start(speed, devid), es).session;
             q in s.submits && s.submits[q].reply == Urb(t)
    ensures var w := Performed(Start(speed, devid), es);
            t < |w.origins| && (q in w.session.unlinks.Values || InFlightAs(w, t, q))
  {
    hide Sound, InFlightAs;
    var w := Performed(Start(speed, devid), es);
    StartInv(speed, devid);
    PerformedKeepsInv(Start(speed, devid), es);
    assert Tracked(w, q);
    if q !in w.session.unlinks.Values { HeldIsInFlight(w, q, t); }
  }

  /**
   * Tokens are unique across all endpoints; an endpoint's URBs are for consecutive messages on its
   * ring, in the order they were sent; at most 32 are in flight, and only reads of data endpoints
   * are ever marked as being unlinked.
   */
  lemma InFlightStructure(speed: Speed, devid: u32, es: seq<Action>, key: Key, i: nat)
    requires AllAllowed(Start(speed, devid), es)
    requires key in Performed(Start(speed, devid), es).endpoints
    requires i < |Performed(Start(speed, devid), es).endpoints[key].inFlight|
    ensures var w := Performed(Start(speed, devid), es);
            var fs := w.endpoints[key].inFlight;
            && |fs| <= 32 && fs[i].token < |w.origins|
            && (i > 0 ==> fs[i].token > fs[i - 1].token)
            && fs[i].message == fs[0].message + i < |w.endpoints[key].ring.tape|
            && (fs[i].unlinking ==> Pausable(key))
            && forall k, j :: k in w.endpoints && 0 <= j < |w.endpoints[k].inFlight|
                              && w.endpoints[k].inFlight[j].token == fs[i].token
                              ==> k == key && j == i
  {
    hide Sound;
    var w := Performed(Start(speed, devid), es);
    StartInv(speed, devid);
    PerformedKeepsInv(Start(speed, devid), es);
    assert EndpointOk(w, key);
    var fs := w.endpoints[key].inFlight;
    assert Traces(key, w.endpoints[key].ring, fs[i], w.origins);
    forall k, j | k in w.endpoints && 0 <= j < |w.endpoints[k].inFlight|
                  && w.endpoints[k].inFlight[j].token == fs[i].token
      ensures k == key && j == i
    {
      assert EndpointOk(w, k);
      assert Traces(k, w.endpoints[k].ring, w.endpoints[k].inFlight[j], w.origins);
    }
  }

  /** At most 32 isochronous URBs, 8 bulk ones, and one of any other kind. */
  predicate WithinDepth(x: Scope) {
    |x.ep.inFlight| <= (if x.ep.info.kind == Isochronous then 32
                        else if x.ep.info.kind == Bulk then 8 else 1)
  }

  lemma TouchKeepsDepth(key: Key, x: Scope, y: Scope, t: Touch)
    requires WithinDepth(x) && Touched(key, x, y, t) && t != Redepthing
    ensures WithinDepth(y)
  {
    hide Cancel, Submitted, HeadPlan, HideUas.Hide, OutcomeOf, DataRequest;
    match t {
      case Arrival => var i: nat :| Arrives(x, y, i);
      case Pausing => var i: nat :| Pauses(x, y, i);
      case _ =>
    }
  }

  /** The number of URBs in flight respects the endpoint's depth while that stays the same. */
  lemma DepthRespected(w: World, es: seq<Action>, key: Key)
    requires Inv(w) && AllAllowed(w, es) && key in w.endpoints && WithinDepth(ScopeAt(w, key))
    requires Within(w, es, key, EVERY - {Redepthing})
    ensures key in Performed(w, es).endpoints && WithinDepth(ScopeAt(Performed(w, es), key))
  {
    hide Inv, AllAllowed, Touched, WithinDepth, Performed, Within;
    var p := (y: Scope) => WithinDepth(y);
    forall x, y, t | t in EVERY - {Redepthing} && p(x) && Good(key, x) && Good(key, y)
                     && Touched(key, x, y, t)
      ensures p(y)
    {
      hide Good;
      TouchKeepsDepth(key, x, y, t);
    }
    RunSurvives(w, es, key, p, EVERY - {Redepthing});
  }
}
