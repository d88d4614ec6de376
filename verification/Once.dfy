/**
 * At-most-once delivery. Repeating a control or OUT transfer would make the device act twice, so
 * however often such an endpoint is paused, resumed, rung or cut off, no message of it is sent
 * twice: not while the host leaves the ring where it is and accepts completions.
 */
module Once {
  import opened Common
  import opened Session
  import opened Engine
  import opened Moves
  import opened EngineProofs
  import opened World
  import opened WorldProofs
  import opened Touches
  import opened NoStaleWrites

  /** The host neither moves nor resets the endpoint nor turns to rejecting completions. */
  const STEADY: set<Touch> := EVERY - {Moving, Displacing, Resetting, Rejecting}

  predicate From(o: Origin, key: Key, ring: nat) {
    o.key == key && o.ring == ring
  }

  /** The URBs of this ring were sent for ever later messages, none beyond those in flight. */
  ghost predicate Advancing(key: Key, x: Scope) {
    && !x.ep.ring.rejects
    && (x.ep.inFlight != [] ==> x.ep.inFlight[0].message == x.ep.ring.head)
    && (forall t :: 0 <= t < |x.origins| && From(x.origins[t], key, x.ep.ring.id) ==>
          x.origins[t].message < x.ep.ring.head + |x.ep.inFlight|)
    && (forall t, u :: 0 <= t < u < |x.origins| && From(x.origins[t], key, x.ep.ring.id)
                       && From(x.origins[u], key, x.ep.ring.id) ==>
          x.origins[t].message < x.origins[u].message)
  }

  lemma MoveKeepsAdvancing(key: Key, x: Scope, y: Scope)
    requires Advancing(key, x) && Queued(key, x.ep, x.origins) && Move(key, x, y)
    ensures Advancing(key, y)
  {
    hide HideUas.Hide, HeadPlan, OutcomeOf, Submitted, Cancel, DataRequest;
  }

  /** Without reads to unlink, a result that arrives is always kept. */
  lemma ArrivalKeepsAdvancing(key: Key, x: Scope, y: Scope, i: nat)
    requires Advancing(key, x) && Queued(key, x.ep, x.origins) && !Pausable(key)
    requires Arrives(x, y, i)
    ensures Advancing(key, y)
  {
    assert !x.ep.inFlight[i].unlinking;
  }

  lemma TouchKeepsAdvancing(key: Key, x: Scope, y: Scope, t: Touch)
    requires Advancing(key, x) && Queued(key, x.ep, x.origins) && !Pausable(key)
    requires Touched(key, x, y, t) && t in STEADY
    ensures Advancing(key, y)
  {
    hide Move;
    match t {
      case Pumping => MoveKeepsAdvancing(key, x, y);
      case Arrival =>
        var i: nat :| Arrives(x, y, i);
        ArrivalKeepsAdvancing(key, x, y, i);
      case Elsewhere =>
        assert forall k :: 0 <= k < |x.origins| ==> y.origins[k] == x.origins[k];
      case _ =>
    }
  }

  lemma RunKeepsAdvancing(w: World, es: seq<Action>, key: Key)
    requires Inv(w) && AllAllowed(w, es) && key in w.endpoints && !Pausable(key)
    requires Advancing(key, ScopeAt(w, key)) && Within(w, es, key, STEADY)
    ensures key in Performed(w, es).endpoints && Advancing(key, ScopeAt(Performed(w, es), key))
  {
    hide Inv, AllAllowed, Touched, Advancing, Performed, Within;
    var p := (y: Scope) => Advancing(key, y);
    forall x, y, t | t in STEADY && p(x) && Good(key, x) && Good(key, y) && Touched(key, x, y, t)
      ensures p(y)
    {
      TouchKeepsAdvancing(key, x, y, t);
    }
    RunSurvives(w, es, key, p, STEADY);
  }

  lemma NewEndpointAdvances(w: World, e: Action)
    requires Inv(w) && Allowed(w, e) && e.AddEndpoint? && !e.rejects
    ensures var v := Perform(w, e); Advancing(e.key, ScopeAt(v, e.key)) && Inv(v)
  {
    hide Inv;
    PerformKeepsInv(w, e);
    RingsAreNew(w);
  }

  lemma RingsAreNew(w: World)
    requires Inv(w)
    ensures forall t :: 0 <= t < |w.origins| ==> w.origins[t].ring != w.rings
  {
  }

  /**
   * From its creation on, an endpoint that carries control or OUT transfers sends no two URBs for
   * one message: any two URBs of its ring were built from different messages, the later URB from
   * the later message.
   */
  lemma AtMostOneUrbPerMessage(speed: Speed, devid: u32, before: seq<Action>, add: Action,
                               es: seq<Action>, t: nat, u: nat)
    requires AllAllowed(Start(speed, devid), before)
    requires var w := Performed(Start(speed, devid), before);
             && add.AddEndpoint? && Allowed(w, add) && !add.rejects && !Pausable(add.key)
             && AllAllowed(Perform(w, add), es) && Within(Perform(w, add), es, add.key, STEADY)
    requires var w := Performed(Start(speed, devid), before);
             var v := Performed(Perform(w, add), es);
             && t < u < |v.origins|
             && From(v.origins[t], add.key, w.rings) && From(v.origins[u], add.key, w.rings)
    ensures var v := Performed(Perform(Performed(Start(speed, devid), before), add), es);
            v.origins[t].message < v.origins[u].message
  {
    hide Inv, Advancing;
    var w := Performed(Start(speed, devid), before);
    StartInv(speed, devid);
    PerformedKeepsInv(Start(speed, devid), before);
    NewEndpointAdvances(w, add);
    var v0 := Perform(w, add);
    RunKeepsAdvancing(v0, es, add.key);
    WithinMore(v0, es, add.key, STEADY, EVERY);
    RingStays(v0, es, add.key);
    var x := ScopeAt(Performed(v0, es), add.key);
    assert x.ep.ring.id == w.rings;
    AdvancingOrders(add.key, x, t, u);
  }

  lemma AdvancingOrders(key: Key, x: Scope, t: nat, u: nat)
    requires Advancing(key, x) && t < u < |x.origins|
    requires From(x.origins[t], key, x.ep.ring.id) && From(x.origins[u], key, x.ep.ring.id)
    ensures x.origins[t].message < x.origins[u].message
  {
  }

  lemma TouchKeepsRing(key: Key, x: Scope, y: Scope, t: Touch)
    requires Touched(key, x, y, t)
    ensures y.ep.ring.id == x.ep.ring.id && x.ep.ring.tape <= y.ep.ring.tape
  {
    hide Cancel, Submitted, HeadPlan, HideUas.Hide, OutcomeOf, DataRequest;
    match t {
      case Arrival => var i: nat :| Arrives(x, y, i);
      case Pausing => var i: nat :| Pauses(x, y, i);
      case _ =>
    }
  }

  /** While it stays attached, an endpoint keeps its ring, and messages stay what they are. */
  lemma RingStays(w: World, es: seq<Action>, key: Key)
    requires Inv(w) && AllAllowed(w, es) && key in w.endpoints && Within(w, es, key, EVERY)
    ensures key in Performed(w, es).endpoints
    ensures Performed(w, es).endpoints[key].ring.id == w.endpoints[key].ring.id
    ensures w.endpoints[key].ring.tape <= Performed(w, es).endpoints[key].ring.tape
  {
    hide Inv, AllAllowed, Touched, Performed, Within;
    var r := w.endpoints[key].ring;
    var p := (y: Scope) => y.ep.ring.id == r.id && r.tape <= y.ep.ring.tape;
    forall x, y, t | t in EVERY && p(x) && Good(key, x) && Good(key, y) && Touched(key, x, y, t)
      ensures p(y)
    {
      hide Good;
      TouchKeepsRing(key, x, y, t);
    }
    RunSurvives(w, es, key, p, EVERY);
    assert p(ScopeAt(Performed(w, es), key));
  }
}
