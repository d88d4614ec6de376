/**
 * Safety of completions: a URB's result is reported at most once, only while the ring is active,
 * only on the message the URB was built from, and never once the engine has let go of the URB.
 */
module NoStaleWrites {
  import opened Common
  import opened Session
  import opened Engine
  import opened Moves
  import opened EngineProofs
  import opened World
  import opened WorldProofs
  import opened Touches

  predicate ReportsUrb(act: Act) {
    act.Done? && act.source.Some?
  }

  /** URBs are reported oldest first, and all before those still in flight. */
  ghost predicate Ordered(ep: Endpoint) {
    && (forall a, b :: 0 <= a < b < |ep.ring.acts|
                       && ReportsUrb(ep.ring.acts[a]) && ReportsUrb(ep.ring.acts[b]) ==>
          ep.ring.acts[a].source.value < ep.ring.acts[b].source.value)
    && (forall a, i :: 0 <= a < |ep.ring.acts| && 0 <= i < |ep.inFlight|
                       && ReportsUrb(ep.ring.acts[a]) ==>
          ep.ring.acts[a].source.value < ep.inFlight[i].token)
  }

  ghost predicate Silent(ep: Endpoint, t: nat) {
    && !Holds(ep, t)
    && forall a :: 0 <= a < |ep.ring.acts| && ReportsUrb(ep.ring.acts[a]) ==>
         ep.ring.acts[a].source.value != t
  }

  const EVERY: set<Touch> :=
    {Pumping, Arrival, Pausing, Resetting, Syncing, Appending, Moving, Displacing, Activating,
     Rejecting, Updating, Redepthing, Elsewhere}

  // ---------------------------------------------------------------- what touches do

  /** How a touch may change the tokens in flight and the acts of the ring. */
  ghost predicate Effect(x: Scope, y: Scope) {
    // Entries go, or one is added with a new token.
    && (|y.ep.inFlight| <= |x.ep.inFlight| ==>
          || (forall i :: 0 <= i < |y.ep.inFlight| ==>
                y.ep.inFlight[i].token == x.ep.inFlight[i].token)
          || (x.ep.inFlight != [] && y.ep.inFlight == x.ep.inFlight[1..]))
    && (|y.ep.inFlight| > |x.ep.inFlight| ==>
          && |y.ep.inFlight| == |x.ep.inFlight| + 1
          && y.ep.inFlight[..|x.ep.inFlight|] == x.ep.inFlight
          && y.ep.inFlight[|x.ep.inFlight|].token == |x.origins|)
    // At most one act is added; if it reports a URB, that is the oldest one, which then goes.
    && (y.ep.ring.acts == x.ep.ring.acts
        || (|y.ep.ring.acts| == |x.ep.ring.acts| + 1 && x.ep.ring.acts <= y.ep.ring.acts
            && (ReportsUrb(y.ep.ring.acts[|x.ep.ring.acts|]) ==>
                  && x.ep.inFlight != [] && y.ep.inFlight == x.ep.inFlight[1..]
                  && y.ep.ring.acts[|x.ep.ring.acts|].source.value == x.ep.inFlight[0].token)))
    && x.origins <= y.origins
  }

  lemma MoveEffect(key: Key, x: Scope, y: Scope)
    requires Move(key, x, y)
    ensures Effect(x, y)
  {
    hide HideUas.Hide, HeadPlan, OutcomeOf, Submitted, Cancel, DataRequest;
  }

  lemma TouchEffect(key: Key, x: Scope, y: Scope, t: Touch)
    requires Touched(key, x, y, t)
    ensures Effect(x, y)
  {
    hide Cancel, Move;
    match t {
      case Pumping => MoveEffect(key, x, y);
      case Arrival => var i: nat :| Arrives(x, y, i);
      case Pausing => var i: nat :| Pauses(x, y, i);
      case _ =>
    }
  }

  lemma EffectKeepsOrdered(key: Key, x: Scope, y: Scope)
    requires Queued(key, x.ep, x.origins) && Recorded(key, x.ep.ring, x.origins)
    requires Ordered(x.ep) && Effect(x, y)
    ensures Ordered(y.ep)
  {
    forall a | 0 <= a < |x.ep.ring.acts| && ReportsUrb(x.ep.ring.acts[a])
      ensures x.ep.ring.acts[a].source.value < |x.origins|
    {
      assert ActOk(key, x.ep.ring, x.ep.ring.acts[a], x.origins);
    }
    forall a, i | 0 <= a < |y.ep.ring.acts| && 0 <= i < |y.ep.inFlight|
                  && ReportsUrb(y.ep.ring.acts[a])
      ensures y.ep.ring.acts[a].source.value < y.ep.inFlight[i].token
    {
      TokenBefore(x, y, i);
      if a < |x.ep.ring.acts| { assert y.ep.ring.acts[a] == x.ep.ring.acts[a]; }
    }
  }

  /** Where a token in flight after a touch was before it. */
  lemma TokenBefore(x: Scope, y: Scope, i: nat)
    requires Effect(x, y) && i < |y.ep.inFlight|
    ensures || (i < |x.ep.inFlight| && y.ep.inFlight[i].token == x.ep.inFlight[i].token)
            || (i + 1 < |x.ep.inFlight| && y.ep.inFlight[i].token == x.ep.inFlight[i + 1].token)
            || y.ep.inFlight[i].token == |x.origins|
  {
    if |y.ep.inFlight| > |x.ep.inFlight| && i < |x.ep.inFlight| {
      assert y.ep.inFlight[i] == y.ep.inFlight[..|x.ep.inFlight|][i];
    }
  }

  lemma OrderedSurvives(key: Key)
    ensures Survives(key, (y: Scope) => Ordered(y.ep), EVERY)
  {
    hide Effect, Ordered, Touched;
    var p := (y: Scope) => Ordered(y.ep);
    forall x, y, t | t in EVERY && p(x) && Good(key, x) && Good(key, y) && Touched(key, x, y, t)
      ensures p(y)
    {
      TouchEffect(key, x, y, t);
      EffectKeepsOrdered(key, x, y);
    }
  }

  lemma EffectKeepsSilent(x: Scope, y: Scope, t: nat)
    requires Effect(x, y) && Silent(x.ep, t) && t < |x.origins|
    ensures Silent(y.ep, t) && t < |y.origins|
  {
    forall i | 0 <= i < |y.ep.inFlight|
      ensures y.ep.inFlight[i].token != t
    {
      TokenBefore(x, y, i);
    }
  }

  lemma SilentSurvives(key: Key, t: nat)
    ensures Survives(key, (y: Scope) => Silent(y.ep, t) && t < |y.origins|, EVERY)
  {
    hide Effect, Silent, Touched, Good;
    var p := (y: Scope) => Silent(y.ep, t) && t < |y.origins|;
    forall x, y, u | u in EVERY && p(x) && Good(key, x) && Good(key, y) && Touched(key, x, y, u)
      ensures p(y)
    {
      TouchEffect(key, x, y, u);
      EffectKeepsSilent(x, y, t);
    }
  }

  // ---------------------------------------------------------------- every run

  ghost predicate AllOrdered(w: World) {
    forall key :: key in w.endpoints ==> Ordered(w.endpoints[key])
  }

  ghost predicate AllSilent(w: World, t: nat) {
    t < |w.origins| && forall key :: key in w.endpoints ==> Silent(w.endpoints[key], t)
  }

  lemma OrdersEveryEndpoint(w: World, e: Action)
    requires Inv(w) && Allowed(w, e) && AllOrdered(w)
    ensures AllOrdered(Perform(w, e))
  {
    hide Inv, Ordered, Perform, Allowed;
    var v := Perform(w, e);
    forall key | key in v.endpoints
      ensures Ordered(v.endpoints[key])
    {
      if Spares(e, key) {
        assert key in w.endpoints by { KeysKept(w, e, key); }
        OrderedSurvives(key);
        var p := (y: Scope) => Ordered(y.ep);
        FewerSurvive(key, p, Brings(w, e, key), EVERY);
        ActionSurvives(w, e, key, p);
        assert p(ScopeAt(v, key));
      } else {
        NewEndpointIsBlank(w, e);
        assert Ordered(v.endpoints[key]) by { BlankOrdered(v.endpoints[key]); }
      }
    }
  }

  lemma SilencesEveryEndpoint(w: World, e: Action, t: nat)
    requires Inv(w) && Allowed(w, e) && AllSilent(w, t)
    ensures AllSilent(Perform(w, e), t)
  {
    hide Inv, Silent, Perform, Allowed;
    var v := Perform(w, e);
    OriginsGrow(w, e);
    forall key | key in v.endpoints
      ensures Silent(v.endpoints[key], t)
    {
      if Spares(e, key) {
        assert key in w.endpoints by { KeysKept(w, e, key); }
        SilentSurvives(key, t);
        var p := (y: Scope) => Silent(y.ep, t) && t < |y.origins|;
        FewerSurvive(key, p, Brings(w, e, key), EVERY);
        ActionSurvives(w, e, key, p);
        assert p(ScopeAt(v, key));
      } else {
        NewEndpointIsBlank(w, e);
        assert Silent(v.endpoints[key], t) by { BlankSilent(v.endpoints[key], t); }
      }
    }
  }

  lemma KeysKept(w: World, e: Action, key: Key)
    requires Spares(e, key)
    ensures key in Perform(w, e).endpoints <==> key in w.endpoints
  {
    hide Pump, PausedFrom, Finished, Cancel, Session.Step;
  }

  lemma NewEndpointIsBlank(w: World, e: Action)
    requires e.AddEndpoint? || e.RemoveEndpoint?
    ensures e.key in Perform(w, e).endpoints ==>
              var ep := Perform(w, e).endpoints[e.key];
              ep.inFlight == [] && ep.ring.acts == [] && ep.hiddenConfig == None
  {
  }

  lemma BlankOrdered(ep: Endpoint)
    requires ep.inFlight == [] && ep.ring.acts == []
    ensures Ordered(ep)
  {
  }

  lemma BlankSilent(ep: Endpoint, t: nat)
    requires ep.inFlight == [] && ep.ring.acts == []
    ensures Silent(ep, t)
  {
  }

  lemma OriginsGrow(w: World, e: Action)
    requires Inv(w) && Allowed(w, e)
    ensures w.origins <= Perform(w, e).origins
  {
    hide Inv;
    match e {
      case Finish(t) =>
        hide Finished;
        ResultOriginsGrow(w, t);
      case TakeResult(t) =>
        hide Taken;
        ResultOriginsGrow(w, t);
      case ResetEndpoint(key) => WorkOriginsGrow(w, e);
      case PauseEndpoint(key) => WorkOriginsGrow(w, e);
      case SyncEndpoint(key) => WorkOriginsGrow(w, e);
      case Doorbell(key) => WorkOriginsGrow(w, e);
      case PumpStep(key, _) => WorkOriginsGrow(w, e);
      case PauseStep(key, _) => WorkOriginsGrow(w, e);
      case _ => hide Cancel, Session.Step;
    }
  }

  lemma ResultOriginsGrow(w: World, t: nat)
    requires Inv(w) && Deliverable(w, t)
    ensures w.origins <= Perform(w, Finish(t)).origins
    ensures w.origins <= Perform(w, TakeResult(t)).origins
  {
    hide Inv, Finished, Taken, Good;
    var key := w.origins[t].key;
    if key in w.endpoints {
      ScopeGood(w, key);
      FinishedExtends(key, ScopeAt(w, key), t);
      TakenExtends(key, ScopeAt(w, key), t);
    }
  }

  lemma WorkOriginsGrow(w: World, e: Action)
    requires Inv(w) && Allowed(w, e) && IsWork(e)
    ensures w.origins <= Perform(w, e).origins
  {
    hide Inv, EndpointPerform;
    if e.key in w.endpoints { EndpointPerformExtends(w, e); }
  }

  lemma {:induction false} RunKeepsOrdered(w: World, es: seq<Action>)
    requires Inv(w) && AllAllowed(w, es) && AllOrdered(w)
    ensures AllOrdered(Performed(w, es))
    decreases |es|
  {
    hide Inv, Allowed, Perform, AllOrdered;
    if es != [] {
      OrdersEveryEndpoint(w, es[0]);
      PerformKeepsInv(w, es[0]);
      RunKeepsOrdered(Perform(w, es[0]), es[1..]);
    }
  }

  lemma {:induction false} RunKeepsSilent(w: World, es: seq<Action>, t: nat)
    requires Inv(w) && AllAllowed(w, es) && AllSilent(w, t)
    ensures AllSilent(Performed(w, es), t)
    decreases |es|
  {
    hide Inv, Allowed, Perform, AllSilent;
    if es != [] {
      SilencesEveryEndpoint(w, es[0], t);
      PerformKeepsInv(w, es[0]);
      RunKeepsSilent(Perform(w, es[0]), es[1..], t);
    }
  }

  /**
   * In every run, each completion that carries a URB's result is of the very message on the very
   * ring that URB was built from, and no URB is reported twice or while it is in flight.
   */
  lemma CompletionsMatchTheirUrb(speed: Speed, devid: u32, es: seq<Action>, key: Key)
    requires AllAllowed(Start(speed, devid), es)
    requires key in Performed(Start(speed, devid), es).endpoints
    ensures var w := Performed(Start(speed, devid), es);
            Recorded(key, w.endpoints[key].ring, w.origins) && Ordered(w.endpoints[key])
  {
    hide Ordered;
    var w0 := Start(speed, devid);
    StartInv(speed, devid);
    PerformedKeepsInv(w0, es);
    assert EndpointOk(Performed(w0, es), key);
    RunKeepsOrdered(w0, es);
  }

  /** A result for a URB the engine has let go of changes nothing. */
  lemma StaleResultChangesNothing(w: World, t: nat)
    requires Inv(w) && Allowed(w, Finish(t))
    requires w.origins[t].key in w.endpoints ==> !Holds(w.endpoints[w.origins[t].key], t)
    ensures Perform(w, Finish(t)) == w.(delivered := w.delivered + {t})
  {
    hide Inv;
    FinishStaleKeepsInv(w, t);
  }

  /**
   * Once a URB is no longer in flight and was not reported, no later run reports it: not when its
   * reply arrives, not when the ring moves back, not on an endpoint created anew.
   */
  lemma LetGoForGood(speed: Speed, devid: u32, es: seq<Action>, later: seq<Action>, t: nat)
    requires AllAllowed(Start(speed, devid), es)
    requires AllAllowed(Performed(Start(speed, devid), es), later)
    requires AllSilent(Performed(Start(speed, devid), es), t)
    ensures AllSilent(Performed(Performed(Start(speed, devid), es), later), t)
  {
    hide Inv, AllSilent;
    StartInv(speed, devid);
    PerformedKeepsInv(Start(speed, devid), es);
    RunKeepsSilent(Performed(Start(speed, devid), es), later, t);
  }

  lemma TouchWhileInactive(key: Key, x: Scope, y: Scope, t: Touch)
    requires Touched(key, x, y, t)
    ensures t == Pumping ==> x.ep.ring.active
    ensures t != Pumping ==> y.ep.ring.acts == x.ep.ring.acts
    ensures t != Pumping && y.ep.ring.active && !x.ep.ring.active ==> t == Activating
  {
    hide Cancel, Push, Applied, HeadPlan;
    match t {
      case Arrival => var i: nat :| Arrives(x, y, i);
      case Pausing => var i: nat :| Pauses(x, y, i);
      case _ =>
    }
  }

  /** Nothing is completed, and nothing is sent, on a ring the host has not activated. */
  lemma InactiveRingUntouched(w: World, e: Action, key: Key)
    requires Inv(w) && Allowed(w, e) && key in w.endpoints && Spares(e, key)
    requires !w.endpoints[key].ring.active
    ensures key in Perform(w, e).endpoints
    ensures Perform(w, e).endpoints[key].ring.acts == w.endpoints[key].ring.acts
  {
    hide Inv, Perform, Allowed, Touched, Good;
    var acts := w.endpoints[key].ring.acts;
    var p := (y: Scope) => y.ep.ring.acts == acts && (y.ep.ring.active ==> e.SetActive?);
    forall x, y, t | t in Brings(w, e, key) && p(x) && Good(key, x) && Good(key, y)
                     && Touched(key, x, y, t)
      ensures p(y)
    {
      TouchWhileInactive(key, x, y, t);
    }
    ActionSurvives(w, e, key, p);
    assert p(ScopeAt(Perform(w, e), key));
  }
}
