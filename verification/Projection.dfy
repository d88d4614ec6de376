/**
 * Seen from the session, every run of the system is a run of the session; so everything proved of
 * session runs holds of the session inside the system.
 */
module Projection {
  import opened Common
  import opened Session
  import opened SessionProofs
  import opened SessionRuns
  import opened Engine
  import opened Moves
  import opened EngineProofs
  import opened World
  import opened WorldProofs

  ghost predicate Reaches(s: State, t: State) {
    exists es :: Possible(s, es) && Run(s, es) == t
  }

  lemma ReachesItself(s: State)
    ensures Reaches(s, s)
  {
    assert Possible(s, []) && Run(s, []) == s;
  }

  lemma ReachesByStep(s: State, t: State, e: Event)
    requires Reaches(s, t) && Enabled(t, e)
    ensures Reaches(s, Session.Step(t, e))
  {
    hide Session.Step, Enabled;
    var es :| Possible(s, es) && Run(s, es) == t;
    assert [e][1..] == [];
    assert Run(Session.Step(t, e), []) == Session.Step(t, e) && Possible(Session.Step(t, e), []);
    assert Possible(t, [e]) && Run(t, [e]) == Session.Step(t, e);
    RunAppend(s, es, [e]);
  }

  lemma {:induction false} ReachesByCancel(s: State, t: State, fs: seq<InFlight>)
    requires Reaches(s, t)
    ensures Reaches(s, Cancel(t, fs))
    decreases |fs|
  {
    hide Reaches;
    if fs != [] {
      var m := if fs[0].result.None? then UnlinkedAt(t, fs[0].seqnum) else t;
      if fs[0].result.None? { ReachesByStep(s, t, DoUnlink(fs[0].seqnum)); }
      ReachesByCancel(s, m, fs[1..]);
    }
  }

  lemma ReachesByPush(s: State, key: Key, x: Scope, message: nat, req: Request, stage: Stage)
    requires Reaches(s, x.session) && Ticketed(x.session, x.origins)
    ensures var r := Push(key, x, message, req, stage); r.Ok? ==> Reaches(s, r.value.session)
  {
    hide Reaches;
    ReachesByStep(s, x.session, DoSubmit(req, Urb(|x.origins|)));
  }

  lemma MoveReaches(s: State, key: Key, x: Scope, y: Scope)
    requires Reaches(s, x.session) && Ticketed(x.session, x.origins) && Move(key, x, y)
    ensures Reaches(s, y.session)
  {
    hide Reaches, Ticketed, Cancel, HeadPlan, HideUas.Hide, OutcomeOf, DataRequest, Submitted;
    if DropMove(x, y) {
      ReachesByCancel(s, x.session, x.ep.inFlight[0..]);
    } else if SendMove(key, x, y) {
      ReachesByPush(s, key, x, x.ep.ring.head, PlanFor(key, x).request, PlanFor(key, x).stage);
    } else if AheadMove(key, x, y) {
      var (req, stage) := ReadAhead(key, x).value;
      ReachesByPush(s, key, x, x.ep.ring.head + |x.ep.inFlight|, req, stage);
    }
  }

  lemma PumpReaches(s: State, key: Key, x: Scope, offline: bool)
    requires Good(key, x) && Reaches(s, x.session)
    ensures Reaches(s, Pump(key, x, offline).session)
  {
    hide Reaches, Move, Pump;
    var p := (y: Scope) => Good(key, y) && Reaches(s, y.session);
    forall a, b | p(a) && Move(key, a, b)
      ensures p(b)
    {
      MoveReaches(s, key, a, b);
      hide Good;
      MoveKeepsGood(key, a, b);
    }
    PumpKeeps(key, x, offline, p);
  }

  lemma {:induction false} PauseReaches(s: State, x: Scope, i: nat)
    requires Reaches(s, x.session)
    ensures Reaches(s, PausedFrom(x, i).session)
    decreases |x.ep.inFlight| - i
  {
    hide Reaches;
    if i < |x.ep.inFlight| {
      if ToPause(x.ep.inFlight, i) {
        ReachesByStep(s, x.session, DoUnlink(x.ep.inFlight[i].seqnum));
        PauseReaches(s, PausedOne(x, i), i + 1);
      } else {
        PauseReaches(s, x, i + 1);
      }
    }
  }

  lemma FinishReaches(s: State, w: World, t: nat)
    requires Inv(w) && Allowed(w, Finish(t)) && Reaches(s, w.session)
    ensures Reaches(s, Perform(w, Finish(t)).session)
  {
    hide Reaches, Inv, Pump, Cancel;
    var key := w.origins[t].key;
    if key in w.endpoints {
      var x := ScopeAt(w, key);
      var at := Position(x.ep.inFlight, t);
      if at.Some? {
        ScopeGood(w, key);
        hide Good;
        ArrivedGood(key, x, at.value);
        ReachesByCancel(s, x.session, x.ep.inFlight[at.value + 1..]);
        PumpReaches(s, key, Arrived(x, at.value, w.session.replies[Urb(t)]), false);
      }
    }
  }

  lemma TakeReaches(s: State, w: World, t: nat)
    requires Allowed(w, TakeResult(t)) && Reaches(s, w.session)
    ensures Reaches(s, Perform(w, TakeResult(t)).session)
  {
    hide Reaches, Cancel;
    var key := w.origins[t].key;
    if key in w.endpoints {
      var fs := w.endpoints[key].inFlight;
      var at := Position(fs, t);
      if at.Some? { ReachesByCancel(s, w.session, fs[at.value + 1..]); }
    }
  }

  lemma PerformReaches(s: State, w: World, e: Action)
    requires Inv(w) && Allowed(w, e) && Reaches(s, w.session)
    ensures Reaches(s, Perform(w, e).session)
  {
    hide Reaches, Inv, Pump, Cancel, PausedFrom;
    match e {
      case AddEndpoint(key, _, _, _, _, _) =>
        if key in w.endpoints { ReachesByCancel(s, w.session, w.endpoints[key].inFlight); }
      case RemoveEndpoint(key) =>
        if key in w.endpoints { ReachesByCancel(s, w.session, w.endpoints[key].inFlight); }
      case Finish(t) => hide Finished; FinishReaches(s, w, t);
      case TakeResult(t) => hide Taken; TakeReaches(s, w, t);
      case Network(n) => hide Session.Step, Enabled; ReachesByStep(s, w.session, n);
      case _ => if e.key in w.endpoints { EndpointReaches(s, w, e); }
    }
  }

  lemma EndpointReaches(s: State, w: World, e: Action)
    requires Inv(w) && Allowed(w, e) && OnEndpoint(e) && e.key in w.endpoints
    requires Reaches(s, w.session)
    ensures Reaches(s, EndpointPerform(w, e).session)
  {
    hide Reaches, Inv, Pump, Cancel, PausedFrom;
    var x := ScopeAt(w, e.key);
    match e {
      case ResetEndpoint(_) => ReachesByCancel(s, w.session, x.ep.inFlight[0..]);
      case SyncEndpoint(_) => ReachesByCancel(s, w.session, x.ep.inFlight[0..]);
      case PauseEndpoint(_) => PauseReaches(s, x, 0);
      case Doorbell(key) =>
        ScopeGood(w, key);
        hide Good;
        PumpReaches(s, key, x, false);
      case PumpStep(key, next) =>
        assert Ticketed(x.session, x.origins) by { ScopeGood(w, key); }
        hide Move;
        MoveReaches(s, key, x, next);
      case PauseStep(_, at) =>
        if ToPause(x.ep.inFlight, at) { ReachesByStep(s, x.session, DoUnlink(x.ep.inFlight[at].seqnum)); }
      case _ =>
    }
  }

  lemma {:induction false} PerformedReaches(s: State, w: World, es: seq<Action>)
    requires Inv(w) && AllAllowed(w, es) && Reaches(s, w.session)
    ensures Reaches(s, Performed(w, es).session)
    decreases |es|
  {
    hide Reaches, Inv, Perform, Allowed;
    if es != [] {
      PerformReaches(s, w, es[0]);
      PerformKeepsInv(w, es[0]);
      PerformedReaches(s, Perform(w, es[0]), es[1..]);
    }
  }

  /** The session of any system run is one that a session alone could have arrived at. */
  lemma SystemRunIsSessionRun(speed: Speed, devid: u32, es: seq<Action>)
    requires AllAllowed(Start(speed, devid), es)
    ensures Reaches(Session.Init(devid), Performed(Start(speed, devid), es).session)
  {
    hide Reaches;
    StartInv(speed, devid);
    ReachesItself(Session.Init(devid));
    PerformedReaches(Session.Init(devid), Start(speed, devid), es);
  }

  /** So, before the counter wraps, every answer the engine gets is for its own request. */
  lemma EngineRepliesAttributed(speed: Speed, devid: u32, es: seq<Action>)
    requires AllAllowed(Start(speed, devid), es)
    requires Performed(Start(speed, devid), es).session.issued < WORD
    ensures Attributed(Performed(Start(speed, devid), es).session)
  {
    SystemRunIsSessionRun(speed, devid, es);
    var s := Performed(Start(speed, devid), es).session;
    var ns :| Possible(Session.Init(devid), ns) && Run(Session.Init(devid), ns) == s;
    RepliesReachTheirRequest(devid, ns);
  }
}
