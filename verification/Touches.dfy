/**
 * Whatever happens in the system, an endpoint that stays attached changes only by touches of a few
 * kinds; so what those touches keep, every action keeps. Each kind of action brings only certain
 * kinds of touch, which lets a property be proved for runs without, say, resets.
 */
module Touches {
  import opened Common
  import opened Session
  import opened SessionProofs
  import opened SessionRuns
  import opened Engine
  import opened Moves
  import opened EngineProofs
  import opened World
  import opened WorldProofs

  datatype Touch =
    | Pumping | Arrival | Pausing | Resetting | Syncing
    | Appending | Moving | Displacing | Activating | Rejecting | Updating | Redepthing
    | Elsewhere

  ghost predicate Arrives(x: Scope, y: Scope, i: nat) {
    && i < |x.ep.inFlight| && x.ep.inFlight[i].result.None?
    && Urb(x.ep.inFlight[i].token) in x.session.replies
    && y == Arrived(x, i, x.session.replies[Urb(x.ep.inFlight[i].token)])
  }

  ghost predicate Pauses(x: Scope, y: Scope, i: nat) {
    ToPause(x.ep.inFlight, i) && y == PausedOne(x, i)
  }

  /** Other endpoints, other users of the session and its reader leave the endpoint alone. */
  ghost predicate LeavesAlone(key: Key, x: Scope, y: Scope) {
    && y.ep == x.ep && y.speed == x.speed && x.origins <= y.origins
    && (forall t :: |x.origins| <= t < |y.origins| ==> y.origins[t].key != key)
    && AnswersKept(x.session, y.session)
  }

  ghost predicate OnlyRing(x: Scope, y: Scope, ring: Ring) {
    y == x.(ep := x.ep.(ring := ring))
  }

  ghost predicate OnlyHead(x: Scope, y: Scope) {
    OnlyRing(x, y, x.ep.ring.(head := y.ep.ring.head))
  }

  ghost predicate OnlyInfo(x: Scope, y: Scope) {
    y == x.(ep := x.ep.(info := y.ep.info))
  }

  /**
   * The head is a Setup message whose bytes the endpoint already holds, no data stage done: the
   * host has turned its completion down.
   */
  predicate AtRejectedSetup(ep: Endpoint) {
    && ep.setup.Some? && !ep.setup.value.dataDone && ep.ring.head < |ep.ring.tape|
    && ep.ring.tape[ep.ring.head].transfer == SetupStage(ep.setup.value.bytes)
  }

  /** Nothing is in flight, and no Setup message waits to be completed again. */
  predicate Idle(ep: Endpoint) {
    ep.inFlight == [] && !AtRejectedSetup(ep)
  }

  ghost predicate Touched(key: Key, x: Scope, y: Scope, t: Touch) {
    match t
    case Pumping => Move(key, x, y)
    case Arrival => exists i: nat :: Arrives(x, y, i)
    case Pausing => Pausable(key) && exists i: nat :: Pauses(x, y, i)
    case Resetting => y == Dropped(x, 0, 0).(ep := Dropped(x, 0, 0).ep.(setup := None))
    case Syncing =>
      x.ep.inFlight != [] && x.ep.inFlight[0].message != x.ep.ring.head && y == Dropped(x, 0, 0)
    case Appending =>
      |y.ep.ring.tape| == |x.ep.ring.tape| + 1 && x.ep.ring.tape <= y.ep.ring.tape
      && OnlyRing(x, y, x.ep.ring.(tape := y.ep.ring.tape))
    case Moving => Idle(x.ep) && y.ep.ring.head <= |x.ep.ring.tape| && OnlyHead(x, y)
    case Displacing => y.ep.ring.head <= |x.ep.ring.tape| && OnlyHead(x, y)
    case Activating => OnlyRing(x, y, x.ep.ring.(active := y.ep.ring.active))
    case Rejecting => OnlyRing(x, y, x.ep.ring.(rejects := y.ep.ring.rejects))
    case Updating => Depth(x.ep.info.kind) == Depth(y.ep.info.kind) && OnlyInfo(x, y)
    case Redepthing => OnlyInfo(x, y)
    case Elsewhere => LeavesAlone(key, x, y)
  }

  /** `p` survives the touches in `ok` between states that satisfy the invariants. */
  ghost predicate Survives(key: Key, p: Scope -> bool, ok: set<Touch>) {
    forall x, y, t :: t in ok && p(x) && Good(key, x) && Good(key, y) && Touched(key, x, y, t)
                      ==> p(y)
  }

  /** The touches an action may bring to the endpoint at `key`. */
  function Brings(w: World, e: Action, key: Key): set<Touch>
    requires key in w.endpoints
  {
    match e
    case Append(k, _) => if k == key then {Appending} else {Elsewhere}
    case MoveHead(k, _) =>
      if k != key then {Elsewhere}
      else if Idle(w.endpoints[key]) then {Moving} else {Displacing}
    case SetActive(k, _) => if k == key then {Activating} else {Elsewhere}
    case SetRejects(k, _) => if k == key then {Rejecting} else {Elsewhere}
    case UpdateEndpoint(k, info) =>
      if k != key then {Elsewhere}
      else if Depth(info.kind) == Depth(w.endpoints[key].info.kind) then {Updating}
      else {Redepthing}
    case ResetEndpoint(k) => if k == key then {Resetting} else {Elsewhere}
    case PauseEndpoint(k) => if k == key then {Pausing} else {Elsewhere}
    case SyncEndpoint(k) => if k == key then {Syncing} else {Elsewhere}
    case Doorbell(k) => if k == key then {Pumping} else {Elsewhere}
    case Finish(t) =>
      if t < |w.origins| && w.origins[t].key == key then {Arrival, Pumping} else {Elsewhere}
    case TakeResult(t) =>
      if t < |w.origins| && w.origins[t].key == key then {Arrival} else {Elsewhere}
    case PumpStep(k, _) => if k == key then {Pumping} else {Elsewhere}
    case PauseStep(k, _) => if k == key then {Pausing} else {Elsewhere}
    case _ => {Elsewhere}
  }

  /** The action neither attaches nor removes the endpoint at `key`. */
  predicate Spares(e: Action, key: Key) {
    (e.AddEndpoint? || e.RemoveEndpoint?) ==> e.key != key
  }

  // ---------------------------------------------------------------- chains of touches

  lemma PumpSurvives(key: Key, x: Scope, offline: bool, p: Scope -> bool)
    requires Good(key, x) && p(x) && Survives(key, p, {Pumping})
    ensures p(Pump(key, x, offline))
  {
    hide Good, Move, Pump;
    var g := (y: Scope) => Good(key, y) && p(y);
    forall a, b | g(a) && Move(key, a, b)
      ensures g(b)
    {
      MoveKeepsGood(key, a, b);
      assert Touched(key, a, b, Pumping);
    }
    PumpKeeps(key, x, offline, g);
  }

  lemma {:induction false} PauseSurvives(key: Key, x: Scope, i: nat, p: Scope -> bool)
    requires Good(key, x) && p(x) && Survives(key, p, {Pausing}) && Pausable(key)
    ensures p(PausedFrom(x, i))
    decreases |x.ep.inFlight| - i
  {
    hide Good;
    if i < |x.ep.inFlight| {
      if ToPause(x.ep.inFlight, i) {
        PauseOne(key, x, i);
        var y := PausedOne(x, i);
        assert Pauses(x, y, i);
        assert Touched(key, x, y, Pausing);
        PauseSurvives(key, y, i + 1, p);
      } else {
        PauseSurvives(key, x, i + 1, p);
      }
    }
  }

  lemma FewerSurvive(key: Key, p: Scope -> bool, few: set<Touch>, many: set<Touch>)
    requires few <= many && Survives(key, p, many)
    ensures Survives(key, p, few)
  {
  }

  lemma CancelLeavesAlone(s: State, fs: seq<InFlight>)
    requires Sound(s)
    ensures AnswersKept(s, Cancel(s, fs))
  {
    hide Sound;
    CancelEvolves(s, fs);
  }

  lemma TakenExtends(key: Key, x: Scope, t: nat)
    requires Good(key, x) && Urb(t) in x.session.replies
    ensures var y := Taken(x, t, x.session.replies[Urb(t)]); Good(key, y) && Extends(key, x, y)
  {
    hide Good, Extends, Arrived;
    var at := Position(x.ep.inFlight, t);
    if at.Some? { ArrivedGood(key, x, at.value); } else { ExtendsReflexive(key, x); }
  }

  lemma FinishedExtends(key: Key, x: Scope, t: nat)
    requires Good(key, x) && Urb(t) in x.session.replies
    ensures var y := Finished(key, x, t, x.session.replies[Urb(t)]);
            Good(key, y) && Extends(key, x, y)
  {
    hide Good, Extends, Pump, Arrived;
    TakenExtends(key, x, t);
    var at := Position(x.ep.inFlight, t);
    if at.Some? {
      var y := Arrived(x, at.value, x.session.replies[Urb(t)]);
      PumpKeepsGood(key, y, false);
      ExtendsTransitive(key, x, y, Pump(key, y, false));
    }
  }

  lemma ExtendsSpeed(key: Key, a: Scope, b: Scope)
    requires Extends(key, a, b)
    ensures b.speed == a.speed
  {
  }

  lemma SetupUnseen(key: Key, a: Scope, b: Scope, setup: Option<SetupState>)
    requires Extends(key, a, b)
    ensures Extends(key, a, b.(ep := b.ep.(setup := setup)))
  {
  }

  /** The action is work on the endpoint it names. */
  predicate IsWork(e: Action) {
    || e.ResetEndpoint? || e.PauseEndpoint? || e.SyncEndpoint? || e.Doorbell? || e.PumpStep?
    || e.PauseStep?
  }

  /** Work on the endpoint an action names, as seen from that endpoint. */
  lemma EndpointPerformExtends(w: World, e: Action)
    requires Inv(w) && Allowed(w, e) && OnEndpoint(e) && e.key in w.endpoints
    requires IsWork(e)
    ensures var v := EndpointPerform(w, e);
            && v.endpoints.Keys == w.endpoints.Keys
            && (forall k :: k in w.endpoints && k != e.key ==> v.endpoints[k] == w.endpoints[k])
            && v.speed == w.speed && Extends(e.key, ScopeAt(w, e.key), ScopeAt(v, e.key))
  {
    hide Inv, Good, Pump, PausedFrom, Extends, Cancel;
    var key := e.key;
    var x := ScopeAt(w, key);
    ScopeGood(w, key);
    ExtendsReflexive(key, x);
    match e {
      case ResetEndpoint(_) =>
        DropKeepsGood(key, x, 0, 0);
        SetupUnseen(key, x, Dropped(x, 0, 0), None);
      case SyncEndpoint(_) => DropKeepsGood(key, x, 0, 0);
      case PauseEndpoint(_) =>
        if Pausable(key) {
          ScopeTidy(w, key);
          PauseKeeps(key, x, 0, |w.origins|, w.delivered);
          ExtendsSpeed(key, x, PausedFrom(x, 0));
        }
      case Doorbell(_) =>
        PumpKeepsGood(key, x, false);
        ExtendsSpeed(key, x, Pump(key, x, false));
      case PumpStep(_, next) => hide Move; MoveKeepsGood(key, x, next);
      case PauseStep(_, at) => PauseOne(key, x, at);
    }
  }

  lemma InvSound(w: World)
    requires Inv(w)
    ensures Sound(w.session)
  {
    hide Sound;
  }

  /** Work at `other`, which takes it from `a` to `b`, as seen from `key`. */
  lemma SeenFrom(key: Key, x: Scope, y: Scope, other: Key, a: Scope, b: Scope)
    requires Extends(other, a, b) && other != key
    requires x.session == a.session && x.origins == a.origins
    requires y == x.(session := b.session, origins := b.origins)
    ensures LeavesAlone(key, x, y)
  {
  }

  lemma DiscardLeavesAlone(w: World, e: Action, key: Key)
    requires Inv(w) && key in w.endpoints && (e.AddEndpoint? || e.RemoveEndpoint?) && e.key != key
    ensures key in Perform(w, e).endpoints
    ensures LeavesAlone(key, ScopeAt(w, key), ScopeAt(Perform(w, e), key))
  {
    hide Inv, Sound, Cancel, AnswersKept;
    InvSound(w);
    SameAnswers(w.session);
    if e.key in w.endpoints { CancelLeavesAlone(w.session, w.endpoints[e.key].inFlight); }
  }

  lemma FinishLeavesAlone(w: World, e: Action, key: Key)
    requires Inv(w) && Allowed(w, e) && (e.Finish? || e.TakeResult?)
    requires key in w.endpoints && w.origins[e.token].key != key
    ensures key in Perform(w, e).endpoints
    ensures LeavesAlone(key, ScopeAt(w, key), ScopeAt(Perform(w, e), key))
  {
    hide Inv, Finished, Taken, Good, Extends;
    var other, x, y := w.origins[e.token].key, ScopeAt(w, key), ScopeAt(Perform(w, e), key);
    if other in w.endpoints {
      hide LeavesAlone;
      ScopeGood(w, other);
      var a, result := ScopeAt(w, other), w.session.replies[Urb(e.token)];
      if e.Finish? {
        FinishedExtends(other, a, e.token);
        SeenFrom(key, x, y, other, a, Finished(other, a, e.token, result));
      } else {
        TakenExtends(other, a, e.token);
        SeenFrom(key, x, y, other, a, Taken(a, e.token, result));
      }
    }
  }

  lemma HostLeavesAlone(w: World, e: Action, key: Key)
    requires key in w.endpoints && OnEndpoint(e) && !IsWork(e)
    requires e.key in w.endpoints && e.key != key
    ensures key in EndpointPerform(w, e).endpoints
    ensures LeavesAlone(key, ScopeAt(w, key), ScopeAt(EndpointPerform(w, e), key))
  {
  }

  lemma OtherLeavesAlone(w: World, e: Action, key: Key)
    requires Inv(w) && Allowed(w, e) && key in w.endpoints && OnEndpoint(e) && e.key != key
    ensures key in Perform(w, e).endpoints
    ensures LeavesAlone(key, ScopeAt(w, key), ScopeAt(Perform(w, e), key))
  {
    hide Inv, EndpointPerform, Extends;
    if e.key in w.endpoints {
      if IsWork(e) {
        hide LeavesAlone;
        var v := EndpointPerform(w, e);
        EndpointPerformExtends(w, e);
        SeenFrom(key, ScopeAt(w, key), ScopeAt(v, key), e.key, ScopeAt(w, e.key),
                 ScopeAt(v, e.key));
      } else {
        HostLeavesAlone(w, e, key);
      }
    }
  }

  lemma ElsewhereLeavesAlone(w: World, e: Action, key: Key)
    requires Inv(w) && Allowed(w, e) && key in w.endpoints
    requires Spares(e, key) && Brings(w, e, key) == {Elsewhere}
    ensures key in Perform(w, e).endpoints
    ensures LeavesAlone(key, ScopeAt(w, key), ScopeAt(Perform(w, e), key))
  {
    match e {
      case AddEndpoint(_, _, _, _, _, _) => hide *; DiscardLeavesAlone(w, e, key);
      case RemoveEndpoint(_) => hide *; DiscardLeavesAlone(w, e, key);
      case Finish(_) => hide Inv, Perform, Allowed, LeavesAlone; FinishLeavesAlone(w, e, key);
      case TakeResult(_) => hide Inv, Perform, Allowed, LeavesAlone; FinishLeavesAlone(w, e, key);
      case Network(n) =>
        hide Inv, Sound, Session.Step, Enabled;
        InvSound(w);
        StepKeepsAnswers(w.session, n) by { SoundAccounted(w.session); }
      case _ => hide Inv, Perform, Allowed, LeavesAlone; OtherLeavesAlone(w, e, key);
    }
  }

  lemma SoundAccounted(s: State)
    requires Sound(s)
    ensures Accounted(s)
  {
  }

  /** What the touches an action brings keep, the action keeps. */
  lemma ActionSurvives(w: World, e: Action, key: Key, p: Scope -> bool)
    requires Inv(w) && Allowed(w, e) && key in w.endpoints && Spares(e, key)
    requires p(ScopeAt(w, key)) && Survives(key, p, Brings(w, e, key))
    ensures key in Perform(w, e).endpoints && p(ScopeAt(Perform(w, e), key))
  {
    hide Inv, Good, Pump, PausedFrom, Finished;
    var x := ScopeAt(w, key);
    PerformKeepsInv(w, e);
    ScopeGood(w, key);
    if Brings(w, e, key) == {Elsewhere} {
      ElsewhereLeavesAlone(w, e, key);
      ScopeGood(Perform(w, e), key);
      assert Touched(key, x, ScopeAt(Perform(w, e), key), Elsewhere);
    } else if e.Finish? {
      FinishSurvives(w, e.token, key, p);
    } else if e.TakeResult? {
      TakeSurvives(w, e.token, key, p);
    } else {
      OwnActionSurvives(w, e, key, p);
    }
  }

  lemma TakeSurvives(w: World, t: nat, key: Key, p: Scope -> bool)
    requires Inv(w) && Allowed(w, TakeResult(t)) && key in w.endpoints && w.origins[t].key == key
    requires p(ScopeAt(w, key)) && Survives(key, p, {Arrival})
    ensures key in Perform(w, TakeResult(t)).endpoints
    ensures p(ScopeAt(Perform(w, TakeResult(t)), key))
  {
    hide Inv, Good;
    var x := ScopeAt(w, key);
    ScopeGood(w, key);
    var at := Position(x.ep.inFlight, t);
    if at.Some? {
      var y := Arrived(x, at.value, w.session.replies[Urb(t)]);
      ArrivedGood(key, x, at.value);
      assert x.ep.inFlight[at.value].result.None? by { UndeliveredAwaits(w, key, at.value); }
      assert Arrives(x, y, at.value);
      assert Touched(key, x, y, Arrival);
      assert ScopeAt(Perform(w, TakeResult(t)), key) == y;
    }
  }

  lemma FinishSurvives(w: World, t: nat, key: Key, p: Scope -> bool)
    requires Inv(w) && Allowed(w, Finish(t)) && key in w.endpoints && w.origins[t].key == key
    requires p(ScopeAt(w, key)) && Survives(key, p, {Arrival, Pumping})
    ensures key in Perform(w, Finish(t)).endpoints
    ensures p(ScopeAt(Perform(w, Finish(t)), key))
  {
    hide Inv, Good, Pump;
    var x := ScopeAt(w, key);
    ScopeGood(w, key);
    var at := Position(x.ep.inFlight, t);
    if at.Some? {
      var y := Arrived(x, at.value, w.session.replies[Urb(t)]);
      ArrivedGood(key, x, at.value);
      assert x.ep.inFlight[at.value].result.None? by { UndeliveredAwaits(w, key, at.value); }
      assert Arrives(x, y, at.value);
      assert Touched(key, x, y, Arrival);
      FewerSurvive(key, p, {Pumping}, {Arrival, Pumping});
      PumpSurvives(key, y, false, p);
      PumpKeepsGood(key, y, false);
      assert ScopeAt(Perform(w, Finish(t)), key) == Pump(key, y, false);
    }
  }

  lemma UndeliveredAwaits(w: World, key: Key, i: nat)
    requires Inv(w) && key in w.endpoints && i < |w.endpoints[key].inFlight|
    requires w.endpoints[key].inFlight[i].token !in w.delivered
    ensures w.endpoints[key].inFlight[i].result.None?
  {
    hide Sound;
    assert EndpointOk(w, key);
  }

  /** Most actions on an endpoint are a single touch, or none. */
  ghost predicate OneTouch(key: Key, x: Scope, y: Scope, ok: set<Touch>) {
    y == x || exists t :: t in ok && Touched(key, x, y, t)
  }

  lemma HostActionTouches(w: World, e: Action)
    requires Allowed(w, e) && OnEndpoint(e) && e.key in w.endpoints
    requires e.Append? || e.MoveHead? || e.SetActive? || e.SetRejects? || e.UpdateEndpoint?
    ensures OneTouch(e.key, ScopeAt(w, e.key), ScopeAt(EndpointPerform(w, e), e.key),
                     Brings(w, e, e.key))
  {
    var x, y := ScopeAt(w, e.key), ScopeAt(EndpointPerform(w, e), e.key);
    var same := e.UpdateEndpoint? && Depth(e.info.kind) == Depth(x.ep.info.kind);
    var t := if e.Append? then Appending
             else if e.MoveHead? then (if Idle(x.ep) then Moving else Displacing)
             else if e.SetActive? then Activating
             else if e.SetRejects? then Rejecting
             else if same then Updating else Redepthing;
    assert Touched(e.key, x, y, t);
  }

  lemma WorkTouches(w: World, e: Action)
    requires Allowed(w, e) && OnEndpoint(e) && e.key in w.endpoints
    requires e.ResetEndpoint? || e.SyncEndpoint? || e.PumpStep? || e.PauseStep?
    ensures OneTouch(e.key, ScopeAt(w, e.key), ScopeAt(EndpointPerform(w, e), e.key),
                     Brings(w, e, e.key))
  {
    hide Cancel, Move;
    var x, y := ScopeAt(w, e.key), ScopeAt(EndpointPerform(w, e), e.key);
    match e {
      case ResetEndpoint(_) => assert Touched(e.key, x, y, Resetting);
      case SyncEndpoint(_) => if Synced(x) != x { assert Touched(e.key, x, y, Syncing); }
      case PumpStep(_, next) => MoveKeepsSpeed(e.key, x, next); assert Touched(e.key, x, y, Pumping);
      case PauseStep(_, at) =>
        assert Pauses(x, y, at);
        assert Touched(e.key, x, y, Pausing);
    }
  }

  lemma PauseEndpointSurvives(w: World, key: Key, p: Scope -> bool)
    requires Inv(w) && key in w.endpoints && p(ScopeAt(w, key)) && Survives(key, p, {Pausing})
    ensures p(ScopeAt(EndpointPerform(w, PauseEndpoint(key)), key))
  {
    hide Inv, Good, PausedFrom;
    var x := ScopeAt(w, key);
    if Pausable(key) {
      ScopeGood(w, key);
      ScopeTidy(w, key);
      PauseSurvives(key, x, 0, p);
      PauseKeeps(key, x, 0, |w.origins|, w.delivered);
      assert ScopeAt(EndpointPerform(w, PauseEndpoint(key)), key) == PausedFrom(x, 0);
    }
  }

  lemma DoorbellSurvives(w: World, key: Key, p: Scope -> bool)
    requires Inv(w) && key in w.endpoints && p(ScopeAt(w, key)) && Survives(key, p, {Pumping})
    ensures p(ScopeAt(EndpointPerform(w, Doorbell(key)), key))
  {
    hide Inv, Good, Pump;
    var x := ScopeAt(w, key);
    ScopeGood(w, key);
    PumpSurvives(key, x, false, p);
    PumpKeepsGood(key, x, false);
    assert ScopeAt(EndpointPerform(w, Doorbell(key)), key) == Pump(key, x, false);
  }

  lemma OwnActionSurvives(w: World, e: Action, key: Key, p: Scope -> bool)
    requires Inv(w) && Allowed(w, e) && key in w.endpoints && OnEndpoint(e) && e.key == key
    requires p(ScopeAt(w, key)) && Survives(key, p, Brings(w, e, key))
    ensures key in Perform(w, e).endpoints && p(ScopeAt(Perform(w, e), key))
  {
    hide Inv, Good, EndpointPerform, Touched;
    PerformKeepsInv(w, e);
    ScopeGood(w, key);
    EndpointStays(w, e);
    ScopeGood(Perform(w, e), key);
    hide Allowed;
    if e.PauseEndpoint? {
      PauseEndpointSurvives(w, key, p);
    } else if e.Doorbell? {
      DoorbellSurvives(w, key, p);
    } else if e.ResetEndpoint? || e.SyncEndpoint? || e.PumpStep? || e.PauseStep? {
      WorkTouches(w, e);
    } else {
      HostActionTouches(w, e);
    }
  }

  lemma EndpointStays(w: World, e: Action)
    requires OnEndpoint(e) && e.key in w.endpoints
    ensures e.key in EndpointPerform(w, e).endpoints
  {
    hide Pump, PausedFrom, Cancel;
  }

  // ---------------------------------------------------------------- runs

  /** Through the whole run the endpoint stays attached and is only touched as in `ok`. */
  ghost predicate Within(w: World, es: seq<Action>, key: Key, ok: set<Touch>)
    decreases |es|
  {
    es != [] ==>
      && key in w.endpoints && Spares(es[0], key) && Brings(w, es[0], key) <= ok
      && Within(Perform(w, es[0]), es[1..], key, ok)
  }

  lemma {:induction false} WithinMore(w: World, es: seq<Action>, key: Key, few: set<Touch>,
                                      many: set<Touch>)
    requires Within(w, es, key, few) && few <= many
    ensures Within(w, es, key, many)
    decreases |es|
  {
    hide Brings, Perform;
    if es != [] {
      WithinMore(Perform(w, es[0]), es[1..], key, few, many);
    }
  }

  lemma {:induction false} RunSurvives(w: World, es: seq<Action>, key: Key, p: Scope -> bool,
                                       ok: set<Touch>)
    requires Inv(w) && AllAllowed(w, es) && key in w.endpoints && Within(w, es, key, ok)
    requires p(ScopeAt(w, key)) && Survives(key, p, ok)
    ensures Inv(Performed(w, es)) && key in Performed(w, es).endpoints
    ensures p(ScopeAt(Performed(w, es), key))
    decreases |es|
  {
    hide Inv, Allowed, Perform, Brings;
    if es != [] {
      PerformKeepsInv(w, es[0]);
      FewerSurvive(key, p, Brings(w, es[0], key), ok);
      ActionSurvives(w, es[0], key, p);
      RunSurvives(Perform(w, es[0]), es[1..], key, p, ok);
    }
  }
}
