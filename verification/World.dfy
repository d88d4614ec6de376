/**
 * The whole system: all endpoints with their rings, the session, and everything that can happen.
 * One action is one piece of work on the serial executor, one locked section of the session, or one
 * act of the host between two of these. Work on the executor may also be broken up into its steps,
 * so that locked sections of the session come in between (see `Interruptions`).
 */
module World {
  import opened Common
  import opened Session
  import opened Engine
  import opened Moves

  /**
   * `rings` counts the rings ever attached, and `delivered` holds the tokens whose result has been
   * handed to `finish`.
   */
  datatype World = World(
    speed: Speed, endpoints: map<Key, Endpoint>, session: State, origins: seq<Origin>, rings: nat,
    delivered: set<nat>)

  function Start(speed: Speed, devid: u32): World {
    World(speed, map[], Session.Init(devid), [], 0, {})
  }

  datatype Action =
    // The host.
    | Append(key: Key, message: Message)
    | MoveHead(key: Key, position: nat)
    | SetActive(key: Key, active: bool)
    | SetRejects(key: Key, rejects: bool)
    // The engine's entry points.
    | AddEndpoint(key: Key, info: Info, tape: seq<Message>, head: nat, active: bool, rejects: bool)
    | UpdateEndpoint(key: Key, info: Info)
    | RemoveEndpoint(key: Key)
    | ResetEndpoint(key: Key)
    | PauseEndpoint(key: Key)
    | SyncEndpoint(key: Key)
    | Doorbell(key: Key)
    | Finish(token: nat)
    // Their steps: one move of `pump`, one read unlinked by a pause, a result taken but not yet
    // acted on.
    | PumpStep(key: Key, next: Scope)
    | PauseStep(key: Key, at: nat)
    | TakeResult(token: nat)
    // Everyone else who uses the session: its reader, other callers, whoever closes it.
    | Network(event: Session.Event)

  predicate Deliverable(w: World, t: nat) {
    t < |w.origins| && Urb(t) in w.session.replies && t !in w.delivered
  }

  /** The read at position `i` still waits for the server and is not being unlinked. */
  predicate ToPause(fs: seq<InFlight>, i: nat) {
    i < |fs| && fs[i].result.None? && !fs[i].unlinking
  }

  /** A result is handed over once, and callers other than the engine use their own channels. */
  ghost predicate Allowed(w: World, e: Action) {
    match e
    case MoveHead(key, position) =>
      key in w.endpoints ==> position <= |w.endpoints[key].ring.tape|
    case AddEndpoint(_, _, tape, head, _, _) => head <= |tape|
    case Finish(t) => Deliverable(w, t)
    case TakeResult(t) => Deliverable(w, t)
    case PumpStep(key, next) => key in w.endpoints && Move(key, ScopeAt(w, key), next)
    case PauseStep(key, at) =>
      key in w.endpoints && Pausable(key) && ToPause(w.endpoints[key].inFlight, at)
    case Network(n) => Session.Enabled(w.session, n) && (n.DoSubmit? ==> n.reply.Caller?)
    case _ => true
  }

  function ScopeAt(w: World, key: Key): Scope
    requires key in w.endpoints
  {
    Scope(w.speed, w.endpoints[key], w.session, w.origins)
  }

  function WithScope(w: World, key: Key, x: Scope): World {
    w.(endpoints := w.endpoints[key := x.ep], session := x.session, origins := x.origins)
  }

  // ---------------------------------------------------------------- entry points

  /** Position of the entry with this token. */
  function Position(fs: seq<InFlight>, token: nat): (r: Option<nat>)
    ensures r.Some? ==> r.value < |fs| && fs[r.value].token == token
    ensures r.None? ==> forall i :: 0 <= i < |fs| ==> fs[i].token != token
    ensures r.Some? ==> forall i :: 0 <= i < r.value ==> fs[i].token != token
  {
    if fs == [] then None
    else if fs[0].token == token then Some(0)
    else
      match Position(fs[1..], token)
      case None => None
      case Some(i) => Some(i + 1)
  }

  /** A result arrives for the entry at `i`, before the ring is looked at again. */
  ghost function Arrived(x: Scope, i: nat, result: TransferResult): Scope
    requires i < |x.ep.inFlight|
  {
    var f := x.ep.inFlight[i];
    if f.unlinking && result.Err? && result.error.Unlinked? then Dropped(x, i, i + 1)
    else x.(ep := x.ep.(inFlight := x.ep.inFlight[i := f.(result := Some(result))]))
  }

  ghost function Finished(key: Key, x: Scope, token: nat, result: TransferResult): Scope {
    match Position(x.ep.inFlight, token)
    case None => x
    case Some(i) => Pump(key, Arrived(x, i, result), false)
  }

  /** A result is kept for the entry it belongs to, if that is still there. */
  ghost function Taken(x: Scope, token: nat, result: TransferResult): Scope {
    match Position(x.ep.inFlight, token)
    case None => x
    case Some(i) => Arrived(x, i, result)
  }

  /** Marks and cancels the read at position `i`. */
  ghost function PausedOne(x: Scope, i: nat): Scope
    requires i < |x.ep.inFlight|
  {
    var f := x.ep.inFlight[i];
    x.(ep := x.ep.(inFlight := x.ep.inFlight[i := f.(unlinking := true)]),
    session := UnlinkedAt(x.session, f.seqnum))
  }

  /** Marks and cancels the reads from position `i` on that still wait for the server. */
  ghost function PausedFrom(x: Scope, i: nat): Scope
    decreases |x.ep.inFlight| - i
  {
    if i >= |x.ep.inFlight| then x
    else if ToPause(x.ep.inFlight, i) then PausedFrom(PausedOne(x, i), i + 1)
    else PausedFrom(x, i + 1)
  }

  ghost function Synced(x: Scope): Scope {
    if x.ep.inFlight != [] && x.ep.inFlight[0].message != x.ep.ring.head then Dropped(x, 0, 0)
    else x
  }

  function OnRing(w: World, key: Key, ring: Ring): World
    requires key in w.endpoints
  {
    w.(endpoints := w.endpoints[key := w.endpoints[key].(ring := ring)])
  }

  ghost function Discarded(w: World, key: Key): State {
    if key in w.endpoints then Cancel(w.session, w.endpoints[key].inFlight) else w.session
  }

  ghost function Perform(w: World, e: Action): World {
    match e
    case AddEndpoint(key, info, tape, head, active, rejects) =>
      var ring := Ring(w.rings, tape, head, active, rejects, []);
      w.(endpoints := w.endpoints[key := Endpoint(ring, info, [], None, None)],
      session := Discarded(w, key), rings := w.rings + 1)
    case RemoveEndpoint(key) => w.(endpoints := w.endpoints - {key}, session := Discarded(w, key))
    case Finish(t) =>
      if !Deliverable(w, t) then w
      else
        var w1, key := w.(delivered := w.delivered + {t}), w.origins[t].key;
        if key !in w.endpoints then w1
        else WithScope(w1, key, Finished(key, ScopeAt(w, key), t, w.session.replies[Urb(t)]))
    case TakeResult(t) =>
      if !Deliverable(w, t) then w
      else
        var w1, key := w.(delivered := w.delivered + {t}), w.origins[t].key;
        if key !in w.endpoints then w1
        else WithScope(w1, key, Taken(ScopeAt(w, key), t, w.session.replies[Urb(t)]))
    case Network(n) => w.(session := Session.Step(w.session, n))
    case _ => if e.key !in w.endpoints then w else EndpointPerform(w, e)
  }

  /** Actions that concern one endpoint, which exists. */
  predicate OnEndpoint(e: Action) {
    !e.AddEndpoint? && !e.RemoveEndpoint? && !e.Finish? && !e.TakeResult? && !e.Network?
  }

  ghost function EndpointPerform(w: World, e: Action): World
    requires OnEndpoint(e) && e.key in w.endpoints
  {
    var x := ScopeAt(w, e.key);
    var ep, ring := x.ep, x.ep.ring;
    match e
    case Append(key, m) => OnRing(w, key, ring.(tape := ring.tape + [m]))
    case MoveHead(key, position) => OnRing(w, key, ring.(head := position))
    case SetActive(key, active) => OnRing(w, key, ring.(active := active))
    case SetRejects(key, rejects) => OnRing(w, key, ring.(rejects := rejects))
    case UpdateEndpoint(key, info) => w.(endpoints := w.endpoints[key := ep.(info := info)])
    case ResetEndpoint(key) =>
      var y := Dropped(x, 0, 0);
      WithScope(w, key, y.(ep := y.ep.(setup := None)))
    case PauseEndpoint(key) => if Pausable(key) then WithScope(w, key, PausedFrom(x, 0)) else w
    case SyncEndpoint(key) => WithScope(w, key, Synced(x))
    case Doorbell(key) => WithScope(w, key, Pump(key, x, false))
    case PumpStep(key, next) => WithScope(w, key, next)
    case PauseStep(key, at) =>
      if ToPause(ep.inFlight, at) then WithScope(w, key, PausedOne(x, at)) else w
  }

  // ---------------------------------------------------------------- runs

  ghost function Performed(w: World, es: seq<Action>): World
    decreases |es|
  {
    if es == [] then w else Performed(Perform(w, es[0]), es[1..])
  }

  ghost predicate AllAllowed(w: World, es: seq<Action>)
    decreases |es|
  {
    es == [] || (Allowed(w, es[0]) && AllAllowed(Perform(w, es[0]), es[1..]))
  }
}
