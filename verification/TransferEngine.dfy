/**
 * The engine as the program runs it: a table of endpoints updated in place, loops in `Pump` and
 * `FillAhead` that call each other through `SubmitUrb`, and a shared session. Every entry point does
 * to the whole system exactly what the corresponding action of `World` does.
 */
module TransferEngine {
  import opened Common
  import opened Session
  import opened Engine
  import opened Moves
  import opened World
  import opened WorldProofs
  import C = Client

  // ---------------------------------------------------------------- one turn of each loop

  lemma FillStops(key: Key, x: Scope)
    requires ReadAhead(key, x).None?
    ensures Engine.Fill(key, x) == x
  {
  }

  lemma FillTurns(key: Key, x: Scope, req: Request, stage: Stage)
    requires ReadAhead(key, x) == Some((req, stage))
    ensures var r := Push(key, x, x.ep.ring.head + |x.ep.inFlight|, req, stage);
            && (r.Err? ==> Engine.Fill(key, x) == x)
            && (r.Ok? ==>
                  && Engine.Fill(key, x) == Engine.Fill(key, r.value)
                  && |r.value.ep.inFlight| == |x.ep.inFlight| + 1 <= 32
                  && Left(r.value.ep.ring) == Left(x.ep.ring) && r.value.speed == x.speed)
  {
    hide DataRequest, Submitted;
  }

  lemma PumpRests(key: Key, x: Scope, offline: bool)
    requires || !x.ep.ring.active
             || (x.ep.inFlight == [] && (x.ep.ring.head >= |x.ep.ring.tape| || offline))
    ensures Engine.Pump(key, x, offline) == x
  {
  }

  lemma PumpDrops(key: Key, x: Scope, offline: bool)
    requires x.ep.ring.active && x.ep.inFlight != []
    requires x.ep.inFlight[0].message != x.ep.ring.head
    ensures Engine.Pump(key, x, offline) == Engine.Pump(key, Dropped(x, 0, 0), offline)
  {
  }

  lemma PumpApplies(key: Key, x: Scope, offline: bool, y: Scope)
    requires x.ep.ring.active && x.ep.inFlight != []
    requires x.ep.inFlight[0].message == x.ep.ring.head && x.ep.inFlight[0].result.Some?
    requires y == x.(ep := Applied(x.ep.(inFlight := x.ep.inFlight[1..]), x.ep.inFlight[0]))
    ensures Engine.Pump(key, x, offline)
            == if Accepts(x.ep.ring)
               then Engine.Pump(key, y, offline || GoneOffline(x.ep.inFlight[0])) else y
    ensures |y.ep.inFlight| == |x.ep.inFlight| - 1 && Left(y.ep.ring) <= Left(x.ep.ring)
    ensures Accepts(x.ep.ring) ==> Left(y.ep.ring) < Left(x.ep.ring)
  {
    hide OutcomeOf, HideUas.Hide;
  }

  lemma PumpFills(key: Key, x: Scope, offline: bool)
    requires x.ep.ring.active && x.ep.inFlight != []
    requires x.ep.inFlight[0].message == x.ep.ring.head && x.ep.inFlight[0].result.None?
    ensures Engine.Pump(key, x, offline) == if offline then x else Engine.Fill(key, x)
  {
    hide Engine.Fill;
  }

  lemma PumpWaits(key: Key, x: Scope)
    requires x.ep.ring.active && x.ep.inFlight == [] && x.ep.ring.head < |x.ep.ring.tape|
    requires PlanFor(key, x) == Wait
    ensures Engine.Pump(key, x, false) == x
  {
    hide HeadPlan, Push;
  }

  lemma PumpAnswers(key: Key, x: Scope, status: Status, setup: Option<SetupState>)
    requires x.ep.ring.active && x.ep.inFlight == [] && x.ep.ring.head < |x.ep.ring.tape|
    requires PlanFor(key, x) == Answer(status, setup)
    ensures var y := x.(ep := Answered(x.ep, status, setup));
            Engine.Pump(key, x, false) == if Accepts(x.ep.ring) then Engine.Pump(key, y, false) else y
  {
    hide HeadPlan, Push;
  }

  lemma PumpAsks(key: Key, x: Scope, req: Request, stage: Stage)
    requires x.ep.ring.active && x.ep.inFlight == [] && x.ep.ring.head < |x.ep.ring.tape|
    requires PlanFor(key, x) == Ask(req, stage)
    ensures var r := Push(key, x, x.ep.ring.head, req, stage);
            Engine.Pump(key, x, false)
            == if r.Ok? then Engine.Fill(key, r.value) else Refusal(key, x, r.error)
  {
    hide HeadPlan, Push, Engine.Fill;
  }

  lemma AskInRange(key: Key, x: Scope, req: Request, stage: Stage)
    requires x.ep.ring.active && x.ep.inFlight == [] && x.ep.ring.head < |x.ep.ring.tape|
    requires PlanFor(key, x) == Ask(req, stage) && InRange(Engine.Pump(key, x, false).session)
    ensures InRange(Sending(key, x, x.ep.ring.head, req, stage).session)
  {
    hide HeadPlan, Push, Engine.Fill, Engine.Pump, Refusal;
    PumpAsks(key, x, req, stage);
    var r := Push(key, x, x.ep.ring.head, req, stage);
    if r.Ok? { FillGrows(key, r.value); }
  }

  lemma AnsweredTurns(ep: Endpoint, status: Status, setup: Option<SetupState>)
    ensures var y := Answered(ep, status, setup);
            && y.inFlight == ep.inFlight && Left(y.ring) <= Left(ep.ring)
            && (Accepts(ep.ring) ==> Left(y.ring) < Left(ep.ring))
  {
  }

  lemma PushTurns(key: Key, x: Scope, message: nat, req: Request, stage: Stage)
    ensures var r := Push(key, x, message, req, stage);
            r.Ok? ==> |r.value.ep.inFlight| == |x.ep.inFlight| + 1
                      && Left(r.value.ep.ring) == Left(x.ep.ring) && r.value.speed == x.speed
  {
    hide Submitted;
  }

  /** The head cannot be sent; it is completed with the error, and on it goes if it can. */
  ghost function Refusal(key: Key, x: Scope, e: TransferError): Scope {
    var y := x.(ep := Answered(x.ep, ErrorStatus(e), x.ep.setup));
    if Accepts(x.ep.ring) && ErrorStatus(e) != Offline then Engine.Pump(key, y, false) else y
  }

  // ---------------------------------------------------------------- searches that end

  lemma {:induction false} CancelGrows(s: State, fs: seq<InFlight>)
    ensures Used(s) <= Used(Cancel(s, fs))
    decreases |fs|
  {
    if fs != [] {
      CancelGrows(if fs[0].result.None? then UnlinkedAt(s, fs[0].seqnum) else s, fs[1..]);
    }
  }

  /** If a number has been found for every cancellation, one was free for the first. */
  lemma CancelHasFree(s: State, fs: seq<InFlight>)
    requires fs != [] && fs[0].result.None? && InRange(Cancel(s, fs))
    ensures Cancellable(s, fs[0].seqnum) ==> Seqnum.HasFree(Used(s))
  {
    hide Seqnum.Next;
    if Cancellable(s, fs[0].seqnum) {
      CancelGrows(UnlinkedAt(s, fs[0].seqnum), fs[1..]);
      assert Fresh(s) in Used(UnlinkedAt(s, fs[0].seqnum));
      Seqnum.NextInRangeIffFree(Used(s), s.next);
    }
  }

  lemma PushGrows(key: Key, x: Scope, message: nat, req: Request, stage: Stage)
    ensures var r := Push(key, x, message, req, stage);
            r.Ok? ==> Used(x.session) <= Used(r.value.session)
    ensures var r := Push(key, x, message, req, stage);
            r.Ok? && InRange(r.value.session) ==> Seqnum.HasFree(Used(x.session))
  {
    hide Seqnum.Next;
    Seqnum.NextInRangeIffFree(Used(x.session), x.session.next);
    var r := Push(key, x, message, req, stage);
    assert r.Ok? ==> Fresh(x.session) in r.value.session.submits;
  }

  lemma {:induction false} FillGrows(key: Key, x: Scope)
    ensures Used(x.session) <= Used(Engine.Fill(key, x).session)
    decreases 32 - |x.ep.inFlight|
  {
    hide DataRequest, Push;
    var next := ReadAhead(key, x);
    if next.Some? {
      FillTurns(key, x, next.value.0, next.value.1);
      PushGrows(key, x, x.ep.ring.head + |x.ep.inFlight|, next.value.0, next.value.1);
      var r := Push(key, x, x.ep.ring.head + |x.ep.inFlight|, next.value.0, next.value.1);
      if r.Ok? { FillGrows(key, r.value); }
    }
  }

  lemma MoveGrows(key: Key, x: Scope, y: Scope)
    requires Move(key, x, y)
    ensures Used(x.session) <= Used(y.session)
  {
    hide Cancel, Push, Applied, Answered, HeadPlan, ReadAhead;
    if DropMove(x, y) {
      CancelGrows(x.session, x.ep.inFlight[0..]);
    } else if SendMove(key, x, y) {
      PushGrows(key, x, x.ep.ring.head, PlanFor(key, x).request, PlanFor(key, x).stage);
    } else if AheadMove(key, x, y) {
      var (req, stage) := ReadAhead(key, x).value;
      PushGrows(key, x, x.ep.ring.head + |x.ep.inFlight|, req, stage);
    } else if ApplyMove(x, y) {
      assert y.session == x.session;
    }
  }

  lemma PumpGrows(key: Key, x: Scope, offline: bool)
    ensures Used(x.session) <= Used(Engine.Pump(key, x, offline).session)
  {
    hide Move, Engine.Pump;
    var p := (y: Scope) => Used(x.session) <= Used(y.session);
    forall a, b | p(a) && Move(key, a, b)
      ensures p(b)
    {
      MoveGrows(key, a, b);
    }
    PumpKeeps(key, x, offline, p);
  }

  lemma {:induction false} PauseGrows(x: Scope, i: nat)
    ensures Used(x.session) <= Used(PausedFrom(x, i).session)
    decreases |x.ep.inFlight| - i
  {
    if i < |x.ep.inFlight| {
      PauseGrows(if ToPause(x.ep.inFlight, i) then PausedOne(x, i) else x, i + 1);
    }
  }

  lemma PauseHasFree(x: Scope, i: nat)
    requires ToPause(x.ep.inFlight, i) && InRange(PausedFrom(x, i).session)
    ensures Cancellable(x.session, x.ep.inFlight[i].seqnum) ==> Seqnum.HasFree(Used(x.session))
  {
    hide Seqnum.Next;
    if Cancellable(x.session, x.ep.inFlight[i].seqnum) {
      PauseGrows(PausedOne(x, i), i + 1);
      assert Fresh(x.session) in Used(PausedOne(x, i).session);
      Seqnum.NextInRangeIffFree(Used(x.session), x.session.next);
    }
  }

  lemma SendingInRange(key: Key, x: Scope, req: Request, stage: Stage)
    requires ReadAhead(key, x) == Some((req, stage)) && InRange(Engine.Fill(key, x).session)
    ensures InRange(Sending(key, x, x.ep.ring.head + |x.ep.inFlight|, req, stage).session)
  {
    hide DataRequest, Push, Engine.Fill;
    FillTurns(key, x, req, stage);
    var r := Push(key, x, x.ep.ring.head + |x.ep.inFlight|, req, stage);
    FillGrows(key, if r.Ok? then r.value else x);
  }

  /** The endpoint after a URB was to be sent for `message`. */
  ghost function Sending(key: Key, x: Scope, message: nat, req: Request, stage: Stage): Scope {
    match Push(key, x, message, req, stage)
    case Ok(y) => y
    case Err(e) => if x.ep.inFlight == [] then Refusal(key, x, e) else x
  }

  /**
   * Methods that may need numbers require `InRange` of the state they lead to: the calls left out
   * are those in which the search for a number never ends, so that they do not return.
   */
  class TransferEngine {
    const speed: Speed
    const session: C.Client
    var endpoints: map<Key, Endpoint>
    var nextToken: nat
    ghost var origins: seq<Origin>
    ghost var rings: nat
    ghost var delivered: set<nat>

    ghost function View(): World
      reads this, session
    {
      World(speed, endpoints, session.View(), origins, rings, delivered)
    }

    ghost function Here(key: Key): Scope
      requires key in endpoints
      reads this, session
    {
      Scope(speed, endpoints[key], session.View(), origins)
    }

    ghost predicate Valid()
      reads this, session
    {
      nextToken == |origins| && Inv(View())
    }

    /** The system is that of `before` except for the work `y` on one endpoint. */
    ghost predicate Became(before: map<Key, Endpoint>, key: Key, y: Scope)
      reads this, session
    {
      && endpoints == before[key := y.ep] && session.View() == y.session && origins == y.origins
      && nextToken == |origins|
    }

    constructor (speed: Speed, session: C.Client)
      requires session.View() == Session.Init(session.devid)
      ensures Valid() && View() == Start(speed, session.devid) && this.session == session
    {
      this.speed, this.session := speed, session;
      endpoints, nextToken := map[], 0;
      origins, rings, delivered := [], 0, {};
      new;
      StartInv(speed, session.devid);
    }

    // -------------------------------------------------------------- sending and cancelling

    method UnlinkAll(fs: seq<InFlight>)
      requires InRange(Cancel(session.View(), fs))
      modifies session
      ensures session.View() == Cancel(old(session.View()), fs)
    {
      var i := 0;
      while i < |fs|
        invariant 0 <= i <= |fs|
        invariant Cancel(old(session.View()), fs) == Cancel(session.View(), fs[i..])
      {
        assert fs[i..][0] == fs[i] && fs[i..][1..] == fs[i + 1..];
        if fs[i].result.None? {
          CancelHasFree(session.View(), fs[i..]);
          session.Unlink(fs[i].seqnum);
        }
        i := i + 1;
      }
    }

    /** Sends a URB for `message`; if the session refuses it and it is the head, completes it. */
    method SubmitUrb(key: Key, message: nat, req: Request, stage: Stage) returns (ok: bool)
      requires key in endpoints && nextToken == |origins|
      requires InRange(Sending(key, Here(key), message, req, stage).session)
      modifies this`endpoints, this`nextToken, this`origins, session
      ensures ok == Push(key, old(Here(key)), message, req, stage).Ok?
      ensures Became(old(endpoints), key, Sending(key, old(Here(key)), message, req, stage))
      decreases Left(endpoints[key].ring), 0
    {
      var token, ep := nextToken, endpoints[key];
      PushGrows(key, Here(key), message, req, stage);
      var r := session.Submit(req, Urb(token));
      match r {
        case Ok(seqnum) =>
          nextToken := nextToken + 1;
          var f := InFlight(token, message, stage, req.direction, req.length, seqnum, false, None);
          endpoints := endpoints[key := ep.(
                       inFlight := ep.inFlight + [f],
                       ring := ep.ring.(acts := ep.ring.acts + [Sent(token, message)]))];
          origins := origins + [Origin(key, ep.ring.id, message, stage, ep.info, req)];
          ok := true;
        case Err(e) =>
          ok := false;
          if ep.inFlight == [] {
            endpoints := endpoints[key := Answered(ep, ErrorStatus(e), ep.setup)];
            if Accepts(ep.ring) && ErrorStatus(e) != Offline {
              Pump(key);
            }
          } else {
            assert endpoints[key := ep] == endpoints;
          }
      }
    }

    /** Reads ahead in the ring up to the endpoint's depth. */
    method FillAhead(key: Key)
      requires key in endpoints && nextToken == |origins|
      requires InRange(Engine.Fill(key, Here(key)).session)
      modifies this`endpoints, this`nextToken, this`origins, session
      ensures Became(old(endpoints), key, Engine.Fill(key, old(Here(key))))
      decreases Left(endpoints[key].ring), 1
    {
      hide Engine.Fill, Engine.Pump, Push, DataRequest;
      assert endpoints == endpoints[key := endpoints[key]];
      while true
        invariant key in endpoints && endpoints == old(endpoints)[key := endpoints[key]]
        invariant nextToken == |origins|
        invariant Engine.Fill(key, Here(key)) == Engine.Fill(key, old(Here(key)))
        invariant Left(endpoints[key].ring) == Left(old(endpoints)[key].ring)
        decreases 32 - |endpoints[key].inFlight|
      {
        var ep := endpoints[key];
        var ahead := |ep.inFlight|;
        ghost var x := Here(key);
        if ahead == 0 || ahead >= Depth(ep.info.kind) || AnyResult(ep.inFlight) {
          FillStops(key, x);
          return;
        }
        var peeked := Peek(ep.ring, ahead);
        if peeked.None? {
          FillStops(key, x);
          return;
        }
        var next := DataRequest(key, speed, ep, ahead, peeked.value.transfer);
        if next.None? {
          FillStops(key, x);
          return;
        }
        FillTurns(key, x, next.value.0, next.value.1);
        SendingInRange(key, x, next.value.0, next.value.1);
        var ok := SubmitUrb(key, ep.ring.head + ahead, next.value.0, next.value.1);
        if !ok {
          return;
        }
      }
    }

    // -------------------------------------------------------------- pump

    /** Deals with the head message when nothing is in flight; says whether to look again. */
    method HandleHead(key: Key) returns (again: bool)
      requires key in endpoints && nextToken == |origins|
      requires InRange(Engine.Pump(key, Here(key), false).session)
      requires endpoints[key].ring.active && endpoints[key].inFlight == []
      requires endpoints[key].ring.head < |endpoints[key].ring.tape|
      modifies this`endpoints, this`nextToken, this`origins, session
      ensures !again ==> Became(old(endpoints), key, Engine.Pump(key, old(Here(key)), false))
      ensures again ==>
                && key in endpoints && endpoints == old(endpoints)[key := endpoints[key]]
                && nextToken == |origins|
                && Engine.Pump(key, Here(key), false) == Engine.Pump(key, old(Here(key)), false)
                && endpoints[key].inFlight == []
                && Left(endpoints[key].ring) < Left(old(endpoints)[key].ring)
      decreases Left(endpoints[key].ring), 2
    {
      hide Engine.Fill, Engine.Pump, Push, HeadPlan, Answered, Refusal;
      var ep := endpoints[key];
      ghost var x := Here(key);
      again := false;
      match HeadPlan(key, speed, ep, ep.ring.tape[ep.ring.head].transfer) {
        case Wait =>
          PumpWaits(key, x);
          assert endpoints[key := ep] == endpoints;
        case Answer(status, setup) =>
          PumpAnswers(key, x, status, setup);
          AnsweredTurns(ep, status, setup);
          endpoints := endpoints[key := Answered(ep, status, setup)];
          again := Accepts(ep.ring);
        case Ask(req, stage) =>
          PumpAsks(key, x, req, stage);
          PushTurns(key, x, ep.ring.head, req, stage);
          AskInRange(key, x, req, stage);
          var ok := SubmitUrb(key, ep.ring.head, req, stage);
          if ok {
            FillAhead(key);
          }
      }
    }

    /** Lets go of URBs whose message is no longer the head. */
    method DropStale(key: Key)
      requires key in endpoints && InRange(Dropped(Here(key), 0, 0).session)
      modifies this`endpoints, session
      ensures key in endpoints && endpoints == old(endpoints)[key := endpoints[key]]
      ensures Here(key) == Dropped(old(Here(key)), 0, 0)
    {
      var ep := endpoints[key];
      assert ep.inFlight[..0] == [] && ep.inFlight[0..] == ep.inFlight;
      endpoints := endpoints[key := ep.(inFlight := [])];
      UnlinkAll(ep.inFlight);
    }

    /** Reports the result of the oldest URB; says whether the host took it. */
    method ApplyFront(key: Key, offline: bool) returns (taken: bool)
      requires key in endpoints && endpoints[key].ring.active && endpoints[key].inFlight != []
      requires endpoints[key].inFlight[0].message == endpoints[key].ring.head
      requires endpoints[key].inFlight[0].result.Some?
      modifies this`endpoints
      ensures key in endpoints && endpoints == old(endpoints)[key := endpoints[key]]
      ensures taken == Accepts(old(endpoints)[key].ring)
      ensures Engine.Pump(key, old(Here(key)), offline)
              == if taken
                 then Engine.Pump(key, Here(key),
                                  offline || GoneOffline(old(endpoints)[key].inFlight[0]))
                 else Here(key)
      ensures |endpoints[key].inFlight| == |old(endpoints)[key].inFlight| - 1
      ensures taken ==> Left(endpoints[key].ring) < Left(old(endpoints)[key].ring)
    {
      hide Engine.Pump, Applied;
      var ep := endpoints[key];
      ghost var x := Here(key);
      endpoints := endpoints[key := Applied(ep.(inFlight := ep.inFlight[1..]), ep.inFlight[0])];
      PumpApplies(key, x, offline, Here(key));
      taken := Accepts(ep.ring);
    }

    /** One turn of the loop in `Pump`; says whether there may be more to do. */
    method Turn(key: Key, offline: bool) returns (again: bool, offline': bool)
      requires key in endpoints && nextToken == |origins|
      requires InRange(Engine.Pump(key, Here(key), offline).session)
      modifies this`endpoints, this`nextToken, this`origins, session
      ensures !again ==> Became(old(endpoints), key, Engine.Pump(key, old(Here(key)), offline))
      ensures again ==>
                && key in endpoints && endpoints == old(endpoints)[key := endpoints[key]]
                && nextToken == |origins|
                && Engine.Pump(key, Here(key), offline')
                   == Engine.Pump(key, old(Here(key)), offline)
                && (Left(endpoints[key].ring) < Left(old(endpoints)[key].ring)
                    || (Left(endpoints[key].ring) == Left(old(endpoints)[key].ring)
                        && |endpoints[key].inFlight| < |old(endpoints)[key].inFlight|))
      decreases Left(endpoints[key].ring), 3
    {
      hide Engine.Fill, Engine.Pump, Cancel, GoneOffline;
      var ep := endpoints[key];
      ghost var x := Here(key);
      again, offline' := false, offline;
      if !ep.ring.active {
        PumpRests(key, x, offline);
        assert endpoints[key := ep] == endpoints;
      } else if ep.inFlight != [] {
        var front := ep.inFlight[0];
        if front.message != ep.ring.head {
          PumpDrops(key, x, offline);
          PumpGrows(key, Dropped(x, 0, 0), offline);
          DropStale(key);
          again := true;
        } else if front.result.Some? {
          offline' := offline || GoneOffline(front);
          again := ApplyFront(key, offline);
        } else {
          PumpFills(key, x, offline);
          assert endpoints[key := ep] == endpoints;
          if !offline {
            FillAhead(key);
          }
        }
      } else if ep.ring.head >= |ep.ring.tape| || offline {
        PumpRests(key, x, offline);
        assert endpoints[key := ep] == endpoints;
      } else {
        again := HandleHead(key);
      }
    }

    /** Processes the head of the ring for as long as there is something to do. */
    method Pump(key: Key)
      requires nextToken == |origins|
      requires key in endpoints ==> InRange(Engine.Pump(key, Here(key), false).session)
      modifies this`endpoints, this`nextToken, this`origins, session
      ensures nextToken == |origins|
      ensures key !in old(endpoints) ==>
                endpoints == old(endpoints) && session.View() == old(session.View())
                && origins == old(origins)
      ensures key in old(endpoints) ==>
                Became(old(endpoints), key, Engine.Pump(key, old(Here(key)), false))
      decreases if key in endpoints then Left(endpoints[key].ring) else 0, 4
    {
      if key !in endpoints {
        return;
      }
      hide Engine.Pump;
      var offline, again := false, true;
      ghost var x0 := Here(key);
      assert endpoints == endpoints[key := endpoints[key]];
      while again
        invariant again ==>
                    && key in endpoints && endpoints == old(endpoints)[key := endpoints[key]]
                    && nextToken == |origins|
                    && Engine.Pump(key, Here(key), offline) == Engine.Pump(key, x0, false)
                    && Left(endpoints[key].ring) <= Left(x0.ep.ring)
        invariant !again ==> Became(old(endpoints), key, Engine.Pump(key, x0, false))
        decreases again, if again then Left(endpoints[key].ring) else 0,
                  if again then |endpoints[key].inFlight| else 0
      {
        again, offline := Turn(key, offline);
      }
    }

    // -------------------------------------------------------------- entry points

    method RingDoorbell(key: Key)
      requires Valid() && InRange(Perform(View(), Doorbell(key)).session)
      modifies this`endpoints, this`nextToken, this`origins, session
      ensures Valid() && View() == Perform(old(View()), Doorbell(key))
    {
      hide Inv, Engine.Pump;
      ghost var w := View();
      Pump(key);
      assert View() == Perform(w, Doorbell(key));
      PerformKeepsInv(w, Doorbell(key));
    }

    /** Attaches an endpoint with a ring not seen before; one already there is let go of. */
    method AddEndpoint(key: Key, info: Info, ring: Ring)
      requires Valid() && InRange(Discarded(View(), key))
      requires ring.id == rings && ring.head <= |ring.tape| && ring.acts == []
      modifies this`endpoints, this`rings, session
      ensures Valid()
      ensures View() == Perform(old(View()),
                                Action.AddEndpoint(key, info, ring.tape, ring.head, ring.active, ring.rejects))
    {
      hide Inv, Cancel;
      ghost var w, e := View(), Action.AddEndpoint(key, info, ring.tape, ring.head, ring.active, ring.rejects);
      var previous := if key in endpoints then endpoints[key].inFlight else [];
      CancelNothing(w.session);
      endpoints := endpoints[key := Endpoint(ring, info, [], None, None)];
      rings := rings + 1;
      UnlinkAll(previous);
      PerformKeepsInv(w, e);
    }

    static lemma CancelNothing(s: State)
      ensures Cancel(s, []) == s
    {
    }

    method UpdateEndpoint(key: Key, info: Info)
      requires Valid()
      modifies this`endpoints
      ensures Valid() && View() == Perform(old(View()), Action.UpdateEndpoint(key, info))
    {
      hide Inv;
      ghost var w := View();
      if key in endpoints {
        endpoints := endpoints[key := endpoints[key].(info := info)];
      }
      PerformKeepsInv(w, Action.UpdateEndpoint(key, info));
    }

    method RemoveEndpoint(key: Key)
      requires Valid() && InRange(Discarded(View(), key))
      modifies this`endpoints, session
      ensures Valid() && View() == Perform(old(View()), Action.RemoveEndpoint(key))
    {
      hide Inv, Cancel;
      ghost var w := View();
      var previous := if key in endpoints then endpoints[key].inFlight else [];
      CancelNothing(w.session);
      endpoints := endpoints - {key};
      UnlinkAll(previous);
      PerformKeepsInv(w, Action.RemoveEndpoint(key));
    }

    static predicate RemovesFrom(es: seq<Action>, device: byte) {
      forall e :: e in es ==> e.RemoveEndpoint? && e.key.device == device
    }

    /** Removes the device's endpoints one after the other, in any order. */
    method RemoveDevice(device: byte) returns (ghost es: seq<Action>)
      requires Valid()
      requires forall es :: RemovesFrom(es, device) ==> InRange(Performed(View(), es).session)
      modifies this`endpoints, session
      ensures Valid() && AllAllowed(old(View()), es) && View() == Performed(old(View()), es)
      ensures RemovesFrom(es, device)
      ensures Spared(old(endpoints), endpoints, device) && DeviceKeys(endpoints, device) == {}
    {
      hide Inv, Cancel, Perform, Performed, AllAllowed;
      var keys := DeviceKeys(endpoints, device);
      es := [];
      PerformedNothing(View());
      while keys != {}
        invariant Valid() && AllAllowed(old(View()), es) && View() == Performed(old(View()), es)
        invariant RemovesFrom(es, device)
        invariant keys == DeviceKeys(endpoints, device)
        invariant Spared(old(endpoints), endpoints, device)
        decreases |keys|
      {
        var key :| key in keys;
        RemovingKey(endpoints, key, device);
        SparedWithout(old(endpoints), endpoints, key, device);
        ghost var w := View();
        RemoveDrops(w, key);
        PerformedAppend(old(View()), es, Action.RemoveEndpoint(key));
        es := es + [Action.RemoveEndpoint(key)];
        assert InRange(Performed(old(View()), es).session);
        RemoveEndpoint(key);
        keys := keys - {key};
      }
    }

    static function DeviceKeys(endpoints: map<Key, Endpoint>, device: byte): set<Key> {
      set key | key in endpoints && key.device == device
    }

    /** Only endpoints of `device` are gone. */
    ghost static predicate Spared(before: map<Key, Endpoint>, after: map<Key, Endpoint>,
                                  device: byte)
    {
      && (forall key :: key in after ==> key in before && after[key] == before[key])
      && (forall key :: key in before && key.device != device ==> key in after)
    }

    static lemma SparedWithout(before: map<Key, Endpoint>, after: map<Key, Endpoint>, key: Key,
                               device: byte)
      requires Spared(before, after, device) && key.device == device
      ensures Spared(before, after - {key}, device)
    {
    }

    static lemma RemovingKey(endpoints: map<Key, Endpoint>, key: Key, device: byte)
      requires key in endpoints && key.device == device
      ensures DeviceKeys(endpoints - {key}, device) == DeviceKeys(endpoints, device) - {key}
    {
    }

    static lemma RemoveDrops(w: World, key: Key)
      ensures Perform(w, Action.RemoveEndpoint(key)).endpoints == w.endpoints - {key}
      ensures Perform(w, Action.RemoveEndpoint(key)).session == Discarded(w, key)
      ensures Allowed(w, Action.RemoveEndpoint(key))
    {
    }

    static lemma PerformedNothing(w: World)
      ensures Performed(w, []) == w && AllAllowed(w, [])
    {
    }

    /** Forgets everything in progress, as after the host resets a halted endpoint. */
    method ResetEndpoint(key: Key)
      requires Valid() && InRange(Perform(View(), Action.ResetEndpoint(key)).session)
      modifies this`endpoints, session
      ensures Valid() && View() == Perform(old(View()), Action.ResetEndpoint(key))
    {
      hide Inv, Cancel;
      ghost var w := View();
      if key in endpoints {
        endpoints := endpoints[key := endpoints[key].(setup := None)];
        DropStale(key);
        assert endpoints == w.endpoints[key := endpoints[key]];
      }
      PerformKeepsInv(w, Action.ResetEndpoint(key));
    }

    /** Lets go of the URBs in flight if the host has moved the ring away from them. */
    method SyncEndpoint(key: Key)
      requires Valid() && InRange(Perform(View(), Action.SyncEndpoint(key)).session)
      modifies this`endpoints, session
      ensures Valid() && View() == Perform(old(View()), Action.SyncEndpoint(key))
    {
      hide Inv, Cancel;
      ghost var w := View();
      if key in endpoints {
        assert endpoints == endpoints[key := endpoints[key]];
        if endpoints[key].inFlight != []
           && endpoints[key].inFlight[0].message != endpoints[key].ring.head {
          DropStale(key);
        }
      }
      PerformKeepsInv(w, Action.SyncEndpoint(key));
    }

    /** Unlinks the reads in flight on a paused data endpoint. */
    method PauseEndpoint(key: Key)
      requires Valid() && InRange(Perform(View(), Action.PauseEndpoint(key)).session)
      modifies this`endpoints, session
      ensures Valid() && View() == Perform(old(View()), Action.PauseEndpoint(key))
    {
      hide Inv, UnlinkedAt, Cancellable, Pausable;
      ghost var w := View();
      if key in endpoints {
        assert endpoints == endpoints[key := endpoints[key]];
      }
      if Pausable(key) && key in endpoints {
        var i := 0;
        while i < |endpoints[key].inFlight|
          invariant key in endpoints && endpoints == w.endpoints[key := endpoints[key]]
          invariant 0 <= i <= |endpoints[key].inFlight|
          invariant PausedFrom(Here(key), i) == PausedFrom(ScopeAt(w, key), 0)
        {
          var f := endpoints[key].inFlight[i];
          if f.result.None? && !f.unlinking {
            PauseHasFree(Here(key), i);
            endpoints := endpoints[key := endpoints[key].(
                         inFlight := endpoints[key].inFlight[i := f.(unlinking := true)])];
            session.Unlink(f.seqnum);
          }
          i := i + 1;
        }
        assert Here(key) == PausedFrom(ScopeAt(w, key), 0);
      }
      PerformKeepsInv(w, Action.PauseEndpoint(key));
    }

    /** The result of a URB arrives on the executor. */
    method Finish(key: Key, token: nat, result: TransferResult)
      requires Valid() && Deliverable(View(), token)
      requires InRange(Perform(View(), Action.Finish(token)).session)
      requires origins[token].key == key && session.replies[Urb(token)] == result
      modifies this`endpoints, this`nextToken, this`origins, this`delivered, session
      ensures Valid() && View() == Perform(old(View()), Action.Finish(token))
    {
      hide Inv, Engine.Pump, Cancel, Arrived;
      ghost var w := View();
      delivered := delivered + {token};
      if key in endpoints {
        assert endpoints == endpoints[key := endpoints[key]];
        var at := Position(endpoints[key].inFlight, token);
        if at.Some? {
          PumpGrows(key, Arrived(Here(key), at.value, result), false);
          Arrive(key, at.value, result);
          Pump(key);
        }
        assert endpoints == w.endpoints[key := endpoints[key]];
      }
      assert nextToken == |origins| && View() == Perform(w, Action.Finish(token));
      PerformKeepsInv(w, Action.Finish(token));
    }

    /** Keeps the result, or, for a read unlinked by a pause, starts again from its message. */
    method Arrive(key: Key, i: nat, result: TransferResult)
      requires key in endpoints && i < |endpoints[key].inFlight|
      requires InRange(Arrived(Here(key), i, result).session)
      modifies this`endpoints, session
      ensures key in endpoints && endpoints == old(endpoints)[key := endpoints[key]]
      ensures Here(key) == Arrived(old(Here(key)), i, result)
    {
      hide Cancel;
      var ep := endpoints[key];
      var f := ep.inFlight[i];
      if f.unlinking && result.Err? && result.error.Unlinked? {
        endpoints := endpoints[key := ep.(inFlight := ep.inFlight[..i])];
        UnlinkAll(ep.inFlight[i + 1..]);
      } else {
        endpoints := endpoints[key := ep.(inFlight := ep.inFlight[i := f.(result := Some(result))])];
      }
    }
  }
}
