/**
 * Everything the engine does to an endpoint from `Pump` is a chain of a few elementary moves, so
 * what every move keeps, `Pump` keeps.
 */
module Moves {
  import opened Common
  import opened Session
  import opened Engine

  /** The ring moved away from the URBs in flight: all are forgotten and cancelled. */
  ghost predicate DropMove(x: Scope, y: Scope) {
    && x.ep.ring.active && x.ep.inFlight != [] && x.ep.inFlight[0].message != x.ep.ring.head
    && y == Dropped(x, 0, 0)
  }

  /** The result of the oldest URB, which the head is waiting for, is reported. */
  ghost predicate ApplyMove(x: Scope, y: Scope) {
    && x.ep.ring.active && x.ep.inFlight != []
    && x.ep.inFlight[0].message == x.ep.ring.head && x.ep.inFlight[0].result.Some?
    && y == x.(ep := Applied(x.ep.(inFlight := x.ep.inFlight[1..]), x.ep.inFlight[0]))
  }

  /** Nothing is in flight and the head is a message. */
  ghost predicate AtHead(x: Scope) {
    x.ep.ring.active && x.ep.inFlight == [] && x.ep.ring.head < |x.ep.ring.tape|
  }

  function PlanFor(key: Key, x: Scope): Plan
    requires x.ep.ring.head < |x.ep.ring.tape|
  {
    HeadPlan(key, x.speed, x.ep, x.ep.ring.tape[x.ep.ring.head].transfer)
  }

  /** The head is completed without a URB. */
  ghost predicate AnswerMove(key: Key, x: Scope, y: Scope) {
    && AtHead(x) && PlanFor(key, x).Answer?
    && y == x.(ep := Answered(x.ep, PlanFor(key, x).status, PlanFor(key, x).setup))
  }

  ghost function HeadPush(key: Key, x: Scope): Result<Scope, TransferError>
    requires x.ep.ring.head < |x.ep.ring.tape| && PlanFor(key, x).Ask?
  {
    Push(key, x, x.ep.ring.head, PlanFor(key, x).request, PlanFor(key, x).stage)
  }

  /** The session refuses the head's URB, and the head is completed with the error. */
  ghost predicate RefuseMove(key: Key, x: Scope, y: Scope) {
    && AtHead(x) && PlanFor(key, x).Ask? && HeadPush(key, x).Err?
    && y == x.(ep := Answered(x.ep, ErrorStatus(HeadPush(key, x).error), x.ep.setup))
  }

  /** A URB is sent for the head. */
  ghost predicate SendMove(key: Key, x: Scope, y: Scope) {
    AtHead(x) && PlanFor(key, x).Ask? && HeadPush(key, x) == Ok(y)
  }

  /** A URB is sent for the message after those in flight. */
  ghost predicate AheadMove(key: Key, x: Scope, y: Scope) {
    && x.ep.ring.active && x.ep.inFlight != [] && x.ep.inFlight[0].message == x.ep.ring.head
    && ReadAhead(key, x).Some?
    && var (req, stage) := ReadAhead(key, x).value;
       Push(key, x, x.ep.ring.head + |x.ep.inFlight|, req, stage) == Ok(y)
  }

  ghost predicate Move(key: Key, x: Scope, y: Scope) {
    || DropMove(x, y) || ApplyMove(x, y) || AnswerMove(key, x, y) || RefuseMove(key, x, y)
    || SendMove(key, x, y) || AheadMove(key, x, y)
  }

  lemma MoveKeepsSpeed(key: Key, x: Scope, y: Scope)
    requires Move(key, x, y)
    ensures y.speed == x.speed
  {
    hide Applied, Answered, HeadPlan, ReadAhead, Cancel, Submitted;
  }

  /** `p` survives every move on the endpoint. */
  ghost predicate Keeps(key: Key, p: Scope -> bool) {
    forall x, y :: p(x) && Move(key, x, y) ==> p(y)
  }

  lemma {:induction false} FillKeeps(key: Key, x: Scope, p: Scope -> bool)
    requires x.ep.ring.active && x.ep.inFlight != [] && x.ep.inFlight[0].message == x.ep.ring.head
    requires p(x) && Keeps(key, p)
    ensures p(Fill(key, x))
    decreases 32 - |x.ep.inFlight|
  {
    var next := ReadAhead(key, x);
    if next.Some? {
      var r := Push(key, x, x.ep.ring.head + |x.ep.inFlight|, next.value.0, next.value.1);
      if r.Ok? {
        assert AheadMove(key, x, r.value);
        assert Move(key, x, r.value);
        FillKeeps(key, r.value, p);
      }
    }
  }

  /** One induction for every invariant of the engine. */
  lemma {:induction false} PumpKeeps(key: Key, x: Scope, offline: bool, p: Scope -> bool)
    requires p(x) && Keeps(key, p)
    ensures p(Pump(key, x, offline))
    decreases Left(x.ep.ring), |x.ep.inFlight|
  {
    var ep := x.ep;
    if !ep.ring.active {
    } else if ep.inFlight != [] {
      var front := ep.inFlight[0];
      if front.message != ep.ring.head {
        assert Move(key, x, Dropped(x, 0, 0));
        PumpKeeps(key, Dropped(x, 0, 0), offline, p);
      } else if front.result.Some? {
        var y := x.(ep := Applied(ep.(inFlight := ep.inFlight[1..]), front));
        assert Move(key, x, y);
        if Accepts(ep.ring) { PumpKeeps(key, y, offline || GoneOffline(front), p); }
      } else if !offline {
        FillKeeps(key, x, p);
      }
    } else if ep.ring.head < |ep.ring.tape| && !offline {
      HeadKeeps(key, x, p);
    }
  }

  lemma {:induction false} HeadKeeps(key: Key, x: Scope, p: Scope -> bool)
    requires p(x) && Keeps(key, p)
    requires x.ep.ring.active && x.ep.inFlight == [] && x.ep.ring.head < |x.ep.ring.tape|
    ensures p(Pump(key, x, false))
    decreases Left(x.ep.ring), 0, 0
  {
    var ep := x.ep;
    var plan := HeadPlan(key, x.speed, ep, ep.ring.tape[ep.ring.head].transfer);
    assert plan == PlanFor(key, x);
    match plan {
      case Wait =>
      case Answer(status, setup) =>
        var y := x.(ep := Answered(ep, status, setup));
        assert AnswerMove(key, x, y);
        assert Move(key, x, y);
        if Accepts(ep.ring) { PumpKeeps(key, y, false, p); }
      case Ask(req, stage) =>
        match Push(key, x, ep.ring.head, req, stage) {
          case Ok(y) =>
            assert SendMove(key, x, y);
            assert Move(key, x, y);
            FillKeeps(key, y, p);
          case Err(e) =>
            var y := x.(ep := Answered(ep, ErrorStatus(e), ep.setup));
            assert RefuseMove(key, x, y);
            assert Move(key, x, y);
            if Accepts(ep.ring) && ErrorStatus(e) != Offline { PumpKeeps(key, y, false, p); }
        }
    }
  }
}
