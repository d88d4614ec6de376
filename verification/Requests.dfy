/**
 * What goes out: every URB asks the server for exactly what the message it was built from asks
 * for, with that message's own bytes, and is queued as such for the wire.
 */
module Requests {
  import opened Common
  import opened Wire
  import opened Session
  import opened SessionProofs
  import opened SessionRuns
  import opened Engine
  import opened Moves
  import opened EngineProofs
  import opened World
  import opened WorldProofs
  import opened Touches
  import opened NoStaleWrites
  import opened Once

  /** OUT requests carry the first `length` bytes of the message's buffer, IN requests none. */
  predicate CarriesData(req: Request, m: Message) {
    if req.direction == Out then req.length <= |m.buffer| && req.data == m.buffer[..req.length]
    else req.data == []
  }

  /** A request on a data endpoint: the endpoint's own address and direction, no setup bytes. */
  predicate DataFor(key: Key, m: Message, req: Request) {
    && req.ep == key.address
    && req.direction == (if key.address >= 0x80 then In else Out)
    && req.setup == [0, 0, 0, 0, 0, 0, 0, 0] && req.length == LengthOf(m.transfer)
  }

  /** A request on endpoint 0: direction as in bit 7 of bmRequestType, at most wLength bytes. */
  predicate ControlFor(key: Key, m: Message, req: Request) {
    var wLength := req.setup[6] as int + 256 * req.setup[7] as int;
    && key.address % 0x80 == 0 && req.ep == 0
    && req.direction == (if req.setup[0] >= 0x80 then In else Out)
    && req.length == (if LengthOf(m.transfer) < wLength then LengthOf(m.transfer) else wLength)
    && req.isoPackets == [] && req.interval == 0 && AtOnce(req)
  }

  /** Neither flags nor a frame to start at. */
  predicate AtOnce(req: Request) {
    req.transferFlags == 0 && req.startFrame == 0
  }

  function PowerOfTwo(n: nat): nat {
    if n == 0 then 1 else 2 * PowerOfTwo(n - 1)
  }

  /**
   * None for bulk and control; `bInterval` frames for interrupt endpoints below high speed; else
   * `2 ^ (bInterval - 1)`, with `bInterval` taken as at least 1 and, in the exponent, at most 16.
   */
  predicate IsInterval(info: Info, speed: Speed, n: nat) {
    var b := if info.interval == 0 then 1 else info.interval as nat;
    if info.kind == Bulk || info.kind == Control then n == 0
    else if info.kind == Interrupt && speed in {UnknownSpeed, Low, Full} then n == b
    else n == PowerOfTwo((if b > 16 then 16 else b) - 1)
  }

  /**
   * Linux refuses periodic URBs with an interval of 0. The interval is that of the endpoint's
   * description when the URB was built.
   */
  predicate LegalInterval(speed: Speed, o: Origin) {
    && (IsInterval(o.info, speed, o.request.interval)
        || (o.stage.IsoData? && IsInterval(o.info, speed, 0) && o.request.interval == 1))
    && (o.info.kind.Interrupt? || o.info.kind.Isochronous? || o.stage.IsoData? ==>
          o.request.interval >= 1)
  }

  predicate SetupOnRing(tape: seq<Message>, setup: Setup) {
    exists k :: 0 <= k < |tape| && tape[k].transfer == SetupStage(setup)
  }

  /** The URB asks what its message asks. */
  predicate Carries(key: Key, speed: Speed, tape: seq<Message>, o: Origin)
    requires o.message < |tape|
  {
    var m, req := tape[o.message], o.request;
    && CarriesData(req, m)
    && match o.stage
       case NormalData =>
         && m.transfer.Normal? && DataFor(key, m, req) && req.isoPackets == [] && AtOnce(req)
         && LegalInterval(speed, o)
       case IsoData =>
         && m.transfer.IsoTransfer? && DataFor(key, m, req)
         && req.isoPackets == [IsoPacket(0, req.length, 0, 0)] && LegalInterval(speed, o)
         && (if m.transfer.frame.Some? then req.startFrame == m.transfer.frame.value
                                            && req.transferFlags == 0
             else req.startFrame == 0 && req.transferFlags == 0x02)
       case ControlData => m.transfer.Normal? && ControlFor(key, m, req) && SetupOnRing(tape, req.setup)
       case ControlStatus =>
         m.transfer.StatusStage? && ControlFor(key, m, req) && SetupOnRing(tape, req.setup)
  }

  /** The CMD_SUBMIT says what the request says, addressed to the endpoint's number. */
  predicate Says(c: CmdSubmit, o: Origin) {
    && c.ep == o.key.address % 0x10 && c.direction == (if o.request.direction == In then 1 else 0)
    && c.transferFlags == o.request.transferFlags && c.length == o.request.length
    && c.startFrame == o.request.startFrame && c.interval == o.request.interval
    && c.setup == o.request.setup && c.data == o.request.data
    && c.isoPackets == o.request.isoPackets
  }

  /** The URB with this token is on the queue as a CMD_SUBMIT under its number. */
  ghost predicate OnQueue(s: State, o: Origin, t: nat) {
    && Urb(t) in s.tickets
    && exists i :: 0 <= i < |s.frames| && s.frames[i].Submit? && Says(s.frames[i].submit, o)
                   && s.frames[i].submit.seqnum == s.tickets[Urb(t)].seqnum
                   && s.frames[i].submit.devid == s.devid
  }

  ghost predicate UrbOk(key: Key, x: Scope, t: nat)
    requires t < |x.origins|
  {
    From(x.origins[t], key, x.ep.ring.id) ==>
      && x.origins[t].message < |x.ep.ring.tape|
      && Carries(key, x.speed, x.ep.ring.tape, x.origins[t])
      && OnQueue(x.session, x.origins[t], t)
  }

  ghost predicate Faithful(key: Key, x: Scope) {
    && (forall t :: 0 <= t < |x.origins| ==> UrbOk(key, x, t))
    && (x.ep.setup.Some? ==> SetupOnRing(x.ep.ring.tape, x.ep.setup.value.bytes))
  }

  // ---------------------------------------------------------------- building requests

  lemma IntervalLegal(info: Info, speed: Speed)
    ensures IsInterval(info, speed, UrbInterval(info, speed))
    ensures info.kind.Interrupt? || info.kind.Isochronous? ==> UrbInterval(info, speed) >= 1
    ensures info.kind.Bulk? || info.kind.Control? ==> UrbInterval(info, speed) == 0
  {
    PowersOfTwo();
    hide PowerOfTwo;
  }

  lemma PowersOfTwo()
    ensures forall n :: 0 <= n <= 15 ==> Shifted(n) == PowerOfTwo(n)
  {
    forall n | 0 <= n <= 15
      ensures Shifted(n) == PowerOfTwo(n)
    {
      PowerSteps(n);
    }
  }

  lemma {:induction false} PowerSteps(n: nat)
    requires n <= 15
    ensures Shifted(n) == PowerOfTwo(n)
  {
    if n > 0 { PowerSteps(n - 1); }
  }

  lemma DataRequestCarries(key: Key, x: Scope, ahead: nat, o: Origin)
    requires x.ep.ring.head + ahead < |x.ep.ring.tape|
    requires o.message == x.ep.ring.head + ahead && Acceptable(o.request) && o.info == x.ep.info
    requires DataRequest(key, x.speed, x.ep, ahead, x.ep.ring.tape[o.message].transfer)
             == Some((o.request, o.stage))
    ensures Carries(key, x.speed, x.ep.ring.tape, o)
  {
    hide UrbInterval;
    IntervalLegal(x.ep.info, x.speed);
  }

  lemma PlanCarries(key: Key, x: Scope, o: Origin)
    requires x.ep.ring.head < |x.ep.ring.tape| && o.message == x.ep.ring.head
    requires PlanFor(key, x) == Ask(o.request, o.stage) && Acceptable(o.request)
    requires o.info == x.ep.info
    requires x.ep.setup.Some? ==> SetupOnRing(x.ep.ring.tape, x.ep.setup.value.bytes)
    ensures Carries(key, x.speed, x.ep.ring.tape, o)
  {
    hide UrbInterval, SetupOnRing;
    if o.stage.NormalData? || o.stage.IsoData? {
      DataRequestCarries(key, x, 0, o);
    }
  }

  // ---------------------------------------------------------------- moves

  lemma LongerTapeCarries(key: Key, speed: Speed, tape: seq<Message>, tape': seq<Message>, o: Origin)
    requires tape <= tape' && o.message < |tape| && Carries(key, speed, tape, o)
    ensures Carries(key, speed, tape', o)
  {
    SetupStaysOnRing(tape, tape', o.request.setup);
  }

  lemma SetupStaysOnRing(tape: seq<Message>, tape': seq<Message>, setup: Setup)
    requires tape <= tape'
    ensures SetupOnRing(tape, setup) ==> SetupOnRing(tape', setup)
  {
    if SetupOnRing(tape, setup) {
      var k :| 0 <= k < |tape| && tape[k].transfer == SetupStage(setup);
      assert tape'[k] == tape[k];
    }
  }

  lemma StaysQueued(s: State, s': State, o: Origin, t: nat)
    requires OnQueue(s, o, t) && s.frames <= s'.frames && s'.devid == s.devid
    requires forall c :: c in s.tickets ==> c in s'.tickets && s'.tickets[c] == s.tickets[c]
    ensures OnQueue(s', o, t)
  {
    var i :| 0 <= i < |s.frames| && s.frames[i].Submit? && Says(s.frames[i].submit, o)
             && s.frames[i].submit.seqnum == s.tickets[Urb(t)].seqnum
             && s.frames[i].submit.devid == s.devid;
    assert s'.frames[i] == s.frames[i];
  }

  /** URBs already sent stay as they were. */
  lemma UrbsStay(key: Key, x: Scope, y: Scope, t: nat)
    requires t < |x.origins| && UrbOk(key, x, t) && x.origins <= y.origins
    requires y.ep.ring.id == x.ep.ring.id && x.ep.ring.tape <= y.ep.ring.tape
    requires y.speed == x.speed
    requires x.session.frames <= y.session.frames && y.session.devid == x.session.devid
    requires forall c :: c in x.session.tickets ==>
               c in y.session.tickets && y.session.tickets[c] == x.session.tickets[c]
    ensures UrbOk(key, y, t)
  {
    hide Carries, OnQueue;
    if From(x.origins[t], key, x.ep.ring.id) {
      LongerTapeCarries(key, x.speed, x.ep.ring.tape, y.ep.ring.tape, x.origins[t]);
      StaysQueued(x.session, y.session, x.origins[t], t);
    }
  }

  lemma PushQueues(key: Key, x: Scope, message: nat, req: Request, stage: Stage)
    requires req.ep % 0x10 == key.address % 0x10
    ensures var r := Push(key, x, message, req, stage);
            r.Ok? ==>
              && Acceptable(req) && |r.value.origins| == |x.origins| + 1
              && r.value.origins[|x.origins|] == Origin(key, x.ep.ring.id, message, stage, x.ep.info, req)
              && OnQueue(r.value.session, r.value.origins[|x.origins|], |x.origins|)
              && r.value.ep.setup == x.ep.setup && r.value.ep.ring.tape == x.ep.ring.tape
              && r.value.speed == x.speed
  {
    var r := Push(key, x, message, req, stage);
    if r.Ok? {
      var s := r.value.session;
      assert s.frames[|x.session.frames|]
             == Submit(CommandOf(s, req, s.tickets[Urb(|x.origins|)].seqnum));
    }
  }

  lemma MoveKeepsOldUrbs(key: Key, x: Scope, y: Scope)
    requires Good(key, x) && Faithful(key, x) && Move(key, x, y)
    ensures forall t :: 0 <= t < |x.origins| ==> UrbOk(key, y, t)
    ensures Extends(key, x, y)
  {
    hide Good, Move;
    MoveKeepsGood(key, x, y);
    forall t | 0 <= t < |x.origins|
      ensures UrbOk(key, y, t)
    {
      hide UrbOk;
      UrbsStay(key, x, y, t);
    }
  }

  lemma MoveKeepsFaithful(key: Key, x: Scope, y: Scope)
    requires Good(key, x) && Faithful(key, x) && Move(key, x, y)
    ensures Faithful(key, y)
  {
    hide Good, Extends, Carries, OnQueue, HeadPlan, Push, Submitted, Cancel, ReadAhead;
    MoveKeepsOldUrbs(key, x, y);
    if SendMove(key, x, y) {
      var plan := PlanFor(key, x);
      PlanAddressed(key, x);
      PushQueues(key, x, x.ep.ring.head, plan.request, plan.stage);
      PlanCarries(key, x, y.origins[|x.origins|]);
    } else if AheadMove(key, x, y) {
      var (req, stage) := ReadAhead(key, x).value;
      var n := |x.ep.inFlight|;
      AheadIs(key, x);
      PushQueues(key, x, x.ep.ring.head + n, req, stage);
      DataRequestCarries(key, x, n, y.origins[|x.origins|]);
    } else {
      OtherMovesKeepSetup(key, x, y);
    }
  }

  lemma PlanAddressed(key: Key, x: Scope)
    requires x.ep.ring.head < |x.ep.ring.tape| && PlanFor(key, x).Ask?
    ensures PlanFor(key, x).request.ep % 0x10 == key.address % 0x10
  {
    hide UrbInterval;
  }

  lemma AheadIs(key: Key, x: Scope)
    requires ReadAhead(key, x).Some?
    ensures var at := x.ep.ring.head + |x.ep.inFlight|;
            && at < |x.ep.ring.tape|
            && DataRequest(key, x.speed, x.ep, |x.ep.inFlight|, x.ep.ring.tape[at].transfer)
               == ReadAhead(key, x)
            && ReadAhead(key, x).value.0.ep == key.address
  {
    hide UrbInterval;
  }

  /** Nothing is sent, and setup bytes only ever come from a Setup message. */
  lemma OtherMovesKeepSetup(key: Key, x: Scope, y: Scope)
    requires DropMove(x, y) || ApplyMove(x, y) || AnswerMove(key, x, y) || RefuseMove(key, x, y)
    requires x.ep.setup.Some? ==> SetupOnRing(x.ep.ring.tape, x.ep.setup.value.bytes)
    ensures y.origins == x.origins
    ensures y.ep.setup.Some? ==> SetupOnRing(y.ep.ring.tape, y.ep.setup.value.bytes)
  {
    hide HideUas.Hide, OutcomeOf, Cancel, DataRequest, Submitted;
  }

  lemma TouchKeepsFaithful(key: Key, x: Scope, y: Scope, t: Touch)
    requires Good(key, x) && Good(key, y) && Faithful(key, x) && Touched(key, x, y, t)
    ensures Faithful(key, y)
  {
    hide Good, Sound, Move;
    if t == Pumping {
      MoveKeepsFaithful(key, x, y);
    } else {
      GoodIsSound(key, x);
      OtherTouch(key, x, y, t);
      hide Touched;
      forall u | 0 <= u < |y.origins|
        ensures UrbOk(key, y, u)
      {
        if u < |x.origins| {
          assert UrbOk(key, x, u);
          hide UrbOk;
          UrbsStay(key, x, y, u);
        }
      }
      if y.ep.setup.Some? {
        SetupStaysOnRing(x.ep.ring.tape, y.ep.ring.tape, y.ep.setup.value.bytes);
      }
    }
  }

  lemma GoodIsSound(key: Key, x: Scope)
    requires Good(key, x)
    ensures Sound(x.session)
  {
    hide Sound;
  }

  /** Apart from pumping, nothing sends for the endpoint or gives it other setup bytes. */
  lemma OtherTouch(key: Key, x: Scope, y: Scope, t: Touch)
    requires Sound(x.session) && Touched(key, x, y, t) && t != Pumping
    ensures x.origins <= y.origins
    ensures forall u :: |x.origins| <= u < |y.origins| ==> y.origins[u].key != key
    ensures y.ep.ring.id == x.ep.ring.id && x.ep.ring.tape <= y.ep.ring.tape
    ensures y.speed == x.speed
    ensures y.ep.setup == x.ep.setup || y.ep.setup == None
    ensures AnswersKept(x.session, y.session)
  {
    hide Sound, Cancel, Move, AnswersKept, UnlinkedAt;
    SameAnswers(x.session);
    match t {
      case Arrival =>
        var i: nat :| Arrives(x, y, i);
        CancelLeavesAlone(x.session, x.ep.inFlight[i + 1..]);
      case Pausing =>
        var i: nat :| Pauses(x, y, i);
        UnlinkKeepsAnswers(x.session, x.ep.inFlight[i].seqnum);
      case Resetting => CancelLeavesAlone(x.session, x.ep.inFlight[0..]);
      case Syncing => CancelLeavesAlone(x.session, x.ep.inFlight[0..]);
      case _ =>
    }
  }

  // ---------------------------------------------------------------- every run

  lemma FaithfulSurvives(key: Key)
    ensures Survives(key, (y: Scope) => Faithful(key, y), EVERY)
  {
    hide Touched, Faithful, Good;
    var p := (y: Scope) => Faithful(key, y);
    forall x, y, t | t in EVERY && p(x) && Good(key, x) && Good(key, y) && Touched(key, x, y, t)
      ensures p(y)
    {
      TouchKeepsFaithful(key, x, y, t);
    }
  }

  /**
   * From the creation of any endpoint on, through any run that keeps it attached, every URB of its
   * ring carries what its message asks for and is queued as a CMD_SUBMIT saying so.
   */
  lemma UrbsCarryTheirMessage(speed: Speed, devid: u32, before: seq<Action>, add: Action,
                              es: seq<Action>)
    requires AllAllowed(Start(speed, devid), before)
    requires var w := Performed(Start(speed, devid), before);
             && add.AddEndpoint? && Allowed(w, add) && AllAllowed(Perform(w, add), es)
             && Within(Perform(w, add), es, add.key, EVERY)
    ensures var v := Performed(Perform(Performed(Start(speed, devid), before), add), es);
            add.key in v.endpoints && Faithful(add.key, ScopeAt(v, add.key))
  {
    hide Inv, Faithful, Performed, AllAllowed, Within;
    var w := Performed(Start(speed, devid), before);
    StartInv(speed, devid);
    PerformedKeepsInv(Start(speed, devid), before);
    PerformKeepsInv(w, add);
    var v0 := Perform(w, add);
    assert Faithful(add.key, ScopeAt(v0, add.key)) by {
      RingsAreNew(w);
      NewRingFaithful(add.key, ScopeAt(v0, add.key));
    }
    FaithfulSurvives(add.key);
    var p := (y: Scope) => Faithful(add.key, y);
    RunSurvives(v0, es, add.key, p, EVERY);
    assert p(ScopeAt(Performed(v0, es), add.key));
  }

  lemma NewRingFaithful(key: Key, x: Scope)
    requires x.ep.setup.None?
    requires forall t :: 0 <= t < |x.origins| ==> x.origins[t].ring != x.ep.ring.id
    ensures Faithful(key, x)
  {
  }
}
