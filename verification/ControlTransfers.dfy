/**
 * One URB per control transfer (section 8.5.3 of the USB 2.0 specification): the setup, data and
 * status messages of a control transfer become a single URB.
 */
module ControlTransfers {
  import opened Common
  import opened Wire
  import opened Session
  import opened Engine
  import opened Moves
  import opened EngineProofs
  import opened World
  import opened WorldProofs
  import opened Touches
  import opened NoStaleWrites
  import opened Reports

  /** The act is the host's acceptance of a Setup message. */
  predicate TakesSetup(act: Act, tape: seq<Message>) {
    && act.Done? && act.source.None? && act.status == Success
    && act.message < |tape| && tape[act.message].transfer.SetupStage?
  }

  predicate SetupTakenAt(acts: seq<Act>, k: int, tape: seq<Message>) {
    0 <= k < |acts| && TakesSetup(acts[k], tape)
  }

  /** Between any two URBs the host has had a Setup message completed. */
  ghost predicate OnePerSetup(acts: seq<Act>, tape: seq<Message>) {
    forall i, j :: 0 <= i < j < |acts| && acts[i].Sent? && acts[j].Sent? ==>
      exists k :: i < k < j && SetupTakenAt(acts, k, tape)
  }

  /** A Setup message was completed since the last URB was sent. */
  ghost predicate SetupPending(acts: seq<Act>, tape: seq<Message>) {
    exists k :: 0 <= k < |acts| && SetupTakenAt(acts, k, tape)
                && forall j :: k < j < |acts| ==> !acts[j].Sent?
  }

  ghost predicate Frugal(key: Key, x: Scope) {
    && Depth(x.ep.info.kind) == 1 && |x.ep.inFlight| <= 1
    && OnePerSetup(x.ep.ring.acts, x.ep.ring.tape)
    && (x.ep.inFlight != [] ==>
          && x.ep.inFlight[0].message == x.ep.ring.head
          && ControlStage(x.ep.inFlight[0].stage) && x.ep.setup.Some?)
    && (x.ep.inFlight == [] && x.ep.setup.Some? && !x.ep.setup.value.dataDone ==>
          SetupPending(x.ep.ring.acts, x.ep.ring.tape) || AtRejectedSetup(x.ep))
  }

  // ---------------------------------------------------------------- growing the record

  lemma DoneKeepsOnePer(acts: seq<Act>, tape: seq<Message>, act: Act)
    requires OnePerSetup(acts, tape) && act.Done?
    ensures OnePerSetup(acts + [act], tape)
    ensures SetupPending(acts, tape) || TakesSetup(act, tape) ==> SetupPending(acts + [act], tape)
  {
    var acts' := acts + [act];
    forall i, j | 0 <= i < j < |acts'| && acts'[i].Sent? && acts'[j].Sent?
      ensures exists k :: i < k < j && SetupTakenAt(acts', k, tape)
    {
      var k :| i < k < j && SetupTakenAt(acts, k, tape);
      assert SetupTakenAt(acts', k, tape);
    }
    if TakesSetup(act, tape) {
      assert SetupTakenAt(acts', |acts|, tape);
    } else if SetupPending(acts, tape) {
      var k :| 0 <= k < |acts| && SetupTakenAt(acts, k, tape)
               && forall j :: k < j < |acts| ==> !acts[j].Sent?;
      assert SetupTakenAt(acts', k, tape);
    }
  }

  lemma SentKeepsOnePer(acts: seq<Act>, tape: seq<Message>, act: Act)
    requires OnePerSetup(acts, tape) && SetupPending(acts, tape) && act.Sent?
    ensures OnePerSetup(acts + [act], tape)
  {
    var acts' := acts + [act];
    var p :| 0 <= p < |acts| && SetupTakenAt(acts, p, tape)
             && forall j :: p < j < |acts| ==> !acts[j].Sent?;
    forall i, j | 0 <= i < j < |acts'| && acts'[i].Sent? && acts'[j].Sent?
      ensures exists k :: i < k < j && SetupTakenAt(acts', k, tape)
    {
      if j < |acts| {
        var k :| i < k < j && SetupTakenAt(acts, k, tape);
        assert SetupTakenAt(acts', k, tape);
      } else {
        assert i != p && !(p < i);
        assert SetupTakenAt(acts', p, tape);
      }
    }
  }

  lemma LongerTapeKeepsOnePer(acts: seq<Act>, tape: seq<Message>, tape': seq<Message>)
    requires tape <= tape'
    ensures OnePerSetup(acts, tape) ==> OnePerSetup(acts, tape')
    ensures SetupPending(acts, tape) ==> SetupPending(acts, tape')
  {
    assert forall k :: 0 <= k < |acts| && SetupTakenAt(acts, k, tape) ==> SetupTakenAt(acts, k, tape');
    if SetupPending(acts, tape) {
      var k :| 0 <= k < |acts| && SetupTakenAt(acts, k, tape)
               && forall j :: k < j < |acts| ==> !acts[j].Sent?;
      assert SetupTakenAt(acts, k, tape');
    }
    if OnePerSetup(acts, tape) {
      forall i, j | 0 <= i < j < |acts| && acts[i].Sent? && acts[j].Sent?
        ensures exists k :: i < k < j && SetupTakenAt(acts, k, tape')
      {
        var k :| i < k < j && SetupTakenAt(acts, k, tape);
        assert SetupTakenAt(acts, k, tape');
      }
    }
  }

  // ---------------------------------------------------------------- moves

  lemma AnswerKeepsFrugal(key: Key, x: Scope, status: Status, setup: Option<SetupState>)
    requires Frugal(key, x) && x.ep.inFlight == [] && x.ep.ring.head < |x.ep.ring.tape|
    requires var t := x.ep.ring.tape[x.ep.ring.head].transfer;
             if t.SetupStage? then status == Success && setup == Some(SetupState(t.bytes, false))
             else setup == x.ep.setup || setup == None
    ensures Frugal(key, x.(ep := Answered(x.ep, status, setup)))
  {
    hide OnePerSetup, SetupPending;
    if Accepts(x.ep.ring) {
      DoneKeepsOnePer(x.ep.ring.acts, x.ep.ring.tape, Done(x.ep.ring.head, status, [], 0, None));
    }
  }

  lemma ControlPlan(key: Key, x: Scope)
    requires IsControl(key) && x.ep.ring.head < |x.ep.ring.tape|
    ensures var t := x.ep.ring.tape[x.ep.ring.head].transfer;
            match PlanFor(key, x)
            case Wait => true
            case Answer(status, setup) =>
              if t.SetupStage? then status == Success && setup == Some(SetupState(t.bytes, false))
              else setup == x.ep.setup || setup == None
            case Ask(_, stage) =>
              !t.SetupStage? && ControlStage(stage)
              && x.ep.setup.Some? && !x.ep.setup.value.dataDone
  {
  }

  lemma SendKeepsFrugal(key: Key, x: Scope, y: Scope)
    requires IsControl(key) && Frugal(key, x) && SendMove(key, x, y)
    ensures Frugal(key, y)
  {
    hide OnePerSetup, SetupPending, HeadPlan, Submitted;
    ControlPlan(key, x);
    SentKeepsOnePer(x.ep.ring.acts, x.ep.ring.tape, Sent(|x.origins|, x.ep.ring.head));
  }

  lemma ApplyKeepsFrugal(key: Key, x: Scope, y: Scope)
    requires Frugal(key, x) && ApplyMove(x, y)
    ensures Frugal(key, y)
  {
    hide OnePerSetup, SetupPending, HideUas.Hide, OutcomeOf, Rewritten;
    var f := x.ep.inFlight[0];
    if Accepts(x.ep.ring) {
      var o := Interpreted(x.ep.(inFlight := x.ep.inFlight[1..]), f).1;
      DoneKeepsOnePer(x.ep.ring.acts, x.ep.ring.tape,
                      Done(x.ep.ring.head, o.status, o.data, o.length, Some(f.token)));
    }
  }

  lemma MoveKeepsFrugal(key: Key, x: Scope, y: Scope)
    requires IsControl(key) && Frugal(key, x) && Move(key, x, y)
    ensures Frugal(key, y)
  {
    hide Frugal, HeadPlan, Applied, Answered, Push, ReadAhead;
    if ApplyMove(x, y) {
      ApplyKeepsFrugal(key, x, y);
    } else if AnswerMove(key, x, y) {
      ControlPlan(key, x);
      AnswerKeepsFrugal(key, x, PlanFor(key, x).status, PlanFor(key, x).setup);
    } else if RefuseMove(key, x, y) {
      ControlPlan(key, x);
      AnswerKeepsFrugal(key, x, ErrorStatus(HeadPush(key, x).error), x.ep.setup);
    } else if SendMove(key, x, y) {
      SendKeepsFrugal(key, x, y);
    } else {
      NoOtherMove(key, x, y);
    }
  }

  /** With depth 1 and the ring left in place, nothing is dropped and nothing is read ahead. */
  lemma NoOtherMove(key: Key, x: Scope, y: Scope)
    requires Frugal(key, x)
    ensures !DropMove(x, y) && !AheadMove(key, x, y)
  {
    hide OnePerSetup, SetupPending, Cancel, Push;
  }

  /** The host does not change the depth, nor move the ring off a URB or a rejected Setup. */
  const ORDERLY: set<Touch> := EVERY - {Displacing, Redepthing}

  lemma TouchKeepsFrugal(key: Key, x: Scope, y: Scope, t: Touch)
    requires IsControl(key) && Frugal(key, x) && Queued(key, x.ep, x.origins)
    requires Touched(key, x, y, t) && t in ORDERLY
    ensures Frugal(key, y)
  {
    hide OnePerSetup, SetupPending, Move, Cancel;
    match t {
      case Pumping => hide Frugal; MoveKeepsFrugal(key, x, y);
      case Arrival =>
        var i: nat :| Arrives(x, y, i);
        assert !x.ep.inFlight[i].unlinking;
      case Appending => LongerTapeKeepsOnePer(x.ep.ring.acts, x.ep.ring.tape, y.ep.ring.tape);
      case _ =>
    }
  }

  // ---------------------------------------------------------------- every run

  lemma RunKeepsFrugal(w: World, es: seq<Action>, key: Key)
    requires Inv(w) && AllAllowed(w, es) && key in w.endpoints && IsControl(key)
    requires Frugal(key, ScopeAt(w, key)) && Within(w, es, key, ORDERLY)
    ensures key in Performed(w, es).endpoints && Frugal(key, ScopeAt(Performed(w, es), key))
  {
    hide Inv, AllAllowed, Touched, Frugal, Performed, Within;
    var p := (y: Scope) => Frugal(key, y);
    forall x, y, t | t in ORDERLY && p(x) && Good(key, x) && Good(key, y) && Touched(key, x, y, t)
      ensures p(y)
    {
      TouchKeepsFrugal(key, x, y, t);
    }
    RunSurvives(w, es, key, p, ORDERLY);
  }

  lemma NewEndpointIsFrugal(key: Key, x: Scope)
    requires x.ep.inFlight == [] && x.ep.ring.acts == [] && x.ep.setup.None?
    requires Depth(x.ep.info.kind) == 1
    ensures Frugal(key, x)
  {
  }

  /**
   * A control endpoint of depth 1 sends at most one URB between two Setup messages the host has
   * had completed, through pauses, resets and rejected completions, as long as the host does not
   * move the ring while the URB is in flight or off a Setup message it has rejected.
   */
  lemma OneUrbPerControlTransfer(speed: Speed, devid: u32, before: seq<Action>, add: Action,
                                 es: seq<Action>)
    requires AllAllowed(Start(speed, devid), before)
    requires var w := Performed(Start(speed, devid), before);
             && add.AddEndpoint? && Allowed(w, add)
             && IsControl(add.key) && Depth(add.info.kind) == 1
             && AllAllowed(Perform(w, add), es) && Within(Perform(w, add), es, add.key, ORDERLY)
    ensures var v := Performed(Perform(Performed(Start(speed, devid), before), add), es);
            add.key in v.endpoints
            && OnePerSetup(v.endpoints[add.key].ring.acts, v.endpoints[add.key].ring.tape)
  {
    hide Inv, OnePerSetup, SetupPending;
    var w := Performed(Start(speed, devid), before);
    StartInv(speed, devid);
    PerformedKeepsInv(Start(speed, devid), before);
    PerformKeepsInv(w, add);
    var v0 := Perform(w, add);
    NewEndpointIsFrugal(add.key, ScopeAt(v0, add.key));
    RunKeepsFrugal(v0, es, add.key);
  }

  // ---------------------------------------------------------------- why depth 1

  const EP0: Key := Key(1, 0)
  const VENDOR_READ: Setup := [0xc0, 1, 0, 0, 0, 0, 8, 0]
  const BLOCK: seq<byte> := [0, 0, 0, 0, 0, 0, 0, 0]
  const SETUP_MESSAGE: Message := Message(SetupStage(VENDOR_READ), [])
  const DATA_MESSAGE: Message := Message(Normal(8), BLOCK)
  const THREE: seq<Message> := [SETUP_MESSAGE, DATA_MESSAGE, DATA_MESSAGE]
  const FOUR: seq<Message> := [SETUP_MESSAGE, DATA_MESSAGE, SETUP_MESSAGE, DATA_MESSAGE]

  ghost function Fresh0(kind: Kind, tape: seq<Message>): Scope {
    Scope(Full, Endpoint(Ring(0, tape, 0, true, false, []), Info(kind, 64, 0), [], None, None),
          Session.Init(0), [])
  }

  function AfterSetup(kind: Kind, tape: seq<Message>): Endpoint {
    Endpoint(Ring(0, tape, 1, true, false, [Done(0, Success, [], 0, None)]), Info(kind, 64, 0), [],
             Some(SetupState(VENDOR_READ, false)), None)
  }

  lemma SetupThenData(kind: Kind, tape: seq<Message>)
    requires tape == THREE || tape == FOUR
    ensures var x := Fresh0(kind, tape).(ep := AfterSetup(kind, tape));
            && Pump(EP0, Fresh0(kind, tape), false) == Pump(EP0, x, false)
            && PlanFor(EP0, x) == Ask(ControlRequest(x.ep.ring, VENDOR_READ, 8), ControlData)
            && HeadPush(EP0, x).Ok? && Pump(EP0, x, false) == Fill(EP0, HeadPush(EP0, x).value)
  {
    var x := Fresh0(kind, tape).(ep := AfterSetup(kind, tape));
    assert Answered(Fresh0(kind, tape).ep, Success, Some(SetupState(VENDOR_READ, false))) == x.ep;
    assert WLength(VENDOR_READ) == 8;
  }

  const ONE_SENT: seq<Act> := [Done(0, Success, [], 0, None), Sent(0, 1)]

  /** The data stage is on the server, and nothing is read ahead yet. */
  ghost predicate DataOnServer(kind: Kind, y: Scope) {
    && y.ep.ring == Ring(0, THREE, 1, true, false, ONE_SENT) && y.ep.info.kind == kind
    && |y.ep.inFlight| == 1 && y.ep.inFlight[0].result.None?
    && |y.origins| == 1 && y.session.closed.None?
  }

  lemma DataIsSent(kind: Kind)
    ensures var x := Fresh0(kind, THREE).(ep := AfterSetup(kind, THREE));
            HeadPush(EP0, x).Ok? && DataOnServer(kind, HeadPush(EP0, x).value)
  {
    hide Seqnum.Next, Pump, Fill;
    SetupThenData(kind, THREE);
    var y := HeadPush(EP0, Fresh0(kind, THREE).(ep := AfterSetup(kind, THREE))).value;
    assert y.ep.ring.acts == ONE_SENT;
  }

  lemma SecondIsSent(kind: Kind, y: Scope)
    requires Depth(kind) > 1 && DataOnServer(kind, y)
    ensures var z := Fill(EP0, y);
            z.ep.ring.acts == ONE_SENT + [Sent(1, 2)] && z.ep.ring.tape == THREE
  {
    hide Seqnum.Next;
    assert Peek(y.ep.ring, 1) == Some(DATA_MESSAGE);
    var (req, stage) := ReadAhead(EP0, y).value;
    assert Acceptable(req);
    var z := Push(EP0, y, 2, req, stage).value;
    assert Peek(z.ep.ring, 2) == None;
    assert Fill(EP0, z) == z;
  }

  lemma ReadAheadOnControl(kind: Kind)
    requires Depth(kind) > 1
    ensures var y := HeadPush(EP0, Fresh0(kind, THREE).(ep := AfterSetup(kind, THREE)));
            y.Ok? && var z := Fill(EP0, y.value);
                     z.ep.ring.acts == [Done(0, Success, [], 0, None), Sent(0, 1), Sent(1, 2)]
                     && z.ep.ring.tape == THREE
  {
    hide Fill, Pump, DataOnServer, Push;
    SetupThenData(kind, THREE);
    DataIsSent(kind);
    SecondIsSent(kind, HeadPush(EP0, Fresh0(kind, THREE).(ep := AfterSetup(kind, THREE))).value);
  }

  lemma TwoSentIsTooMany()
    ensures !OnePerSetup([Done(0, Success, [], 0, None), Sent(0, 1), Sent(1, 2)], THREE)
  {
    var acts := [Done(0, Success, [], 0, None), Sent(0, 1), Sent(1, 2)];
    assert acts[1].Sent? && acts[2].Sent?;
    assert !exists k :: 1 < k < 2 && SetupTakenAt(acts, k, THREE);
  }

  /**
   * The depth is taken from the endpoint's description, not from its address: described as bulk or
   * isochronous, endpoint 0 reads ahead and sends a second URB for one Setup. So a control endpoint
   * is safe for every kind of depth 1 (`OneUrbPerControlTransfer`) and for no other.
   */
  lemma DeepControlEndpointSendsTwice(kind: Kind)
    requires Depth(kind) > 1
    ensures var add := AddEndpoint(EP0, Info(kind, 64, 0), THREE, 0, true, false);
            var w := Perform(Start(Full, 0), add);
            && Allowed(Start(Full, 0), add) && Allowed(w, Doorbell(EP0))
            && EP0 in Perform(w, Doorbell(EP0)).endpoints
            && var ring := Perform(w, Doorbell(EP0)).endpoints[EP0].ring;
               !OnePerSetup(ring.acts, ring.tape)
  {
    hide Pump, Fill, HeadPlan, OnePerSetup, Push, Cancel;
    var add := AddEndpoint(EP0, Info(kind, 64, 0), THREE, 0, true, false);
    var w := Perform(Start(Full, 0), add);
    assert ScopeAt(w, EP0) == Fresh0(kind, THREE);
    SetupThenData(kind, THREE);
    ReadAheadOnControl(kind);
    TwoSentIsTooMany();
  }

  /** The URB for the first data message is in flight, and the host has moved on to the second. */
  ghost function Displaced(): Scope {
    var y := HeadPush(EP0, Fresh0(Control, THREE).(ep := AfterSetup(Control, THREE))).value;
    y.(ep := y.ep.(ring := y.ep.ring.(head := 2)))
  }

  lemma SendsAgainAfterDisplacement()
    ensures var z := Pump(EP0, Displaced(), false);
            z.ep.ring.acts == [Done(0, Success, [], 0, None), Sent(0, 1), Sent(1, 2)]
            && z.ep.ring.tape == THREE
  {
    hide Seqnum.Next;
    SetupThenData(Control, THREE);
    var x := Displaced();
    assert x.ep.ring.acts == [Done(0, Success, [], 0, None), Sent(0, 1)];
    var y := Dropped(x, 0, 0);
    assert y.session.closed == None by {
      CancelKeepsClosed(x.session, x.ep.inFlight[0..]);
    }
    assert WLength(VENDOR_READ) == 8;
    assert PlanFor(EP0, y) == Ask(ControlRequest(y.ep.ring, VENDOR_READ, 8), ControlData);
    var z := HeadPush(EP0, y).value;
    assert z.ep.ring.acts == [Done(0, Success, [], 0, None), Sent(0, 1), Sent(1, 2)];
    assert Fill(EP0, z) == z;
  }

  /** Moving the ring off a control URB in flight lets the same Setup be sent again. */
  lemma DisplacedControlUrbIsSentAgain()
    ensures var add := AddEndpoint(EP0, Info(Control, 64, 0), THREE, 0, true, false);
            var w0 := Perform(Start(Full, 0), add);
            var w1 := Perform(w0, Doorbell(EP0));
            var w2 := Perform(w1, MoveHead(EP0, 2));
            var w3 := Perform(w2, Doorbell(EP0));
            && Allowed(Start(Full, 0), add) && Allowed(w1, MoveHead(EP0, 2))
            && EP0 in w3.endpoints
            && !OnePerSetup(w3.endpoints[EP0].ring.acts, w3.endpoints[EP0].ring.tape)
  {
    hide Pump, HeadPlan, OnePerSetup, Seqnum.Next, Cancel;
    var add := AddEndpoint(EP0, Info(Control, 64, 0), THREE, 0, true, false);
    var w0 := Perform(Start(Full, 0), add);
    assert ScopeAt(w0, EP0) == Fresh0(Control, THREE);
    SetupThenData(Control, THREE);
    var y := HeadPush(EP0, Fresh0(Control, THREE).(ep := AfterSetup(Control, THREE))).value;
    assert Fill(EP0, y) == y;
    var w2 := Perform(Perform(w0, Doorbell(EP0)), MoveHead(EP0, 2));
    assert ScopeAt(w2, EP0) == Displaced();
    SendsAgainAfterDisplacement();
    TwoSentIsTooMany();
  }

  /** The first transfer's URB is on the server. */
  ghost function Begun(): Scope {
    var x := Fresh0(Control, FOUR).(ep := AfterSetup(Control, FOUR));
    SetupThenData(Control, FOUR);
    HeadPush(EP0, x).value
  }

  lemma BeginsWithOneUrb()
    ensures Pump(EP0, Fresh0(Control, FOUR), false) == Begun()
    ensures Begun().ep.ring == Ring(0, FOUR, 1, true, false, ONE_SENT)
    ensures Begun().session.closed.None? && Begun().ep.info == Info(Control, 64, 0)
    ensures |Begun().origins| == 1 && Begun().speed == Full
  {
    hide Seqnum.Next;
    SetupThenData(Control, FOUR);
    assert Fill(EP0, Begun()) == Begun();
    assert Begun().ep.ring.acts == ONE_SENT;
  }

  /** The endpoint has been reset, and the host has moved on to the next Setup and rejects it. */
  ghost function Turned(): Scope {
    var y := Dropped(Begun(), 0, 0);
    y.(ep := y.ep.(setup := None, ring := y.ep.ring.(head := 2, rejects := true)))
  }

  /** The bytes of the rejected Setup are kept; the host has moved on to its data stage. */
  ghost function Skipped(): Scope {
    var x := Turned();
    x.(ep := x.ep.(setup := Some(SetupState(VENDOR_READ, false)), ring := x.ep.ring.(head := 3)))
  }

  lemma RejectedSetupIsKept()
    ensures var x := Turned();
            Pump(EP0, x, false)
            == x.(ep := x.ep.(setup := Some(SetupState(VENDOR_READ, false))))
  {
    hide Seqnum.Next, Begun, Cancel;
    BeginsWithOneUrb();
    assert Begun().ep.inFlight[..0] == [];
  }

  lemma SendsForRejectedSetup()
    ensures var z := Pump(EP0, Skipped(), false);
            z.ep.ring.acts == ONE_SENT + [Sent(1, 3)] && z.ep.ring.tape == FOUR
  {
    hide Seqnum.Next, Begun, Cancel;
    BeginsWithOneUrb();
    var x := Skipped();
    CancelKeepsClosed(Begun().session, Begun().ep.inFlight[0..]);
    assert x.ep.inFlight == [] && x.session.closed.None?;
    assert WLength(VENDOR_READ) == 8;
    assert PlanFor(EP0, x) == Ask(ControlRequest(x.ep.ring, VENDOR_READ, 8), ControlData);
    var z := HeadPush(EP0, x).value;
    assert z.ep.ring.acts == ONE_SENT + [Sent(1, 3)];
    assert Fill(EP0, z) == z;
  }

  lemma SecondSendIsTooMuch()
    ensures !OnePerSetup(ONE_SENT + [Sent(1, 3)], FOUR)
  {
    var acts := ONE_SENT + [Sent(1, 3)];
    assert acts[1].Sent? && acts[2].Sent?;
    assert !exists k :: 1 < k < 2 && SetupTakenAt(acts, k, FOUR);
  }

  /**
   * The other half of the condition on moves: the host rejects a second Setup, moves past it, and a
   * URB is sent with the bytes of a Setup it never took.
   */
  lemma RejectedSetupThenMoveSendsTwice()
    ensures var add := AddEndpoint(EP0, Info(Control, 64, 0), FOUR, 0, true, false);
            var w0 := Perform(Start(Full, 0), add);
            var w1 := Perform(w0, Doorbell(EP0));
            var w2 := Perform(w1, ResetEndpoint(EP0));
            var w3 := Perform(w2, MoveHead(EP0, 2));
            var w4 := Perform(w3, SetRejects(EP0, true));
            var w5 := Perform(w4, Doorbell(EP0));
            var w6 := Perform(w5, MoveHead(EP0, 3));
            var w7 := Perform(w6, Doorbell(EP0));
            && Allowed(Start(Full, 0), add) && Allowed(w0, Doorbell(EP0))
            && Allowed(w1, ResetEndpoint(EP0)) && Allowed(w2, MoveHead(EP0, 2))
            && Allowed(w3, SetRejects(EP0, true)) && Allowed(w4, Doorbell(EP0))
            && Allowed(w5, MoveHead(EP0, 3)) && Allowed(w6, Doorbell(EP0))
            && EP0 in w7.endpoints
            && !OnePerSetup(w7.endpoints[EP0].ring.acts, w7.endpoints[EP0].ring.tape)
  {
    hide Pump, HeadPlan, OnePerSetup, Begun, Cancel;
    var add := AddEndpoint(EP0, Info(Control, 64, 0), FOUR, 0, true, false);
    var w0 := Perform(Start(Full, 0), add);
    assert ScopeAt(w0, EP0) == Fresh0(Control, FOUR);
    BeginsWithOneUrb();
    var w1 := Perform(w0, Doorbell(EP0));
    assert ScopeAt(w1, EP0) == Begun();
    var w2 := Perform(w1, ResetEndpoint(EP0));
    var w4 := Perform(Perform(w2, MoveHead(EP0, 2)), SetRejects(EP0, true));
    assert ScopeAt(w4, EP0) == Turned();
    RejectedSetupIsKept();
    var w6 := Perform(Perform(w4, Doorbell(EP0)), MoveHead(EP0, 3));
    assert ScopeAt(w6, EP0) == Skipped();
    SendsForRejectedSetup();
    SecondSendIsTooMuch();
  }
}
