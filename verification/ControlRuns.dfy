/**
 * A control endpoint tells the host exactly what a simple model of control transfers (section 8.5.3
 * of the USB 2.0 specification) would: one message after the other, each data or status stage with
 * the answer to its own URB, through pauses, late replies and a lost connection.
 */
module ControlRuns {
  import opened Common
  import opened Wire
  import opened Session
  import opened Engine
  import opened Moves
  import opened EngineProofs
  import opened World
  import opened WorldProofs
  import opened Touches
  import opened Once
  import opened Pipelining

  // ---------------------------------------------------------------- control transfers

  /**
   * Where the conversation stands: the Setup being worked on, whether its data stage is over, the
   * totals of a configuration UAS was hidden from, and what the host has been told.
   */
  datatype Talk = Talk(setup: Option<Setup>, done: bool, hidden: Option<(nat, nat)>,
                       log: seq<Report>)

  const SILENCE: Talk := Talk(None, false, None, [])

  function Say(talk: Talk, r: Report): Talk {
    talk.(log := talk.log + [r])
  }

  function DirectionIn(setup: Setup): Direction {
    if setup[0] >= 0x80 then In else Out
  }

  /** The data stage moves at most `wLength` bytes. */
  function StageLength(setup: Setup, length: u32): u32 {
    var w: u32 := setup[6] as int + 256 * setup[7] as int;
    if length < w then length else w
  }

  function AfterData(talk: Talk, setup: Setup, i: nat, out: Outcome): Talk {
    if setup[0] == 0x80 && setup[1] == 0x06 && setup[3] == 2 then
      var r := Rewritten(out.data, talk.hidden);
      var n := if |r.0| < out.length then |r.0| else out.length;
      Say(talk, Report(i, out.status, r.0, n)).(done := true, hidden := r.1)
    else Say(talk, Report(i, out.status, out.data, out.length)).(done := true)
  }

  /** One message. `answer` is that to its URB; none if it could not be sent any more. */
  function Turn(talk: Talk, m: Message, i: nat, answer: Option<TransferResult>): Talk {
    var gone := Say(talk, Report(i, Offline, [], 0));
    var wrong := Say(talk, Report(i, Failure, [], 0));
    match m.transfer
    case SetupStage(bytes) =>
      Say(talk, Report(i, Success, [], 0)).(setup := Some(bytes), done := false)
    case Normal(length) =>
      if talk.setup.None? || talk.done then wrong
      else
        var setup := talk.setup.value;
        var n := StageLength(setup, length);
        if DirectionIn(setup) == Out && |m.buffer| < n then wrong
        else if answer.None? then gone
        else AfterData(talk, setup, i, OutcomeOf(ControlData, DirectionIn(setup), n, answer.value))
    case StatusStage =>
      if talk.setup.None? || talk.done then
        Say(talk, Report(i, Success, [], 0)).(setup := None, done := false)
      else if answer.None? then gone
      else
        var out := OutcomeOf(ControlStatus, DirectionIn(talk.setup.value), 0, answer.value);
        Say(talk, Report(i, out.status, out.data, out.length)).(setup := None, done := false)
    case Link(_) => Say(talk, Report(i, Success, [], 0))
    case _ => wrong
  }

  /** Messages `from` to `end`, one after the other. */
  function Talks(tape: seq<Message>, from: nat, end: nat, answers: nat -> Option<TransferResult>)
    : (talk: Talk)
    requires from <= end <= |tape|
    decreases end
  {
    if end == from then SILENCE
    else Turn(Talks(tape, from, end - 1, answers), tape[end - 1], end - 1, answers(end - 1))
  }

  lemma {:induction false} LongerTapeTalks(tape: seq<Message>, tape': seq<Message>, from: nat,
                                           end: nat, answers: nat -> Option<TransferResult>)
    requires from <= end <= |tape| && tape <= tape'
    ensures Talks(tape', from, end, answers) == Talks(tape, from, end, answers)
    decreases end
  {
    if end > from {
      LongerTapeTalks(tape, tape', from, end - 1, answers);
    }
  }

  /** The Setup being worked on is the last one the host has placed before the head. */
  lemma {:induction false} WorkingOnTheLastSetup(tape: seq<Message>, from: nat, end: nat,
                                                 answers: nat -> Option<TransferResult>)
    requires from <= end <= |tape|
    ensures var setup := Talks(tape, from, end, answers).setup;
            setup.Some? ==>
              exists k :: from <= k < end && tape[k].transfer == SetupStage(setup.value)
                          && forall j :: k < j < end ==> !tape[j].transfer.SetupStage?
    decreases end
  {
    if end > from {
      WorkingOnTheLastSetup(tape, from, end - 1, answers);
      var before, after := Talks(tape, from, end - 1, answers), Talks(tape, from, end, answers);
      TurnSetup(before, tape[end - 1], end - 1, answers(end - 1));
      assert after == Turn(before, tape[end - 1], end - 1, answers(end - 1));
      hide Turn, Talks;
      if tape[end - 1].transfer.SetupStage? {
        assert tape[end - 1].transfer == SetupStage(after.setup.value);
      } else if after.setup.Some? {
        var k :| from <= k < end - 1 && tape[k].transfer == SetupStage(before.setup.value)
                 && forall j :: k < j < end - 1 ==> !tape[j].transfer.SetupStage?;
        assert tape[k].transfer == SetupStage(after.setup.value);
      }
    }
  }

  lemma TurnSetup(talk: Talk, m: Message, i: nat, answer: Option<TransferResult>)
    ensures var after := Turn(talk, m, i, answer).setup;
            if m.transfer.SetupStage? then after == Some(m.transfer.bytes)
            else after == talk.setup || after == None
  {
    hide OutcomeOf, Rewritten;
  }

  // ---------------------------------------------------------------- the endpoint's side of it

  function TalkOf(ep: Endpoint): Talk {
    Talk(if ep.setup.Some? then Some(ep.setup.value.bytes) else None,
         ep.setup.Some? && ep.setup.value.dataDone, ep.hiddenConfig, Log(ep.ring.acts))
  }

  /** The URB in flight is for the stage the message stands for. */
  predicate StageFor(ep: Endpoint, f: InFlight, m: Message) {
    && ep.setup.Some? && !ep.setup.value.dataDone
    && var setup := ep.setup.value.bytes;
       && f.direction == DirectionIn(setup)
       && match m.transfer
          case Normal(length) =>
            && f.stage == ControlData && f.length == StageLength(setup, length)
            && (f.direction == Out ==> |m.buffer| >= f.length)
          case StatusStage => f.stage == ControlStatus && f.length == 0
          case _ => false
  }

  ghost predicate Talking(key: Key, x: Scope, from: nat) {
    && Advancing(key, x) && Depth(x.ep.info.kind) == 1 && |x.ep.inFlight| <= 1
    && from <= x.ep.ring.head <= |x.ep.ring.tape|
    && (x.ep.inFlight != [] ==>
          && x.ep.ring.head < |x.ep.ring.tape|
          && StageFor(x.ep, x.ep.inFlight[0], x.ep.ring.tape[x.ep.ring.head]))
  }

  /**
   * `answers` says what the server answered to each message's URB, and after the connection is lost
   * that messages never sent get no answer.
   */
  ghost predicate Heard(key: Key, x: Scope, answers: nat -> Option<TransferResult>) {
    && (forall t :: 0 <= t < |x.origins| && From(x.origins[t], key, x.ep.ring.id)
                    && Urb(t) in x.session.replies ==>
          answers(x.origins[t].message) == Some(x.session.replies[Urb(t)]))
    && (x.session.closed.Some? ==>
          forall m: nat :: NeverSent(key, x, m) ==> answers(m) == None)
  }

  ghost predicate Follows(key: Key, x: Scope, from: nat, answers: nat -> Option<TransferResult>)
    requires from <= x.ep.ring.head <= |x.ep.ring.tape|
  {
    Heard(key, x, answers) ==>
      TalkOf(x.ep) == Talks(x.ep.ring.tape, from, x.ep.ring.head, answers)
  }

  ghost predicate Conversing(key: Key, x: Scope, from: nat,
                             answers: nat -> Option<TransferResult>)
  {
    Talking(key, x, from) && Follows(key, x, from, answers)
  }

  // ---------------------------------------------------------------- moves

  /** What the engine plans for the head, as the conversation stands. */
  lemma ControlPlanIs(key: Key, x: Scope)
    requires IsControl(key) && x.ep.ring.head < |x.ep.ring.tape|
    ensures var m, talk := x.ep.ring.tape[x.ep.ring.head], TalkOf(x.ep);
            match PlanFor(key, x)
            case Wait => true
            case Answer(status, setup) =>
              forall i, answer ::
                Turn(talk, m, i, answer)
                == Say(talk, Report(i, status, [], 0)).(
                   setup := if setup.Some? then Some(setup.value.bytes) else None,
                   done := setup.Some? && setup.value.dataDone)
            case Ask(req, stage) =>
              && talk.setup.Some? && !talk.done && req.direction == DirectionIn(talk.setup.value)
              && ((m.transfer.Normal? && stage == ControlData
                   && req.length == StageLength(talk.setup.value, m.transfer.length)
                   && (Acceptable(req) <==>
                         (req.direction == Out ==> |m.buffer| >= req.length)))
                  || (m.transfer.StatusStage? && stage == ControlStatus && req.length == 0
                      && Acceptable(req)))
  {
    hide Log;
  }

  lemma ApplyTalks(key: Key, x: Scope, y: Scope, from: nat)
    requires Talking(key, x, from) && ApplyMove(x, y)
    ensures TalkOf(y.ep)
            == Turn(TalkOf(x.ep), x.ep.ring.tape[x.ep.ring.head], x.ep.ring.head,
                    x.ep.inFlight[0].result)
    ensures y.ep.ring.head == x.ep.ring.head + 1 && y.ep.ring.tape == x.ep.ring.tape
    ensures y.ep.ring.id == x.ep.ring.id && y.ep.info == x.ep.info
    ensures y.ep.inFlight == [] && y.session == x.session && y.origins == x.origins
  {
    assert Accepts(x.ep.ring);
    hide OutcomeOf, Rewritten, Log, Advancing;
    LogAppend(x.ep.ring.acts, y.ep.ring.acts[|x.ep.ring.acts|]);
    assert y.ep.ring.acts == x.ep.ring.acts + [y.ep.ring.acts[|x.ep.ring.acts|]];
  }

  /** Completing the head as the conversation goes on keeps to it. */
  lemma TurnFollows(key: Key, x: Scope, y: Scope, from: nat,
                    answers: nat -> Option<TransferResult>)
    requires Talking(key, x, from) && Follows(key, x, from, answers)
    requires x.ep.ring.head < |x.ep.ring.tape|
    requires y.ep.ring.head == x.ep.ring.head + 1 && y.ep.ring.tape == x.ep.ring.tape
    requires y.ep.ring.id == x.ep.ring.id && y.session == x.session && y.origins == x.origins
    requires Heard(key, x, answers) ==>
               TalkOf(y.ep) == Turn(TalkOf(x.ep), x.ep.ring.tape[x.ep.ring.head], x.ep.ring.head,
                                    answers(x.ep.ring.head))
    ensures Follows(key, y, from, answers)
  {
    hide Turn, TalkOf, Advancing;
    if Heard(key, y, answers) {
      assert Heard(key, x, answers) by {
        assert forall m :: NeverSent(key, x, m) ==> NeverSent(key, y, m);
      }
    }
  }

  lemma ApplyFollows(key: Key, x: Scope, y: Scope, from: nat,
                     answers: nat -> Option<TransferResult>)
    requires Good(key, x) && Talking(key, x, from) && Follows(key, x, from, answers)
    requires ApplyMove(x, y)
    ensures Follows(key, y, from, answers)
  {
    hide Turn, TalkOf, Follows;
    var f := x.ep.inFlight[0];
    assert Traces(key, x.ep.ring, f, x.origins);
    assert EntryMatched(f, x.session);
    ApplyTalks(key, x, y, from);
    TurnFollows(key, x, y, from, answers);
  }

  lemma AnsweredTalks(key: Key, x: Scope, status: Status, setup: Option<SetupState>)
    requires Accepts(x.ep.ring)
    ensures var ep := Answered(x.ep, status, setup);
            && TalkOf(ep) == Say(TalkOf(x.ep), Report(x.ep.ring.head, status, [], 0)).(
                             setup := if setup.Some? then Some(setup.value.bytes) else None,
                             done := setup.Some? && setup.value.dataDone)
            && ep.ring.head == x.ep.ring.head + 1 && ep.ring.tape == x.ep.ring.tape
            && ep.ring.id == x.ep.ring.id && ep.inFlight == x.ep.inFlight && ep.info == x.ep.info
  {
    hide Log;
    LogAppend(x.ep.ring.acts, Done(x.ep.ring.head, status, [], 0, None));
  }

  lemma AnswerFollows(key: Key, x: Scope, y: Scope, from: nat,
                      answers: nat -> Option<TransferResult>)
    requires IsControl(key) && Talking(key, x, from) && Follows(key, x, from, answers)
    requires AnswerMove(key, x, y)
    ensures Follows(key, y, from, answers)
  {
    hide Follows, HeadPlan, Answered, Turn, TalkOf;
    ControlPlanIs(key, x);
    AnsweredTalks(key, x, PlanFor(key, x).status, PlanFor(key, x).setup);
    TurnFollows(key, x, y, from, answers);
  }

  lemma RefusedTurn(key: Key, x: Scope, answers: nat -> Option<TransferResult>)
    requires IsControl(key) && Advancing(key, x) && AtHead(x) && PlanFor(key, x).Ask?
    requires HeadPush(key, x).Err? && Heard(key, x, answers)
    ensures var e, head := HeadPush(key, x).error, x.ep.ring.head;
            Turn(TalkOf(x.ep), x.ep.ring.tape[head], head, answers(head))
            == Say(TalkOf(x.ep), Report(head, ErrorStatus(e), [], 0))
  {
    hide HeadPlan, TalkOf, AfterData;
    ControlPlanIs(key, x);
    assert NeverSent(key, x, x.ep.ring.head);
  }

  lemma RefuseFollows(key: Key, x: Scope, y: Scope, from: nat,
                      answers: nat -> Option<TransferResult>)
    requires IsControl(key) && Talking(key, x, from) && Follows(key, x, from, answers)
    requires RefuseMove(key, x, y)
    ensures Follows(key, y, from, answers)
  {
    hide Follows, HeadPlan, Answered, Turn, HeadPush;
    if Heard(key, x, answers) { RefusedTurn(key, x, answers); }
    AnsweredTalks(key, x, ErrorStatus(HeadPush(key, x).error), x.ep.setup);
    SameSetup(x.ep);
    hide TalkOf;
    TurnFollows(key, x, y, from, answers);
  }

  lemma SameSetup(ep: Endpoint)
    ensures TalkOf(ep).setup == (if ep.setup.Some? then Some(ep.setup.value.bytes) else None)
    ensures TalkOf(ep).done == (ep.setup.Some? && ep.setup.value.dataDone)
  {
  }

  lemma SendFollows(key: Key, x: Scope, y: Scope, from: nat,
                    answers: nat -> Option<TransferResult>)
    requires Good(key, x) && Talking(key, x, from) && Follows(key, x, from, answers)
    requires SendMove(key, x, y)
    ensures Follows(key, y, from, answers)
  {
    hide Good, HeadPlan, Log, Advancing;
    LogAppend(x.ep.ring.acts, Sent(|x.origins|, x.ep.ring.head));
    assert TalkOf(y.ep) == TalkOf(x.ep);
    hide TalkOf, Talks;
    if Heard(key, y, answers) {
      assert x.session.closed.None?;
      forall t | 0 <= t < |x.origins| && From(x.origins[t], key, x.ep.ring.id)
                 && Urb(t) in x.session.replies
        ensures answers(x.origins[t].message) == Some(x.session.replies[Urb(t)])
      {
        assert y.origins[t] == x.origins[t];
      }
      assert Heard(key, x, answers);
    }
  }

  lemma MoveKeepsTalking(key: Key, x: Scope, y: Scope, from: nat)
    requires IsControl(key) && Good(key, x) && Talking(key, x, from) && Move(key, x, y)
    ensures Talking(key, y, from) && !DropMove(x, y) && !AheadMove(key, x, y)
  {
    hide HeadPlan, Answered, Applied, Cancel, TalkOf;
    assert Advancing(key, y) by { hide Move; MoveKeepsAdvancing(key, x, y); }
    NoOtherMoves(key, x, y, from);
    hide Good, DropMove, AheadMove;
    if ApplyMove(x, y) {
      ApplyTalks(key, x, y, from);
    } else if AnswerMove(key, x, y) {
      AnsweredTalks(key, x, PlanFor(key, x).status, PlanFor(key, x).setup);
    } else if RefuseMove(key, x, y) {
      AnsweredTalks(key, x, ErrorStatus(HeadPush(key, x).error), x.ep.setup);
    } else {
      SendStage(key, x, y, from);
    }
  }

  lemma NoOtherMoves(key: Key, x: Scope, y: Scope, from: nat)
    requires Talking(key, x, from)
    ensures !DropMove(x, y) && !AheadMove(key, x, y)
  {
    hide Cancel, Push, StageFor;
  }

  lemma SendStage(key: Key, x: Scope, y: Scope, from: nat)
    requires IsControl(key) && Talking(key, x, from) && SendMove(key, x, y) && Advancing(key, y)
    ensures Talking(key, y, from)
  {
    hide HeadPlan, Advancing, Turn, Log;
    ControlPlanIs(key, x);
  }

  lemma MoveFollows(key: Key, x: Scope, y: Scope, from: nat,
                    answers: nat -> Option<TransferResult>)
    requires IsControl(key) && Good(key, x) && Conversing(key, x, from, answers) && Move(key, x, y)
    ensures Conversing(key, y, from, answers)
  {
    hide Good, Follows, Talking, ApplyMove, AnswerMove, RefuseMove, SendMove, DropMove, AheadMove;
    MoveKeepsTalking(key, x, y, from);
    assert from <= x.ep.ring.head <= |x.ep.ring.tape| by { HeadBetween(key, x, from); }
    HeadBetween(key, y, from);
    if ApplyMove(x, y) {
      ApplyFollows(key, x, y, from, answers);
    } else if AnswerMove(key, x, y) {
      AnswerFollows(key, x, y, from, answers);
    } else if RefuseMove(key, x, y) {
      RefuseFollows(key, x, y, from, answers);
    } else {
      SendFollows(key, x, y, from, answers);
    }
  }

  lemma HeadBetween(key: Key, x: Scope, from: nat)
    requires Talking(key, x, from)
    ensures from <= x.ep.ring.head <= |x.ep.ring.tape|
  {
  }

  // ---------------------------------------------------------------- touches and runs

  /** The endpoint is not reset, moved or given another depth, and the host takes completions. */
  const CALM: set<Touch> := STEADY - {Redepthing}

  /** Nothing changes but the ring's tape, its activity, the description or a result. */
  lemma SideTouchFollows(key: Key, x: Scope, y: Scope, from: nat,
                         answers: nat -> Option<TransferResult>)
    requires Conversing(key, x, from, answers) && Advancing(key, y)
    requires x.ep.ring.tape <= y.ep.ring.tape && y.ep.ring.head == x.ep.ring.head
    requires y.ep.ring.id == x.ep.ring.id && y.ep.ring.acts == x.ep.ring.acts
    requires y.ep.setup == x.ep.setup && y.ep.hiddenConfig == x.ep.hiddenConfig
    requires Depth(y.ep.info.kind) == Depth(x.ep.info.kind)
    requires |y.ep.inFlight| == |x.ep.inFlight|
    requires forall i :: 0 <= i < |x.ep.inFlight| ==>
               y.ep.inFlight[i].(result := x.ep.inFlight[i].result) == x.ep.inFlight[i]
    requires Heard(key, y, answers) ==> Heard(key, x, answers)
    ensures Conversing(key, y, from, answers)
  {
    hide Heard, Advancing, Log;
    LongerTapeTalks(x.ep.ring.tape, y.ep.ring.tape, from, x.ep.ring.head, answers);
    assert TalkOf(y.ep) == TalkOf(x.ep);
  }

  lemma HeardBefore(key: Key, x: Scope, y: Scope, answers: nat -> Option<TransferResult>)
    requires Heard(key, y, answers) && y.ep.ring.id == x.ep.ring.id
    requires (y.session == x.session && y.origins == x.origins) || LeavesAlone(key, x, y)
    ensures Heard(key, x, answers)
  {
    assert forall k :: 0 <= k < |x.origins| ==> y.origins[k] == x.origins[k];
    assert forall m :: NeverSent(key, x, m) ==> NeverSent(key, y, m);
  }

  lemma TouchFollows(key: Key, x: Scope, y: Scope, t: Touch, from: nat,
                     answers: nat -> Option<TransferResult>)
    requires IsControl(key) && Good(key, x) && Conversing(key, x, from, answers)
    requires Touched(key, x, y, t) && t in CALM
    ensures Conversing(key, y, from, answers)
  {
    if t == Pumping {
      hide Move, Conversing;
      MoveFollows(key, x, y, from, answers);
    } else if t == Syncing {
      assert false;
    } else {
      assert Advancing(key, y) by {
        hide Touched;
        TouchKeepsAdvancing(key, x, y, t);
      }
      hide Conversing, Heard, LeavesAlone;
      if Heard(key, y, answers) { QuietTouch(key, x, y, t); HeardBefore(key, x, y, answers); }
      QuietTouch(key, x, y, t);
      SideTouchFollows(key, x, y, from, answers);
    }
  }

  lemma QuietTouch(key: Key, x: Scope, y: Scope, t: Touch)
    requires IsControl(key) && Touched(key, x, y, t) && t in CALM && t != Pumping && t != Syncing
    requires Queued(key, x.ep, x.origins)
    ensures x.ep.ring.tape <= y.ep.ring.tape && y.ep.ring.head == x.ep.ring.head
    ensures y.ep.ring.id == x.ep.ring.id && y.ep.ring.acts == x.ep.ring.acts
    ensures y.ep.setup == x.ep.setup && y.ep.hiddenConfig == x.ep.hiddenConfig
    ensures Depth(y.ep.info.kind) == Depth(x.ep.info.kind)
    ensures |y.ep.inFlight| == |x.ep.inFlight|
    ensures forall i :: 0 <= i < |x.ep.inFlight| ==>
              y.ep.inFlight[i].(result := x.ep.inFlight[i].result) == x.ep.inFlight[i]
    ensures (y.session == x.session && y.origins == x.origins) || LeavesAlone(key, x, y)
  {
    hide Cancel;
    match t {
      case Arrival =>
        var i: nat :| Arrives(x, y, i);
        assert !x.ep.inFlight[i].unlinking;
      case _ =>
    }
  }

  lemma RunFollows(w: World, es: seq<Action>, key: Key, from: nat,
                   answers: nat -> Option<TransferResult>)
    requires Inv(w) && AllAllowed(w, es) && key in w.endpoints && IsControl(key)
    requires Conversing(key, ScopeAt(w, key), from, answers) && Within(w, es, key, CALM)
    ensures key in Performed(w, es).endpoints
    ensures Conversing(key, ScopeAt(Performed(w, es), key), from, answers)
  {
    hide Inv, AllAllowed, Touched, Conversing, Performed, Within;
    var p := (y: Scope) => Conversing(key, y, from, answers);
    forall x, y, t | t in CALM && p(x) && Good(key, x) && Good(key, y) && Touched(key, x, y, t)
      ensures p(y)
    {
      hide Good;
      TouchFollows(key, x, y, t, from, answers);
    }
    RunSurvives(w, es, key, p, CALM);
  }

  lemma NewEndpointConverses(w: World, e: Action, answers: nat -> Option<TransferResult>)
    requires Inv(w) && Allowed(w, e) && e.AddEndpoint? && !e.rejects && Depth(e.info.kind) == 1
    ensures var v := Perform(w, e);
            Inv(v) && Conversing(e.key, ScopeAt(v, e.key), e.head, answers)
  {
    hide Inv, Advancing;
    NewEndpointAdvances(w, e);
  }

  ghost function HeardFor(key: Key, x: Scope, m: nat): Option<TransferResult> {
    if exists t :: AnsweredBy(key, x, m, t) then
      var t :| AnsweredBy(key, x, m, t);
      Some(x.session.replies[Urb(t)])
    else None
  }

  /** The answers of a run: no message has two. */
  ghost function AllHeard(key: Key, x: Scope): nat -> Option<TransferResult> {
    (m: nat) => HeardFor(key, x, m)
  }

  lemma AllIsHeard(key: Key, x: Scope)
    requires Advancing(key, x)
    ensures Heard(key, x, AllHeard(key, x))
  {
    forall t | 0 <= t < |x.origins| && From(x.origins[t], key, x.ep.ring.id)
               && Urb(t) in x.session.replies
      ensures HeardFor(key, x, x.origins[t].message) == Some(x.session.replies[Urb(t)])
    {
      var m := x.origins[t].message;
      assert AnsweredBy(key, x, m, t);
      OneUrbAnswers(key, x, m);
    }
    forall m: nat | NeverSent(key, x, m)
      ensures HeardFor(key, x, m) == None
    {
      assert forall t :: !AnsweredBy(key, x, m, t);
    }
  }

  /**
   * From the creation of a control endpoint of depth 1 on, for every interleaving: what the host has
   * been told, and the Setup and totals the endpoint holds, are those of the conversation in which
   * the messages up to the head are taken one after the other, each with the answer to its own URB.
   * And the answers of the run are such answers.
   */
  lemma ControlFollowsTheConversation(
      speed: Speed, devid: u32, before: seq<Action>, add: Action, es: seq<Action>,
      answers: nat -> Option<TransferResult>)
    requires AllAllowed(Start(speed, devid), before)
    requires var w := Performed(Start(speed, devid), before);
             && add.AddEndpoint? && Allowed(w, add) && !add.rejects && IsControl(add.key)
             && Depth(add.info.kind) == 1
             && AllAllowed(Perform(w, add), es) && Within(Perform(w, add), es, add.key, CALM)
    ensures var v := Performed(Perform(Performed(Start(speed, devid), before), add), es);
            && add.key in v.endpoints
            && var x := ScopeAt(v, add.key);
               && add.head <= x.ep.ring.head <= |x.ep.ring.tape|
               && Heard(add.key, x, AllHeard(add.key, x))
               && (Heard(add.key, x, answers) ==>
                     TalkOf(x.ep)
                     == Talks(x.ep.ring.tape, add.head, x.ep.ring.head, answers))
  {
    hide Inv, Advancing, Heard, Performed, AllAllowed, Within, AllHeard;
    var w := Performed(Start(speed, devid), before);
    StartInv(speed, devid);
    PerformedKeepsInv(Start(speed, devid), before);
    NewEndpointConverses(w, add, answers);
    RunFollows(Perform(w, add), es, add.key, add.head, answers);
    AllIsHeard(add.key, ScopeAt(Performed(Perform(w, add), es), add.key));
  }
}
