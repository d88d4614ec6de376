/**
 * Keeping several URBs in flight is invisible to the host: on a data endpoint that is not paused,
 * reset or moved, the completions are those of an engine that handles one message at a time,
 * whatever order the server answers in.
 */
module Pipelining {
  import opened Common
  import opened Session
  import opened Engine
  import opened Moves
  import opened EngineProofs
  import opened World
  import opened WorldProofs
  import opened Touches
  import opened NoStaleWrites
  import opened Once

  // ---------------------------------------------------------------- one at a time

  datatype Report = Report(message: nat, status: Status, data: seq<byte>, length: nat)

  /** What the host was told, in order. */
  function Log(acts: seq<Act>): seq<Report> {
    if acts == [] then []
    else
      var last := acts[|acts| - 1];
      Log(acts[..|acts| - 1])
      + if last.Done? then [Report(last.message, last.status, last.data, last.length)] else []
  }

  /** Data stages and isochronous transfers become URBs. */
  predicate MovesData(t: Transfer) {
    t.Normal? || t.IsoTransfer?
  }

  function StageFor(t: Transfer): Stage {
    if t.Normal? then NormalData else IsoData
  }

  /** An OUT message whose buffer is shorter than it says cannot be sent. */
  predicate Sendable(key: Key, m: Message) {
    MovesData(m.transfer) && (DirectionOf(key) == Out ==> |m.buffer| >= m.transfer.length)
  }

  /** What one message is completed with, given the answer to its URB if it has one. */
  function ReportFor(key: Key, m: Message, i: nat, answer: TransferResult): Report {
    if m.transfer.Link? then Report(i, Success, [], 0)
    else if !Sendable(key, m) then Report(i, Failure, [], 0)
    else
      var o := OutcomeOf(StageFor(m.transfer), DirectionOf(key), m.transfer.length, answer);
      Report(i, o.status, o.data, o.length)
  }

  /** The completions of messages `from` to `to`, each answered before the next is looked at. */
  function OneAtATime(key: Key, tape: seq<Message>, from: nat, to: nat,
                      answers: nat -> TransferResult): (log: seq<Report>)
    requires from <= to <= |tape|
    ensures |log| == to - from
    ensures forall i :: 0 <= i < |log| ==> log[i].message == from + i
  {
    if to == from then []
    else
      OneAtATime(key, tape, from, to - 1, answers)
      + [ReportFor(key, tape[to - 1], to - 1, answers(to - 1))]
  }

  lemma LogAppend(acts: seq<Act>, act: Act)
    ensures Log(acts + [act]) == Log(acts) + if act.Done? then
                                               [Report(act.message, act.status, act.data, act.length)]
                                             else []
  {
    assert (acts + [act])[..|acts|] == acts;
  }

  lemma {:induction false} LongerTape(key: Key, tape: seq<Message>, tape': seq<Message>, from: nat,
                                      to: nat, answers: nat -> TransferResult)
    requires from <= to <= |tape| && tape <= tape'
    ensures OneAtATime(key, tape', from, to, answers) == OneAtATime(key, tape, from, to, answers)
  {
    if to > from {
      LongerTape(key, tape, tape', from, to - 1, answers);
    }
  }

  lemma {:induction false} ShorterLog(key: Key, tape: seq<Message>, from: nat, to: nat, to': nat,
                                      answers: nat -> TransferResult)
    requires from <= to <= to' <= |tape|
    ensures OneAtATime(key, tape, from, to, answers) <= OneAtATime(key, tape, from, to', answers)
    decreases to'
  {
    if to < to' {
      ShorterLog(key, tape, from, to, to' - 1, answers);
    }
  }

  // ---------------------------------------------------------------- the pipeline

  /** The URB asks for what the message asks for. */
  predicate Built(key: Key, f: InFlight, m: Message) {
    && Sendable(key, m) && f.stage == StageFor(m.transfer)
    && f.direction == DirectionOf(key) && f.length == m.transfer.length
  }

  ghost predicate Flowing(key: Key, x: Scope, from: nat) {
    && Advancing(key, x)
    && from <= x.ep.ring.head <= |x.ep.ring.tape|
    && (forall i :: 0 <= i < |x.ep.inFlight| ==>
          && !x.ep.inFlight[i].unlinking
          && x.ep.inFlight[i].message < |x.ep.ring.tape|
          && Built(key, x.ep.inFlight[i], x.ep.ring.tape[x.ep.inFlight[i].message]))
  }

  ghost predicate NeverSent(key: Key, x: Scope, m: nat) {
    forall t :: 0 <= t < |x.origins| && From(x.origins[t], key, x.ep.ring.id) ==>
      x.origins[t].message != m
  }

  /**
   * `answers` says what the server answered to each message's URB, and after the connection is
   * lost that every message never sent is answered by that.
   */
  ghost predicate Agrees(key: Key, x: Scope, answers: nat -> TransferResult) {
    && (forall t :: 0 <= t < |x.origins| && From(x.origins[t], key, x.ep.ring.id)
                    && Urb(t) in x.session.replies ==>
          answers(x.origins[t].message) == x.session.replies[Urb(t)])
    && (x.session.closed.Some? ==>
          forall m: nat :: NeverSent(key, x, m) ==>
            answers(m) == Err(Disconnected(x.session.closed.value)))
  }

  ghost predicate Refines(key: Key, x: Scope, from: nat, answers: nat -> TransferResult)
    requires from <= x.ep.ring.head <= |x.ep.ring.tape|
  {
    Agrees(key, x, answers) ==>
      Log(x.ep.ring.acts) == OneAtATime(key, x.ep.ring.tape, from, x.ep.ring.head, answers)
  }

  ghost predicate Pipelined(key: Key, x: Scope, from: nat, answers: nat -> TransferResult) {
    Flowing(key, x, from) && Refines(key, x, from, answers)
  }

  // ---------------------------------------------------------------- moves

  lemma DataPlan(key: Key, x: Scope)
    requires !IsControl(key) && x.ep.ring.head < |x.ep.ring.tape|
    ensures var m := x.ep.ring.tape[x.ep.ring.head];
            match PlanFor(key, x)
            case Wait => true
            case Answer(status, _) =>
              ReportFor(key, m, x.ep.ring.head, Err(Invalid)) == Report(x.ep.ring.head, status, [], 0)
              && !MovesData(m.transfer)
            case Ask(req, stage) =>
              MovesData(m.transfer) && stage == StageFor(m.transfer)
              && req.direction == DirectionOf(key) && req.length == m.transfer.length
              && (Acceptable(req) <==> Sendable(key, m))
  {
  }

  lemma AheadPlan(key: Key, x: Scope)
    requires ReadAhead(key, x).Some?
    ensures x.ep.ring.head + |x.ep.inFlight| < |x.ep.ring.tape|
    ensures var m := x.ep.ring.tape[x.ep.ring.head + |x.ep.inFlight|];
            var (req, stage) := ReadAhead(key, x).value;
            MovesData(m.transfer) && stage == StageFor(m.transfer)
            && req.direction == DirectionOf(key) && req.length == m.transfer.length
            && (Acceptable(req) <==> Sendable(key, m))
  {
  }

  lemma PushKeepsFlowing(key: Key, x: Scope, message: nat, req: Request, stage: Stage, y: Scope,
                         from: nat)
    requires Flowing(key, x, from) && message < |x.ep.ring.tape|
    requires Push(key, x, message, req, stage) == Ok(y) && Advancing(key, y)
    requires var m := x.ep.ring.tape[message];
             MovesData(m.transfer) && stage == StageFor(m.transfer)
             && req.direction == DirectionOf(key) && req.length == m.transfer.length
             && (Acceptable(req) <==> Sendable(key, m))
    ensures Flowing(key, y, from)
  {
    hide Advancing;
  }

  lemma AppliedOutcome(key: Key, x: Scope, y: Scope, from: nat)
    requires Flowing(key, x, from) && ApplyMove(x, y)
    ensures var f := x.ep.inFlight[0];
            var r := ReportFor(key, x.ep.ring.tape[x.ep.ring.head], x.ep.ring.head, f.result.value);
            y.ep.ring == Completion(x.ep.ring, r.status, r.data, r.length, Some(f.token))
            && y.ep.inFlight == x.ep.inFlight[1..]
            && y.session == x.session && y.origins == x.origins
  {
    hide OutcomeOf;
  }

  lemma MoveKeepsFlowing(key: Key, x: Scope, y: Scope, from: nat)
    requires !IsControl(key) && Good(key, x) && Flowing(key, x, from) && Move(key, x, y)
    ensures Flowing(key, y, from)
  {
    hide HeadPlan, ApplyMove, AnswerMove, RefuseMove, DropMove, Push, ReadAhead;
    assert Advancing(key, y) by { hide Move; MoveKeepsAdvancing(key, x, y); }
    hide Good, Advancing, Flowing;
    if ApplyMove(x, y) {
      ApplyKeepsFlowing(key, x, y, from);
    } else if SendMove(key, x, y) {
      DataPlan(key, x);
      PushKeepsFlowing(key, x, x.ep.ring.head, PlanFor(key, x).request, PlanFor(key, x).stage, y,
                       from);
    } else if AheadMove(key, x, y) {
      AheadPlan(key, x);
      var (req, stage) := ReadAhead(key, x).value;
      PushKeepsFlowing(key, x, x.ep.ring.head + |x.ep.inFlight|, req, stage, y, from);
    } else if DropMove(x, y) {
      NotDropped(key, x, y, from);
    } else {
      AnswerKeepsFlowing(key, x, y, from);
    }
  }

  lemma ApplyKeepsFlowing(key: Key, x: Scope, y: Scope, from: nat)
    requires Flowing(key, x, from) && ApplyMove(x, y) && Advancing(key, y)
    ensures Flowing(key, y, from)
  {
    hide ReportFor;
    AppliedOutcome(key, x, y, from);
    hide ApplyMove, Advancing;
  }

  lemma AnswerKeepsFlowing(key: Key, x: Scope, y: Scope, from: nat)
    requires Flowing(key, x, from) && Advancing(key, y)
    requires AnswerMove(key, x, y) || RefuseMove(key, x, y)
    ensures Flowing(key, y, from)
  {
    hide Advancing, HeadPlan, Push;
  }

  lemma NotDropped(key: Key, x: Scope, y: Scope, from: nat)
    requires Flowing(key, x, from)
    ensures !DropMove(x, y)
  {
  }

  /** Completing the head with the report its answer calls for extends the log by one. */
  lemma CompletionRefines(key: Key, x: Scope, y: Scope, from: nat, answers: nat -> TransferResult,
                          r: Report, source: Option<nat>)
    requires Flowing(key, x, from) && Refines(key, x, from, answers)
    requires x.ep.ring.head < |x.ep.ring.tape| && r.message == x.ep.ring.head
    requires y.ep.ring == Completion(x.ep.ring, r.status, r.data, r.length, source)
    requires y.session == x.session && y.origins == x.origins
    requires Agrees(key, x, answers) ==>
               r == ReportFor(key, x.ep.ring.tape[x.ep.ring.head], x.ep.ring.head,
                              answers(x.ep.ring.head))
    ensures Refines(key, y, from, answers)
  {
    hide ReportFor;
    if Agrees(key, y, answers) {
      assert Agrees(key, x, answers) by {
        assert forall m :: NeverSent(key, x, m) ==> NeverSent(key, y, m);
      }
      hide Agrees;
      var head := x.ep.ring.head;
      LogAppend(x.ep.ring.acts, Done(head, r.status, r.data, r.length, source));
    }
  }

  lemma ApplyRefines(key: Key, x: Scope, y: Scope, from: nat, answers: nat -> TransferResult)
    requires Good(key, x) && Flowing(key, x, from) && Refines(key, x, from, answers)
    requires ApplyMove(x, y)
    ensures Refines(key, y, from, answers)
  {
    hide Refines, ReportFor;
    var f := x.ep.inFlight[0];
    assert Traces(key, x.ep.ring, f, x.origins);
    assert EntryMatched(f, x.session);
    AppliedOutcome(key, x, y, from);
    var m := x.ep.ring.tape[x.ep.ring.head];
    var r := ReportFor(key, m, x.ep.ring.head, f.result.value);
    assert r.message == x.ep.ring.head by { ReportNames(key, m, x.ep.ring.head, f.result.value); }
    CompletionRefines(key, x, y, from, answers, r, Some(f.token));
  }

  lemma ReportNames(key: Key, m: Message, i: nat, answer: TransferResult)
    ensures ReportFor(key, m, i, answer).message == i
  {
  }

  lemma AnswerRefines(key: Key, x: Scope, y: Scope, from: nat, answers: nat -> TransferResult)
    requires !IsControl(key) && Flowing(key, x, from) && Refines(key, x, from, answers)
    requires AnswerMove(key, x, y)
    ensures Refines(key, y, from, answers)
  {
    hide Refines, HeadPlan;
    DataPlan(key, x);
    var r := Report(x.ep.ring.head, PlanFor(key, x).status, [], 0);
    CompletionRefines(key, x, y, from, answers, r, None);
  }

  lemma RefuseRefines(key: Key, x: Scope, y: Scope, from: nat, answers: nat -> TransferResult)
    requires !IsControl(key) && Flowing(key, x, from) && Refines(key, x, from, answers)
    requires RefuseMove(key, x, y)
    ensures Refines(key, y, from, answers)
  {
    hide Refines, HeadPlan;
    DataPlan(key, x);
    var e := HeadPush(key, x).error;
    var r := Report(x.ep.ring.head, ErrorStatus(e), [], 0);
    assert NeverSent(key, x, x.ep.ring.head);
    CompletionRefines(key, x, y, from, answers, r, None);
  }

  /** Sending a URB reports nothing. */
  lemma PushRefines(key: Key, x: Scope, message: nat, req: Request, stage: Stage, y: Scope,
                    from: nat, answers: nat -> TransferResult)
    requires Good(key, x) && Flowing(key, x, from) && Refines(key, x, from, answers)
    requires Push(key, x, message, req, stage) == Ok(y)
    ensures Refines(key, y, from, answers)
  {
    hide Good, Flowing;
    LogAppend(x.ep.ring.acts, Sent(|x.origins|, message));
    if Agrees(key, y, answers) {
      assert x.session.closed.None?;
      forall t | 0 <= t < |x.origins| && From(x.origins[t], key, x.ep.ring.id)
                 && Urb(t) in x.session.replies
        ensures answers(x.origins[t].message) == x.session.replies[Urb(t)]
      {
        assert y.origins[t] == x.origins[t];
      }
      assert Agrees(key, x, answers);
    }
  }

  lemma MoveRefines(key: Key, x: Scope, y: Scope, from: nat, answers: nat -> TransferResult)
    requires !IsControl(key) && Good(key, x) && Flowing(key, x, from)
    requires Refines(key, x, from, answers) && Move(key, x, y) && Flowing(key, y, from)
    ensures Refines(key, y, from, answers)
  {
    hide Good, Refines, HeadPlan, Push, Applied, Answered, ReadAhead, Cancel;
    if ApplyMove(x, y) {
      ApplyRefines(key, x, y, from, answers);
    } else if AnswerMove(key, x, y) {
      AnswerRefines(key, x, y, from, answers);
    } else if RefuseMove(key, x, y) {
      RefuseRefines(key, x, y, from, answers);
    } else if SendMove(key, x, y) {
      PushRefines(key, x, x.ep.ring.head, PlanFor(key, x).request, PlanFor(key, x).stage, y, from,
                  answers);
    } else if AheadMove(key, x, y) {
      var (req, stage) := ReadAhead(key, x).value;
      PushRefines(key, x, x.ep.ring.head + |x.ep.inFlight|, req, stage, y, from, answers);
    } else {
      NotDropped(key, x, y, from);
    }
  }

  // ---------------------------------------------------------------- touches and runs

  /** The endpoint is not paused, reset or moved, and the host does not turn to rejecting. */
  const UNDISTURBED: set<Touch> := STEADY - {Pausing}

  lemma AppendRefines(key: Key, x: Scope, y: Scope, from: nat, answers: nat -> TransferResult)
    requires Pipelined(key, x, from, answers) && Touched(key, x, y, Appending)
    ensures Pipelined(key, y, from, answers)
  {
    assert Flowing(key, y, from);
    if Agrees(key, y, answers) {
      assert forall m :: NeverSent(key, x, m) ==> NeverSent(key, y, m);
      assert Agrees(key, x, answers);
      LongerTape(key, x.ep.ring.tape, y.ep.ring.tape, from, x.ep.ring.head, answers);
    }
  }

  lemma ElsewhereRefines(key: Key, x: Scope, y: Scope, from: nat, answers: nat -> TransferResult)
    requires Pipelined(key, x, from, answers) && LeavesAlone(key, x, y)
    ensures Pipelined(key, y, from, answers)
  {
    assert forall k :: 0 <= k < |x.origins| ==> y.origins[k] == x.origins[k];
    assert Flowing(key, y, from);
    if Agrees(key, y, answers) {
      assert forall m :: NeverSent(key, x, m) ==> NeverSent(key, y, m);
      assert Agrees(key, x, answers);
    }
  }

  lemma SameRefines(key: Key, x: Scope, y: Scope, from: nat, answers: nat -> TransferResult)
    requires Pipelined(key, x, from, answers)
    requires y.session == x.session && y.origins == x.origins
    requires y.ep.ring.(active := x.ep.ring.active) == x.ep.ring
    requires |y.ep.inFlight| == |x.ep.inFlight|
    requires forall i :: 0 <= i < |x.ep.inFlight| ==>
               y.ep.inFlight[i].(result := x.ep.inFlight[i].result) == x.ep.inFlight[i]
    ensures Pipelined(key, y, from, answers)
  {
    assert Flowing(key, y, from);
    if Agrees(key, y, answers) {
      assert forall m :: NeverSent(key, x, m) ==> NeverSent(key, y, m);
      assert Agrees(key, x, answers);
    }
  }

  lemma ArrivalRefines(key: Key, x: Scope, y: Scope, from: nat, answers: nat -> TransferResult,
                       i: nat)
    requires Pipelined(key, x, from, answers) && Arrives(x, y, i)
    ensures Pipelined(key, y, from, answers)
  {
    assert !x.ep.inFlight[i].unlinking;
    hide Pipelined;
    SameRefines(key, x, y, from, answers);
  }

  lemma TouchKeepsPipelined(key: Key, x: Scope, y: Scope, t: Touch, from: nat,
                            answers: nat -> TransferResult)
    requires !IsControl(key) && Good(key, x) && Pipelined(key, x, from, answers)
    requires Touched(key, x, y, t) && t in UNDISTURBED
    ensures Pipelined(key, y, from, answers)
  {
    hide Good;
    match t {
      case Pumping =>
        hide Move, Flowing, Refines;
        MoveKeepsFlowing(key, x, y, from);
        HeadsOrdered(key, x, from);
        HeadsOrdered(key, y, from);
        MoveRefines(key, x, y, from, answers);
      case Arrival =>
        hide Pipelined;
        var i: nat :| Arrives(x, y, i);
        ArrivalRefines(key, x, y, from, answers, i);
      case Appending => hide Pipelined; AppendRefines(key, x, y, from, answers);
      case Elsewhere => hide Pipelined; ElsewhereRefines(key, x, y, from, answers);
      case Syncing => hide Refines, Cancel;
      case _ => hide Pipelined; SameRefines(key, x, y, from, answers);
    }
  }

  lemma HeadsOrdered(key: Key, x: Scope, from: nat)
    requires Flowing(key, x, from)
    ensures from <= x.ep.ring.head <= |x.ep.ring.tape|
  {
  }

  lemma RunKeepsPipelined(w: World, es: seq<Action>, key: Key, from: nat,
                          answers: nat -> TransferResult)
    requires Inv(w) && AllAllowed(w, es) && key in w.endpoints && !IsControl(key)
    requires Pipelined(key, ScopeAt(w, key), from, answers) && Within(w, es, key, UNDISTURBED)
    ensures key in Performed(w, es).endpoints
    ensures Pipelined(key, ScopeAt(Performed(w, es), key), from, answers)
  {
    hide Inv, AllAllowed, Touched, Pipelined, Performed, Within;
    var p := (y: Scope) => Pipelined(key, y, from, answers);
    forall x, y, t | t in UNDISTURBED && p(x) && Good(key, x) && Good(key, y)
                     && Touched(key, x, y, t)
      ensures p(y)
    {
      hide Good;
      TouchKeepsPipelined(key, x, y, t, from, answers);
    }
    RunSurvives(w, es, key, p, UNDISTURBED);
  }

  lemma NewEndpointPipelined(w: World, e: Action, answers: nat -> TransferResult)
    requires Inv(w) && Allowed(w, e) && e.AddEndpoint? && !e.rejects
    ensures var v := Perform(w, e);
            Inv(v) && Pipelined(e.key, ScopeAt(v, e.key), e.head, answers)
  {
    hide Inv, Advancing;
    NewEndpointAdvances(w, e);
  }

  // ---------------------------------------------------------------- the answers of a run

  /** The answer message `m` got. */
  ghost function AnswerTo(key: Key, x: Scope, m: nat): TransferResult {
    if exists t :: AnsweredBy(key, x, m, t) then
      var t :| AnsweredBy(key, x, m, t);
      x.session.replies[Urb(t)]
    else if x.session.closed.Some? then Err(Disconnected(x.session.closed.value))
    else Err(Invalid)
  }

  ghost predicate AnsweredBy(key: Key, x: Scope, m: nat, t: nat) {
    && t < |x.origins| && From(x.origins[t], key, x.ep.ring.id) && x.origins[t].message == m
    && Urb(t) in x.session.replies
  }

  ghost function Answers(key: Key, x: Scope): nat -> TransferResult {
    (m: nat) => AnswerTo(key, x, m)
  }

  lemma OneUrbAnswers(key: Key, x: Scope, m: nat)
    requires Advancing(key, x)
    ensures forall t, u :: AnsweredBy(key, x, m, t) && AnsweredBy(key, x, m, u) ==> t == u
  {
    forall t, u | AnsweredBy(key, x, m, t) && AnsweredBy(key, x, m, u)
      ensures t == u
    {
      if t < u {
        AdvancingOrders(key, x, t, u);
      } else if u < t {
        AdvancingOrders(key, x, u, t);
      }
    }
  }

  /** No message has two URBs, so there is one list of answers to speak of. */
  lemma AnswersExist(key: Key, x: Scope)
    requires Advancing(key, x)
    ensures Agrees(key, x, Answers(key, x))
  {
    forall t | 0 <= t < |x.origins| && From(x.origins[t], key, x.ep.ring.id)
               && Urb(t) in x.session.replies
      ensures AnswerTo(key, x, x.origins[t].message) == x.session.replies[Urb(t)]
    {
      var m := x.origins[t].message;
      assert AnsweredBy(key, x, m, t);
      OneUrbAnswers(key, x, m);
    }
  }

  /** The run attaches a data endpoint, and leaves it undisturbed from then on. */
  ghost predicate Undisturbed(w: World, add: Action, es: seq<Action>) {
    && Inv(w) && add.AddEndpoint? && Allowed(w, add) && !add.rejects && !IsControl(add.key)
    && AllAllowed(Perform(w, add), es) && Within(Perform(w, add), es, add.key, UNDISTURBED)
  }

  lemma UndisturbedIsPipelined(w: World, add: Action, es: seq<Action>,
                               answers: nat -> TransferResult)
    requires Undisturbed(w, add, es)
    ensures var v := Performed(Perform(w, add), es);
            add.key in v.endpoints && Pipelined(add.key, ScopeAt(v, add.key), add.head, answers)
  {
    hide Inv, Advancing, Performed, AllAllowed, Within, Pipelined;
    NewEndpointPipelined(w, add, answers);
    RunKeepsPipelined(Perform(w, add), es, add.key, add.head, answers);
  }

  /**
   * From the creation of a data endpoint on, for every order of replies and any amount of
   * read-ahead, the host is told exactly what handling the ring's messages one at a time would
   * tell it: every message once, in ring order, with the answer to its own URB. And the answers of
   * the run are such a list of answers.
   */
  lemma PipeliningRefinesOneAtATime(
      speed: Speed, devid: u32, before: seq<Action>, add: Action, es: seq<Action>,
      answers: nat -> TransferResult)
    requires AllAllowed(Start(speed, devid), before)
    requires var w := Performed(Start(speed, devid), before);
             && add.AddEndpoint? && Allowed(w, add) && !add.rejects && !IsControl(add.key)
             && AllAllowed(Perform(w, add), es)
             && Within(Perform(w, add), es, add.key, UNDISTURBED)
    ensures var v := Performed(Perform(Performed(Start(speed, devid), before), add), es);
            && add.key in v.endpoints
            && var x := ScopeAt(v, add.key);
               && add.head <= x.ep.ring.head <= |x.ep.ring.tape|
               && Agrees(add.key, x, Answers(add.key, x))
               && (Agrees(add.key, x, answers) ==>
                     Log(x.ep.ring.acts)
                     == OneAtATime(add.key, x.ep.ring.tape, add.head, x.ep.ring.head, answers))
  {
    hide Inv, Advancing, Agrees, Performed, AllAllowed, Within, Answers;
    var w := Performed(Start(speed, devid), before);
    StartInv(speed, devid);
    PerformedKeepsInv(Start(speed, devid), before);
    UndisturbedIsPipelined(w, add, es, answers);
    AnswersExist(add.key, ScopeAt(Performed(Perform(w, add), es), add.key));
  }

  /** In the second run the messages got the answers they got in the first. */
  ghost predicate SameAnswers(key: Key, x: Scope, y: Scope) {
    Agrees(key, y, Answers(key, x))
  }

  /**
   * Reply-order independence: two runs from the creation of the same endpoint, in which the host
   * places the same messages and each message gets the same answer, tell the host the same, up to
   * how far each has come; whatever order the answers came in, however far each read ahead, and
   * whatever else went on in the system.
   */
  lemma ReplyOrderIsInvisible(
      speed: Speed, devid: u32, before: seq<Action>, add: Action, es: seq<Action>, fs: seq<Action>)
    requires AllAllowed(Start(speed, devid), before)
    requires var w := Performed(Start(speed, devid), before);
             && add.AddEndpoint? && Allowed(w, add) && !add.rejects && !IsControl(add.key)
             && AllAllowed(Perform(w, add), es) && AllAllowed(Perform(w, add), fs)
             && Within(Perform(w, add), es, add.key, UNDISTURBED)
             && Within(Perform(w, add), fs, add.key, UNDISTURBED)
    requires var w := Perform(Performed(Start(speed, devid), before), add);
             var u, v := Performed(w, es), Performed(w, fs);
             add.key in u.endpoints && add.key in v.endpoints ==>
               && SameAnswers(add.key, ScopeAt(u, add.key), ScopeAt(v, add.key))
               && var r, s := u.endpoints[add.key].ring, v.endpoints[add.key].ring;
                  r.tape <= s.tape || s.tape <= r.tape
    ensures var w := Perform(Performed(Start(speed, devid), before), add);
            var u, v := Performed(w, es), Performed(w, fs);
            && add.key in u.endpoints && add.key in v.endpoints
            && var r, s := u.endpoints[add.key].ring, v.endpoints[add.key].ring;
               Log(r.acts) <= Log(s.acts) || Log(s.acts) <= Log(r.acts)
  {
    hide Inv, Advancing, Agrees, Performed, AllAllowed, Within, Answers, UNDISTURBED;
    var w := Performed(Start(speed, devid), before);
    StartInv(speed, devid);
    PerformedKeepsInv(Start(speed, devid), before);
    UndisturbedIsPipelined(w, add, es, _ => Err(Invalid));
    var u, v := Performed(Perform(w, add), es), Performed(Perform(w, add), fs);
    var x := ScopeAt(u, add.key);
    var answers := Answers(add.key, x);
    UndisturbedIsPipelined(w, add, es, answers);
    UndisturbedIsPipelined(w, add, fs, answers);
    AnswersExist(add.key, x);
    LogsNest(add.key, x.ep.ring, v.endpoints[add.key].ring, add.head, answers);
  }

  lemma LogsNest(key: Key, r: Ring, s: Ring, from: nat, answers: nat -> TransferResult)
    requires from <= r.head <= |r.tape| && from <= s.head <= |s.tape|
    requires r.tape <= s.tape || s.tape <= r.tape
    ensures var a := OneAtATime(key, r.tape, from, r.head, answers);
            var b := OneAtATime(key, s.tape, from, s.head, answers);
            a <= b || b <= a
    decreases r.head > s.head
  {
    if r.head > s.head {
      LogsNest(key, s, r, from, answers);
    } else if r.tape <= s.tape {
      LongerTape(key, r.tape, s.tape, from, r.head, answers);
      ShorterLog(key, s.tape, from, r.head, s.head, answers);
    } else {
      LongerTape(key, s.tape, r.tape, from, s.head, answers);
      ShorterLog(key, r.tape, from, r.head, s.head, answers);
    }
  }

  // ---------------------------------------------------------------- ring order, come what may

  /** Messages `from` to the head have been completed, once each and in order, and no others. */
  ghost predicate InRingOrder(x: Scope, from: nat) {
    && from <= x.ep.ring.head && |Log(x.ep.ring.acts)| == x.ep.ring.head - from
    && forall i :: 0 <= i < |Log(x.ep.ring.acts)| ==> Log(x.ep.ring.acts)[i].message == from + i
  }

  lemma MoveOnRing(key: Key, x: Scope, y: Scope)
    requires Move(key, x, y)
    ensures var r, s := x.ep.ring, y.ep.ring;
            || (s.head == r.head && s.acts == r.acts)
            || (s.head == r.head && |s.acts| == |r.acts| + 1 && s.acts[..|r.acts|] == r.acts
                && s.acts[|r.acts|].Sent?)
            || (s.head == r.head + 1 && |s.acts| == |r.acts| + 1 && s.acts[..|r.acts|] == r.acts
                && s.acts[|r.acts|].Done? && s.acts[|r.acts|].message == r.head)
  {
    hide HideUas.Hide, HeadPlan, OutcomeOf, Submitted, Cancel, DataRequest;
  }

  lemma TouchKeepsRingOrder(key: Key, x: Scope, y: Scope, t: Touch, from: nat)
    requires InRingOrder(x, from) && Touched(key, x, y, t) && t !in {Moving, Displacing}
    ensures InRingOrder(y, from)
  {
    hide Cancel, Move, Log;
    match t {
      case Pumping =>
        MoveOnRing(key, x, y);
        var n := |x.ep.ring.acts|;
        if |y.ep.ring.acts| > n {
          assert y.ep.ring.acts == x.ep.ring.acts + [y.ep.ring.acts[n]];
          LogAppend(x.ep.ring.acts, y.ep.ring.acts[n]);
        } else {
          assert y.ep.ring.acts == x.ep.ring.acts;
        }
      case Arrival => var i: nat :| Arrives(x, y, i);
      case Pausing => var i: nat :| Pauses(x, y, i);
      case _ =>
    }
  }

  /**
   * Whatever is paused, reset, rejected or cut off: as long as the host does not move the ring,
   * the endpoint's messages are completed in ring order, without gaps or repeats.
   */
  lemma CompletionsInRingOrder(w: World, add: Action, es: seq<Action>)
    requires Inv(w) && add.AddEndpoint? && Allowed(w, add) && AllAllowed(Perform(w, add), es)
    requires Within(Perform(w, add), es, add.key, EVERY - {Moving, Displacing})
    ensures var v := Performed(Perform(w, add), es);
            add.key in v.endpoints && InRingOrder(ScopeAt(v, add.key), add.head)
  {
    hide Inv, AllAllowed, Touched, Performed, Within, InRingOrder;
    var v0 := Perform(w, add);
    PerformKeepsInv(w, add);
    assert InRingOrder(ScopeAt(v0, add.key), add.head) by {
      BlankInOrder(ScopeAt(v0, add.key), add.head);
    }
    var p := (y: Scope) => InRingOrder(y, add.head);
    forall x, y, t | t in EVERY - {Moving, Displacing} && p(x) && Good(add.key, x)
                     && Good(add.key, y) && Touched(add.key, x, y, t)
      ensures p(y)
    {
      hide Good;
      TouchKeepsRingOrder(add.key, x, y, t, add.head);
    }
    RunSurvives(v0, es, add.key, p, EVERY - {Moving, Displacing});
    assert p(ScopeAt(Performed(v0, es), add.key));
  }

  lemma BlankInOrder(x: Scope, from: nat)
    requires x.ep.ring.acts == [] && x.ep.ring.head == from
    ensures InRingOrder(x, from)
  {
  }
}
