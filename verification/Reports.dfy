/**
 * What the host is told: every completion by a URB reports that URB's own answer, within the
 * bounds of the message.
 */
module Reports {
  import opened Common
  import opened Wire
  import opened Session
  import opened SessionProofs
  import opened Engine
  import opened Moves
  import opened EngineProofs
  import opened World
  import opened WorldProofs
  import opened Touches
  import opened NoStaleWrites
  import opened Once
  import opened Projection

  // ---------------------------------------------------------------- the setup of a control URB

  predicate ControlStage(stage: Stage) {
    stage.ControlData? || stage.ControlStatus?
  }

  /**
   * A control URB is alone at the front, and until its answer is applied the endpoint holds the
   * very setup bytes it was sent with.
   */
  ghost predicate SetupHeld(key: Key, x: Scope) {
    forall i :: 0 <= i < |x.ep.inFlight| && ControlStage(x.ep.inFlight[i].stage) ==>
      && i == 0 && IsControl(key) && x.ep.setup.Some? && !x.ep.setup.value.dataDone
      && x.ep.inFlight[i].token < |x.origins|
      && x.origins[x.ep.inFlight[i].token].request.setup == x.ep.setup.value.bytes
  }

  lemma PlanSetup(key: Key, x: Scope)
    requires x.ep.ring.head < |x.ep.ring.tape| && PlanFor(key, x).Ask?
    ensures var plan := PlanFor(key, x);
            ControlStage(plan.stage) ==>
              && IsControl(key) && x.ep.setup.Some? && !x.ep.setup.value.dataDone
              && plan.request.setup == x.ep.setup.value.bytes
    ensures !IsControl(key) ==> !ControlStage(PlanFor(key, x).stage)
  {
  }

  lemma MoveKeepsSetup(key: Key, x: Scope, y: Scope)
    requires SetupHeld(key, x) && Queued(key, x.ep, x.origins) && Move(key, x, y)
    ensures SetupHeld(key, y)
  {
    hide HideUas.Hide, HeadPlan, OutcomeOf, Submitted, Cancel;
    forall i | 0 <= i < |x.ep.inFlight|
      ensures x.ep.inFlight[i].token < |x.origins|
    {
      assert Traces(key, x.ep.ring, x.ep.inFlight[i], x.origins);
    }
    if SendMove(key, x, y) {
      PlanSetup(key, x);
    }
  }

  lemma TouchKeepsSetup(key: Key, x: Scope, y: Scope, t: Touch)
    requires SetupHeld(key, x) && Queued(key, x.ep, x.origins) && Touched(key, x, y, t)
    ensures SetupHeld(key, y)
  {
    hide Move, Cancel;
    match t {
      case Pumping => MoveKeepsSetup(key, x, y);
      case Arrival => var i: nat :| Arrives(x, y, i);
      case Pausing => var i: nat :| Pauses(x, y, i);
      case _ =>
    }
  }

  // ---------------------------------------------------------------- configurations hidden from

  /** What the answer to the URB delivers, before any rewriting. */
  ghost function AnswerData(x: Scope, t: nat): seq<byte>
    requires t < |x.origins| && Urb(t) in x.session.replies
  {
    var o := x.origins[t];
    OutcomeOf(o.stage, o.request.direction, o.request.length, x.session.replies[Urb(t)]).data
  }

  predicate ReadsConfig(o: Origin) {
    o.stage.ControlData? && ReadsConfiguration(o.request.setup)
  }

  /** The URB read a configuration for this ring, and UAS was to be hidden from the answer. */
  ghost predicate Hid(key: Key, x: Scope, t: nat) {
    && t < |x.origins| && From(x.origins[t], key, x.ep.ring.id) && ReadsConfig(x.origins[t])
    && Urb(t) in x.session.replies && HideUas.Hide(AnswerData(x, t)).Some?
  }

  /** `wTotalLength` of the configuration read, and of what is left of it. */
  ghost function Totals(key: Key, x: Scope, t: nat): (nat, nat)
    requires Hid(key, x, t)
  {
    var f := HideUas.Hide(AnswerData(x, t)).value;
    (f.original, f.total)
  }

  /**
   * What the endpoint may remember once the first `a` acts are done and of the URBs those before
   * `n` are dealt with: the totals of some configuration that UAS was hidden from, or, if no such
   * configuration was delivered, nothing.
   */
  ghost predicate Memory(key: Key, x: Scope, hidden: Option<(nat, nat)>, a: nat, n: nat) {
    && (hidden.Some? ==> exists t: nat ::
          t < n && Hid(key, x, t) && hidden.value == Totals(key, x, t))
    && (hidden.None? ==>
          forall b :: 0 <= b < a && b < |x.ep.ring.acts| && ReportsUrb(x.ep.ring.acts[b]) ==>
            !Hid(key, x, x.ep.ring.acts[b].source.value))
  }

  /** URBs up to this one are dealt with. */
  function Handled(x: Scope): nat {
    if x.ep.inFlight == [] then |x.origins| else x.ep.inFlight[0].token
  }

  ghost predicate Remembers(key: Key, x: Scope) {
    Memory(key, x, x.ep.hiddenConfig, |x.ep.ring.acts|, Handled(x))
  }

  // ---------------------------------------------------------------- answers and reports

  /** The answer's data as rewritten with what the endpoint remembered at that time. */
  ghost predicate IsRewriting(key: Key, x: Scope, a: nat, n: nat, data: seq<byte>,
                              rewritten: seq<byte>)
  {
    exists hidden: Option<(nat, nat)> ::
      Memory(key, x, hidden, a, n) && rewritten == Rewritten(data, hidden).0
  }

  /** The outcome of the answer, or that outcome with its configuration descriptor rewritten. */
  ghost predicate Explains(key: Key, x: Scope, a: nat, t: nat)
    requires a < |x.ep.ring.acts| && x.ep.ring.acts[a].Done?
    requires t < |x.origins| && Urb(t) in x.session.replies
  {
    var o, act := x.origins[t], x.ep.ring.acts[a];
    var out := OutcomeOf(o.stage, o.request.direction, o.request.length,
                         x.session.replies[Urb(t)]);
    && act.status == out.status
    && (if ReadsConfig(o) then
          && IsRewriting(key, x, a, t, out.data, act.data)
          && act.length == if |act.data| < out.length then |act.data| else out.length
        else act.data == out.data && act.length == out.length)
  }

  ghost predicate Explained(key: Key, x: Scope, a: nat)
    requires a < |x.ep.ring.acts|
  {
    var act := x.ep.ring.acts[a];
    ReportsUrb(act) ==>
      && act.source.value < |x.origins| && Urb(act.source.value) in x.session.replies
      && Explains(key, x, a, act.source.value)
  }

  ghost predicate AllExplained(key: Key, x: Scope) {
    forall a :: 0 <= a < |x.ep.ring.acts| ==> Explained(key, x, a)
  }

  lemma RewrittenNoLonger(data: seq<byte>, hidden: Option<(nat, nat)>)
    ensures |Rewritten(data, hidden).0| <= |data|
  {
    hide HideUas.Hide;
    HideUas.OutputShrinks(data);
  }

  /** The configuration answers a report depends on are there to stay. */
  ghost predicate Later(x: Scope, y: Scope) {
    && x.origins <= y.origins && x.ep.ring.acts <= y.ep.ring.acts
    && y.ep.ring.id == x.ep.ring.id
    && forall c :: c in x.session.replies ==>
         c in y.session.replies && y.session.replies[c] == x.session.replies[c]
  }

  lemma HidStays(key: Key, x: Scope, y: Scope, t: nat)
    requires Later(x, y) && t < |x.origins|
    ensures Hid(key, x, t) ==> Hid(key, y, t) && Totals(key, y, t) == Totals(key, x, t)
    ensures Urb(t) in x.session.replies ==> (Hid(key, y, t) <==> Hid(key, x, t))
  {
    hide HideUas.Hide, OutcomeOf;
  }

  lemma MemoryStays(key: Key, x: Scope, y: Scope, hidden: Option<(nat, nat)>, a: nat, n: nat, m: nat)
    requires Later(x, y) && a <= |x.ep.ring.acts| && n <= m && Memory(key, x, hidden, a, n)
    requires AllExplained(key, x)
    ensures Memory(key, y, hidden, a, m)
  {
    hide Later, Hid, Explains;
    LaterActs(x, y);
    if hidden.Some? {
      var t: nat :| t < n && Hid(key, x, t) && hidden.value == Totals(key, x, t);
      HidInside(key, x, t);
      HidStays(key, x, y, t);
    } else {
      forall b | 0 <= b < a && b < |y.ep.ring.acts| && ReportsUrb(y.ep.ring.acts[b])
        ensures !Hid(key, y, y.ep.ring.acts[b].source.value)
      {
        assert Explained(key, x, b);
        HidStays(key, x, y, x.ep.ring.acts[b].source.value);
      }
    }
  }

  lemma HidInside(key: Key, x: Scope, t: nat)
    requires Hid(key, x, t)
    ensures t < |x.origins|
  {
  }

  lemma LaterActs(x: Scope, y: Scope)
    requires Later(x, y)
    ensures |x.ep.ring.acts| <= |y.ep.ring.acts|
    ensures forall b :: 0 <= b < |x.ep.ring.acts| ==> y.ep.ring.acts[b] == x.ep.ring.acts[b]
  {
  }

  lemma ExplainedStays(key: Key, x: Scope, y: Scope, a: nat)
    requires Later(x, y) && a < |x.ep.ring.acts| && AllExplained(key, x)
    ensures Explained(key, y, a)
  {
    hide Memory, OutcomeOf, Rewritten;
    assert Explained(key, x, a);
    var act := x.ep.ring.acts[a];
    if ReportsUrb(act) && ReadsConfig(x.origins[act.source.value]) {
      var t := act.source.value;
      var hidden: Option<(nat, nat)> :|
        Memory(key, x, hidden, a, t) && act.data == Rewritten(AnswerData(x, t), hidden).0;
      MemoryStays(key, x, y, hidden, a, t, t);
      assert AnswerData(y, t) == AnswerData(x, t);
      assert act.data == Rewritten(AnswerData(y, t), hidden).0;
      assert IsRewriting(key, y, a, t, AnswerData(y, t), act.data);
    }
  }

  /** What `Interpreted` makes of an answer, spelt out. */
  lemma AppliedIs(x: Scope, y: Scope)
    requires ApplyMove(x, y)
    requires x.ep.inFlight[0].stage.ControlData? ==> x.ep.setup.Some?
    ensures var f := x.ep.inFlight[0];
            var out := OutcomeOf(f.stage, f.direction, f.length, f.result.value);
            var config := f.stage.ControlData? && ReadsConfiguration(x.ep.setup.value.bytes);
            var r := Rewritten(out.data, x.ep.hiddenConfig);
            var data := if config then r.0 else out.data;
            var length := if config && |data| < out.length then |data| else out.length;
            && y.ep.hiddenConfig == (if config then r.1 else x.ep.hiddenConfig)
            && y.ep.ring == (if Accepts(x.ep.ring)
                             then Completion(x.ep.ring, out.status, data, length, Some(f.token))
                             else x.ep.ring)
            && y.session == x.session && y.origins == x.origins
            && y.ep.inFlight == x.ep.inFlight[1..]
  {
    hide HideUas.Hide, OutcomeOf, Rewritten;
  }

  lemma FrontAnswer(key: Key, x: Scope)
    requires SetupHeld(key, x) && Queued(key, x.ep, x.origins) && Matched(x.ep, x.session)
    requires x.ep.inFlight != [] && x.ep.inFlight[0].result.Some?
    ensures var f := x.ep.inFlight[0];
            && f.token < |x.origins| && Urb(f.token) in x.session.replies
            && From(x.origins[f.token], key, x.ep.ring.id)
            && x.origins[f.token].stage == f.stage
            && AnswerData(x, f.token)
               == OutcomeOf(f.stage, f.direction, f.length, f.result.value).data
            && OutcomeOf(x.origins[f.token].stage, x.origins[f.token].request.direction,
                         x.origins[f.token].request.length, x.session.replies[Urb(f.token)])
               == OutcomeOf(f.stage, f.direction, f.length, f.result.value)
            && (f.stage.ControlData? ==>
                  x.ep.setup.Some? && x.origins[f.token].request.setup == x.ep.setup.value.bytes)
  {
    hide OutcomeOf;
    assert Traces(key, x.ep.ring, x.ep.inFlight[0], x.origins);
    assert EntryMatched(x.ep.inFlight[0], x.session);
  }

  lemma ApplyExplained(key: Key, x: Scope, y: Scope)
    requires SetupHeld(key, x) && Queued(key, x.ep, x.origins) && Matched(x.ep, x.session)
    requires AllExplained(key, x) && Remembers(key, x) && ApplyMove(x, y) && Accepts(x.ep.ring)
    ensures Later(x, y) && |y.ep.ring.acts| == |x.ep.ring.acts| + 1
    ensures Explained(key, y, |x.ep.ring.acts|)
  {
    hide OutcomeOf, Rewritten, ApplyMove, SetupHeld, Queued, Matched, Memory;
    FrontAnswer(key, x) by { ApplyFront(x, y); }
    ApplyFront(x, y);
    AppliedIs(x, y);
    hide AllExplained;
    var f := x.ep.inFlight[0];
    MemoryStays(key, x, y, x.ep.hiddenConfig, |x.ep.ring.acts|, f.token, f.token);
    if ReadsConfig(x.origins[f.token]) {
      assert IsRewriting(key, y, |x.ep.ring.acts|, f.token, AnswerData(y, f.token),
                         y.ep.ring.acts[|x.ep.ring.acts|].data);
    }
  }

  lemma ApplyFront(x: Scope, y: Scope)
    requires ApplyMove(x, y)
    ensures x.ep.inFlight != [] && x.ep.inFlight[0].result.Some?
  {
  }

  /** After an answer is applied the memory is that of the answer, or what it was. */
  lemma ApplyRemembers(key: Key, x: Scope, y: Scope)
    requires SetupHeld(key, x) && Queued(key, x.ep, x.origins) && Matched(x.ep, x.session)
    requires AllExplained(key, x) && Remembers(key, x) && ApplyMove(x, y)
    ensures Remembers(key, y)
  {
    hide OutcomeOf, HideUas.Hide, ApplyMove, SetupHeld, Matched, AllExplained;
    ApplyFront(x, y);
    FrontAnswer(key, x);
    AppliedIs(x, y);
    var f, n := x.ep.inFlight[0], |x.ep.ring.acts|;
    var data := AnswerData(x, f.token);
    assert f.token < Handled(y) by { TokensGrow(key, x, y); }
    MemoryStays(key, x, y, x.ep.hiddenConfig, n, f.token, Handled(y));
    HidStays(key, x, y, f.token);
    if ReadsConfig(x.origins[f.token]) && HideUas.Hide(data).Some? {
      assert Hid(key, y, f.token) && y.ep.hiddenConfig == Some(Totals(key, y, f.token));
    } else {
      assert !Hid(key, y, f.token);
    }
  }

  lemma TokensGrow(key: Key, x: Scope, y: Scope)
    requires Queued(key, x.ep, x.origins) && x.ep.inFlight != []
    requires y.ep.inFlight == x.ep.inFlight[1..] && y.origins == x.origins
    ensures x.ep.inFlight[0].token < Handled(y)
  {
    assert Traces(key, x.ep.ring, x.ep.inFlight[0], x.origins);
  }

  lemma MoveActs(key: Key, x: Scope, y: Scope)
    requires Move(key, x, y) && !ApplyMove(x, y)
    ensures forall a :: |x.ep.ring.acts| <= a < |y.ep.ring.acts| ==> !ReportsUrb(y.ep.ring.acts[a])
    ensures Later(x, y) && y.ep.hiddenConfig == x.ep.hiddenConfig
  {
    hide HideUas.Hide, HeadPlan, OutcomeOf, DataRequest, Cancel;
    if DropMove(x, y) {
      CancelKeepsReplies(x.session, x.ep.inFlight[0..]);
    }
  }

  lemma {:induction false} CancelKeepsReplies(s: State, fs: seq<InFlight>)
    ensures Cancel(s, fs).replies == s.replies
    decreases |fs|
  {
    if fs != [] {
      CancelKeepsReplies(if fs[0].result.None? then UnlinkedAt(s, fs[0].seqnum) else s, fs[1..]);
    }
  }

  /** If no URB is reported, explanations and memory stay as they are. */
  lemma StaysExplained(key: Key, x: Scope, y: Scope)
    requires AllExplained(key, x) && Remembers(key, x) && Later(x, y)
    requires forall a :: |x.ep.ring.acts| <= a < |y.ep.ring.acts| ==> !ReportsUrb(y.ep.ring.acts[a])
    requires y.ep.hiddenConfig == x.ep.hiddenConfig && Handled(x) <= Handled(y)
    ensures AllExplained(key, y) && Remembers(key, y)
  {
    hide Explains, Later, Handled;
    forall a | 0 <= a < |y.ep.ring.acts|
      ensures Explained(key, y, a)
    {
      if a < |x.ep.ring.acts| { ExplainedStays(key, x, y, a); }
    }
    MemoryStays(key, x, y, x.ep.hiddenConfig, |x.ep.ring.acts|, Handled(x), Handled(y));
  }

  lemma TouchKeepsExplained(key: Key, x: Scope, y: Scope, t: Touch)
    requires Good(key, x) && SetupHeld(key, x) && AllExplained(key, x) && Remembers(key, x)
    requires Touched(key, x, y, t)
    ensures AllExplained(key, y) && Remembers(key, y)
  {
    hide Move, Cancel, Explained, AllExplained, SetupHeld, Remembers;
    if t == Pumping && ApplyMove(x, y) {
      assert Queued(key, x.ep, x.origins) && Matched(x.ep, x.session);
      hide Good, ApplyMove, Touched;
      ApplyRemembers(key, x, y);
      ApplyKeepsExplained(key, x, y);
    } else {
      assert Handled(x) <= Handled(y) by { HandledGrows(key, x, y, t); }
      hide Good;
      if t == Pumping {
        MoveActs(key, x, y);
      } else {
        OtherTouchActs(key, x, y, t);
      }
      StaysExplained(key, x, y);
    }
  }

  lemma ApplyKeepsExplained(key: Key, x: Scope, y: Scope)
    requires SetupHeld(key, x) && Queued(key, x.ep, x.origins) && Matched(x.ep, x.session)
    requires AllExplained(key, x) && Remembers(key, x) && ApplyMove(x, y)
    ensures AllExplained(key, y)
  {
    hide Explained, ApplyMove, SetupHeld, Queued, Matched, Remembers;
    if Accepts(x.ep.ring) {
      ApplyExplained(key, x, y);
    } else {
      RejectedKeepsActs(key, x, y);
    }
    hide Later;
    forall a | 0 <= a < |y.ep.ring.acts|
      ensures Explained(key, y, a)
    {
      if a < |x.ep.ring.acts| { ExplainedStays(key, x, y, a); }
    }
  }

  lemma RejectedKeepsActs(key: Key, x: Scope, y: Scope)
    requires SetupHeld(key, x) && ApplyMove(x, y) && !Accepts(x.ep.ring)
    ensures Later(x, y) && |y.ep.ring.acts| == |x.ep.ring.acts|
  {
    hide OutcomeOf, Rewritten;
    AppliedIs(x, y);
  }

  lemma HandledGrows(key: Key, x: Scope, y: Scope, t: Touch)
    requires Good(key, x) && Touched(key, x, y, t)
    ensures Handled(x) <= Handled(y)
  {
    hide Effect, Touched;
    TouchEffect(key, x, y, t);
    assert Queued(key, x.ep, x.origins);
    hide Good;
    EffectHandled(key, x, y);
  }

  lemma EffectHandled(key: Key, x: Scope, y: Scope)
    requires Queued(key, x.ep, x.origins) && Effect(x, y)
    ensures Handled(x) <= Handled(y)
  {
    if x.ep.inFlight != [] { assert Traces(key, x.ep.ring, x.ep.inFlight[0], x.origins); }
    if y.ep.inFlight != [] {
      TokenBefore(x, y, 0);
      if x.ep.inFlight != [] && |x.ep.inFlight| > 1 {
        assert x.ep.inFlight[0].token < x.ep.inFlight[1].token;
      }
    }
  }

  lemma OtherTouchActs(key: Key, x: Scope, y: Scope, t: Touch)
    requires Touched(key, x, y, t) && t != Pumping
    ensures Later(x, y) && |y.ep.ring.acts| == |x.ep.ring.acts|
    ensures y.ep.hiddenConfig == x.ep.hiddenConfig
  {
    hide Cancel;
    match t {
      case Arrival =>
        var i: nat :| Arrives(x, y, i);
        CancelKeepsReplies(x.session, x.ep.inFlight[i + 1..]);
      case Pausing => var i: nat :| Pauses(x, y, i);
      case Resetting => CancelKeepsReplies(x.session, x.ep.inFlight[0..]);
      case Syncing => CancelKeepsReplies(x.session, x.ep.inFlight[0..]);
      case _ =>
    }
  }

  // ---------------------------------------------------------------- bounds

  predicate Fitting(ring: Ring, message: nat, n: nat) {
    message < |ring.tape| && n <= LengthOf(ring.tape[message].transfer)
  }

  /** Neither what is asked of the server nor what is reported exceeds the message. */
  ghost predicate Bounded(x: Scope) {
    && (forall i :: 0 <= i < |x.ep.inFlight| ==>
          Fitting(x.ep.ring, x.ep.inFlight[i].message, x.ep.inFlight[i].length))
    && (forall a :: 0 <= a < |x.ep.ring.acts| && x.ep.ring.acts[a].Done? ==>
          && Fitting(x.ep.ring, x.ep.ring.acts[a].message, |x.ep.ring.acts[a].data|)
          && Fitting(x.ep.ring, x.ep.ring.acts[a].message, x.ep.ring.acts[a].length))
  }

  lemma InterpretedBounds(ep: Endpoint, f: InFlight)
    requires f.result.Some?
    ensures var o := Interpreted(ep, f).1; |o.data| <= f.length && o.length <= f.length
    ensures Interpreted(ep, f).0.ring == ep.ring && Interpreted(ep, f).0.inFlight == ep.inFlight
  {
    hide HideUas.Hide, Rewritten;
    var o := OutcomeOf(f.stage, f.direction, f.length, f.result.value);
    RewrittenNoLonger(o.data, ep.hiddenConfig);
  }

  lemma PlanBounds(key: Key, x: Scope)
    requires x.ep.ring.head < |x.ep.ring.tape| && PlanFor(key, x).Ask?
    ensures PlanFor(key, x).request.length <= LengthOf(x.ep.ring.tape[x.ep.ring.head].transfer)
  {
  }

  lemma ApplyKeepsBounded(x: Scope, y: Scope)
    requires Bounded(x) && ApplyMove(x, y)
    ensures Bounded(y)
  {
    hide Interpreted;
    InterpretedBounds(x.ep.(inFlight := x.ep.inFlight[1..]), x.ep.inFlight[0]);
  }

  lemma MoveKeepsBounded(key: Key, x: Scope, y: Scope)
    requires Bounded(x) && Move(key, x, y)
    ensures Bounded(y)
  {
    hide HeadPlan, Submitted, Cancel;
    if ApplyMove(x, y) {
      ApplyKeepsBounded(x, y);
    } else if SendMove(key, x, y) {
      PlanBounds(key, x);
    }
  }

  lemma SameKeepsBounded(x: Scope, y: Scope)
    requires Bounded(x) && y.ep.ring.acts == x.ep.ring.acts && x.ep.ring.tape <= y.ep.ring.tape
    requires forall i :: 0 <= i < |y.ep.inFlight| ==>
               && i < |x.ep.inFlight| && y.ep.inFlight[i].message == x.ep.inFlight[i].message
               && y.ep.inFlight[i].length == x.ep.inFlight[i].length
    ensures Bounded(y)
  {
  }

  lemma TouchKeepsBounded(key: Key, x: Scope, y: Scope, t: Touch)
    requires Bounded(x) && Touched(key, x, y, t)
    ensures Bounded(y)
  {
    hide Move, Cancel, Bounded;
    match t {
      case Pumping => MoveKeepsBounded(key, x, y);
      case Arrival =>
        var i: nat :| Arrives(x, y, i);
        SameKeepsBounded(x, y);
      case Pausing =>
        var i: nat :| Pauses(x, y, i);
        SameKeepsBounded(x, y);
      case _ => SameKeepsBounded(x, y);
    }
  }

  // ---------------------------------------------------------------- every run

  ghost predicate Reported(key: Key, x: Scope) {
    SetupHeld(key, x) && AllExplained(key, x) && Remembers(key, x) && Bounded(x)
  }

  lemma ReportedSurvives(key: Key)
    ensures Survives(key, (y: Scope) => Reported(key, y), EVERY)
  {
    hide Touched;
    var p := (y: Scope) => Reported(key, y);
    forall x, y, t | t in EVERY && p(x) && Good(key, x) && Good(key, y) && Touched(key, x, y, t)
      ensures p(y)
    {
      hide SetupHeld, AllExplained, Bounded, Remembers;
      TouchKeepsSetup(key, x, y, t);
      hide Good;
      TouchKeepsExplained(key, x, y, t);
      TouchKeepsBounded(key, x, y, t);
    }
  }

  ghost predicate AllReported(w: World) {
    forall key :: key in w.endpoints ==> Reported(key, ScopeAt(w, key))
  }

  lemma PerformKeepsReported(w: World, e: Action)
    requires Inv(w) && Allowed(w, e) && AllReported(w)
    ensures AllReported(Perform(w, e))
  {
    hide Inv, Reported, Perform, Allowed;
    var v := Perform(w, e);
    forall key | key in v.endpoints
      ensures Reported(key, ScopeAt(v, key))
    {
      if Spares(e, key) {
        assert key in w.endpoints by { KeysKept(w, e, key); }
        ReportedSurvives(key);
        var p := (y: Scope) => Reported(key, y);
        FewerSurvive(key, p, Brings(w, e, key), EVERY);
        ActionSurvives(w, e, key, p);
        assert p(ScopeAt(v, key));
      } else {
        NewEndpointIsBlank(w, e);
        BlankReported(key, ScopeAt(v, key));
      }
    }
  }

  lemma BlankReported(key: Key, x: Scope)
    requires x.ep.inFlight == [] && x.ep.ring.acts == [] && x.ep.hiddenConfig == None
    ensures Reported(key, x)
  {
  }

  lemma {:induction false} RunKeepsReported(w: World, es: seq<Action>)
    requires Inv(w) && AllAllowed(w, es) && AllReported(w)
    ensures AllReported(Performed(w, es))
    decreases |es|
  {
    hide Inv, Allowed, Perform, AllReported;
    if es != [] {
      PerformKeepsReported(w, es[0]);
      PerformKeepsInv(w, es[0]);
      RunKeepsReported(Perform(w, es[0]), es[1..]);
    }
  }

  /**
   * In every run, each completion's data and length stay within the message completed, and a
   * completion by a URB reports the answer to that URB.
   */
  lemma CompletionsStayInBounds(speed: Speed, devid: u32, es: seq<Action>, key: Key)
    requires AllAllowed(Start(speed, devid), es)
    requires key in Performed(Start(speed, devid), es).endpoints
    ensures Reported(key, ScopeAt(Performed(Start(speed, devid), es), key))
  {
    hide Reported;
    StartInv(speed, devid);
    RunKeepsReported(Start(speed, devid), es);
  }

  lemma ExactOutcome(key: Key, x: Scope, a: nat, t: nat)
    requires a < |x.ep.ring.acts| && x.ep.ring.acts[a].Done?
    requires t < |x.origins| && Urb(t) in x.session.replies && Explains(key, x, a, t)
    requires var o, result := x.origins[t], x.session.replies[Urb(t)];
             !o.stage.IsoData? && o.request.direction == In
             && result.Ok? && Fits(result.value, In, o.request.length)
    ensures var o, ret, act := x.origins[t], x.session.replies[Urb(t)].value, x.ep.ring.acts[a];
            && act.length == |act.data|
            && (!ReadsConfig(o) ==> act.data == ret.data)
            && (HideUas.Hide(ret.data).None? ==> act.length == ret.actualLength)
  {
    hide HideUas.Hide;
    var o, ret, act := x.origins[t], x.session.replies[Urb(t)].value, x.ep.ring.acts[a];
    assert AnswerData(x, t) == ret.data;
    if ReadsConfig(o) {
      hide Memory;
      var hidden: Option<(nat, nat)> :|
        Memory(key, x, hidden, a, t) && act.data == Rewritten(ret.data, hidden).0;
      RewrittenNoLonger(ret.data, hidden);
    }
  }

  /**
   * Before the sequence counter wraps, a read that is not isochronous is completed with exactly
   * the bytes the server sent for it and says so: the reported length is the number of bytes
   * delivered, which is the server's actual length unless UAS was hidden from a configuration.
   */
  lemma ReadsAreDeliveredExactly(speed: Speed, devid: u32, es: seq<Action>, key: Key, a: nat)
    requires AllAllowed(Start(speed, devid), es)
    requires Performed(Start(speed, devid), es).session.issued < WORD
    requires var w := Performed(Start(speed, devid), es);
             && key in w.endpoints && a < |w.endpoints[key].ring.acts|
             && ReportsUrb(w.endpoints[key].ring.acts[a])
    ensures var w := Performed(Start(speed, devid), es);
            var act := w.endpoints[key].ring.acts[a];
            var t := act.source.value;
            && t < |w.origins| && Urb(t) in w.session.replies
            && var o, result := w.origins[t], w.session.replies[Urb(t)];
               result.Ok? && !o.stage.IsoData? && o.request.direction == In ==>
                 && act.length == |act.data|
                 && (!ReadsConfig(o) ==> act.data == result.value.data)
                 && (HideUas.Hide(result.value.data).None? ==>
                       act.length == result.value.actualLength)
  {
    hide Explains, Bounded, SetupHeld, HideUas.Hide;
    var w := Performed(Start(speed, devid), es);
    CompletionsStayInBounds(speed, devid, es, key);
    var x := ScopeAt(w, key);
    var act := w.endpoints[key].ring.acts[a];
    assert Explained(key, x, a);
    var t := act.source.value;
    var o, result := w.origins[t], w.session.replies[Urb(t)];
    if result.Ok? && !o.stage.IsoData? && o.request.direction == In {
      EngineRepliesAttributed(speed, devid, es);
      UrbReplyFits(speed, devid, es, t);
      ExactOutcome(key, x, a, t);
    }
  }

  /** Rewriting a read that shows no UAS itself, with totals remembered from one that did. */
  lemma RewrittenTotal(data: seq<byte>, totals: (nat, nat))
    requires HideUas.Hide(data).None? && |data| >= 4 && totals.1 < 0x1_0000
    requires HideUas.LittleEndian(data[2], data[3]) == totals.0
    ensures var r := Rewritten(data, Some(totals)).0;
            && |r| == |data| && r[..2] == data[..2] && r[4..] == data[4..]
            && HideUas.LittleEndian(r[2], r[3]) == totals.1
  {
    hide HideUas.Hide, HideUas.LittleEndian;
    HideUas.TotalBytes(data, totals.1);
  }

  lemma TotalsSmall(key: Key, x: Scope, t: nat)
    requires Hid(key, x, t)
    ensures Totals(key, x, t).1 < 0x1_0000
  {
    hide HideUas.Hide, OutcomeOf;
    HideUas.OutputStatesItsLength(AnswerData(x, t));
  }

  /**
   * Reads of one configuration agree in every run: once a read has been delivered with UAS hidden
   * from it, a later read too short to show UAS states the new total length, and is otherwise as
   * the server sent it. The endpoint remembers the totals of one configuration, so all those that
   * UAS was hidden from on this ring must have had the same.
   */
  lemma ShortReadAgreesWithFullRead(speed: Speed, devid: u32, es: seq<Action>, key: Key, a: nat,
                                    b: nat)
    requires AllAllowed(Start(speed, devid), es)
    requires key in Performed(Start(speed, devid), es).endpoints
    requires var x := ScopeAt(Performed(Start(speed, devid), es), key);
             && a < b < |x.ep.ring.acts|
             && ReportsUrb(x.ep.ring.acts[a]) && ReportsUrb(x.ep.ring.acts[b])
             && var full, short := x.ep.ring.acts[a].source.value, x.ep.ring.acts[b].source.value;
                && Hid(key, x, full)
                && (forall t: nat :: Hid(key, x, t) ==> Totals(key, x, t) == Totals(key, x, full))
                && short < |x.origins| && ReadsConfig(x.origins[short])
                && Urb(short) in x.session.replies
                && var data := AnswerData(x, short);
                   HideUas.Hide(data).None? && |data| >= 4
                   && HideUas.LittleEndian(data[2], data[3]) == Totals(key, x, full).0
    ensures var x := ScopeAt(Performed(Start(speed, devid), es), key);
            var full, short := x.ep.ring.acts[a].source.value, x.ep.ring.acts[b].source.value;
            var sent, told := AnswerData(x, short), x.ep.ring.acts[b].data;
            && |told| == |sent| && told[..2] == sent[..2] && told[4..] == sent[4..]
            && HideUas.LittleEndian(told[2], told[3]) == Totals(key, x, full).1
  {
    hide HideUas.Hide, HideUas.LittleEndian, OutcomeOf, Rewritten, Hid, Performed, AllAllowed;
    var x := ScopeAt(Performed(Start(speed, devid), es), key);
    CompletionsStayInBounds(speed, devid, es, key);
    assert Explained(key, x, b);
    var full, short := x.ep.ring.acts[a].source.value, x.ep.ring.acts[b].source.value;
    var hidden: Option<(nat, nat)> :|
      Memory(key, x, hidden, b, short)
                  && x.ep.ring.acts[b].data == Rewritten(AnswerData(x, short), hidden).0;
    assert hidden.Some?;
    TotalsSmall(key, x, full);
    RewrittenTotal(AnswerData(x, short), hidden.value);
  }

  lemma UrbReplyFits(speed: Speed, devid: u32, es: seq<Action>, t: nat)
    requires AllAllowed(Start(speed, devid), es)
    requires var w := Performed(Start(speed, devid), es);
             && Attributed(w.session) && t < |w.origins| && Urb(t) in w.session.replies
             && w.session.replies[Urb(t)].Ok?
    ensures var w := Performed(Start(speed, devid), es);
            Fits(w.session.replies[Urb(t)].value, w.origins[t].request.direction,
                 w.origins[t].request.length)
  {
    StartInv(speed, devid);
    PerformedKeepsInv(Start(speed, devid), es);
    var w := Performed(Start(speed, devid), es);
    assert Ticketed(w.session, w.origins);
  }
}
