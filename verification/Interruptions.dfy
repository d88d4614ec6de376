/**
 * The executor's work takes the session's lock several times, and the session's other users may
 * come in between. So every entry point is also available as a chain of steps, and what is proved
 * of all runs is proved of runs in which such a chain is interrupted anywhere.
 */
module Interruptions {
  import opened Common
  import opened Wire
  import opened Session
  import opened SessionProofs
  import opened SessionRuns
  import opened Engine
  import opened Moves
  import opened EngineProofs
  import opened World
  import opened WorldProofs

  // ---------------------------------------------------------------- pump

  predicate PumpSteps(es: seq<Action>, key: Key) {
    forall e :: e in es ==> e.PumpStep? && e.key == key
  }

  /** Moves of `pump` alone take the endpoint at `key` to `y`. */
  ghost predicate Stepwise(w: World, key: Key, y: Scope) {
    y.speed == w.speed
    && exists es :: PumpSteps(es, key) && AllAllowed(w, es) && Performed(w, es) == WithScope(w, key, y)
  }

  lemma NothingDone(w: World, key: Key)
    requires key in w.endpoints
    ensures WithScope(w, key, ScopeAt(w, key)) == w
    ensures Stepwise(w, key, ScopeAt(w, key))
  {
    assert w.endpoints[key := w.endpoints[key]] == w.endpoints;
    assert PumpSteps([], key) && AllAllowed(w, []) && Performed(w, []) == w;
  }

  lemma OneMoreStep(w: World, key: Key, x: Scope, y: Scope)
    requires key in w.endpoints && Stepwise(w, key, x) && Move(key, x, y)
    ensures Stepwise(w, key, y)
  {
    hide Move, Performed, AllAllowed;
    MoveKeepsSpeed(key, x, y);
    var es :| PumpSteps(es, key) && AllAllowed(w, es) && Performed(w, es) == WithScope(w, key, x);
    var v, e := WithScope(w, key, x), PumpStep(key, y);
    assert ScopeAt(v, key) == x;
    assert Perform(v, e) == WithScope(w, key, y) by {
      assert v.endpoints[key := y.ep] == w.endpoints[key := y.ep];
    }
    PerformedAppend(w, es, e);
    assert PumpSteps(es + [e], key);
  }

  lemma PumpIsStepwise(w: World, key: Key, x: Scope, offline: bool)
    requires key in w.endpoints && Stepwise(w, key, x)
    ensures Stepwise(w, key, Pump(key, x, offline))
  {
    hide Move, Pump, Stepwise;
    var p := (y: Scope) => Stepwise(w, key, y);
    forall a, b | p(a) && Move(key, a, b)
      ensures p(b)
    {
      OneMoreStep(w, key, a, b);
    }
    PumpKeeps(key, x, offline, p);
  }

  /** A doorbell is a run of single moves, between which anything else may happen. */
  lemma DoorbellIsSteps(w: World, key: Key) returns (es: seq<Action>)
    requires key in w.endpoints
    ensures PumpSteps(es, key) && AllAllowed(w, es) && Performed(w, es) == Perform(w, Doorbell(key))
  {
    hide Pump, Performed, AllAllowed;
    NothingDone(w, key);
    PumpIsStepwise(w, key, ScopeAt(w, key), false);
    es :| PumpSteps(es, key) && AllAllowed(w, es)
          && Performed(w, es) == WithScope(w, key, Pump(key, ScopeAt(w, key), false));
  }

  /** So is the arrival of a result, once the result is taken. */
  lemma FinishIsSteps(w: World, t: nat) returns (es: seq<Action>)
    requires Allowed(w, Finish(t))
    ensures PumpSteps(es, w.origins[t].key)
    ensures AllAllowed(w, [TakeResult(t)] + es)
    ensures Performed(w, [TakeResult(t)] + es) == Perform(w, Finish(t))
  {
    hide Pump, Arrived;
    var v, key := Perform(w, TakeResult(t)), w.origins[t].key;
    es := [];
    assert Performed(v, []) == v && AllAllowed(v, []);
    if key in w.endpoints && Position(w.endpoints[key].inFlight, t).Some? {
      hide Performed, AllAllowed;
      var i := Position(w.endpoints[key].inFlight, t).value;
      var y := Arrived(ScopeAt(w, key), i, w.session.replies[Urb(t)]);
      assert v == WithScope(w.(delivered := w.delivered + {t}), key, y);
      ArrivedKeepsSpeed(ScopeAt(w, key), i, w.session.replies[Urb(t)]);
      assert ScopeAt(v, key) == y;
      es := DoorbellIsSteps(v, key);
      assert Perform(v, Doorbell(key)) == Perform(w, Finish(t)) by {
        var z := Pump(key, y, false);
        assert v.endpoints[key := z.ep] == w.endpoints[key := z.ep];
      }
    }
    assert ([TakeResult(t)] + es)[1..] == es;
  }

  lemma ArrivedKeepsSpeed(x: Scope, i: nat, result: TransferResult)
    requires i < |x.ep.inFlight|
    ensures Arrived(x, i, result).speed == x.speed
  {
    hide Cancel;
  }

  // ---------------------------------------------------------------- pause

  predicate PauseSteps(es: seq<Action>, key: Key) {
    forall e :: e in es ==> e.PauseStep? && e.key == key
  }

  lemma {:induction false} PausedFromIsSteps(w: World, key: Key, i: nat) returns (es: seq<Action>)
    requires key in w.endpoints && Pausable(key)
    ensures PauseSteps(es, key) && AllAllowed(w, es)
    ensures Performed(w, es) == WithScope(w, key, PausedFrom(ScopeAt(w, key), i))
    decreases |w.endpoints[key].inFlight| - i
  {
    var x := ScopeAt(w, key);
    if i >= |x.ep.inFlight| {
      es := [];
      NothingDone(w, key);
    } else if ToPause(x.ep.inFlight, i) {
      var e := PauseStep(key, i);
      var v := Perform(w, e);
      assert ScopeAt(v, key) == PausedOne(x, i);
      var rest := PausedFromIsSteps(v, key, i + 1);
      es := [e] + rest;
      assert es[1..] == rest;
      var z := PausedFrom(PausedOne(x, i), i + 1);
      assert v.endpoints[key := z.ep] == w.endpoints[key := z.ep];
    } else {
      es := PausedFromIsSteps(w, key, i + 1);
    }
  }

  /** A pause unlinks one read after the other. */
  lemma PauseIsSteps(w: World, key: Key) returns (es: seq<Action>)
    requires key in w.endpoints && Pausable(key)
    ensures PauseSteps(es, key) && AllAllowed(w, es)
    ensures Performed(w, es) == Perform(w, PauseEndpoint(key))
  {
    hide PausedFrom, Performed, AllAllowed;
    es := PausedFromIsSteps(w, key, 0);
  }

  // ---------------------------------------------------------------- letting go of URBs

  /** Cancelling `fs` with `gaps[i]` happening after the `i`-th. */
  ghost function CancelAmid(s: State, fs: seq<InFlight>, gaps: seq<seq<Event>>): State
    requires |gaps| == |fs|
    decreases |fs|
  {
    if fs == [] then s
    else
      var t := if fs[0].result.None? then UnlinkedAt(s, fs[0].seqnum) else s;
      CancelAmid(Run(t, gaps[0]), fs[1..], gaps[1..])
  }

  /** Callers other than the engine use their own channels. */
  predicate ByOthers(es: seq<Event>) {
    forall e :: e in es && e.DoSubmit? ==> e.reply.Caller?
  }

  ghost predicate PossibleAmid(s: State, fs: seq<InFlight>, gaps: seq<seq<Event>>)
    requires |gaps| == |fs|
    decreases |fs|
  {
    fs != [] ==>
      var t := if fs[0].result.None? then UnlinkedAt(s, fs[0].seqnum) else s;
      && Possible(t, gaps[0]) && ByOthers(gaps[0])
      && PossibleAmid(Run(t, gaps[0]), fs[1..], gaps[1..])
  }

  /** The session events of an interrupted cancellation, in order. */
  function EventsAmid(fs: seq<InFlight>, gaps: seq<seq<Event>>): seq<Event>
    requires |gaps| == |fs|
  {
    if fs == [] then []
    else
      (if fs[0].result.None? then [DoUnlink(fs[0].seqnum)] else []) + gaps[0]
      + EventsAmid(fs[1..], gaps[1..])
  }

  lemma RunOne(s: State, e: Event)
    requires Enabled(s, e)
    ensures Possible(s, [e]) && Run(s, [e]) == Step(s, e)
  {
    hide Step, Enabled;
    assert [e][1..] == [];
    assert Possible(Step(s, e), []) && Run(Step(s, e), []) == Step(s, e);
  }

  lemma {:induction false} AmidIsRun(s: State, fs: seq<InFlight>, gaps: seq<seq<Event>>)
    requires |gaps| == |fs| && PossibleAmid(s, fs, gaps)
    ensures var es := EventsAmid(fs, gaps);
            Possible(s, es) && Run(s, es) == CancelAmid(s, fs, gaps) && ByOthers(es)
    decreases |fs|
  {
    hide Step;
    if fs != [] {
      var first := if fs[0].result.None? then [DoUnlink(fs[0].seqnum)] else [];
      var t := if fs[0].result.None? then UnlinkedAt(s, fs[0].seqnum) else s;
      assert Possible(s, first) && Run(s, first) == t by {
        if fs[0].result.None? {
          UnlinkIsStep(s, fs[0].seqnum);
          RunOne(s, DoUnlink(fs[0].seqnum));
        }
      }
      AmidIsRun(Run(t, gaps[0]), fs[1..], gaps[1..]);
      RunAppend(s, first, gaps[0]);
      RunAppend(s, first + gaps[0], EventsAmid(fs[1..], gaps[1..]));
    }
  }

  lemma UnlinkIsStep(s: State, q: nat)
    ensures Step(s, DoUnlink(q)) == UnlinkedAt(s, q)
  {
  }

  lemma SubmitKeepsSpent(s: State, req: Request, reply: Channel, q: nat)
    requires Counting(s) && s.issued + 1 < WORD
    requires !Cancellable(s, q) && q <= s.next
    ensures var t := Step(s, DoSubmit(req, reply)); !Cancellable(t, q) && q <= t.next
  {
    hide Seqnum.Next, CommandOf;
    Seqnum.NextCounts(Used(s), s.next);
  }

  lemma UnlinkKeepsSpent(s: State, target: nat, q: nat)
    requires Counting(s) && s.issued + 1 < WORD
    requires !Cancellable(s, q) && q <= s.next
    ensures var t := Step(s, DoUnlink(target)); !Cancellable(t, q) && q <= t.next
  {
    hide Seqnum.Next;
    Seqnum.NextCounts(Used(s), s.next);
    if q in s.unlinks.Values && Cancellable(s, target) {
      var k :| k in s.unlinks && s.unlinks[k] == q;
      assert UnlinkedAt(s, target).unlinks[k] == q;
    }
  }

  lemma ResolveKeepsSpent(s: State, ret: RetSubmit, q: nat)
    requires !Cancellable(s, q)
    ensures var t := Step(s, SubmitPayload(ret)); !Cancellable(t, q) && t.next == s.next
  {
    if q in s.unlinks.Values && q != ret.seqnum {
      var k :| k in s.unlinks && s.unlinks[k] == q;
      assert Resolved(s, ret).unlinks[k] == q;
    }
  }

  lemma ConfirmKeepsSpent(s: State, seqnum: nat, status: i32, q: nat)
    requires !Cancellable(s, q)
    ensures var t := Step(s, UnlinkReply(seqnum, status)); !Cancellable(t, q) && t.next == s.next
  {
    var t := UnlinkConfirmed(s, seqnum, status);
    if q in s.unlinks.Values && q in t.submits {
      var k :| k in s.unlinks && s.unlinks[k] == q;
      assert t.unlinks[k] == q;
    }
  }

  /** A transfer that needs no cancelling never will: its number is not coming back. */
  lemma StepKeepsSpent(s: State, e: Event, q: nat)
    requires Counting(s) && Step(s, e).issued < WORD
    requires !Cancellable(s, q) && q <= s.next
    ensures !Cancellable(Step(s, e), q) && q <= Step(s, e).next
  {
    hide Step, Counting, Cancellable;
    match e {
      case DoSubmit(req, reply) =>
        if s.issued + 1 < WORD { SubmitKeepsSpent(s, req, reply, q); } else { NothingIssued(s, e); }
      case DoUnlink(target) =>
        if s.issued + 1 < WORD { UnlinkKeepsSpent(s, target, q); } else { NothingIssued(s, e); }
      case SubmitPayload(ret) => ResolveKeepsSpent(s, ret, q);
      case UnlinkReply(seqnum, status) => ConfirmKeepsSpent(s, seqnum, status, q);
      case _ => RestKeepsSpent(s, e, q);
    }
  }

  lemma RestKeepsSpent(s: State, e: Event, q: nat)
    requires e.DoClose? || e.SubmitHeader? || e.ReadFailure?
    requires !Cancellable(s, q)
    ensures var t := Step(s, e); !Cancellable(t, q) && t.next == s.next
  {
    hide Expectation;
  }

  /** Without a further number to hand out, a submit or unlink changes nothing. */
  lemma NothingIssued(s: State, e: Event)
    requires Counting(s) && (e.DoSubmit? || e.DoUnlink?)
    requires s.issued + 1 >= WORD && Step(s, e).issued < WORD
    ensures Step(s, e) == s
  {
    hide Seqnum.Next, CommandOf;
  }

  lemma {:induction false} RunKeepsSpent(s: State, es: seq<Event>, q: nat)
    requires Sound(s) && Counting(s) && Possible(s, es) && Run(s, es).issued < WORD
    requires !Cancellable(s, q) && q <= s.next
    ensures !Cancellable(Run(s, es), q) && q <= Run(s, es).next
    ensures Sound(Run(s, es)) && Counting(Run(s, es))
    decreases |es|
  {
    hide Step, Counting, Enabled;
    if es != [] {
      var t := Step(s, es[0]);
      RunIssues(t, es[1..]);
      StepKeepsSpent(s, es[0], q);
      StepKeepsSound(s, es[0]);
      hide Sound;
      StepKeepsCounting(s, es[0]);
      RunKeepsSpent(t, es[1..], q);
    }
  }

  lemma {:induction false} RunKeepsCounting(s: State, es: seq<Event>)
    requires Sound(s) && Counting(s) && Possible(s, es) && Run(s, es).issued < WORD
    ensures Sound(Run(s, es)) && Counting(Run(s, es)) && s.next <= Run(s, es).next
    decreases |es|
  {
    RunIssues(s, es);
    if es != [] {
      hide Step, Enabled;
      RunIssues(Step(s, es[0]), es[1..]);
      StepKeepsSound(s, es[0]);
      hide Sound;
      StepKeepsCounting(s, es[0]);
      RunKeepsCounting(Step(s, es[0]), es[1..]);
    }
  }

  lemma UnlinkedIsSpent(s: State, q: nat)
    requires Sound(s) && Counting(s) && q <= s.next && UnlinkedAt(s, q).issued < WORD
    ensures var t := UnlinkedAt(s, q);
            Sound(t) && Counting(t) && !Cancellable(t, q) && q <= t.next
  {
    hide Sound;
    UnlinkEvolves(s, q);
    UnlinkIsStep(s, q);
    StepKeepsCounting(s, DoUnlink(q));
    hide UnlinkedAt;
  }

  /** Whatever happens meanwhile, at the end the `i`-th URB needs no cancelling. */
  lemma {:induction false} AmidSpends(s: State, fs: seq<InFlight>, gaps: seq<seq<Event>>, i: nat)
    requires |gaps| == |fs| && PossibleAmid(s, fs, gaps) && Sound(s) && Counting(s)
    requires CancelAmid(s, fs, gaps).issued < WORD
    requires i < |fs| && fs[i].result.None? && fs[i].seqnum <= s.next
    ensures !Cancellable(CancelAmid(s, fs, gaps), fs[i].seqnum)
    decreases |fs|
  {
    hide Sound, Counting, Cancellable, UnlinkedAt;
    var t := if fs[0].result.None? then UnlinkedAt(s, fs[0].seqnum) else s;
    var u := Run(t, gaps[0]);
    var more := EventsAmid(fs[1..], gaps[1..]);
    AmidIsRun(u, fs[1..], gaps[1..]);
    RunAppend(t, gaps[0], more);
    RunIssues(u, more);
    RunIssues(t, gaps[0]);
    if i == 0 {
      UnlinkedIsSpent(s, fs[0].seqnum);
      RunKeepsSpent(t, gaps[0] + more, fs[0].seqnum);
    } else {
      CancelOneKeepsCounting(s, fs[0]);
      RunKeepsCounting(t, gaps[0]);
      AmidSpends(u, fs[1..], gaps[1..], i - 1);
    }
  }

  lemma CancelOneKeepsCounting(s: State, f: InFlight)
    requires Sound(s) && Counting(s)
    requires (if f.result.None? then UnlinkedAt(s, f.seqnum) else s).issued < WORD
    ensures var t := if f.result.None? then UnlinkedAt(s, f.seqnum) else s;
            Sound(t) && Counting(t) && s.next <= t.next
  {
    hide Sound;
    UnlinkEvolves(s, f.seqnum);
    UnlinkIsStep(s, f.seqnum);
    if f.result.None? {
      StepKeepsCounting(s, DoUnlink(f.seqnum));
      StepIssues(s, DoUnlink(f.seqnum));
    }
    hide UnlinkedAt;
  }

  lemma {:induction false} NothingToCancel(s: State, fs: seq<InFlight>)
    requires forall i :: 0 <= i < |fs| && fs[i].result.None? ==> !Cancellable(s, fs[i].seqnum)
    ensures Cancel(s, fs) == s
    decreases |fs|
  {
    hide Cancellable;
    if fs != [] {
      assert fs[0].result.None? ==> UnlinkedAt(s, fs[0].seqnum) == s by { NotCancellable(s, fs[0].seqnum); }
      assert forall i :: 0 <= i < |fs[1..]| ==> fs[1..][i] == fs[i + 1];
      NothingToCancel(s, fs[1..]);
    }
  }

  lemma NotCancellable(s: State, q: nat)
    ensures !Cancellable(s, q) ==> UnlinkedAt(s, q) == s
  {
  }

  function Networks(es: seq<Event>): seq<Action> {
    if es == [] then [] else [Network(es[0])] + Networks(es[1..])
  }

  lemma {:induction false} NetworksRun(w: World, es: seq<Event>)
    requires Possible(w.session, es) && ByOthers(es)
    ensures AllAllowed(w, Networks(es))
    ensures Performed(w, Networks(es)) == w.(session := Run(w.session, es))
    decreases |es|
  {
    hide Step, Enabled;
    if es != [] {
      assert es[0] in es;
      NetworksRun(w.(session := Step(w.session, es[0])), es[1..]);
      assert Networks(es)[1..] == Networks(es[1..]);
    }
  }

  lemma NumbersKnown(w: World, key: Key, i: nat)
    requires Inv(w) && Counting(w.session) && key in w.endpoints
    requires i < |w.endpoints[key].inFlight|
    ensures w.endpoints[key].inFlight[i].seqnum <= w.session.next
  {
    hide Sound;
    assert EndpointOk(w, key);
    assert EntryMatched(w.endpoints[key].inFlight[i], w.session);
  }

  /**
   * Letting go of an endpoint's URBs, all or those from some position on, takes the lock once for
   * each. Whatever the session's other users do in between, the result is that of session steps
   * followed by letting go in one piece, which then has nothing left to cancel (before the counter
   * wraps).
   */
  lemma DiscardMayBeInterrupted(w: World, key: Key, from: nat, gaps: seq<seq<Event>>)
    requires Inv(w) && Counting(w.session) && key in w.endpoints
    requires from + |gaps| == |w.endpoints[key].inFlight|
    requires PossibleAmid(w.session, w.endpoints[key].inFlight[from..], gaps)
    requires CancelAmid(w.session, w.endpoints[key].inFlight[from..], gaps).issued < WORD
    ensures var fs := w.endpoints[key].inFlight[from..];
            var v := w.(session := CancelAmid(w.session, fs, gaps));
            var es := Networks(EventsAmid(fs, gaps));
            AllAllowed(w, es) && Performed(w, es) == v && Cancel(v.session, fs) == v.session
  {
    hide Cancellable, Performed, AllAllowed, Cancel;
    var fs := w.endpoints[key].inFlight[from..];
    var s := CancelAmid(w.session, fs, gaps);
    AmidIsRun(w.session, fs, gaps);
    NetworksRun(w, EventsAmid(fs, gaps));
    forall i | 0 <= i < |fs| && fs[i].result.None?
      ensures !Cancellable(s, fs[i].seqnum)
    {
      NumbersKnown(w, key, from + i);
      AmidSpends(w.session, fs, gaps, i);
    }
    NothingToCancel(s, fs);
  }
}
