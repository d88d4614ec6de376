/** `Pump` does all the work there is to do, and having done it does nothing more. */
module Progress {
  import opened Common
  import opened Session
  import opened Engine
  import opened Moves
  import opened EngineProofs
  import opened World
  import opened WorldProofs
  import opened Touches
  import opened NoStaleWrites

  /** As many URBs as the kind allows: 32 isochronous, 8 bulk, else one. */
  predicate AtDepth(kind: Kind, n: nat) {
    if kind == Isochronous then n >= 32 else if kind == Bulk then n >= 8 else n >= 1
  }

  /** A message on a data endpoint that cannot be sent: not data, or with too short a buffer. */
  predicate Unsendable(key: Key, m: Message) {
    !(m.transfer.Normal? || m.transfer.IsoTransfer?)
    || (key.address < 0x80 && |m.buffer| < m.transfer.length)
  }

  /** Why no further URB is read ahead. */
  ghost predicate ReadAheadStopped(key: Key, x: Scope) {
    var n := |x.ep.inFlight|;
    var next := x.ep.ring.head + n;
    || AtDepth(x.ep.info.kind, n)
    || (exists i :: 0 <= i < n && x.ep.inFlight[i].result.Some?)
    || next >= |x.ep.ring.tape|
    || Unsendable(key, x.ep.ring.tape[next])
  }

  /**
   * The ring is empty, or its head is a link that wants no response, or the head's URB is on the
   * server and read-ahead has stopped for one of the reasons above.
   */
  ghost predicate Settled(key: Key, x: Scope) {
    if x.ep.inFlight == [] then
      x.ep.ring.head >= |x.ep.ring.tape|
      || x.ep.ring.tape[x.ep.ring.head].transfer == Link(false)
    else
      && x.ep.inFlight[0].message == x.ep.ring.head && x.ep.inFlight[0].result.None?
      && ReadAheadStopped(key, x)
  }

  /** Among the acts from `n` on the host is told that the device is gone. */
  ghost predicate SaysOffline(acts: seq<Act>, n: nat) {
    exists a :: n <= a < |acts| && acts[a].Done? && acts[a].status == Offline
  }

  /** The host takes completions, and the connection is up. */
  ghost predicate Running(x: Scope) {
    x.ep.ring.active && !x.ep.ring.rejects && x.session.closed.None?
  }

  lemma MoveKeepsRunning(key: Key, x: Scope, y: Scope)
    requires Good(key, x) && Running(x) && Move(key, x, y)
    ensures Good(key, y) && Running(y) && x.ep.ring.acts <= y.ep.ring.acts
  {
    hide Good;
    MoveKeepsGood(key, x, y);
  }

  lemma {:induction false} FillSettles(key: Key, x: Scope)
    requires Good(key, x) && Running(x)
    requires x.ep.inFlight != [] && x.ep.inFlight[0].message == x.ep.ring.head
    requires x.ep.inFlight[0].result.None?
    ensures Settled(key, Fill(key, x))
    decreases 32 - |x.ep.inFlight|
  {
    hide Good, DataRequest, Extends;
    var next := ReadAhead(key, x);
    if next.Some? {
      var r := Push(key, x, x.ep.ring.head + |x.ep.inFlight|, next.value.0, next.value.1);
      if r.Ok? {
        assert AheadMove(key, x, r.value);
        MoveKeepsRunning(key, x, r.value);
        FillSettles(key, r.value);
      } else {
        assert !Acceptable(next.value.0);
        RefusedIsUnsendable(key, x, next.value.0, next.value.1);
      }
    } else {
      NothingAhead(key, x);
    }
  }

  lemma RefusedIsUnsendable(key: Key, x: Scope, req: Request, stage: Stage)
    requires ReadAhead(key, x) == Some((req, stage)) && !Acceptable(req)
    ensures ReadAheadStopped(key, x)
  {
    hide UrbInterval;
  }

  lemma NothingAhead(key: Key, x: Scope)
    requires x.ep.inFlight != [] && ReadAhead(key, x).None?
    ensures ReadAheadStopped(key, x)
  {
    hide UrbInterval;
  }

  lemma OfflineStays(acts: seq<Act>, more: seq<Act>, n: nat)
    requires SaysOffline(acts, n) && acts <= more
    ensures SaysOffline(more, n)
  {
    var a :| n <= a < |acts| && acts[a].Done? && acts[a].status == Offline;
    assert more[a] == acts[a];
  }

  lemma GoneOfflineIsSaid(x: Scope, y: Scope, n: nat)
    requires ApplyMove(x, y) && Accepts(x.ep.ring) && GoneOffline(x.ep.inFlight[0])
    requires n <= |x.ep.ring.acts|
    ensures SaysOffline(y.ep.ring.acts, n)
  {
    hide HideUas.Hide, Rewritten, OutcomeOf;
    var a := |x.ep.ring.acts|;
    assert y.ep.ring.acts[a].Done? && y.ep.ring.acts[a].status == Offline;
  }

  lemma PumpKeepsActs(key: Key, x: Scope, offline: bool)
    requires Good(key, x)
    ensures x.ep.ring.acts <= Pump(key, x, offline).ep.ring.acts
  {
    hide Good;
    PumpKeepsGood(key, x, offline);
  }

  /**
   * Work conservation: with the host taking completions and the connection up, `Pump` returns only
   * when the endpoint is settled or the host has been told that the device is gone.
   */
  lemma {:induction false} PumpSettles(key: Key, x: Scope, offline: bool, n: nat)
    requires Good(key, x) && Running(x) && n <= |x.ep.ring.acts|
    requires offline ==> SaysOffline(x.ep.ring.acts, n)
    ensures var y := Pump(key, x, offline); Settled(key, y) || SaysOffline(y.ep.ring.acts, n)
    decreases Left(x.ep.ring), |x.ep.inFlight|
  {
    hide Settled, SaysOffline, Extends;
    var ep := x.ep;
    if offline {
      PumpKeepsActs(key, x, offline);
      OfflineStays(ep.ring.acts, Pump(key, x, offline).ep.ring.acts, n);
    } else if ep.inFlight != [] {
      var front := ep.inFlight[0];
      assert front.message < |ep.ring.tape|;
      hide Good;
      if front.message != ep.ring.head {
        var y := Dropped(x, 0, 0);
        MoveKeepsRunning(key, x, y);
        PumpSettles(key, y, offline, n);
      } else if front.result.Some? {
        var y := x.(ep := Applied(ep.(inFlight := ep.inFlight[1..]), front));
        assert ApplyMove(x, y);
        MoveKeepsRunning(key, x, y);
        if GoneOffline(front) { GoneOfflineIsSaid(x, y, n); }
        PumpSettles(key, y, GoneOffline(front), n);
      } else {
        FillSettles(key, x);
      }
    } else if ep.ring.head < |ep.ring.tape| {
      hide Good;
      HeadSettles(key, x, n);
    } else {
      assert Settled(key, x) by { EmptySettled(key, x); }
    }
  }

  lemma EmptySettled(key: Key, x: Scope)
    requires x.ep.inFlight == [] && x.ep.ring.head >= |x.ep.ring.tape|
    ensures Settled(key, x)
  {
  }

  lemma WaitIsLink(key: Key, x: Scope)
    requires x.ep.ring.head < |x.ep.ring.tape| && PlanFor(key, x).Wait?
    ensures x.ep.ring.tape[x.ep.ring.head].transfer == Link(false)
  {
  }

  lemma {:induction false} HeadSettles(key: Key, x: Scope, n: nat)
    requires Good(key, x) && Running(x) && n <= |x.ep.ring.acts|
    requires x.ep.inFlight == [] && x.ep.ring.head < |x.ep.ring.tape|
    ensures var y := Pump(key, x, false); Settled(key, y) || SaysOffline(y.ep.ring.acts, n)
    decreases Left(x.ep.ring), 0, 0
  {
    hide Good, SaysOffline, Extends, HeadPlan;
    var ep := x.ep;
    match PlanFor(key, x) {
      case Wait => WaitIsLink(key, x);
      case Answer(status, setup) =>
        var y := x.(ep := Answered(ep, status, setup));
        assert AnswerMove(key, x, y);
        MoveKeepsRunning(key, x, y);
        PumpSettles(key, y, false, n);
      case Ask(req, stage) =>
        match HeadPush(key, x) {
          case Ok(y) =>
            assert SendMove(key, x, y);
            MoveKeepsRunning(key, x, y);
            FillSettles(key, y);
          case Err(e) =>
            var y := x.(ep := Answered(ep, ErrorStatus(e), ep.setup));
            assert RefuseMove(key, x, y);
            MoveKeepsRunning(key, x, y);
            PumpSettles(key, y, false, n);
        }
    }
  }

  /** A settled endpoint stays as it is. */
  lemma SettledIsStable(key: Key, x: Scope)
    requires Settled(key, x)
    ensures Pump(key, x, false) == x
  {
    if x.ep.inFlight != [] { StoppedStays(key, x); }
  }

  lemma StoppedStays(key: Key, x: Scope)
    requires ReadAheadStopped(key, x)
    ensures Fill(key, x) == x
  {
    hide UrbInterval;
    if ReadAhead(key, x).Some? {
      assert !Acceptable(ReadAhead(key, x).value.0);
    }
  }

  /**
   * Ringing the doorbell again changes nothing: no transfer is sent twice however often the host
   * rings, unless it has just been told that the device is gone.
   */
  lemma DoorbellAgainChangesNothing(w: World, key: Key)
    requires Inv(w) && key in w.endpoints && Running(ScopeAt(w, key))
    ensures var v := Perform(w, Doorbell(key));
            && key in v.endpoints
            && (Perform(v, Doorbell(key)) == v
                || SaysOffline(v.endpoints[key].ring.acts, |w.endpoints[key].ring.acts|))
  {
    hide Inv, Good, Settled, SaysOffline, Pump;
    var x := ScopeAt(w, key);
    ScopeGood(w, key);
    PumpSettles(key, x, false, |x.ep.ring.acts|);
    PumpKeepsGood(key, x, false);
    var v := Perform(w, Doorbell(key));
    assert ScopeAt(v, key) == Pump(key, x, false);
    if Settled(key, ScopeAt(v, key)) {
      SettledIsStable(key, ScopeAt(v, key));
      assert v.endpoints[key := v.endpoints[key]] == v.endpoints;
    }
  }

  // ---------------------------------------------------------------- when to stop

  /** Once the host is told, among the acts from `n` on, that the device is gone, nothing is sent. */
  ghost predicate QuietOnceOffline(acts: seq<Act>, n: nat) {
    forall a, b :: n <= a < b < |acts| && acts[a].Done? && acts[a].status == Offline ==>
      !acts[b].Sent?
  }

  ghost predicate Only(sent: bool, acts: seq<Act>, more: seq<Act>) {
    acts <= more && forall b :: |acts| <= b < |more| ==> more[b].Sent? == sent
  }

  lemma {:induction false} FillOnlySends(key: Key, x: Scope)
    ensures Only(true, x.ep.ring.acts, Fill(key, x).ep.ring.acts)
    decreases 32 - |x.ep.inFlight|
  {
    hide DataRequest, Submitted;
    var next := ReadAhead(key, x);
    if next.Some? {
      var r := Push(key, x, x.ep.ring.head + |x.ep.inFlight|, next.value.0, next.value.1);
      if r.Ok? { FillOnlySends(key, r.value); }
    }
  }

  lemma SendingIsQuiet(acts: seq<Act>, more: seq<Act>, n: nat)
    requires !SaysOffline(acts, n) && Only(true, acts, more)
    ensures QuietOnceOffline(more, n)
  {
  }

  lemma DoneIsQuiet(acts: seq<Act>, act: Act, n: nat)
    requires n <= |acts| && QuietOnceOffline(acts, n) && act.Done?
    ensures QuietOnceOffline(acts + [act], n)
    ensures SaysOffline(acts + [act], n) ==> SaysOffline(acts, n) || act.status == Offline
  {
  }

  lemma OnlyDoneThen(acts: seq<Act>, act: Act, more: seq<Act>)
    requires act.Done? && Only(false, acts + [act], more)
    ensures Only(false, acts, more)
  {
  }

  lemma AppliedAct(x: Scope, y: Scope)
    requires ApplyMove(x, y)
    ensures y.ep.ring.acts
            == x.ep.ring.acts + if Accepts(x.ep.ring) then [y.ep.ring.acts[|x.ep.ring.acts|]] else []
    ensures Accepts(x.ep.ring) ==>
              && y.ep.ring.acts[|x.ep.ring.acts|].Done?
              && (y.ep.ring.acts[|x.ep.ring.acts|].status == Offline
                  <==> GoneOffline(x.ep.inFlight[0]))
  {
    hide HideUas.Hide, Rewritten, OutcomeOf;
  }

  lemma {:induction false} PumpIsQuiet(key: Key, x: Scope, offline: bool, n: nat)
    requires n <= |x.ep.ring.acts| && QuietOnceOffline(x.ep.ring.acts, n)
    requires SaysOffline(x.ep.ring.acts, n) ==> offline
    ensures var acts := Pump(key, x, offline).ep.ring.acts;
            && QuietOnceOffline(acts, n) && x.ep.ring.acts <= acts
            && (offline ==> Only(false, x.ep.ring.acts, acts))
    decreases Left(x.ep.ring), |x.ep.inFlight|
  {
    hide SaysOffline, QuietOnceOffline, Applied, GoneOffline, HeadPlan, Push;
    var ep := x.ep;
    if ep.ring.active && ep.inFlight != [] {
      var front := ep.inFlight[0];
      if front.message != ep.ring.head {
        PumpIsQuiet(key, Dropped(x, 0, 0), offline, n);
      } else if front.result.Some? {
        var y := x.(ep := Applied(ep.(inFlight := ep.inFlight[1..]), front));
        AppliedAct(x, y);
        if Accepts(ep.ring) {
          var act := y.ep.ring.acts[|ep.ring.acts|];
          DoneIsQuiet(ep.ring.acts, act, n);
          ApplyShrinks(x, y);
          PumpIsQuiet(key, y, offline || GoneOffline(front), n);
          if offline {
            OnlyDoneThen(ep.ring.acts, act, Pump(key, y, true).ep.ring.acts);
          }
        } else {
          assert y.ep.ring.acts == ep.ring.acts;
        }
      } else if !offline {
        FillOnlySends(key, x);
        SendingIsQuiet(ep.ring.acts, Fill(key, x).ep.ring.acts, n);
      }
    } else if ep.ring.active && ep.ring.head < |ep.ring.tape| && !offline {
      HeadIsQuiet(key, x, n);
    }
  }

  lemma ApplyShrinks(x: Scope, y: Scope)
    requires ApplyMove(x, y) && Accepts(x.ep.ring)
    ensures Left(y.ep.ring) < Left(x.ep.ring)
  {
    hide HideUas.Hide, Rewritten, OutcomeOf;
  }

  lemma PlanNotOffline(key: Key, x: Scope)
    requires x.ep.ring.head < |x.ep.ring.tape|
    ensures PlanFor(key, x).Answer? ==> PlanFor(key, x).status != Offline
  {
  }

  lemma {:induction false} HeadIsQuiet(key: Key, x: Scope, n: nat)
    requires n <= |x.ep.ring.acts| && QuietOnceOffline(x.ep.ring.acts, n)
    requires !SaysOffline(x.ep.ring.acts, n)
    requires x.ep.ring.active && x.ep.inFlight == [] && x.ep.ring.head < |x.ep.ring.tape|
    ensures var acts := Pump(key, x, false).ep.ring.acts;
            QuietOnceOffline(acts, n) && x.ep.ring.acts <= acts
    decreases Left(x.ep.ring), 0, 0
  {
    hide SaysOffline, QuietOnceOffline, HeadPlan;
    var ep := x.ep;
    PlanNotOffline(key, x);
    match PlanFor(key, x) {
      case Wait =>
      case Answer(status, setup) =>
        DoneIsQuiet(ep.ring.acts, Done(ep.ring.head, status, [], 0, None), n);
        if Accepts(ep.ring) { PumpIsQuiet(key, x.(ep := Answered(ep, status, setup)), false, n); }
      case Ask(req, stage) =>
        match HeadPush(key, x) {
          case Ok(y) =>
            assert y.ep.ring.acts == ep.ring.acts + [Sent(|x.origins|, ep.ring.head)];
            FillOnlySends(key, y);
            SendingIsQuiet(ep.ring.acts, Fill(key, y).ep.ring.acts, n);
          case Err(e) =>
            DoneIsQuiet(ep.ring.acts, Done(ep.ring.head, ErrorStatus(e), [], 0, None), n);
            var y := x.(ep := Answered(ep, ErrorStatus(e), ep.setup));
            if Accepts(ep.ring) && ErrorStatus(e) != Offline { PumpIsQuiet(key, y, false, n); }
        }
    }
  }

  lemma NothingNewIsQuiet(acts: seq<Act>)
    ensures QuietOnceOffline(acts, |acts|) && !SaysOffline(acts, |acts|)
  {
  }

  /**
   * Within one piece of work on an endpoint, once the host has been told that the device or the
   * connection is gone, nothing more is sent.
   */
  lemma NothingSentOnceOffline(w: World, e: Action, key: Key)
    requires Inv(w) && Allowed(w, e) && key in w.endpoints
    requires (e.Doorbell? && e.key == key) || (e.Finish? && w.origins[e.token].key == key)
    ensures var v := Perform(w, e);
            && key in v.endpoints
            && QuietOnceOffline(v.endpoints[key].ring.acts, |w.endpoints[key].ring.acts|)
  {
    hide Inv, Pump, QuietOnceOffline, SaysOffline, Cancel;
    var x := ScopeAt(w, key);
    var n := |x.ep.ring.acts|;
    NothingNewIsQuiet(x.ep.ring.acts);
    if e.Doorbell? {
      PumpIsQuiet(key, x, false, n);
    } else {
      var at := Position(x.ep.inFlight, e.token);
      if at.Some? {
        PumpIsQuiet(key, Arrived(x, at.value, w.session.replies[Urb(e.token)]), false, n);
      }
    }
  }

  /**
   * A completion the host turns down ends the work: the URB is forgotten, but the ones behind it
   * stay in flight, nothing is cancelled, and nothing is sent.
   */
  lemma RejectionEndsTheWork(w: World, key: Key)
    requires Inv(w) && key in w.endpoints
    requires var ep := w.endpoints[key];
             && ep.ring.active && ep.ring.rejects && ep.inFlight != []
             && ep.inFlight[0].message == ep.ring.head && ep.inFlight[0].result.Some?
    ensures var v, was := Perform(w, Doorbell(key)), w.endpoints[key];
            && v.session == w.session && v.origins == w.origins && key in v.endpoints
            && v.endpoints[key].inFlight == was.inFlight[1..]
            && v.endpoints[key].ring == was.ring
  {
    hide Inv, OutcomeOf, Rewritten;
    var x := ScopeAt(w, key);
    var y := x.(ep := Applied(x.ep.(inFlight := x.ep.inFlight[1..]), x.ep.inFlight[0]));
    assert Pump(key, x, false) == y;
  }

  /** While a finished URB waits for the head's, ringing the doorbell sends nothing further ahead. */
  lemma ParkedResultsHoldBack(w: World, key: Key, i: nat)
    requires Inv(w) && key in w.endpoints
    requires var ep := w.endpoints[key];
             && i < |ep.inFlight| && ep.inFlight[i].result.Some?
             && ep.inFlight[0].result.None? && ep.inFlight[0].message == ep.ring.head
    ensures Perform(w, Doorbell(key)) == w
  {
    hide Inv;
    var x := ScopeAt(w, key);
    assert Fill(key, x) == x;
    assert w.endpoints[key := w.endpoints[key]] == w.endpoints;
  }

  /** A link that wants no response is no message to complete, nor is a URB ever for a link. */
  ghost predicate LinksUntouched(x: Scope) {
    && (forall i :: 0 <= i < |x.ep.inFlight| ==>
          x.ep.inFlight[i].message < |x.ep.ring.tape|
          && !x.ep.ring.tape[x.ep.inFlight[i].message].transfer.Link?)
    && (forall a :: 0 <= a < |x.ep.ring.acts| && x.ep.ring.acts[a].Done? ==>
          x.ep.ring.acts[a].message < |x.ep.ring.tape|
          && x.ep.ring.tape[x.ep.ring.acts[a].message].transfer != Link(false))
  }

  lemma MoveKeepsLinks(key: Key, x: Scope, y: Scope)
    requires LinksUntouched(x) && Move(key, x, y)
    ensures LinksUntouched(y)
  {
    hide HideUas.Hide, OutcomeOf, Rewritten, Submitted, Cancel, UrbInterval;
    if DropMove(x, y) {
    } else if ApplyMove(x, y) {
      AppliedAct(x, y);
      ApplyKeepsLinks(x, y);
    } else if SendMove(key, x, y) {
      hide LinksUntouched, HeadPlan;
      PlanIsForMessage(key, x);
      SentKeepsLinks(x, y, x.ep.ring.head);
    } else if AheadMove(key, x, y) {
      hide LinksUntouched;
      SentKeepsLinks(x, y, x.ep.ring.head + |x.ep.inFlight|);
    } else {
      hide HeadPlan;
      PlanIsForMessage(key, x);
    }
  }

  lemma ApplyKeepsLinks(x: Scope, y: Scope)
    requires LinksUntouched(x) && ApplyMove(x, y)
    ensures LinksUntouched(y)
  {
    hide HideUas.Hide, OutcomeOf, Rewritten;
  }

  lemma PlanIsForMessage(key: Key, x: Scope)
    requires x.ep.ring.head < |x.ep.ring.tape|
    ensures var t := x.ep.ring.tape[x.ep.ring.head].transfer;
            && (PlanFor(key, x).Ask? ==> !t.Link?)
            && (PlanFor(key, x).Answer? ==> t != Link(false))
  {
    hide UrbInterval;
  }

  lemma SentKeepsLinks(x: Scope, y: Scope, message: nat)
    requires LinksUntouched(x) && message < |x.ep.ring.tape|
    requires !x.ep.ring.tape[message].transfer.Link?
    requires y.ep.ring.tape == x.ep.ring.tape && |y.ep.inFlight| == |x.ep.inFlight| + 1
    requires y.ep.inFlight[..|x.ep.inFlight|] == x.ep.inFlight
    requires y.ep.inFlight[|x.ep.inFlight|].message == message
    requires |y.ep.ring.acts| == |x.ep.ring.acts| + 1 && x.ep.ring.acts <= y.ep.ring.acts
    requires y.ep.ring.acts[|x.ep.ring.acts|].Sent?
    ensures LinksUntouched(y)
  {
    forall i | 0 <= i < |x.ep.inFlight|
      ensures y.ep.inFlight[i] == x.ep.inFlight[i]
    {
      assert y.ep.inFlight[..|x.ep.inFlight|][i] == x.ep.inFlight[i];
    }
  }

  lemma TouchKeepsLinks(key: Key, x: Scope, y: Scope, t: Touch)
    requires LinksUntouched(x) && Touched(key, x, y, t)
    ensures LinksUntouched(y)
  {
    hide Move, Cancel;
    match t {
      case Pumping => MoveKeepsLinks(key, x, y);
      case Arrival => var i: nat :| Arrives(x, y, i);
      case Pausing => var i: nat :| Pauses(x, y, i);
      case _ =>
    }
  }

  /** In every run since the endpoint was attached, silent links stay as they are. */
  lemma SilentLinksAreNotCompleted(w: World, add: Action, es: seq<Action>)
    requires Inv(w) && add.AddEndpoint? && Allowed(w, add) && AllAllowed(Perform(w, add), es)
    requires Within(Perform(w, add), es, add.key, EVERY)
    ensures var v := Performed(Perform(w, add), es);
            add.key in v.endpoints && LinksUntouched(ScopeAt(v, add.key))
  {
    hide Inv, AllAllowed, Touched, Performed, Within, LinksUntouched;
    var v0 := Perform(w, add);
    PerformKeepsInv(w, add);
    assert LinksUntouched(ScopeAt(v0, add.key)) by { NothingTouched(ScopeAt(v0, add.key)); }
    var p := (y: Scope) => LinksUntouched(y);
    forall x, y, t | t in EVERY && p(x) && Good(add.key, x) && Good(add.key, y)
                     && Touched(add.key, x, y, t)
      ensures p(y)
    {
      hide Good;
      TouchKeepsLinks(add.key, x, y, t);
    }
    RunSurvives(v0, es, add.key, p, EVERY);
    assert p(ScopeAt(Performed(v0, es), add.key));
  }

  lemma NothingTouched(x: Scope)
    requires x.ep.inFlight == [] && x.ep.ring.acts == []
    ensures LinksUntouched(x)
  {
  }
}
