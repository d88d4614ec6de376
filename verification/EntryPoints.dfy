/**
 * What each entry point leaves behind, in terms of the endpoint's fields and of the session's
 * pending transfers and cancellations.
 */
module EntryPoints {
  import opened Common
  import opened Session
  import opened SessionProofs
  import opened SessionRuns
  import opened Engine
  import opened Moves
  import opened EngineProofs
  import opened World
  import opened WorldProofs
  import opened Touches
  import opened NoStaleWrites

  // ---------------------------------------------------------------- cancelling

  /** The numbers of the URBs in `fs` that still wait for the server. */
  ghost function Waiting(fs: seq<InFlight>): set<nat> {
    set i | 0 <= i < |fs| && fs[i].result.None? :: fs[i].seqnum
  }

  /** Of the pending transfers those in `qs`, and no others, are now being cancelled as well. */
  ghost predicate Cancelled(s: State, t: State, qs: set<nat>) {
    && t.submits == s.submits && t.replies == s.replies && t.tickets == s.tickets
    && t.closed == s.closed && t.reader == s.reader && t.unlinked == s.unlinked
    && (s.closed.None? ==> forall q :: q in qs && q in s.submits ==> q in t.unlinks.Values)
    && (forall q :: q in s.unlinks.Values ==> q in t.unlinks.Values)
    && (forall q :: q in t.unlinks.Values ==> q in s.unlinks.Values || q in qs)
    && (s.closed.Some? ==> t == s)
  }

  lemma UnlinkCancels(s: State, q: nat)
    requires Sound(s)
    ensures Cancelled(s, UnlinkedAt(s, q), {q})
  {
    UnlinkKeepsTargets(s, q) by { assert Numbered(s); }
    hide Seqnum.Next, Sound;
    var t := UnlinkedAt(s, q);
    forall v | v in t.unlinks.Values
      ensures v in s.unlinks.Values || v == q
    {
      var k :| k in t.unlinks && t.unlinks[k] == v;
      if v != q { assert k in s.unlinks && s.unlinks[k] == v; }
    }
  }

  lemma CancelledBoth(s: State, t: State, u: State, a: set<nat>, b: set<nat>)
    requires Cancelled(s, t, a) && Cancelled(t, u, b)
    ensures Cancelled(s, u, a + b)
  {
  }

  lemma NoneCancelled(s: State)
    ensures Cancelled(s, s, {})
  {
  }

  lemma {:induction false} CancelCancels(s: State, fs: seq<InFlight>)
    requires Sound(s)
    ensures Cancelled(s, Cancel(s, fs), Waiting(fs))
    decreases |fs|
  {
    hide Sound, Cancelled, UnlinkedAt;
    NoneCancelled(s);
    if fs == [] {
      assert Waiting(fs) == {};
    } else {
      var one := if fs[0].result.None? then {fs[0].seqnum} else {};
      var m := if fs[0].result.None? then UnlinkedAt(s, fs[0].seqnum) else s;
      if fs[0].result.None? {
        UnlinkCancels(s, fs[0].seqnum);
        UnlinkKeepsSound(s, fs[0].seqnum);
      }
      CancelCancels(m, fs[1..]);
      CancelledBoth(s, m, Cancel(m, fs[1..]), one, Waiting(fs[1..]));
      WaitingFirst(fs);
    }
  }

  lemma WaitingFirst(fs: seq<InFlight>)
    requires fs != []
    ensures Waiting(fs) == (if fs[0].result.None? then {fs[0].seqnum} else {}) + Waiting(fs[1..])
  {
    forall q | q in Waiting(fs)
      ensures q in (if fs[0].result.None? then {fs[0].seqnum} else {}) + Waiting(fs[1..])
    {
      var i :| 0 <= i < |fs| && fs[i].result.None? && fs[i].seqnum == q;
      if i > 0 { assert fs[1..][i - 1] == fs[i]; }
    }
    forall q | q in Waiting(fs[1..])
      ensures q in Waiting(fs)
    {
      var i :| 0 <= i < |fs[1..]| && fs[1..][i].result.None? && fs[1..][i].seqnum == q;
      assert fs[i + 1] == fs[1..][i];
    }
  }

  /** Nothing but the endpoint at `key` and the session may differ. */
  ghost predicate OnlyAt(w: World, v: World, key: Key) {
    && v.speed == w.speed && v.origins == w.origins && v.rings == w.rings
    && v.delivered == w.delivered && v.endpoints.Keys == w.endpoints.Keys
    && forall k :: k in w.endpoints && k != key ==> v.endpoints[k] == w.endpoints[k]
  }

  lemma InvIsSound(w: World)
    requires Inv(w)
    ensures Sound(w.session)
  {
    hide Sound;
  }

  // ---------------------------------------------------------------- reset, sync, remove, add, update

  /** The URBs in flight and the setup are forgotten, and what still waits is cancelled. */
  lemma ResetForgets(w: World, key: Key)
    requires Inv(w) && key in w.endpoints
    ensures var v := Perform(w, ResetEndpoint(key));
            && OnlyAt(w, v, key)
            && v.endpoints[key] == w.endpoints[key].(inFlight := [], setup := None)
            && Cancelled(w.session, v.session, Waiting(w.endpoints[key].inFlight))
  {
    hide Inv, Cancelled, Waiting, Cancel;
    var fs := w.endpoints[key].inFlight;
    InvIsSound(w);
    hide Sound;
    assert fs[0..] == fs && fs[..0] == [];
    CancelCancels(w.session, fs);
  }

  /** If the ring has moved, the URBs in flight are forgotten and cancelled; else nothing happens. */
  lemma SyncForgets(w: World, key: Key)
    requires Inv(w) && key in w.endpoints
    ensures var v, ep := Perform(w, SyncEndpoint(key)), w.endpoints[key];
            if ep.inFlight == [] || ep.inFlight[0].message == ep.ring.head then v == w
            else
              && OnlyAt(w, v, key) && v.endpoints[key] == ep.(inFlight := [])
              && Cancelled(w.session, v.session, Waiting(ep.inFlight))
  {
    hide Inv, Cancelled, Waiting, Cancel;
    var fs := w.endpoints[key].inFlight;
    InvIsSound(w);
    hide Sound;
    assert w.endpoints[key := w.endpoints[key]] == w.endpoints;
    assert fs[0..] == fs && fs[..0] == [];
    CancelCancels(w.session, fs);
  }

  /** The endpoint goes, no other does, and what it was waiting for is cancelled. */
  lemma RemoveForgets(w: World, key: Key)
    requires Inv(w)
    ensures var v := Perform(w, RemoveEndpoint(key));
            && v.endpoints == w.endpoints - {key} && v.origins == w.origins
            && v.delivered == w.delivered && v.rings == w.rings
            && Cancelled(w.session, v.session,
                         if key in w.endpoints then Waiting(w.endpoints[key].inFlight) else {})
  {
    hide Inv, Cancelled, Waiting, Cancel;
    InvIsSound(w);
    hide Sound;
    NoneCancelled(w.session);
    if key in w.endpoints { CancelCancels(w.session, w.endpoints[key].inFlight); }
  }

  ghost predicate Blank(ep: Endpoint, e: Action)
    requires e.AddEndpoint?
  {
    && ep.inFlight == [] && ep.setup == None && ep.hiddenConfig == None && ep.info == e.info
    && ep.ring.tape == e.tape && ep.ring.head == e.head && ep.ring.active == e.active
    && ep.ring.rejects == e.rejects && ep.ring.acts == []
  }

  /** The endpoint starts blank on its new ring; what a previous one waited for is cancelled. */
  lemma AddStartsBlank(w: World, e: Action)
    requires Inv(w) && e.AddEndpoint?
    ensures var v := Perform(w, e);
            && v.endpoints.Keys == w.endpoints.Keys + {e.key}
            && (forall k :: k in w.endpoints && k != e.key ==> v.endpoints[k] == w.endpoints[k])
            && Blank(v.endpoints[e.key], e)
            && (forall t :: 0 <= t < |w.origins| ==>
                  w.origins[t].ring != v.endpoints[e.key].ring.id)
            && Cancelled(w.session, v.session,
                         if e.key in w.endpoints then Waiting(w.endpoints[e.key].inFlight) else {})
  {
    hide Cancelled, Waiting, Cancel;
    InvIsSound(w);
    hide Sound, EndpointOk, NoOrphans;
    NoneCancelled(w.session);
    if e.key in w.endpoints { CancelCancels(w.session, w.endpoints[e.key].inFlight); }
  }

  lemma UpdateDescribes(w: World, key: Key, info: Info)
    ensures var v := Perform(w, UpdateEndpoint(key, info));
            && (key !in w.endpoints ==> v == w)
            && (key in w.endpoints ==>
                  OnlyAt(w, v, key) && v.session == w.session
                  && v.endpoints[key] == w.endpoints[key].(info := info))
  {
  }

  /** What the host does to a ring changes just that. */
  lemma HostActsOnRing(w: World, e: Action)
    requires (e.Append? || e.MoveHead? || e.SetActive? || e.SetRejects?) && e.key in w.endpoints
    ensures var v, was := Perform(w, e), w.endpoints[e.key];
            var ring := v.endpoints[e.key].ring;
            && OnlyAt(w, v, e.key) && v.session == w.session
            && v.endpoints[e.key] == was.(ring := ring)
            && ring.id == was.ring.id && ring.acts == was.ring.acts
            && ring.tape == was.ring.tape + (if e.Append? then [e.message] else [])
            && ring.head == (if e.MoveHead? then e.position else was.ring.head)
            && ring.active == (if e.SetActive? then e.active else was.ring.active)
            && ring.rejects == (if e.SetRejects? then e.rejects else was.ring.rejects)
  {
  }

  // ---------------------------------------------------------------- pause

  /** The entry as a pause leaves it. */
  function Marked(f: InFlight): InFlight {
    if f.result.None? then f.(unlinking := true) else f
  }

  /** The numbers, from position `i` on, of URBs that wait and were not marked before. */
  ghost function Unmarked(fs: seq<InFlight>, i: nat): set<nat> {
    set j | i <= j < |fs| && fs[j].result.None? && !fs[j].unlinking :: fs[j].seqnum
  }

  lemma {:induction false} PausedFromMarks(x: Scope, i: nat)
    requires Sound(x.session) && i <= |x.ep.inFlight|
    ensures var y, fs := PausedFrom(x, i), x.ep.inFlight;
            && |y.ep.inFlight| == |fs|
            && y == x.(ep := x.ep.(inFlight := y.ep.inFlight), session := y.session)
            && (forall j :: 0 <= j < |fs| ==>
                  y.ep.inFlight[j] == if j < i then fs[j] else Marked(fs[j]))
            && Cancelled(x.session, y.session, Unmarked(fs, i))
    decreases |x.ep.inFlight| - i
  {
    hide Sound, Cancelled, UnlinkedAt;
    var fs := x.ep.inFlight;
    NoneCancelled(x.session);
    if i < |fs| {
      if ToPause(fs, i) {
        var m := PausedOne(x, i);
        UnlinkCancels(x.session, fs[i].seqnum);
        UnlinkKeepsSound(x.session, fs[i].seqnum);
        PausedFromMarks(m, i + 1);
        CancelledBoth(x.session, m.session, PausedFrom(m, i + 1).session, {fs[i].seqnum},
                      Unmarked(m.ep.inFlight, i + 1));
        UnmarkedNext(fs, m.ep.inFlight, i);
      } else {
        PausedFromMarks(x, i + 1);
        UnmarkedNext(fs, fs, i);
        assert Unmarked(fs, i) == Unmarked(fs, i + 1);
      }
    } else {
      assert Unmarked(fs, i) == {};
    }
  }

  lemma UnmarkedNext(fs: seq<InFlight>, gs: seq<InFlight>, i: nat)
    requires i < |fs| == |gs| && forall j :: i < j < |fs| ==> gs[j] == fs[j]
    ensures Unmarked(fs, i)
            == (if ToPause(fs, i) then {fs[i].seqnum} else {}) + Unmarked(gs, i + 1)
  {
  }

  /**
   * A pause marks every read that waits for the server, whichever it is, and asks the server to
   * cancel all that were not marked before, and nothing else. It does so only for data endpoints
   * whose direction is IN; for any other it does nothing at all.
   */
  lemma PauseUnlinksEveryRead(w: World, key: Key)
    requires Inv(w) && key in w.endpoints
    ensures var v, fs := Perform(w, PauseEndpoint(key)), w.endpoints[key].inFlight;
            if key.address < 0x80 || key.address % 0x80 == 0 then v == w
            else
              && OnlyAt(w, v, key)
              && v.endpoints[key] == w.endpoints[key].(inFlight := v.endpoints[key].inFlight)
              && |v.endpoints[key].inFlight| == |fs|
              && (forall j :: 0 <= j < |fs| ==>
                    v.endpoints[key].inFlight[j]
                    == if fs[j].result.None? then fs[j].(unlinking := true) else fs[j])
              && (forall j :: 0 <= j < |fs| && fs[j].result.None? && !fs[j].unlinking
                              && fs[j].seqnum in w.session.submits && w.session.closed.None? ==>
                    fs[j].seqnum in v.session.unlinks.Values)
              && (forall q :: q in v.session.unlinks.Values && q !in w.session.unlinks.Values ==>
                    exists j :: 0 <= j < |fs| && fs[j].seqnum == q && fs[j].result.None?
                                && !fs[j].unlinking)
              && v.session.submits == w.session.submits && v.session.replies == w.session.replies
  {
    hide Inv, PausedFrom;
    var x := ScopeAt(w, key);
    InvIsSound(w);
    PausedFromMarks(x, 0);
    hide Sound;
  }

  /** An endpoint that is not there cannot be paused, reset, rung or moved. */
  lemma AbsentEndpointIgnores(w: World, e: Action)
    requires OnEndpoint(e) && e.key !in w.endpoints
    ensures Perform(w, e) == w
  {
  }

  // ---------------------------------------------------------------- results

  /** The answer says that the server has unlinked the URB. */
  predicate SaysUnlinked(answer: TransferResult) {
    answer.Err? && answer.error.Unlinked?
  }

  /**
   * A result that is taken is kept with its entry, unless it says that a read was unlinked by a
   * pause: then that read and all sent after it are forgotten, those that still wait are cancelled,
   * and those sent before it stay as they are.
   */
  lemma ResultIsTaken(w: World, t: nat, i: nat)
    requires Inv(w) && Deliverable(w, t) && w.origins[t].key in w.endpoints
    requires i < |w.endpoints[w.origins[t].key].inFlight|
    requires w.endpoints[w.origins[t].key].inFlight[i].token == t
    ensures var key, v := w.origins[t].key, Perform(w, TakeResult(t));
            var ep, answer := w.endpoints[key], w.session.replies[Urb(t)];
            && OnlyAt(w.(delivered := w.delivered + {t}), v, key)
            && if ep.inFlight[i].unlinking && SaysUnlinked(answer) then
                 && v.endpoints[key] == ep.(inFlight := ep.inFlight[..i])
                 && Cancelled(w.session, v.session, Waiting(ep.inFlight[i + 1..]))
               else
                 && v.endpoints[key]
                    == ep.(inFlight := ep.inFlight[i := ep.inFlight[i].(result := Some(answer))])
                 && v.session == w.session
  {
    hide Cancelled, Waiting, Cancel;
    var key := w.origins[t].key;
    var ep := w.endpoints[key];
    assert Position(ep.inFlight, t) == Some(i) by { TokenAt(w, key, i); }
    InvIsSound(w);
    hide Inv, Sound;
    CancelCancels(w.session, ep.inFlight[i + 1..]);
  }

  lemma TokenAt(w: World, key: Key, i: nat)
    requires Inv(w) && key in w.endpoints && i < |w.endpoints[key].inFlight|
    ensures Position(w.endpoints[key].inFlight, w.endpoints[key].inFlight[i].token) == Some(i)
  {
    hide Sound;
    assert EndpointOk(w, key);
    var fs := w.endpoints[key].inFlight;
    assert forall k :: 0 <= k < |fs| && k != i ==> fs[k].token != fs[i].token;
  }

  /** A result for a URB not in flight any more is only noted as handed over. */
  lemma LateResultIgnored(w: World, t: nat)
    requires Inv(w) && Deliverable(w, t)
    requires w.origins[t].key in w.endpoints ==>
               forall i :: 0 <= i < |w.endpoints[w.origins[t].key].inFlight| ==>
                 w.endpoints[w.origins[t].key].inFlight[i].token != t
    ensures Perform(w, Finish(t)) == w.(delivered := w.delivered + {t})
    ensures Perform(w, TakeResult(t)) == w.(delivered := w.delivered + {t})
  {
    hide Inv;
    StaleChangesNothing(w, t);
  }

  // ---------------------------------------------------------------- reads unlinked by a pause

  /** No entry keeps the news that it was unlinked by a pause: its read would look completed. */
  ghost predicate NoStoppedReads(ep: Endpoint) {
    forall i :: 0 <= i < |ep.inFlight| && ep.inFlight[i].unlinking && ep.inFlight[i].result.Some?
                ==> !SaysUnlinked(ep.inFlight[i].result.value)
  }

  lemma TouchKeepsNoStoppedReads(key: Key, x: Scope, y: Scope, t: Touch)
    requires NoStoppedReads(x.ep) && Touched(key, x, y, t)
    ensures NoStoppedReads(y.ep)
  {
    hide Cancel, HideUas.Hide, HeadPlan, OutcomeOf, Submitted, DataRequest;
    match t {
      case Arrival => var i: nat :| Arrives(x, y, i);
      case Pausing => var i: nat :| Pauses(x, y, i);
      case _ =>
    }
  }

  lemma NoStoppedReadsSurvives(key: Key)
    ensures Survives(key, (y: Scope) => NoStoppedReads(y.ep), EVERY)
  {
    hide Touched, NoStoppedReads, Good;
    var p := (y: Scope) => NoStoppedReads(y.ep);
    forall x, y, t | t in EVERY && p(x) && Good(key, x) && Good(key, y) && Touched(key, x, y, t)
      ensures p(y)
    {
      TouchKeepsNoStoppedReads(key, x, y, t);
    }
  }

  ghost predicate NoneStopped(w: World) {
    forall key :: key in w.endpoints ==> NoStoppedReads(w.endpoints[key])
  }

  lemma PerformKeepsNoStoppedReads(w: World, e: Action)
    requires Inv(w) && Allowed(w, e)
    requires NoneStopped(w)
    ensures NoneStopped(Perform(w, e))
  {
    hide Inv, NoStoppedReads, Perform, Allowed;
    var v := Perform(w, e);
    forall key | key in v.endpoints
      ensures NoStoppedReads(v.endpoints[key])
    {
      if Spares(e, key) {
        assert key in w.endpoints by { KeysKept(w, e, key); }
        NoStoppedReadsSurvives(key);
        var p := (y: Scope) => NoStoppedReads(y.ep);
        FewerSurvive(key, p, Brings(w, e, key), EVERY);
        ActionSurvives(w, e, key, p);
        assert p(ScopeAt(v, key));
      } else {
        NewEndpointIsBlank(w, e);
        BlankHasNoStoppedReads(v.endpoints[key]);
      }
    }
  }

  lemma BlankHasNoStoppedReads(ep: Endpoint)
    requires ep.inFlight == []
    ensures NoStoppedReads(ep)
  {
  }

  lemma {:induction false} RunKeepsNoStoppedReads(w: World, es: seq<Action>)
    requires Inv(w) && AllAllowed(w, es)
    requires NoneStopped(w)
    ensures NoneStopped(Performed(w, es))
    decreases |es|
  {
    hide Inv, Allowed, Perform, NoneStopped;
    if es != [] {
      PerformKeepsNoStoppedReads(w, es[0]);
      PerformKeepsInv(w, es[0]);
      RunKeepsNoStoppedReads(Perform(w, es[0]), es[1..]);
    }
  }

  /** In every run, a read that a pause unlinked never waits to be completed as stopped. */
  lemma UnlinkedReadsAreNotKept(speed: Speed, devid: u32, es: seq<Action>, key: Key, i: nat)
    requires AllAllowed(Start(speed, devid), es)
    requires var w := Performed(Start(speed, devid), es);
             key in w.endpoints && i < |w.endpoints[key].inFlight|
    ensures var f := Performed(Start(speed, devid), es).endpoints[key].inFlight[i];
            !(f.unlinking && f.result.Some? && f.result.value.Err? && f.result.value.error.Unlinked?)
  {
    StartInv(speed, devid);
    hide AllAllowed, Performed;
    RunKeepsNoStoppedReads(Start(speed, devid), es);
  }

  /**
   * When the confirmation of an unlinked read is handed over, in any run, that read and those sent
   * after it are gone from the queue, none of them has been or is reported to the host, those that
   * still waited are being cancelled if still pending, and everything else in flight was sent
   * before, or is sent now.
   */
  lemma UnlinkedReadStartsOver(speed: Speed, devid: u32, es: seq<Action>, t: nat, i: nat)
    requires AllAllowed(Start(speed, devid), es)
    requires var w := Performed(Start(speed, devid), es);
             && Allowed(w, Finish(t)) && w.origins[t].key in w.endpoints
             && i < |w.endpoints[w.origins[t].key].inFlight|
             && w.endpoints[w.origins[t].key].inFlight[i].token == t
             && w.endpoints[w.origins[t].key].inFlight[i].unlinking
             && w.session.replies[Urb(t)].Err? && w.session.replies[Urb(t)].error.Unlinked?
    ensures var w := Performed(Start(speed, devid), es);
            var key, v := w.origins[t].key, Perform(w, Finish(t));
            var fs := w.endpoints[key].inFlight;
            && key in v.endpoints
            && (forall j :: i <= j < |fs| ==> Silent(v.endpoints[key], fs[j].token))
            && (forall j :: i < j < |fs| && fs[j].result.None? && w.session.closed.None?
                            && fs[j].seqnum in w.session.submits ==>
                  fs[j].seqnum in v.session.unlinks.Values)
  {
    var w := Performed(Start(speed, devid), es);
    StartInv(speed, devid);
    PerformedKeepsInv(Start(speed, devid), es);
    assert Ordered(w.endpoints[w.origins[t].key]) by { RunKeepsOrdered(Start(speed, devid), es); }
    hide Performed, AllAllowed, Pump, Arrived, Ordered, Silent, Good, Perform;
    ScopeGood(w, w.origins[t].key);
    FinishedScope(w, t, i);
    StartsOver(w.origins[t].key, ScopeAt(w, w.origins[t].key), i, w.session.replies[Urb(t)]);
  }

  /** The reads from position `i` on are gone for good, and those that waited are cancelled. */
  ghost predicate StartedOver(x: Scope, i: nat, z: Scope) {
    var fs := x.ep.inFlight;
    && (forall j :: i <= j < |fs| ==> Silent(z.ep, fs[j].token))
    && (forall j :: i < j < |fs| && fs[j].result.None? && x.session.closed.None?
                    && fs[j].seqnum in x.session.submits ==>
          fs[j].seqnum in z.session.unlinks.Values)
  }

  lemma StartsOver(key: Key, x: Scope, i: nat, answer: TransferResult)
    requires Good(key, x) && Ordered(x.ep) && i < |x.ep.inFlight| && x.ep.inFlight[i].unlinking
    requires Urb(x.ep.inFlight[i].token) in x.session.replies
    requires answer == x.session.replies[Urb(x.ep.inFlight[i].token)] && SaysUnlinked(answer)
    ensures StartedOver(x, i, Pump(key, Arrived(x, i, answer), false))
  {
    hide Pump, Cancel, Ordered, Silent, Good;
    var fs := x.ep.inFlight;
    ArrivedGood(key, x, i);
    assert Sound(x.session) by { GoodSession(key, x); }
    hide Sound;
    var y := Arrived(x, i, answer);
    var z := Pump(key, y, false);
    PumpKeepsGood(key, y, false);
    CancelCancels(x.session, fs[i + 1..]);
    forall j | i <= j < |fs|
      ensures Silent(z.ep, fs[j].token)
    {
      DroppedSilent(key, x, i, j, y);
      var p := (s: Scope) => Silent(s.ep, fs[j].token) && fs[j].token < |s.origins|;
      SilentSurvives(key, fs[j].token);
      FewerSurvive(key, p, {Pumping}, EVERY);
      PumpSurvives(key, y, false, p);
    }
    forall j | i < j < |fs| && fs[j].result.None? && x.session.closed.None?
               && fs[j].seqnum in x.session.submits
      ensures fs[j].seqnum in z.session.unlinks.Values
    {
      assert fs[i + 1..][j - i - 1] == fs[j];
      assert fs[j].seqnum in Waiting(fs[i + 1..]);
    }
  }

  lemma GoodSession(key: Key, x: Scope)
    requires Good(key, x)
    ensures Sound(x.session)
  {
    hide Sound;
  }

  lemma FinishedScope(w: World, t: nat, i: nat)
    requires Inv(w) && Deliverable(w, t) && w.origins[t].key in w.endpoints
    requires i < |w.endpoints[w.origins[t].key].inFlight|
    requires w.endpoints[w.origins[t].key].inFlight[i].token == t
    ensures var key, v := w.origins[t].key, Perform(w, Finish(t));
            var z := Pump(key, Arrived(ScopeAt(w, key), i, w.session.replies[Urb(t)]), false);
            key in v.endpoints && v.endpoints[key] == z.ep && v.session == z.session
  {
    hide Pump, Arrived;
    TokenAt(w, w.origins[t].key, i);
    hide Inv;
  }

  lemma DroppedSilent(key: Key, x: Scope, i: nat, j: nat, y: Scope)
    requires Good(key, x) && Ordered(x.ep) && i <= j < |x.ep.inFlight|
    requires y.ep == x.ep.(inFlight := x.ep.inFlight[..i]) && y.origins == x.origins
    ensures Silent(y.ep, x.ep.inFlight[j].token) && x.ep.inFlight[j].token < |y.origins|
  {
    hide Sound;
    var fs := x.ep.inFlight;
    assert Traces(key, x.ep.ring, fs[j], x.origins);
    forall k | 0 <= k < i
      ensures y.ep.inFlight[k].token != fs[j].token
    {
      assert fs[k].token < fs[j].token;
    }
  }

  lemma {:induction false} FillKeepsFront(key: Key, x: Scope)
    requires x.ep.inFlight != []
    ensures var y := Fill(key, x);
            && y.ep.inFlight != [] && y.ep.inFlight[0] == x.ep.inFlight[0]
            && y.ep.ring.head == x.ep.ring.head && x.origins <= y.origins
    decreases 32 - |x.ep.inFlight|
  {
    hide DataRequest, Submitted;
    var next := ReadAhead(key, x);
    if next.Some? {
      var r := Push(key, x, x.ep.ring.head + |x.ep.inFlight|, next.value.0, next.value.1);
      if r.Ok? { FillKeepsFront(key, r.value); }
    }
  }

  /** With nothing in flight on an IN endpoint, `pump` sends for a head that asks for data. */
  lemma PumpSendsRead(key: Key, x: Scope)
    requires Pausable(key) && x.ep.ring.active && x.ep.inFlight == [] && x.session.closed.None?
    requires x.ep.ring.head < |x.ep.ring.tape|
    requires var m := x.ep.ring.tape[x.ep.ring.head]; m.transfer.Normal? || m.transfer.IsoTransfer?
    ensures var y := Pump(key, x, false);
            && y.ep.inFlight != [] && y.ep.ring.head == x.ep.ring.head
            && x.origins < y.origins && y.ep.inFlight[0].token == |x.origins|
            && y.ep.inFlight[0].message == x.ep.ring.head && y.ep.inFlight[0].result.None?
            && !y.ep.inFlight[0].unlinking
  {
    hide Fill, UrbInterval, Fresh;
    var plan := PlanFor(key, x);
    assert plan.Ask? && Acceptable(plan.request);
    var r := Push(key, x, x.ep.ring.head, plan.request, plan.stage);
    assert r.Ok?;
    FillKeepsFront(key, r.value);
    assert Pump(key, x, false) == Fill(key, r.value);
  }

  /**
   * If the host has resumed by the time the confirmation arrives, and the read is for the head, the
   * head is not completed but sent again at once.
   */
  lemma UnlinkedReadIsSentAgain(w: World, t: nat)
    requires Inv(w) && Allowed(w, Finish(t)) && w.origins[t].key in w.endpoints
    requires w.session.closed.None? && SaysUnlinked(w.session.replies[Urb(t)])
    requires var ep := w.endpoints[w.origins[t].key];
             && ep.inFlight != [] && ep.inFlight[0].token == t && ep.inFlight[0].unlinking
             && ep.ring.active && ep.inFlight[0].message == ep.ring.head < |ep.ring.tape|
             && (ep.ring.tape[ep.ring.head].transfer.Normal?
                 || ep.ring.tape[ep.ring.head].transfer.IsoTransfer?)
    ensures var key := w.origins[t].key;
            var was, v := w.endpoints[key], Perform(w, Finish(t));
            && key in v.endpoints && |v.origins| > |w.origins|
            && v.endpoints[key].ring.head == was.ring.head && v.endpoints[key].inFlight != []
            && var f := v.endpoints[key].inFlight[0];
               f.message == was.ring.head && f.token == |w.origins| && f.result.None?
               && !f.unlinking
  {
    hide Pump, Cancel;
    var key, answer := w.origins[t].key, w.session.replies[Urb(t)];
    var x := ScopeAt(w, key);
    TokenAt(w, key, 0);
    assert Pausable(key) by { ScopeGood(w, key); hide Inv; }
    hide Inv;
    var y := Arrived(x, 0, answer);
    CancelKeepsClosed(x.session, x.ep.inFlight[1..]);
    PumpSendsRead(key, y);
    assert ScopeAt(Perform(w, Finish(t)), key) == Pump(key, y, false).(speed := w.speed);
  }
}
