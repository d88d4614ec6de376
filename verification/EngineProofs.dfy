/** The invariants tying an endpoint to its ring, to the session and to the record of URBs. */
module EngineProofs {
  import opened Common
  import opened Session
  import opened SessionProofs
  import opened SessionRuns
  import opened Engine
  import opened Moves

  // ---------------------------------------------------------------- one endpoint

  /** The URB of `f` was built from that message of this very ring, as `f` says. */
  ghost predicate Traces(key: Key, ring: Ring, f: InFlight, origins: seq<Origin>) {
    && f.token < |origins|
    && origins[f.token].key == key && origins[f.token].ring == ring.id
    && origins[f.token].message == f.message && origins[f.token].stage == f.stage
    && origins[f.token].request.direction == f.direction
    && origins[f.token].request.length == f.length
  }

  /** Oldest first, for consecutive messages. */
  ghost predicate InLine(fs: seq<InFlight>) {
    && (forall i :: 0 <= i < |fs| ==> fs[i].message == fs[0].message + i)
    && (forall i, j :: 0 <= i < j < |fs| ==> fs[i].token < fs[j].token)
  }

  /**
   * The URBs in flight are for consecutive messages that are on the ring, oldest first; only a
   * pausable endpoint has URBs being unlinked.
   */
  ghost predicate Queued(key: Key, ep: Endpoint, origins: seq<Origin>) {
    && |ep.inFlight| <= 32 && InLine(ep.inFlight)
    && (forall i :: 0 <= i < |ep.inFlight| ==>
          && Traces(key, ep.ring, ep.inFlight[i], origins)
          && ep.inFlight[i].message < |ep.ring.tape|
          && (ep.inFlight[i].unlinking ==> Pausable(key)))
  }

  /** Every act on the ring concerns the message its URB was built from. */
  ghost predicate ActOk(key: Key, ring: Ring, act: Act, origins: seq<Origin>) {
    match act
    case Sent(t, m) =>
      t < |origins| && origins[t].key == key && origins[t].ring == ring.id
      && origins[t].message == m
    case Done(m, _, _, _, source) =>
      source.Some? ==>
        && source.value < |origins| && origins[source.value].key == key
        && origins[source.value].ring == ring.id && origins[source.value].message == m
  }

  ghost predicate Recorded(key: Key, ring: Ring, origins: seq<Origin>) {
    forall k :: 0 <= k < |ring.acts| ==> ActOk(key, ring, ring.acts[k], origins)
  }

  // ---------------------------------------------------------------- the endpoint and the session

  /** Every URB has its channel, and no other channel is a URB's. */
  ghost predicate Ticketed(s: State, origins: seq<Origin>) {
    && (forall t :: 0 <= t < |origins| ==>
          && Urb(t) in s.tickets
          && s.tickets[Urb(t)].direction == origins[t].request.direction
          && s.tickets[Urb(t)].length == origins[t].request.length)
    && (forall t: nat :: Urb(t) in s.tickets ==> t < |origins|)
  }

  /** An entry knows its seqnum, and a result in it is the one answer of its channel. */
  ghost predicate Matched(ep: Endpoint, s: State) {
    forall i :: 0 <= i < |ep.inFlight| ==> EntryMatched(ep.inFlight[i], s)
  }

  ghost predicate EntryMatched(f: InFlight, s: State) {
    && Urb(f.token) in s.tickets && s.tickets[Urb(f.token)].seqnum == f.seqnum
    && (f.result.Some? ==> Urb(f.token) in s.replies && s.replies[Urb(f.token)] == f.result.value)
  }

  ghost predicate Holds(ep: Endpoint, t: nat) {
    exists i :: 0 <= i < |ep.inFlight| && ep.inFlight[i].token == t
  }

  /** A pending transfer of this endpoint's is in flight or being cancelled. */
  ghost predicate CoveredAt(key: Key, x: Scope, q: nat)
    requires q in x.session.submits
  {
    var c := x.session.submits[q].reply;
    c.Urb? && c.token < |x.origins| && x.origins[c.token].key == key ==>
      q in x.session.unlinks.Values || Holds(x.ep, c.token)
  }

  ghost predicate Covered(key: Key, x: Scope) {
    forall q :: q in x.session.submits ==> CoveredAt(key, x, q)
  }

  ghost predicate Good(key: Key, x: Scope) {
    && Sound(x.session) && Ticketed(x.session, x.origins)
    && Queued(key, x.ep, x.origins) && Recorded(key, x.ep.ring, x.origins)
    && Matched(x.ep, x.session) && Covered(key, x)
  }

  // ---------------------------------------------------------------- what work elsewhere leaves

  /** What the engine may do to the session while working on some endpoint. */
  ghost predicate Evolves(a: State, b: State) {
    && b.replies == a.replies && b.closed == a.closed && b.reader == a.reader
    && a.frames <= b.frames && b.devid == a.devid
    && (forall c :: c in a.tickets ==> c in b.tickets && b.tickets[c] == a.tickets[c])
    && (forall q :: q in a.submits ==> q in b.submits && b.submits[q] == a.submits[q])
    && (forall v :: v in a.unlinks.Values ==> v in b.unlinks.Values)
  }

  /** New pending transfers are URBs sent meanwhile, for `key`. */
  ghost predicate Extends(key: Key, a: Scope, b: Scope) {
    && Evolves(a.session, b.session)
    && a.origins <= b.origins && b.speed == a.speed
    && (forall t :: |a.origins| <= t < |b.origins| ==> b.origins[t].key == key)
    && (forall q :: q in b.session.submits && q !in a.session.submits ==>
          b.session.submits[q].reply.Urb? && b.session.submits[q].reply.token >= |a.origins|)
    && b.ep.ring.id == a.ep.ring.id && b.ep.ring.tape == a.ep.ring.tape
    && b.ep.ring.active == a.ep.ring.active && b.ep.ring.rejects == a.ep.ring.rejects
    && b.ep.info == a.ep.info && a.ep.ring.acts <= b.ep.ring.acts
    && a.ep.ring.head <= b.ep.ring.head
  }

  lemma EvolvesTransitive(a: State, b: State, c: State)
    requires Evolves(a, b) && Evolves(b, c)
    ensures Evolves(a, c)
  {
  }

  lemma ExtendsTransitive(key: Key, a: Scope, b: Scope, c: Scope)
    requires Extends(key, a, b) && Extends(key, b, c)
    ensures Extends(key, a, c)
  {
    EvolvesTransitive(a.session, b.session, c.session);
    forall t | |a.origins| <= t < |c.origins|
      ensures c.origins[t].key == key
    {
      if t < |b.origins| { assert c.origins[t] == b.origins[t]; }
    }
  }

  // ---------------------------------------------------------------- cancelling

  lemma UnlinkEvolves(s: State, target: nat)
    requires Sound(s)
    ensures var t := UnlinkedAt(s, target);
            && Sound(t) && Evolves(s, t) && t.submits == s.submits && t.tickets == s.tickets
            && (target in s.submits ==> target in t.unlinks.Values)
  {
    hide UnlinkedAt;
    UnlinkKeepsSound(s, target);
    assert Numbered(s);
    hide Sound, Numbered;
    UnlinkKeepsTargets(s, target);
    UnlinkKeepsRest(s, target);
  }

  lemma UnlinkKeepsRest(s: State, target: nat)
    ensures var t := UnlinkedAt(s, target);
            && t.submits == s.submits && t.tickets == s.tickets && t.replies == s.replies
            && t.closed == s.closed && t.reader == s.reader && t.devid == s.devid
            && s.frames <= t.frames
  {
    hide Seqnum.Next;
  }

  lemma UnlinkKeepsSound(s: State, target: nat)
    requires Sound(s)
    ensures Sound(UnlinkedAt(s, target))
  {
    hide Sound, UnlinkedAt;
    StepKeepsSound(s, DoUnlink(target));
  }

  lemma UnlinkKeepsTargets(s: State, target: nat)
    requires Numbered(s)
    ensures var t := UnlinkedAt(s, target);
            && (forall v :: v in s.unlinks.Values ==> v in t.unlinks.Values)
            && (target in s.submits ==> target in t.unlinks.Values)
  {
    hide Seqnum.Next;
    Seqnum.NextFresh(Used(s), s.next);
    var t := UnlinkedAt(s, target);
    if Cancellable(s, target) {
      assert t.unlinks[Fresh(s)] == target;
      forall v | v in s.unlinks.Values
        ensures v in t.unlinks.Values
      {
        var k :| k in s.unlinks && s.unlinks[k] == v;
        assert t.unlinks[k] == v;
      }
    }
  }

  lemma {:induction false} CancelEvolves(s: State, fs: seq<InFlight>)
    requires Sound(s)
    ensures var t := Cancel(s, fs);
            && Sound(t) && Evolves(s, t) && t.submits == s.submits && t.tickets == s.tickets
            && forall i :: 0 <= i < |fs| && fs[i].result.None? && fs[i].seqnum in s.submits
                           ==> fs[i].seqnum in t.unlinks.Values
    decreases |fs|
  {
    hide Sound;
    if fs != [] {
      var m := if fs[0].result.None? then UnlinkedAt(s, fs[0].seqnum) else s;
      UnlinkEvolves(s, fs[0].seqnum);
      CancelEvolves(m, fs[1..]);
      EvolvesTransitive(s, m, Cancel(m, fs[1..]));
      forall i | 0 <= i < |fs| && fs[i].result.None? && fs[i].seqnum in s.submits
        ensures fs[i].seqnum in Cancel(s, fs).unlinks.Values
      {
        if i > 0 { assert fs[i] == fs[1..][i - 1]; }
      }
    }
  }

  lemma {:induction false} CancelKeepsClosed(s: State, fs: seq<InFlight>)
    ensures Cancel(s, fs).closed == s.closed
    decreases |fs|
  {
    if fs != [] {
      CancelKeepsClosed(if fs[0].result.None? then UnlinkedAt(s, fs[0].seqnum) else s, fs[1..]);
    }
  }

  /** Forgetting entries from `i` on is safe once those with no answer yet are cancelled. */
  lemma DropKeepsGood(key: Key, x: Scope, i: nat, j: nat)
    requires Good(key, x) && i <= j <= |x.ep.inFlight|
    requires forall k :: i <= k < j ==> Urb(x.ep.inFlight[k].token) in x.session.replies
    ensures Good(key, Dropped(x, i, j)) && Extends(key, x, Dropped(x, i, j))
  {
    var y := Dropped(x, i, j);
    hide Sound, Cancel;
    CancelEvolves(x.session, x.ep.inFlight[j..]);
    DropKeepsQueued(key, x, i, y);
    hide Queued, Recorded, Evolves;
    assert Evolves(x.session, y.session);
    DropKeepsMatched(x, i, y.session);
    assert Covered(key, y) by { DropKeepsCovered(key, x, i, j); }
  }

  lemma DropKeepsQueued(key: Key, x: Scope, i: nat, y: Scope)
    requires Queued(key, x.ep, x.origins) && i <= |x.ep.inFlight|
    requires y.ep == x.ep.(inFlight := x.ep.inFlight[..i]) && y.origins == x.origins
    ensures Queued(key, y.ep, y.origins)
  {
    assert InLine(x.ep.inFlight[..i]);
    hide InLine;
    forall k | 0 <= k < i
      ensures Traces(key, y.ep.ring, y.ep.inFlight[k], y.origins)
    {
      assert Traces(key, x.ep.ring, x.ep.inFlight[k], x.origins);
    }
  }

  lemma DropKeepsCovered(key: Key, x: Scope, i: nat, j: nat)
    requires Sound(x.session) && Matched(x.ep, x.session) && Covered(key, x)
    requires i <= j <= |x.ep.inFlight|
    requires forall k :: i <= k < j ==> Urb(x.ep.inFlight[k].token) in x.session.replies
    ensures Covered(key, Dropped(x, i, j))
  {
    var y := Dropped(x, i, j);
    CancelEvolves(x.session, x.ep.inFlight[j..]);
    forall q | q in y.session.submits
      ensures CoveredAt(key, y, q)
    {
      assert CoveredAt(key, x, q);
      var c := x.session.submits[q].reply;
      if c.Urb? && c.token < |x.origins| && x.origins[c.token].key == key
         && q !in x.session.unlinks.Values {
        var k :| 0 <= k < |x.ep.inFlight| && x.ep.inFlight[k].token == c.token;
        assert EntryMatched(x.ep.inFlight[k], x.session);
        if k < i {
          assert y.ep.inFlight[k].token == c.token;
        } else {
          assert k >= j;
          assert x.ep.inFlight[j..][k - j] == x.ep.inFlight[k];
        }
      }
    }
  }

  lemma DropKeepsMatched(x: Scope, i: nat, s: State)
    requires i <= |x.ep.inFlight| && Matched(x.ep, x.session) && Evolves(x.session, s)
    ensures Matched(x.ep.(inFlight := x.ep.inFlight[..i]), s)
  {
    forall k | 0 <= k < i
      ensures EntryMatched(x.ep.inFlight[..i][k], s)
    {
      assert EntryMatched(x.ep.inFlight[k], x.session);
    }
  }

  // ---------------------------------------------------------------- the moves

  lemma DropMoveKeepsGood(key: Key, x: Scope, y: Scope)
    requires Good(key, x) && DropMove(x, y)
    ensures Good(key, y) && Extends(key, x, y)
  {
    DropKeepsGood(key, x, 0, 0);
  }

  /** The completion of the head by its own URB. */
  lemma ApplyKeepsRecorded(key: Key, x: Scope, y: Scope)
    requires Queued(key, x.ep, x.origins) && Recorded(key, x.ep.ring, x.origins)
    requires ApplyMove(x, y)
    ensures Recorded(key, y.ep.ring, y.origins)
    ensures y.session == x.session && y.origins == x.origins && y.speed == x.speed
    ensures y.ep.inFlight == x.ep.inFlight[1..] && y.ep.info == x.ep.info
    ensures y.ep.ring.(head := x.ep.ring.head, acts := x.ep.ring.acts) == x.ep.ring
    ensures y.ep.ring.head >= x.ep.ring.head && x.ep.ring.acts <= y.ep.ring.acts
  {
    hide HideUas.Hide;
    var f := x.ep.inFlight[0];
    assert Traces(key, x.ep.ring, f, x.origins);
    if Accepts(x.ep.ring) {
      forall k | 0 <= k < |y.ep.ring.acts|
        ensures ActOk(key, y.ep.ring, y.ep.ring.acts[k], y.origins)
      {
        if k < |x.ep.ring.acts| { assert ActOk(key, x.ep.ring, x.ep.ring.acts[k], x.origins); }
      }
    }
  }

  lemma TailInLine(fs: seq<InFlight>)
    requires InLine(fs) && fs != []
    ensures InLine(fs[1..])
  {
    var fs' := fs[1..];
    forall i | 0 <= i < |fs'|
      ensures fs'[i].message == fs'[0].message + i
    {
      assert fs'[i] == fs[i + 1] && fs'[0] == fs[1];
      assert fs[i + 1].message == fs[0].message + (i + 1) && fs[1].message == fs[0].message + 1;
    }
  }

  lemma QueuedTail(key: Key, ep: Endpoint, ep': Endpoint, origins: seq<Origin>)
    requires Queued(key, ep, origins) && ep.inFlight != [] && ep'.inFlight == ep.inFlight[1..]
    requires ep'.ring.id == ep.ring.id && |ep'.ring.tape| == |ep.ring.tape|
    ensures Queued(key, ep', origins)
  {
    TailInLine(ep.inFlight);
    hide InLine;
    forall i | 0 <= i < |ep'.inFlight|
      ensures Traces(key, ep'.ring, ep'.inFlight[i], origins)
    {
      assert ep'.inFlight[i] == ep.inFlight[i + 1];
      assert Traces(key, ep.ring, ep.inFlight[i + 1], origins);
    }
  }

  lemma PendingUnanswered(s: State, q: nat)
    requires Sound(s) && q in s.submits
    ensures s.submits[q].reply !in s.replies
  {
  }

  lemma ApplyMoveKeepsGood(key: Key, x: Scope, y: Scope)
    requires Good(key, x) && ApplyMove(x, y)
    ensures Good(key, y) && Extends(key, x, y)
  {
    hide Applied, Sound;
    ApplyKeepsRecorded(key, x, y);
    var fs := x.ep.inFlight;
    forall i | 0 <= i < |fs| - 1
      ensures EntryMatched(y.ep.inFlight[i], y.session)
    {
      assert EntryMatched(fs[i + 1], x.session);
    }
    QueuedTail(key, x.ep, y.ep, x.origins);
    assert Matched(y.ep, y.session);
    forall q | q in y.session.submits
      ensures CoveredAt(key, y, q)
    {
      assert CoveredAt(key, x, q);
      var c := x.session.submits[q].reply;
      if c.Urb? && Holds(x.ep, c.token) {
        var k :| 0 <= k < |fs| && fs[k].token == c.token;
        assert EntryMatched(fs[0], x.session);
        PendingUnanswered(x.session, q);
        if k > 0 { assert y.ep.inFlight[k - 1].token == c.token; }
      }
    }
  }

  lemma AnsweredKeepsGood(key: Key, x: Scope, status: Status, setup: Option<SetupState>)
    requires Good(key, x) && x.ep.inFlight == []
    ensures var y := x.(ep := Answered(x.ep, status, setup));
            Good(key, y) && Extends(key, x, y)
  {
    hide Sound, Ticketed;
    var y := x.(ep := Answered(x.ep, status, setup));
    forall k | 0 <= k < |y.ep.ring.acts|
      ensures ActOk(key, y.ep.ring, y.ep.ring.acts[k], y.origins)
    {
      if k < |x.ep.ring.acts| { assert ActOk(key, x.ep.ring, x.ep.ring.acts[k], x.origins); }
    }
    forall q | q in y.session.submits
      ensures CoveredAt(key, y, q)
    {
      assert CoveredAt(key, x, q);
    }
  }

  /** Where a URB may be sent for: the head when idle, else the message after those in flight. */
  ghost predicate NextInLine(x: Scope, message: nat) {
    && message == x.ep.ring.head + |x.ep.inFlight| < |x.ep.ring.tape|
    && (x.ep.inFlight != [] ==> x.ep.inFlight[0].message == x.ep.ring.head)
  }

  lemma PushSession(x: Scope, req: Request)
    requires Sound(x.session) && Ticketed(x.session, x.origins)
    ensures var r := Submitted(x.session, req, Urb(|x.origins|));
            r.Accepted? ==>
              && Sound(r.state) && Evolves(x.session, r.state)
              && r.seqnum !in x.session.submits && r.state.unlinks == x.session.unlinks
              && r.state.submits
                 == x.session.submits[r.seqnum := Pending(req.direction, req.length, Urb(|x.origins|))]
              && r.state.tickets
                 == x.session.tickets[Urb(|x.origins|) :=
                                      Ticket(r.seqnum, req.direction, req.length)]
  {
    hide Sound;
    StepKeepsSound(x.session, DoSubmit(req, Urb(|x.origins|)));
    Seqnum.NextFresh(Used(x.session), x.session.next);
  }

  lemma PushKeepsQueued(key: Key, x: Scope, message: nat, req: Request, stage: Stage)
    requires Queued(key, x.ep, x.origins) && Recorded(key, x.ep.ring, x.origins)
    requires NextInLine(x, message) && |x.ep.inFlight| < 32
    ensures var r := Push(key, x, message, req, stage);
            r.Ok? ==> && Queued(key, r.value.ep, r.value.origins)
                      && Recorded(key, r.value.ep.ring, r.value.origins)
  {
    var r := Push(key, x, message, req, stage);
    if r.Ok? {
      var y := r.value;
      forall i | 0 <= i < |x.ep.inFlight|
        ensures Traces(key, y.ep.ring, y.ep.inFlight[i], y.origins)
      {
        assert Traces(key, x.ep.ring, x.ep.inFlight[i], x.origins);
      }
      forall k | 0 <= k < |y.ep.ring.acts|
        ensures ActOk(key, y.ep.ring, y.ep.ring.acts[k], y.origins)
      {
        if k < |x.ep.ring.acts| { assert ActOk(key, x.ep.ring, x.ep.ring.acts[k], x.origins); }
      }
    }
  }

  lemma PushKeepsMatched(x: Scope, y: Scope)
    requires Matched(x.ep, x.session) && Evolves(x.session, y.session)
    requires |y.ep.inFlight| == |x.ep.inFlight| + 1
    requires y.ep.inFlight[..|x.ep.inFlight|] == x.ep.inFlight
    requires EntryMatched(y.ep.inFlight[|x.ep.inFlight|], y.session)
    ensures Matched(y.ep, y.session)
  {
    forall i | 0 <= i < |y.ep.inFlight|
      ensures EntryMatched(y.ep.inFlight[i], y.session)
    {
      if i < |x.ep.inFlight| {
        assert y.ep.inFlight[i] == x.ep.inFlight[i];
        assert EntryMatched(x.ep.inFlight[i], x.session);
      }
    }
  }

  lemma PushKeepsCovered(key: Key, x: Scope, y: Scope, q: nat, p: Pending)
    requires Covered(key, x) && x.origins <= y.origins
    requires |y.ep.inFlight| == |x.ep.inFlight| + 1
    requires y.ep.inFlight[..|x.ep.inFlight|] == x.ep.inFlight
    requires y.session.unlinks == x.session.unlinks
    requires y.session.submits == x.session.submits[q := p] && q !in x.session.submits
    requires p.reply == Urb(y.ep.inFlight[|x.ep.inFlight|].token)
    requires |y.origins| == |x.origins| + 1 && p.reply == Urb(|x.origins|)
    ensures Covered(key, y)
  {
    var n := |x.ep.inFlight|;
    assert y.ep.inFlight[n].token == |x.origins|;
    forall r | r in y.session.submits
      ensures CoveredAt(key, y, r)
    {
      if r != q {
        assert CoveredAt(key, x, r);
        var c := x.session.submits[r].reply;
        if c.Urb? && c.token < |x.origins| { assert y.origins[c.token] == x.origins[c.token]; }
        if c.Urb? && Holds(x.ep, c.token) {
          var k :| 0 <= k < n && x.ep.inFlight[k].token == c.token;
          assert y.ep.inFlight[k] == x.ep.inFlight[k];
        }
      }
    }
  }

  lemma PushKeepsGood(key: Key, x: Scope, message: nat, req: Request, stage: Stage)
    requires Good(key, x) && NextInLine(x, message) && |x.ep.inFlight| < 32
    ensures var r := Push(key, x, message, req, stage);
            r.Ok? ==> Good(key, r.value) && Extends(key, x, r.value)
  {
    hide Sound, Submitted;
    PushSession(x, req);
    PushKeepsQueued(key, x, message, req, stage);
    hide Queued, Recorded, Covered, Matched;
    var r := Push(key, x, message, req, stage);
    if r.Ok? {
      var y := r.value;
      var q := y.ep.inFlight[|x.ep.inFlight|].seqnum;
      PushKeepsMatched(x, y);
      PushKeepsCovered(key, x, y, q, y.session.submits[q]);
    }
  }

  lemma MoveKeepsGood(key: Key, x: Scope, y: Scope)
    requires Good(key, x) && Move(key, x, y)
    ensures Good(key, y) && Extends(key, x, y)
  {
    hide Good, Extends, Push, Applied, HeadPlan;
    if DropMove(x, y) {
      DropMoveKeepsGood(key, x, y);
    } else if ApplyMove(x, y) {
      ApplyMoveKeepsGood(key, x, y);
    } else if AnswerMove(key, x, y) {
      AnsweredKeepsGood(key, x, PlanFor(key, x).status, PlanFor(key, x).setup);
    } else if RefuseMove(key, x, y) {
      AnsweredKeepsGood(key, x, ErrorStatus(HeadPush(key, x).error), x.ep.setup);
    } else if SendMove(key, x, y) {
      PushKeepsGood(key, x, x.ep.ring.head, PlanFor(key, x).request, PlanFor(key, x).stage);
    } else {
      var (req, stage) := ReadAhead(key, x).value;
      PushKeepsGood(key, x, x.ep.ring.head + |x.ep.inFlight|, req, stage);
    }
  }

  lemma ExtendsReflexive(key: Key, x: Scope)
    ensures Extends(key, x, x)
  {
  }

  /** `Pump` keeps the invariants and touches only its own endpoint. */
  lemma PumpKeepsGood(key: Key, x: Scope, offline: bool)
    requires Good(key, x)
    ensures Good(key, Pump(key, x, offline)) && Extends(key, x, Pump(key, x, offline))
  {
    hide Good, Extends, Move, Pump;
    var p := (y: Scope) => Good(key, y) && Extends(key, x, y);
    forall a, b | p(a) && Move(key, a, b)
      ensures p(b)
    {
      MoveKeepsGood(key, a, b);
      ExtendsTransitive(key, x, a, b);
    }
    ExtendsReflexive(key, x);
    PumpKeeps(key, x, offline, p);
  }
}
