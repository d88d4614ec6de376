/** Theorems about whole runs of a session, from its start, for every interleaving of events. */
module SessionRuns {
  import opened Common
  import opened Wire
  import opened Session
  import opened SessionProofs

  ghost predicate Sound(s: State) {
    Numbered(s) && Accounted(s) && Traced(s) && Disciplined(s.frames)
  }

  lemma StepKeepsSound(s: State, e: Event)
    requires Sound(s) && Enabled(s, e)
    ensures Sound(Step(s, e))
  {
    StepKeepsNumbered(s, e);
    StepKeepsAccounted(s, e);
    StepKeepsTraced(s, e);
    StepKeepsDiscipline(s, e);
  }

  lemma {:induction false} RunKeepsSound(s: State, es: seq<Event>)
    requires Sound(s) && Possible(s, es)
    ensures Sound(Run(s, es))
    decreases |es|
  {
    if es != [] {
      StepKeepsSound(s, es[0]);
      RunKeepsSound(Step(s, es[0]), es[1..]);
    }
  }

  /** The invariants of the bookkeeping hold after every run of a new session. */
  lemma SessionIsSound(devid: u32, es: seq<Event>)
    requires Possible(Init(devid), es)
    ensures Sound(Run(Init(devid), es))
  {
    RunKeepsSound(Init(devid), es);
  }

  /** Two CMD_UNLINKs for one number are for different transfers: a CMD_SUBMIT lies between. */
  lemma UnlinkedAtMostOnce(frames: seq<Command>, j: nat, k: nat)
    requires Disciplined(frames) && j < k < |frames| && frames[j].Unlink? && frames[k].Unlink?
    requires frames[j].unlink.target == frames[k].unlink.target
    ensures exists i :: j < i < k && SubmitsNumber(frames[i], frames[k].unlink.target)
  {
    assert NamesEarlierSubmit(frames, k);
    var q := frames[k].unlink.target;
    var i: nat :| i < k && LatestSubmit(frames[..k], q, i) && NotCancelledSince(frames[..k], q, i);
    assert frames[..k][i] == frames[i] && frames[..k][j] == frames[j];
    assert CancelsNumber(frames[..k][j], q);
    assert j <= i;
  }

  /**
   * In every run each queued CMD_UNLINK names a transfer whose CMD_SUBMIT was queued earlier and
   * that has not been cancelled since.
   */
  lemma UnlinksNameEarlierSubmits(devid: u32, es: seq<Event>)
    requires Possible(Init(devid), es)
    ensures Disciplined(Run(Init(devid), es).frames)
  {
    SessionIsSound(devid, es);
  }

  // ---------------------------------------------------------------- exactly one answer each

  /** An answer, once sent, stays what it is through every later run. */
  lemma {:induction false} AnswersAreFinal(s: State, es: seq<Event>)
    requires Sound(s) && Possible(s, es)
    ensures AnswersKept(s, Run(s, es))
    decreases |es|
  {
    if es != [] {
      StepKeepsAnswers(s, es[0]);
      StepKeepsSound(s, es[0]);
      AnswersAreFinal(Step(s, es[0]), es[1..]);
    }
  }

  ghost function Completed(s: State): set<Channel> {
    set c | c in s.replies && s.replies[c].Ok?
  }

  ghost function Cancelled(s: State): set<Channel> {
    set c | c in s.replies && s.replies[c].Err? && s.replies[c].error.Unlinked?
  }

  ghost function CutOff(s: State): set<Channel> {
    set c | c in s.replies && s.replies[c].Err? && s.replies[c].error.Disconnected?
  }

  /** Only the three outcomes of the source are ever sent on a channel. */
  ghost predicate KnownOutcomes(s: State) {
    forall c :: c in s.replies && s.replies[c].Err? ==> !s.replies[c].error.Invalid?
  }

  lemma StepKeepsOutcomes(s: State, e: Event)
    requires KnownOutcomes(s)
    ensures KnownOutcomes(Step(s, e))
  {
  }

  lemma {:induction false} RunKeepsOutcomes(s: State, es: seq<Event>)
    requires KnownOutcomes(s) && Possible(s, es)
    ensures KnownOutcomes(Run(s, es))
    decreases |es|
  {
    if es != [] {
      StepKeepsOutcomes(s, es[0]);
      RunKeepsOutcomes(Step(s, es[0]), es[1..]);
    }
  }

  lemma ChannelsWithout(submits: map<nat, Pending>, q: nat)
    requires q in submits
    ensures Channels(submits) == Channels(submits - {q}) + {submits[q].reply}
  {
    var rest := submits - {q};
    forall c | c in Channels(submits)
      ensures c in Channels(rest) + {submits[q].reply}
    {
      var p :| p in submits && submits[p].reply == c;
      assert p != q ==> p in rest && rest[p].reply == c;
    }
    forall c | c in Channels(rest)
      ensures c in Channels(submits)
    {
      var p :| p in rest && rest[p].reply == c;
      assert submits[p].reply == c;
    }
  }

  lemma SizeWithout(submits: map<nat, Pending>, q: nat)
    requires q in submits
    ensures |submits - {q}| == |submits| - 1
  {
    assert submits.Keys == (submits - {q}).Keys + {q};
  }

  lemma {:induction false} ChannelCount(submits: map<nat, Pending>)
    requires forall p, q :: p in submits && q in submits && submits[p].reply == submits[q].reply
                            ==> p == q
    ensures |Channels(submits)| == |submits|
    decreases |submits|
  {
    if submits != map[] {
      var q :| q in submits;
      ChannelsWithout(submits, q);
      SizeWithout(submits, q);
      ChannelCount(submits - {q});
      assert submits[q].reply !in Channels(submits - {q});
    } else {
      assert Channels(submits) == {};
    }
  }

  lemma TicketsCovered(s: State)
    requires Accounted(s)
    ensures s.tickets.Keys == Channels(s.submits) + s.replies.Keys
    ensures Channels(s.submits) !! s.replies.Keys
  {
    forall c | c in s.tickets.Keys && c !in s.replies
      ensures c in Channels(s.submits)
    {
      assert s.tickets[c].seqnum in s.submits;
    }
  }

  lemma ChannelsUnshared(s: State)
    requires Accounted(s)
    ensures |Channels(s.submits)| == |s.submits|
  {
    forall p, q | p in s.submits && q in s.submits && s.submits[p].reply == s.submits[q].reply
      ensures p == q
    {
      assert s.tickets[s.submits[p].reply].seqnum == p;
    }
    ChannelCount(s.submits);
  }

  lemma TicketsPartitioned(s: State)
    requires Accounted(s)
    ensures s.tickets.Keys == Channels(s.submits) + s.replies.Keys
    ensures |s.tickets| == |s.submits| + |s.replies|
  {
    TicketsCovered(s);
    ChannelsUnshared(s);
    DisjointSize(Channels(s.submits), s.replies.Keys);
  }

  lemma DisjointSize<T>(a: set<T>, b: set<T>)
    requires a !! b
    ensures |a + b| == |a| + |b|
  {
  }

  lemma RepliesPartitioned(s: State)
    requires KnownOutcomes(s)
    ensures |s.replies| == |Completed(s)| + |Cancelled(s)| + |CutOff(s)|
  {
    assert s.replies.Keys == Completed(s) + Cancelled(s) + CutOff(s);
    assert |s.replies.Keys| == |Completed(s) + Cancelled(s)| + |CutOff(s)|;
    assert |Completed(s) + Cancelled(s)| == |Completed(s)| + |Cancelled(s)|;
  }

  /**
   * Conservation: the accepted requests are exactly the pending, completed, unlinked and
   * disconnected ones, and no request is in two of these groups.
   */
  lemma Conservation(devid: u32, es: seq<Event>)
    requires Possible(Init(devid), es)
    ensures var s := Run(Init(devid), es);
            && |s.tickets| == |s.submits| + |Completed(s)| + |Cancelled(s)| + |CutOff(s)|
            && (s.closed.Some? ==> s.submits == map[] && s.replies.Keys == s.tickets.Keys)
  {
    var s := Run(Init(devid), es);
    SessionIsSound(devid, es);
    RunKeepsOutcomes(Init(devid), es);
    TicketsPartitioned(s);
    RepliesPartitioned(s);
  }

  // ---------------------------------------------------------------- one command each

  function SubmitCount(frames: seq<Command>): nat {
    if frames == [] then 0
    else SubmitCount(frames[..|frames| - 1]) + if frames[|frames| - 1].Submit? then 1 else 0
  }

  lemma SubmitCountAppend(frames: seq<Command>, c: Command)
    ensures SubmitCount(frames + [c]) == SubmitCount(frames) + if c.Submit? then 1 else 0
  {
    assert (frames + [c])[..|frames|] == frames;
  }

  lemma SubmitSendsOnce(s: State, req: Request, reply: Channel)
    requires reply !in s.tickets
    ensures var t := Step(s, DoSubmit(req, reply));
            SubmitCount(t.frames) - SubmitCount(s.frames) == |t.tickets| - |s.tickets|
  {
    hide SubmitCount, Seqnum.Next;
    SubmitCountAppend(s.frames, Submit(CommandOf(s, req, Fresh(s))));
  }

  lemma UnlinkSendsNone(s: State, target: nat)
    ensures var t := UnlinkedAt(s, target);
            SubmitCount(t.frames) == SubmitCount(s.frames) && t.tickets == s.tickets
  {
    hide SubmitCount, Seqnum.Next;
    SubmitCountAppend(s.frames, Unlink(CmdUnlink(Fresh(s), s.devid, target)));
  }

  lemma StepSendsOnce(s: State, e: Event)
    requires Enabled(s, e)
    ensures SubmitCount(Step(s, e).frames) - SubmitCount(s.frames)
            == |Step(s, e).tickets| - |s.tickets|
  {
    hide SubmitCount, Submitted, UnlinkedAt;
    match e {
      case DoSubmit(req, reply) => hide Step; SubmitSendsOnce(s, req, reply);
      case DoUnlink(target) => UnlinkSendsNone(s, target);
      case _ =>
    }
  }

  /** Each accepted request queues exactly one CMD_SUBMIT. */
  lemma {:induction false} OneCommandPerRequest(s: State, es: seq<Event>)
    requires Possible(s, es) && SubmitCount(s.frames) == |s.tickets|
    ensures SubmitCount(Run(s, es).frames) == |Run(s, es).tickets|
    decreases |es|
  {
    if es != [] {
      StepSendsOnce(s, es[0]);
      OneCommandPerRequest(Step(s, es[0]), es[1..]);
    }
  }

  // ---------------------------------------------------------------- the memory of unlinked transfers

  /** `m` is remembered, with at most `k` transfers remembered after it. */
  ghost predicate Recent(memos: seq<Memo>, m: Memo, k: nat) {
    exists i :: 0 <= i < |memos| && memos[i] == m && |memos| - 1 - i <= k
  }

  lemma {:induction false} ForgetKeepsRecent(memos: seq<Memo>, m: Memo, q: nat, k: nat)
    requires Recent(memos, m, k) && m.seqnum != q
    ensures Recent(Forget(memos, q), m, k)
    decreases |memos|
  {
    var i :| 0 <= i < |memos| && memos[i] == m && |memos| - 1 - i <= k;
    var rest := Forget(memos[1..], q);
    if i > 0 {
      assert memos[1..][i - 1] == m;
      ForgetKeepsRecent(memos[1..], m, q, k);
      var j :| 0 <= j < |rest| && rest[j] == m && |rest| - 1 - j <= k;
      if memos[0].seqnum != q {
        assert Forget(memos, q)[j + 1] == m;
      }
    } else {
      assert Forget(memos, q)[0] == m;
    }
  }

  lemma RememberKeepsRecent(memos: seq<Memo>, m: Memo, other: Memo, k: nat)
    requires Recent(memos, m, k) && k < MEMORY - 1
    ensures Recent(Remember(memos, other), m, k + 1)
  {
    var i :| 0 <= i < |memos| && memos[i] == m && |memos| - 1 - i <= k;
    var r := Remember(memos, other);
    assert r[if |memos| == MEMORY then i - 1 else i] == m;
  }

  lemma {:induction false} RecentIsFound(memos: seq<Memo>, m: Memo, k: nat)
    requires Recent(memos, m, k)
    ensures FindMemo(memos, m.seqnum).Some?
    decreases |memos|
  {
    var i :| 0 <= i < |memos| && memos[i] == m && |memos| - 1 - i <= k;
    if i > 0 && memos[0].seqnum != m.seqnum {
      assert memos[1..][i - 1] == m;
      RecentIsFound(memos[1..], m, k);
    }
  }

  function Confirmations(es: seq<Event>): nat {
    if es == [] then 0 else (if es[0].UnlinkReply? then 1 else 0) + Confirmations(es[1..])
  }

  lemma StepKeepsRecent(s: State, e: Event, m: Memo, k: nat)
    requires Recent(s.unlinked, m, k)
    requires e.SubmitPayload? ==> e.ret.seqnum != m.seqnum
    requires e.UnlinkReply? ==> k < MEMORY - 1
    ensures Recent(Step(s, e).unlinked, m, if e.UnlinkReply? then k + 1 else k)
  {
    hide Recent;
    match e {
      case SubmitPayload(ret) => ForgetKeepsRecent(s.unlinked, m, ret.seqnum, k);
      case UnlinkReply(seqnum, status) =>
        if seqnum in s.unlinks && s.unlinks[seqnum] in s.submits {
          var p := s.submits[s.unlinks[seqnum]];
          RememberKeepsRecent(s.unlinked, m, Memo(s.unlinks[seqnum], p.direction, p.length), k);
        } else {
          RecentLonger(s.unlinked, m, k);
        }
      case _ =>
    }
  }

  lemma RecentLonger(memos: seq<Memo>, m: Memo, k: nat)
    requires Recent(memos, m, k)
    ensures Recent(memos, m, k + 1)
  {
    var i :| 0 <= i < |memos| && memos[i] == m && |memos| - 1 - i <= k;
    assert memos[i] == m;
  }

  /**
   * The last 256 unlinked transfers are remembered: through any run with fewer than 256 further
   * confirmations, until its own RET_SUBMIT arrives, a transfer confirmed as unlinked can still
   * have that RET_SUBMIT parsed.
   */
  lemma {:induction false} UnlinkedAreRemembered(s: State, es: seq<Event>, m: Memo, k: nat)
    requires Recent(s.unlinked, m, k) && k + Confirmations(es) < 256
    requires forall e :: e in es && e.SubmitPayload? ==> e.ret.seqnum != m.seqnum
    ensures Expectation(Run(s, es), m.seqnum).Some?
    decreases |es|
  {
    if es == [] {
      RecentIsFound(s.unlinked, m, k);
    } else {
      hide Recent;
      assert es[0] in es;
      StepKeepsRecent(s, es[0], m, k);
      UnlinkedAreRemembered(Step(s, es[0]), es[1..], m, if es[0].UnlinkReply? then k + 1 else k);
    }
  }

  /** No other transfer of that number is remembered. */
  ghost predicate OnlyMemo(memos: seq<Memo>, m: Memo) {
    forall n :: n in memos && n.seqnum == m.seqnum ==> n == m
  }

  lemma RecentIsThere(memos: seq<Memo>, m: Memo, k: nat)
    requires Recent(memos, m, k)
    ensures m in memos
  {
  }

  lemma StepKeepsOnlyMemo(s: State, e: Event, m: Memo)
    requires Unambiguous(s) && m in s.unlinked && OnlyMemo(s.unlinked, m)
    ensures OnlyMemo(Step(s, e).unlinked, m)
  {
    hide Seqnum.Next, Expectation, CommandOf;
  }

  /**
   * And it is remembered for what it was: its late RET_SUBMIT is parsed with the direction and
   * length it was submitted with, as long as no request is handed a number still remembered.
   */
  lemma {:induction false} RememberedForWhatItWas(s: State, es: seq<Event>, m: Memo, k: nat)
    requires Recent(s.unlinked, m, k) && k + Confirmations(es) < 256
    requires forall e :: e in es && e.SubmitPayload? ==> e.ret.seqnum != m.seqnum
    requires OnlyMemo(s.unlinked, m) && Unambiguous(s) && Possible(s, es) && Careful(s, es)
    ensures Expectation(Run(s, es), m.seqnum) == Some((m.direction, m.length))
    decreases |es|
  {
    RecentIsThere(s.unlinked, m, k);
    if es == [] {
      RecentIsFound(s.unlinked, m, k);
      FindMemoSound(s.unlinked, m.seqnum);
    } else {
      hide Recent, Step, Enabled, Unambiguous, OnlyMemo, Reuses;
      assert es[0] in es;
      StepKeepsRecent(s, es[0], m, k);
      StepKeepsOnlyMemo(s, es[0], m);
      StepKeepsUnambiguous(s, es[0]);
      RememberedForWhatItWas(Step(s, es[0]), es[1..], m,
                             if es[0].UnlinkReply? then k + 1 else k);
    }
  }

  /** A confirmed unlink is the most recent memory. */
  lemma ConfirmedIsRecent(s: State, seqnum: nat, status: i32)
    requires seqnum in s.unlinks && s.unlinks[seqnum] in s.submits
    ensures var p := s.submits[s.unlinks[seqnum]];
            var m := Memo(s.unlinks[seqnum], p.direction, p.length);
            && Recent(UnlinkConfirmed(s, seqnum, status).unlinked, m, 0)
            && (Unambiguous(s) ==> OnlyMemo(UnlinkConfirmed(s, seqnum, status).unlinked, m))
  {
    var p := s.submits[s.unlinks[seqnum]];
    var r := UnlinkConfirmed(s, seqnum, status).unlinked;
    assert r[|r| - 1] == Memo(s.unlinks[seqnum], p.direction, p.length);
  }

  // ---------------------------------------------------------------- attribution

  lemma StepIssues(s: State, e: Event)
    ensures Step(s, e).issued >= s.issued
  {
  }

  lemma {:induction false} RunIssues(s: State, es: seq<Event>)
    ensures Run(s, es).issued >= s.issued
    decreases |es|
  {
    if es != [] {
      StepIssues(s, es[0]);
      RunIssues(Step(s, es[0]), es[1..]);
    }
  }

  /** No request of the run is handed a number for which an earlier reply may be under way. */
  ghost predicate Careful(s: State, es: seq<Event>)
    decreases |es|
  {
    es != [] ==> !Reuses(s, es[0]) && Careful(Step(s, es[0]), es[1..])
  }

  lemma {:induction false} RunKeepsAttribution(s: State, es: seq<Event>)
    requires Sound(s) && Unambiguous(s) && Attributed(s) && Possible(s, es) && Careful(s, es)
    ensures Unambiguous(Run(s, es)) && Attributed(Run(s, es))
    decreases |es|
  {
    hide Step, Enabled, Unambiguous, Attributed, Reuses;
    if es != [] {
      StepKeepsSound(s, es[0]);
      StepKeepsUnambiguous(s, es[0]);
      assert Accounted(s);
      hide Sound;
      StepKeepsAttributed(s, es[0]);
      RunKeepsAttribution(Step(s, es[0]), es[1..]);
    }
  }

  /**
   * In runs of any length: as long as no request is handed a number that is remembered as unlinked
   * or being parsed, every RET_SUBMIT delivered on a channel answers that channel's own request,
   * with its number, and data of the requested direction and at most the requested length.
   */
  lemma CarefulRunsAttribute(devid: u32, es: seq<Event>)
    requires Possible(Init(devid), es) && Careful(Init(devid), es)
    ensures var s := Run(Init(devid), es); Attributed(s) && Unambiguous(s)
  {
    RunKeepsAttribution(Init(devid), es);
  }

  lemma NewNumberNotRemembered(s: State, e: Event)
    requires Counting(s) && Step(s, e).issued < WORD
    ensures !Reuses(s, e)
  {
    hide Seqnum.Next;
    if s.issued + 1 < WORD { Seqnum.NextCounts(Used(s), s.next); }
  }

  lemma {:induction false} CountingIsCareful(s: State, es: seq<Event>)
    requires Counting(s) && Possible(s, es) && Run(s, es).issued < WORD
    ensures Counting(Run(s, es)) && Careful(s, es)
    decreases |es|
  {
    hide Step, Enabled, Counting, Reuses;
    if es != [] {
      RunIssues(Step(s, es[0]), es[1..]);
      NewNumberNotRemembered(s, es[0]);
      StepKeepsCounting(s, es[0]);
      CountingIsCareful(Step(s, es[0]), es[1..]);
    }
  }

  /**
   * In any run that hands out at most 2^32 - 1 numbers no number is used twice, and so every reply
   * reaches its request.
   */
  lemma RepliesReachTheirRequest(devid: u32, es: seq<Event>)
    requires Possible(Init(devid), es)
    requires Run(Init(devid), es).issued < WORD
    ensures var s := Run(Init(devid), es);
            && Attributed(s) && Unambiguous(s)
            && forall i, j :: 0 <= i < j < |s.frames| ==>
                 NumberOf(s.frames[i]) != NumberOf(s.frames[j])
  {
    CountingIsCareful(Init(devid), es);
    CarefulRunsAttribute(devid, es);
  }

  /** A reply that only a request for at least one byte allows. */
  function OneByte(q: nat, direction: Direction): RetSubmit {
    RetSubmit(q, 0, 1, 0, 0, if direction == In then [0] else [], [])
  }

  lemma ParsingReuseMisattributes(s: State, c: Channel)
    requires s.closed.None? && c !in s.tickets
    requires s.reader.Parsing? && s.reader.seqnum == Fresh(s) && s.reader.length > 0
    ensures var es := [DoSubmit(WRITE, c), SubmitPayload(OneByte(Fresh(s), s.reader.direction))];
            Possible(s, es) && !Attributed(Run(s, es))
  {
    hide Seqnum.Next;
    var q, ret := Fresh(s), OneByte(Fresh(s), s.reader.direction);
    var s1 := Step(s, DoSubmit(WRITE, c));
    var s2 := Step(s1, SubmitPayload(ret));
    assert s1.submits[q] == Pending(Out, 0, c) && s1.tickets[c] == Ticket(q, Out, 0);
    assert s2.replies[c] == Ok(ret) && s2.tickets[c] == Ticket(q, Out, 0);
    RunTwo(s, DoSubmit(WRITE, c), SubmitPayload(ret));
  }

  lemma RunTwo(s: State, e0: Event, e1: Event)
    requires Enabled(s, e0) && Enabled(Step(s, e0), e1)
    ensures Possible(s, [e0, e1]) && Run(s, [e0, e1]) == Step(Step(s, e0), e1)
  {
    hide Step, Enabled;
    var s1 := Step(s, e0);
    var s2 := Step(s1, e1);
    assert [e0, e1][1..] == [e1] && [e1][1..] == [];
    assert Run(s2, []) == s2 && Possible(s2, []);
    assert Possible(s1, [e1]) && Run(s1, [e1]) == s2;
  }

  /**
   * And if the next number to be handed out is one the reader is parsing a reply for, or one it
   * remembers and is free to take up, a request can be answered by the wrong reply (unless that
   * reply must be empty, in which case it fits every request).
   */
  lemma ReuseMisattributes(s: State, c: Channel) returns (es: seq<Event>)
    requires s.closed.None? && c !in s.tickets
    requires var q := Fresh(s);
             || (s.reader.Parsing? && s.reader.seqnum == q && s.reader.length > 0)
             || (s.reader.Idle? && FindMemo(s.unlinked, q).Some?
                 && FindMemo(s.unlinked, q).value.length > 0)
    ensures Possible(s, es) && !Attributed(Run(s, es))
  {
    hide Seqnum.Next, Attributed;
    if s.reader.Parsing? {
      es := [DoSubmit(WRITE, c), SubmitPayload(OneByte(Fresh(s), s.reader.direction))];
      ParsingReuseMisattributes(s, c);
    } else {
      var q := Fresh(s);
      Seqnum.NextFresh(Used(s), s.next);
      var t := Step(s, SubmitHeader(q));
      var m := FindMemo(s.unlinked, q).value;
      assert t == s.(reader := Parsing(q, m.direction, m.length));
      assert Fresh(t) == q;
      ParsingReuseMisattributes(t, c);
      var rest := [DoSubmit(WRITE, c), SubmitPayload(OneByte(q, m.direction))];
      assert ([SubmitHeader(q)] + rest)[1..] == rest;
      es := [SubmitHeader(q)] + rest;
    }
  }

  // ---------------------------------------------------------------- the bound is sharp

  lemma {:induction false} RunAppend(s: State, a: seq<Event>, b: seq<Event>)
    requires Possible(s, a) && Possible(Run(s, a), b)
    ensures Possible(s, a + b) && Run(s, a + b) == Run(Run(s, a), b)
    decreases |a|
  {
    if a == [] {
      assert a + b == b;
    } else {
      RunAppend(Step(s, a[0]), a[1..], b);
      assert (a + b)[0] == a[0] && (a + b)[1..] == a[1..] + b;
    }
  }

  lemma RunThree(s: State, e0: Event, e1: Event, e2: Event)
    requires Enabled(s, e0) && Enabled(Step(s, e0), e1) && Enabled(Step(Step(s, e0), e1), e2)
    ensures Possible(s, [e0, e1, e2])
    ensures Run(s, [e0, e1, e2]) == Step(Step(Step(s, e0), e1), e2)
  {
    var s1 := Step(s, e0);
    var s2 := Step(s1, e1);
    assert [e0, e1, e2][1..] == [e1, e2] && [e1, e2][1..] == [e2] && [e2][1..] == [];
    assert Run(Step(s2, e2), []) == Step(s2, e2) && Possible(Step(s2, e2), []);
    assert Possible(s2, [e2]) && Run(s2, [e2]) == Step(s2, e2);
    assert Possible(s1, [e1, e2]) && Run(s1, [e1, e2]) == Step(s2, e2);
  }

  const READ: Request := Request(0x81, In, 0, 8, NO_SETUP, [], 0, 0, [])
  const WRITE: Request := Request(0x01, Out, 0, 0, NO_SETUP, [], 0, 0, [])
  const EIGHT: seq<byte> := [1, 2, 3, 4, 5, 6, 7, 8]

  function Answer(q: nat): RetSubmit {
    RetSubmit(q, 0, 8, 0, 0, EIGHT, [])
  }

  /** Nothing is pending, and the only transfer remembered as unlinked is a read numbered 1. */
  ghost predicate Lull(s: State, n: nat) {
    && s.next == n && s.issued == n && s.closed.None? && s.reader.Idle?
    && s.submits == map[] && s.unlinks == map[] && s.unlinked == [Memo(1, In, 8)]
    && forall c :: c in s.tickets ==> c.Caller? && c.id < n
  }

  lemma FirstLull() returns (es: seq<Event>)
    ensures Possible(Init(0), es) && Lull(Run(Init(0), es), 2)
  {
    var s0 := Init(0);
    var e0, e1, e2 := DoSubmit(READ, Caller(0)), DoUnlink(1), UnlinkReply(2, -104);
    es := [e0, e1, e2];
    Seqnum.NextCounts(Used(s0), s0.next);
    var s1 := Step(s0, e0);
    assert Used(s1) == {1};
    Seqnum.NextCounts(Used(s1), s1.next);
    var s2 := Step(s1, e1);
    var s3 := Step(s2, e2);
    assert s2.unlinks == map[2 := 1];
    RunThree(s0, e0, e1, e2);
  }

  lemma LullSubmit(s: State, n: nat)
    requires Lull(s, n) && 2 <= n && n + 1 < WORD
    ensures var t := Step(s, DoSubmit(READ, Caller(n)));
            && t == Enlist(s, READ, Caller(n), n + 1)
            && t.submits == map[n + 1 := Pending(In, 8, Caller(n))] && t.next == n + 1
  {
    Seqnum.NextCounts(Used(s), s.next);
  }

  lemma LullResolve(s: State, t: State, n: nat)
    requires Lull(s, n) && 2 <= n
    requires t == Enlist(s, READ, Caller(n), n + 1) && t.next == n + 1
    requires t.submits == map[n + 1 := Pending(In, 8, Caller(n))]
    ensures var q := n + 1;
            var u := Step(t, SubmitHeader(q));
            && u == t.(reader := Parsing(q, In, 8)) && Enabled(u, SubmitPayload(Answer(q)))
            && Lull(Step(u, SubmitPayload(Answer(q))), q)
  {
    var q := n + 1;
    assert Expectation(t, q) == Some((In, 8));
    assert Forget(t.unlinked, q) == t.unlinked by { assert t.unlinked[1..] == []; }
    var v := Step(t.(reader := Parsing(q, In, 8)), SubmitPayload(Answer(q)));
    assert v.submits == map[] && v.unlinks == map[];
  }

  lemma NextLull(s: State, n: nat) returns (es: seq<Event>)
    requires Lull(s, n) && 2 <= n && n + 1 < WORD
    ensures Possible(s, es) && Lull(Run(s, es), n + 1)
  {
    hide Step, Run, Possible;
    var q := n + 1;
    var e0, e1, e2 := DoSubmit(READ, Caller(n)), SubmitHeader(q), SubmitPayload(Answer(q));
    es := [e0, e1, e2];
    LullSubmit(s, n);
    LullResolve(s, Step(s, e0), n);
    RunThree(s, e0, e1, e2);
  }

  lemma {:induction false} LullAt(n: nat) returns (es: seq<Event>)
    requires 2 <= n < WORD
    ensures Possible(Init(0), es) && Lull(Run(Init(0), es), n)
  {
    if n == 2 {
      es := FirstLull();
    } else {
      var before := LullAt(n - 1);
      var more := NextLull(Run(Init(0), before), n - 1);
      RunAppend(Init(0), before, more);
      es := before + more;
    }
  }

  lemma Misattribution(s: State) returns (es: seq<Event>)
    requires Lull(s, WORD - 1)
    ensures Possible(s, es) && Run(s, es).issued == WORD && !Attributed(Run(s, es))
  {
    var c := Caller(WORD);
    var e0, e1, e2 := SubmitHeader(1), DoSubmit(WRITE, c), SubmitPayload(Answer(1));
    es := [e0, e1, e2];
    var s1 := Step(s, e0);
    assert s1.reader == Parsing(1, In, 8);
    assert Seqnum.Candidate(s1.next, 1) == 0 && Seqnum.Candidate(s1.next, 2) == 1;
    Seqnum.NextIsFirstFree(Used(s1), s1.next, 2);
    var s2 := Step(s1, e1);
    var s3 := Step(s2, e2);
    assert s2.submits[1] == Pending(Out, 0, c);
    assert s3.replies[c] == Ok(Answer(1)) && s3.tickets[c] == Ticket(1, Out, 0);
    RunThree(s, e0, e1, e2);
  }

  /**
   * The bound of `RepliesReachTheirRequest` cannot be raised: numbers remembered in `unlinked` are
   * not kept from reuse, so with 2^32 allocations a late RET_SUBMIT can answer a new request.
   */
  lemma AttributionBoundIsSharp()
    ensures exists es :: && Possible(Init(0), es) && Run(Init(0), es).issued == WORD
                         && !Attributed(Run(Init(0), es))
  {
    var before := LullAt(WORD - 1);
    var more := Misattribution(Run(Init(0), before));
    RunAppend(Init(0), before, more);
    assert Possible(Init(0), before + more);
  }
}
