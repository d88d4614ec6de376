/** What holds of a session in every interleaving of its callers and its reader. */
module SessionProofs {
  import opened Common
  import opened Wire
  import opened Session

  // ---------------------------------------------------------------- bookkeeping

  /** No number plays two roles, and cancellations name distinct pending transfers. */
  ghost predicate Numbered(s: State) {
    && 0 !in s.submits && 0 !in s.unlinks
    && (forall q :: q in s.submits ==> q !in s.unlinks)
    && (forall k :: k in s.unlinks ==> s.unlinks[k] in s.submits)
    && (forall j, k :: j in s.unlinks && k in s.unlinks && s.unlinks[j] == s.unlinks[k] ==> j == k)
    && |s.unlinked| <= MEMORY
    && (s.closed.Some? ==> s.submits == map[] && s.unlinks == map[])
  }

  /** Every accepted request is either pending or answered, and no channel is shared. */
  ghost predicate Accounted(s: State) {
    && (forall q :: q in s.submits ==>
          && s.submits[q].reply in s.tickets && s.submits[q].reply !in s.replies
          && s.tickets[s.submits[q].reply]
             == Ticket(q, s.submits[q].direction, s.submits[q].length))
    && (forall c :: c in s.replies ==> c in s.tickets)
    && (forall c :: c in s.tickets && c !in s.replies ==>
          s.tickets[c].seqnum in s.submits && s.submits[s.tickets[c].seqnum].reply == c)
  }

  lemma SubmitKeepsNumbered(s: State, req: Request, reply: Channel)
    requires Numbered(s)
    ensures Numbered(Step(s, DoSubmit(req, reply)))
  {
    hide Seqnum.Next, CommandOf;
    Seqnum.NextFresh(Used(s), s.next);
  }

  lemma UnlinkKeepsNumbered(s: State, target: nat)
    requires Numbered(s)
    ensures Numbered(UnlinkedAt(s, target))
  {
    hide Seqnum.Next;
    Seqnum.NextFresh(Used(s), s.next);
    assert forall k :: k in s.unlinks ==> s.unlinks[k] in s.unlinks.Values;
  }

  lemma ResolveKeepsNumbered(s: State, ret: RetSubmit)
    requires Numbered(s)
    ensures Numbered(Resolved(s, ret).(reader := Idle))
  {
  }

  lemma UnlinkConfirmedKeepsNumbered(s: State, seqnum: nat, status: i32)
    requires Numbered(s)
    ensures Numbered(UnlinkConfirmed(s, seqnum, status))
  {
  }

  lemma CloseKeepsNumbered(s: State, reason: string, reader: Reader)
    requires Numbered(s)
    ensures Numbered(Closed(s, reason)) && Numbered(Closed(s, reason).(reader := reader))
    ensures Numbered(s.(reader := reader))
  {
  }

  lemma StepKeepsNumbered(s: State, e: Event)
    requires Numbered(s)
    ensures Numbered(Step(s, e))
  {
    hide Numbered, UnlinkedAt, Resolved, UnlinkConfirmed, Closed, Expectation, Submitted;
    match e {
      case DoSubmit(req, reply) => hide Step; SubmitKeepsNumbered(s, req, reply);
      case DoUnlink(target) => UnlinkKeepsNumbered(s, target);
      case DoClose(reason) => CloseKeepsNumbered(s, reason, s.reader);
      case SubmitHeader(_) =>
        CloseKeepsNumbered(s, "RET_SUBMIT for unknown seqnum", Step(s, e).reader);
      case SubmitPayload(ret) => ResolveKeepsNumbered(s, ret);
      case UnlinkReply(seqnum, status) => UnlinkConfirmedKeepsNumbered(s, seqnum, status);
      case ReadFailure(reason) => CloseKeepsNumbered(s, reason, Stopped);
    }
  }

  lemma SubmitKeepsAccounted(s: State, req: Request, reply: Channel)
    requires Accounted(s) && reply !in s.tickets
    ensures Accounted(Step(s, DoSubmit(req, reply)))
  {
    Seqnum.NextFresh(Used(s), s.next);
  }

  lemma CloseKeepsAccounted(s: State, reason: string)
    requires Accounted(s)
    ensures Accounted(Closed(s, reason))
  {
    forall c | c in s.tickets && c !in s.replies
      ensures c in Channels(s.submits)
    {
      assert s.tickets[c].seqnum in s.submits;
    }
  }

  lemma ResolveKeepsAccounted(s: State, ret: RetSubmit)
    requires Accounted(s)
    ensures Accounted(Resolved(s, ret))
  {
  }

  lemma UnlinkConfirmedKeepsAccounted(s: State, seqnum: nat, status: i32)
    requires Accounted(s)
    ensures Accounted(UnlinkConfirmed(s, seqnum, status))
  {
  }

  lemma StepKeepsAccounted(s: State, e: Event)
    requires Accounted(s) && Enabled(s, e)
    ensures Accounted(Step(s, e))
  {
    match e {
      case DoSubmit(req, reply) => SubmitKeepsAccounted(s, req, reply);
      case DoUnlink(target) =>
      case DoClose(reason) => CloseKeepsAccounted(s, reason);
      case SubmitHeader(_) => CloseKeepsAccounted(s, "RET_SUBMIT for unknown seqnum");
      case SubmitPayload(ret) => ResolveKeepsAccounted(s, ret);
      case UnlinkReply(seqnum, status) => UnlinkConfirmedKeepsAccounted(s, seqnum, status);
      case ReadFailure(reason) => CloseKeepsAccounted(s, reason);
    }
  }

  /** Answers are final, and so are the end of the session and the commands queued. */
  ghost predicate AnswersKept(s: State, t: State) {
    && (forall c :: c in s.replies ==> c in t.replies && t.replies[c] == s.replies[c])
    && (forall c :: c in s.tickets ==> c in t.tickets && t.tickets[c] == s.tickets[c])
    && (s.closed.Some? ==> t.closed == s.closed)
    && s.frames <= t.frames && t.devid == s.devid
  }

  lemma SameAnswers(s: State)
    ensures AnswersKept(s, s)
  {
  }

  lemma SubmitKeepsAnswers(s: State, req: Request, reply: Channel)
    requires reply !in s.tickets
    ensures AnswersKept(s, Step(s, DoSubmit(req, reply)))
  {
    hide Seqnum.Next, CommandOf;
  }

  lemma UnlinkKeepsAnswers(s: State, target: nat)
    ensures AnswersKept(s, UnlinkedAt(s, target))
  {
    hide Seqnum.Next;
  }

  lemma ResolveKeepsAnswers(s: State, ret: RetSubmit)
    requires Accounted(s)
    ensures AnswersKept(s, Resolved(s, ret).(reader := Idle))
  {
  }

  lemma UnlinkConfirmedKeepsAnswers(s: State, seqnum: nat, status: i32)
    requires Accounted(s)
    ensures AnswersKept(s, UnlinkConfirmed(s, seqnum, status))
  {
  }

  lemma CloseKeepsAnswers(s: State, reason: string, reader: Reader)
    requires Accounted(s)
    ensures AnswersKept(s, Closed(s, reason))
    ensures AnswersKept(s, Closed(s, reason).(reader := reader))
    ensures AnswersKept(s, s.(reader := reader))
  {
  }

  lemma StepKeepsAnswers(s: State, e: Event)
    requires Accounted(s) && Enabled(s, e)
    ensures AnswersKept(s, Step(s, e))
  {
    hide AnswersKept, Accounted, Fits, UnlinkedAt, Resolved, UnlinkConfirmed, Closed, Expectation,
         Submitted;
    match e {
      case DoSubmit(req, reply) => hide Step; SubmitKeepsAnswers(s, req, reply);
      case DoUnlink(target) => UnlinkKeepsAnswers(s, target);
      case DoClose(reason) => CloseKeepsAnswers(s, reason, s.reader);
      case SubmitHeader(_) =>
        CloseKeepsAnswers(s, "RET_SUBMIT for unknown seqnum", Step(s, e).reader);
      case SubmitPayload(ret) => ResolveKeepsAnswers(s, ret);
      case UnlinkReply(seqnum, status) => UnlinkConfirmedKeepsAnswers(s, seqnum, status);
      case ReadFailure(reason) => CloseKeepsAnswers(s, reason, Stopped);
    }
  }

  // ---------------------------------------------------------------- the command stream

  predicate SubmitsNumber(c: Command, q: nat) {
    c.Submit? && c.submit.seqnum == q
  }

  predicate CancelsNumber(c: Command, q: nat) {
    c.Unlink? && c.unlink.target == q
  }

  /** `frames[i]` is the latest CMD_SUBMIT numbered `q`. */
  ghost predicate LatestSubmit(frames: seq<Command>, q: nat, i: nat) {
    && i < |frames| && SubmitsNumber(frames[i], q)
    && forall k :: i < k < |frames| ==> !SubmitsNumber(frames[k], q)
  }

  ghost predicate NotCancelledSince(frames: seq<Command>, q: nat, i: nat) {
    forall k :: i < k < |frames| ==> !CancelsNumber(frames[k], q)
  }

  /**
   * A CMD_UNLINK at `j` names a CMD_SUBMIT queued before it, and nothing in between reuses the
   * number or cancels the transfer already.
   */
  ghost predicate NamesEarlierSubmit(frames: seq<Command>, j: nat)
    requires j < |frames| && frames[j].Unlink?
  {
    var q := frames[j].unlink.target;
    exists i: nat ::
      i < j && LatestSubmit(frames[..j], q, i) && NotCancelledSince(frames[..j], q, i)
  }

  ghost predicate Disciplined(frames: seq<Command>) {
    forall j :: 0 <= j < |frames| && frames[j].Unlink? ==> NamesEarlierSubmit(frames, j)
  }

  /** Each pending transfer has a CMD_SUBMIT, uncancelled unless an unlink is pending for it. */
  ghost predicate Traced(s: State) {
    forall q :: q in s.submits ==> exists i: nat ::
      LatestSubmit(s.frames, q, i)
      && (q in s.unlinks.Values || NotCancelledSince(s.frames, q, i))
  }

  lemma AppendDisciplined(frames: seq<Command>, c: Command)
    requires Disciplined(frames)
    requires c.Unlink? ==> NamesEarlierSubmit(frames + [c], |frames|)
    ensures Disciplined(frames + [c])
  {
    var f' := frames + [c];
    forall j | 0 <= j < |f'| && f'[j].Unlink?
      ensures NamesEarlierSubmit(f', j)
    {
      if j < |frames| {
        assert NamesEarlierSubmit(frames, j);
        assert f'[..j] == frames[..j];
      }
    }
  }

  lemma UnlinkKeepsDiscipline(s: State, target: nat)
    requires Traced(s) && Disciplined(s.frames) && Cancellable(s, target)
    ensures Disciplined(UnlinkedAt(s, target).frames)
  {
    var c := Unlink(CmdUnlink(Fresh(s), s.devid, target));
    var i :| LatestSubmit(s.frames, target, i) && NotCancelledSince(s.frames, target, i);
    assert (s.frames + [c])[..|s.frames|] == s.frames;
    AppendDisciplined(s.frames, c);
  }

  lemma StepKeepsDiscipline(s: State, e: Event)
    requires Traced(s) && Disciplined(s.frames)
    ensures Disciplined(Step(s, e).frames)
  {
    match e {
      case DoSubmit(req, reply) =>
        AppendDisciplined(s.frames, Submit(CommandOf(s, req, Fresh(s))));
      case DoUnlink(target) =>
        if Cancellable(s, target) { UnlinkKeepsDiscipline(s, target); }
      case _ =>
    }
  }

  lemma SubmitKeepsTraced(s: State, req: Request, reply: Channel)
    requires Traced(s)
    ensures Traced(Step(s, DoSubmit(req, reply)))
  {
    Seqnum.NextFresh(Used(s), s.next);
    var t := Step(s, DoSubmit(req, reply));
    if Submitted(s, req, reply).Accepted? {
      forall q | q in t.submits
        ensures exists i: nat :: LatestSubmit(t.frames, q, i)
                            && (q in t.unlinks.Values || NotCancelledSince(t.frames, q, i))
      {
        if q == Fresh(s) {
          assert LatestSubmit(t.frames, q, |s.frames|);
          assert NotCancelledSince(t.frames, q, |s.frames|);
        } else {
          var i :| LatestSubmit(s.frames, q, i)
                   && (q in s.unlinks.Values || NotCancelledSince(s.frames, q, i));
          assert LatestSubmit(t.frames, q, i);
        }
      }
    }
  }

  lemma UnlinkKeepsTraced(s: State, target: nat)
    requires Traced(s)
    ensures Traced(UnlinkedAt(s, target))
  {
    Seqnum.NextFresh(Used(s), s.next);
    var t := UnlinkedAt(s, target);
    if Cancellable(s, target) {
      assert t.unlinks[Fresh(s)] == target;
      forall q | q in t.submits
        ensures exists i: nat :: LatestSubmit(t.frames, q, i)
                            && (q in t.unlinks.Values || NotCancelledSince(t.frames, q, i))
      {
        var i :| LatestSubmit(s.frames, q, i)
                 && (q in s.unlinks.Values || NotCancelledSince(s.frames, q, i));
        assert LatestSubmit(t.frames, q, i);
        if q in s.unlinks.Values {
          var k :| k in s.unlinks && s.unlinks[k] == q;
          assert t.unlinks[k] == q;
        }
      }
    }
  }

  lemma StepKeepsTraced(s: State, e: Event)
    requires Traced(s)
    ensures Traced(Step(s, e))
  {
    match e {
      case DoSubmit(req, reply) => hide Step, Traced; SubmitKeepsTraced(s, req, reply);
      case DoUnlink(target) => hide UnlinkedAt, Traced; UnlinkKeepsTraced(s, target);
      case SubmitPayload(ret) => ReplyKeepsTraced(s, e);
      case UnlinkReply(seqnum, status) => ReplyKeepsTraced(s, e);
      case _ => hide Expectation, LatestSubmit, NotCancelledSince;
    }
  }

  lemma ReplyKeepsTraced(s: State, e: Event)
    requires Traced(s) && (e.SubmitPayload? || e.UnlinkReply?)
    ensures Traced(Step(s, e))
  {
    hide LatestSubmit, NotCancelledSince;
    var t := Step(s, e);
    forall q | q in t.submits && q in s.unlinks.Values
      ensures q in t.unlinks.Values
    {
      var k :| k in s.unlinks && s.unlinks[k] == q;
      assert t.unlinks[k] == q;
    }
  }

  // ---------------------------------------------------------------- whose reply is it?

  /**
   * A RET_SUBMIT can only be meant for one transfer: no number remembered as unlinked is pending
   * again, and a reply being parsed is parsed as the pending transfer of its number calls for.
   */
  ghost predicate Unambiguous(s: State) {
    && (forall m :: m in s.unlinked ==> m.seqnum !in s.submits)
    && (s.reader.Parsing? && s.reader.seqnum in s.submits ==>
          && s.submits[s.reader.seqnum].direction == s.reader.direction
          && s.submits[s.reader.seqnum].length == s.reader.length)
  }

  /** The number is remembered as unlinked, or the reader is in the middle of a reply for it. */
  ghost predicate Remembered(s: State, q: nat) {
    (exists m :: m in s.unlinked && m.seqnum == q) || (s.reader.Parsing? && s.reader.seqnum == q)
  }

  /** A request is handed a number for which a reply to an earlier one may still be under way. */
  ghost predicate Reuses(s: State, e: Event) {
    e.DoSubmit? && Submitted(s, e.req, e.reply).Accepted? && Remembered(s, Fresh(s))
  }

  lemma HeaderKeepsUnambiguous(s: State, seqnum: nat)
    requires Unambiguous(s)
    ensures Unambiguous(Step(s, SubmitHeader(seqnum)))
  {
    FindMemoSound(s.unlinked, seqnum);
  }

  lemma StepKeepsUnambiguous(s: State, e: Event)
    requires Unambiguous(s) && Enabled(s, e) && !Reuses(s, e)
    ensures Unambiguous(Step(s, e))
  {
    hide Seqnum.Next, Expectation;
    if e.SubmitHeader? {
      HeaderKeepsUnambiguous(s, e.seqnum);
    }
  }

  // ---------------------------------------------------------------- before the counter wraps

  /**
   * While fewer than 2^32 numbers have been handed out they are 1, 2, 3, ...; so no number comes
   * back, and every answer fits the request whose channel it was sent on.
   */
  ghost predicate Counting(s: State) {
    && s.next == s.issued
    && |s.frames| == s.issued
    && (forall i :: 0 <= i < |s.frames| ==> NumberOf(s.frames[i]) == i + 1)
    && (forall q :: q in Used(s) ==> q <= s.next)
    && (forall c :: c in s.tickets ==> s.tickets[c].seqnum <= s.next)
    && (forall m :: m in s.unlinked ==> m.seqnum <= s.next)
    && (s.reader.Parsing? ==> s.reader.seqnum <= s.next)
    && Unambiguous(s)
  }

  ghost predicate Attributed(s: State) {
    forall c :: c in s.replies && c in s.tickets && s.replies[c].Ok? ==>
      && s.replies[c].value.seqnum == s.tickets[c].seqnum
      && Fits(s.replies[c].value, s.tickets[c].direction, s.tickets[c].length)
  }

  function NumberOf(c: Command): nat {
    match c
    case Submit(s) => s.seqnum
    case Unlink(u) => u.seqnum
  }

  lemma {:induction false} FindMemoSound(memos: seq<Memo>, seqnum: nat)
    ensures var r := FindMemo(memos, seqnum);
            r.Some? ==> r.value in memos && r.value.seqnum == seqnum
  {
    if memos != [] && memos[0].seqnum != seqnum {
      FindMemoSound(memos[1..], seqnum);
    }
  }

  /** The oldest memory of the number is found, if there is any. */
  lemma {:induction false} FindMemoFirst(memos: seq<Memo>, seqnum: nat)
    ensures var r := FindMemo(memos, seqnum);
            if r.None? then forall m :: m in memos ==> m.seqnum != seqnum
            else
              exists i :: 0 <= i < |memos| && memos[i] == r.value && r.value.seqnum == seqnum
                          && forall j :: 0 <= j < i ==> memos[j].seqnum != seqnum
  {
    if memos != [] && memos[0].seqnum != seqnum {
      var rest := memos[1..];
      FindMemoFirst(rest, seqnum);
      var r := FindMemo(rest, seqnum);
      if r.Some? {
        var i :| 0 <= i < |rest| && rest[i] == r.value && r.value.seqnum == seqnum
                 && forall j :: 0 <= j < i ==> rest[j].seqnum != seqnum;
        assert memos[i + 1] == r.value;
        assert forall j :: 1 <= j <= i ==> memos[j] == rest[j - 1];
      }
    }
  }

  lemma SubmitKeepsCounting(s: State, req: Request, reply: Channel)
    requires Counting(s) && s.issued + 1 < WORD
    ensures Counting(Step(s, DoSubmit(req, reply)))
  {
    Seqnum.NextCounts(Used(s), s.next);
  }

  lemma UnlinkKeepsCounting(s: State, target: nat)
    requires Counting(s) && s.issued + 1 < WORD
    ensures Counting(UnlinkedAt(s, target))
  {
    Seqnum.NextCounts(Used(s), s.next);
  }

  lemma UnlinkConfirmedKeepsCounting(s: State, seqnum: nat, status: i32)
    requires Counting(s) && s.reader.Idle?
    ensures Counting(UnlinkConfirmed(s, seqnum, status))
  {
  }

  lemma ResolveKeepsCounting(s: State, ret: RetSubmit)
    requires Counting(s)
    ensures Counting(Resolved(s, ret).(reader := Idle))
  {
  }

  lemma CloseKeepsCounting(s: State, reason: string, reader: Reader)
    requires Counting(s) && (reader == s.reader || !reader.Parsing?)
    ensures Counting(Closed(s, reason).(reader := reader))
  {
  }

  lemma HeaderKeepsCounting(s: State, seqnum: nat)
    requires Counting(s)
    ensures Counting(Step(s, SubmitHeader(seqnum)))
  {
    hide Closed;
    FindMemoSound(s.unlinked, seqnum);
    CloseKeepsCounting(s, "RET_SUBMIT for unknown seqnum", Stopped);
  }

  lemma StepKeepsCounting(s: State, e: Event)
    requires Counting(s) && Enabled(s, e)
    requires Step(s, e).issued < WORD
    ensures Counting(Step(s, e))
  {
    hide Seqnum.Next, Counting, Resolved, UnlinkConfirmed, Closed;
    match e {
      case DoSubmit(req, reply) =>
        if s.issued + 1 < WORD { SubmitKeepsCounting(s, req, reply); }
      case DoUnlink(target) =>
        if s.issued + 1 < WORD { UnlinkKeepsCounting(s, target); }
      case DoClose(reason) =>
        CloseKeepsCounting(s, reason, s.reader);
        ClosedKeepsReader(s, reason);
      case SubmitHeader(seqnum) => hide Step; HeaderKeepsCounting(s, seqnum);
      case SubmitPayload(ret) => ResolveKeepsCounting(s, ret);
      case UnlinkReply(seqnum, status) => UnlinkConfirmedKeepsCounting(s, seqnum, status);
      case ReadFailure(reason) => CloseKeepsCounting(s, reason, Stopped);
    }
  }

  lemma ClosedKeepsReader(s: State, reason: string)
    ensures Closed(s, reason).(reader := s.reader) == Closed(s, reason)
  {
  }

  lemma ResolveKeepsAttributed(s: State, ret: RetSubmit)
    requires Accounted(s) && Unambiguous(s) && Attributed(s) && Enabled(s, SubmitPayload(ret))
    ensures Attributed(Resolved(s, ret))
  {
  }

  lemma UnlinkConfirmedKeepsAttributed(s: State, seqnum: nat, status: i32)
    requires Attributed(s)
    ensures Attributed(UnlinkConfirmed(s, seqnum, status))
  {
    hide Fits;
  }

  lemma CloseKeepsAttributed(s: State, reason: string)
    requires Attributed(s)
    ensures Attributed(Closed(s, reason))
  {
    hide Fits;
  }

  lemma StepKeepsAttributed(s: State, e: Event)
    requires Accounted(s) && Unambiguous(s) && Attributed(s) && Enabled(s, e)
    ensures Attributed(Step(s, e))
  {
    hide Seqnum.Next, Expectation, Fits, Unambiguous;
    match e {
      case SubmitPayload(ret) => ResolveKeepsAttributed(s, ret);
      case UnlinkReply(seqnum, status) => UnlinkConfirmedKeepsAttributed(s, seqnum, status);
      case DoSubmit(req, reply) =>
      case DoUnlink(target) =>
      case DoClose(reason) => CloseKeepsAttributed(s, reason);
      case SubmitHeader(_) => CloseKeepsAttributed(s, "RET_SUBMIT for unknown seqnum");
      case ReadFailure(reason) => CloseKeepsAttributed(s, reason);
    }
  }
}
