/**
 * What an answer says is what happened: every reply delivered is one that was read, unchanged, and
 * every other answer names the server's confirmation or the end of the session behind it.
 */
module Answers {
  import opened Common
  import opened Wire
  import opened Session
  import opened SessionProofs
  import opened SessionRuns

  /** `q` is the number of a CMD_UNLINK that was queued for `target`. */
  ghost predicate CancelQueued(s: State, q: nat, target: nat) {
    exists i :: 0 <= i < |s.frames| && s.frames[i] == Unlink(CmdUnlink(q, s.devid, target))
  }

  ghost predicate CancelsQueued(s: State) {
    forall k :: k in s.unlinks ==> CancelQueued(s, k, s.unlinks[k])
  }

  /**
   * The answer on `c` is a reply that was read, or `Unlinked` with the status of a confirmation that
   * was read, to a CMD_UNLINK for this very transfer, or the reason the session ended.
   */
  ghost predicate BackedAt(s: State, c: Channel, read: RetSubmit -> bool,
                           confirmed: (nat, i32) -> bool)
    requires c in s.replies
  {
    var answer := s.replies[c];
    && (answer.Ok? ==> read(answer.value))
    && (answer.Err? && answer.error.Unlinked? ==>
          && c in s.tickets
          && exists q: nat ::
               confirmed(q, answer.error.status) && CancelQueued(s, q, s.tickets[c].seqnum))
    && (answer.Err? && !answer.error.Unlinked? ==>
          s.closed.Some? && answer.error == Disconnected(s.closed.value))
  }

  ghost predicate Backed(s: State, read: RetSubmit -> bool, confirmed: (nat, i32) -> bool) {
    forall c :: c in s.replies ==> BackedAt(s, c, read, confirmed)
  }

  lemma CancelStaysQueued(s: State, t: State, q: nat, target: nat)
    requires CancelQueued(s, q, target) && s.frames <= t.frames && t.devid == s.devid
    ensures CancelQueued(t, q, target)
  {
    var i :| 0 <= i < |s.frames| && s.frames[i] == Unlink(CmdUnlink(q, s.devid, target));
    assert t.frames[i] == s.frames[i];
  }

  /** A number newly pending as a cancellation is that of the CMD_UNLINK just queued. */
  lemma NewCancel(s: State, e: Event, k: nat)
    requires k in Step(s, e).unlinks && !(k in s.unlinks && s.unlinks[k] == Step(s, e).unlinks[k])
    ensures e.DoUnlink? && CancelQueued(Step(s, e), k, Step(s, e).unlinks[k])
  {
    hide Seqnum.Next, Expectation;
    var t := Step(s, e);
    if e.DoUnlink? {
      assert t.frames[|s.frames|] == Unlink(CmdUnlink(k, t.devid, t.unlinks[k]));
    }
  }

  lemma StepKeepsCancelsQueued(s: State, e: Event)
    requires Accounted(s) && Enabled(s, e) && CancelsQueued(s)
    ensures CancelsQueued(Step(s, e))
  {
    hide CancelQueued;
    StepKeepsAnswers(s, e);
    hide Step, Accounted, Enabled;
    var t := Step(s, e);
    forall k | k in t.unlinks
      ensures CancelQueued(t, k, t.unlinks[k])
    {
      if k in s.unlinks && s.unlinks[k] == t.unlinks[k] {
        CancelStaysQueued(s, t, k, s.unlinks[k]);
      } else {
        NewCancel(s, e, k);
      }
    }
  }

  /** Where a new answer comes from. */
  lemma NewAnswer(s: State, e: Event, c: Channel)
    requires c in Step(s, e).replies && c !in s.replies
    ensures var t := Step(s, e);
            || (e.SubmitPayload? && t.replies[c] == Ok(e.ret))
            || (e.UnlinkReply? && t.replies[c] == Err(Unlinked(e.status))
                && e.seqnum in s.unlinks && s.unlinks[e.seqnum] in s.submits
                && s.submits[s.unlinks[e.seqnum]].reply == c)
            || (t.closed.Some? && t.replies[c] == Err(Disconnected(t.closed.value)))
  {
    hide Seqnum.Next, Expectation, CommandOf;
  }

  lemma StepKeepsBacked(s: State, e: Event, read: RetSubmit -> bool,
                        confirmed: (nat, i32) -> bool, read': RetSubmit -> bool,
                        confirmed': (nat, i32) -> bool)
    requires Accounted(s) && Enabled(s, e) && CancelsQueued(s) && Backed(s, read, confirmed)
    requires forall ret :: read(ret) ==> read'(ret)
    requires forall q, status :: confirmed(q, status) ==> confirmed'(q, status)
    requires e.SubmitPayload? ==> read'(e.ret)
    requires e.UnlinkReply? ==> confirmed'(e.seqnum, e.status)
    ensures Backed(Step(s, e), read', confirmed')
  {
    hide CancelQueued;
    StepKeepsAnswers(s, e);
    hide Step, Enabled;
    var t := Step(s, e);
    forall c | c in t.replies
      ensures BackedAt(t, c, read', confirmed')
    {
      if c in s.replies {
        assert BackedAt(s, c, read, confirmed);
        OldAnswerBacked(s, t, c, read, confirmed, read', confirmed');
      } else {
        NewAnswer(s, e, c);
        if e.UnlinkReply? && t.replies[c] == Err(Unlinked(e.status)) {
          var target := s.unlinks[e.seqnum];
          assert s.tickets[c].seqnum == target;
          CancelStaysQueued(s, t, e.seqnum, target);
        }
      }
    }
  }

  lemma OldAnswerBacked(s: State, t: State, c: Channel, read: RetSubmit -> bool,
                        confirmed: (nat, i32) -> bool, read': RetSubmit -> bool,
                        confirmed': (nat, i32) -> bool)
    requires c in s.replies && c in s.tickets && BackedAt(s, c, read, confirmed) && AnswersKept(s, t)
    requires forall ret :: read(ret) ==> read'(ret)
    requires forall q, status :: confirmed(q, status) ==> confirmed'(q, status)
    ensures BackedAt(t, c, read', confirmed')
  {
    hide CancelQueued;
    var answer := s.replies[c];
    if answer.Err? && answer.error.Unlinked? {
      var q: nat :| confirmed(q, answer.error.status) && CancelQueued(s, q, s.tickets[c].seqnum);
      CancelStaysQueued(s, t, q, s.tickets[c].seqnum);
    }
  }

  // ---------------------------------------------------------------- runs of the session

  ghost function ReadIn(es: seq<Event>): RetSubmit -> bool {
    ret => SubmitPayload(ret) in es
  }

  ghost function ConfirmedIn(es: seq<Event>): (nat, i32) -> bool {
    (q: nat, status: i32) => UnlinkReply(q, status) in es
  }

  lemma {:induction false} RunKeepsBacked(s: State, es: seq<Event>, all: seq<Event>)
    requires Sound(s) && CancelsQueued(s) && Backed(s, ReadIn(all), ConfirmedIn(all))
    requires Possible(s, es) && forall e :: e in es ==> e in all
    ensures Backed(Run(s, es), ReadIn(all), ConfirmedIn(all))
    decreases |es|
  {
    if es != [] {
      hide Step, Enabled, Backed, CancelsQueued;
      assert es[0] in es;
      assert Accounted(s);
      StepKeepsSound(s, es[0]);
      hide Sound;
      StepKeepsCancelsQueued(s, es[0]);
      StepKeepsBacked(s, es[0], ReadIn(all), ConfirmedIn(all), ReadIn(all), ConfirmedIn(all));
      RunKeepsBacked(Step(s, es[0]), es[1..], all);
    }
  }

  /**
   * After any run: a request answered with a reply was answered with one that was read, as it was
   * read; one answered `Unlinked(status)` was confirmed with that status, by number of a CMD_UNLINK
   * for that very request; and any other answer is the reason the session ended.
   */
  lemma AnswersSayWhatHappened(devid: u32, es: seq<Event>)
    requires Possible(Init(devid), es)
    ensures Backed(Run(Init(devid), es), ReadIn(es), ConfirmedIn(es))
  {
    RunKeepsBacked(Init(devid), es, es);
  }
}
