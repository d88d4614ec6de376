/**
 * The session's lock-protected state as the program keeps it, with one method per locked section.
 * Each method does to the fields what `Session` says; everything proved of session runs therefore
 * holds of any sequence of calls.
 */
module Client {
  import opened Common
  import opened Wire
  import opened Session
  import opened SessionProofs

  lemma NextCandidate(last: nat, k: nat)
    ensures (Seqnum.Candidate(last, k) + 1) % WORD == Seqnum.Candidate(last, k + 1)
  {
    var q, r := (last + k) / WORD, (last + k) % WORD;
    assert last + k == WORD * q + r;
    if r + 1 == WORD {
      assert last + (k + 1) == WORD * (q + 1) + 0;
    } else {
      assert last + (k + 1) == WORD * q + (r + 1);
    }
  }

  class Client {
    const devid: u32
    var next: u32
    var submits: map<nat, Pending>
    var unlinks: map<nat, nat>
    var unlinked: seq<Memo>
    var closed: Option<string>
    /** Commands queued for the writer. */
    var frames: seq<Command>
    /** What the reader task holds between its locked sections. */
    var reader: Reader
    ghost var issued: nat
    ghost var tickets: map<Channel, Ticket>
    ghost var replies: map<Channel, TransferResult>

    ghost function View(): State
      reads this
    {
      State(devid, next, submits, unlinks, unlinked, closed, reader, issued, frames, tickets,
            replies)
    }

    constructor (devid: u32)
      ensures View() == Session.Init(devid)
    {
      this.devid := devid;
      next, submits, unlinks, unlinked, closed := 0, map[], map[], [], None;
      frames, reader := [], Idle;
      issued, tickets, replies := 0, map[], map[];
    }

    /** With fewer than 2^32 - 1 transfers and cancellations pending a number is free. */
    lemma RoomIsFree()
      requires |submits| + |unlinks| < WORD - 1
      ensures Seqnum.HasFree(Used(View()))
    {
      var a, b := submits.Keys, unlinks.Keys;
      assert |a + b| <= |a| + |b| by { assert |a + b| == |a| + |b| - |a * b|; }
      Seqnum.RoomLeavesFree(Used(View()));
    }

    /**
     * Counts on, past 0 and every number in use. It stops because some number is free: the counter
     * passes every number within one turn.
     */
    method NextSeqnum() returns (seqnum: u32)
      requires Seqnum.HasFree(Used(View()))
      modifies this`next
      ensures seqnum == next == old(Fresh(View()))
      ensures seqnum != 0 && seqnum !in submits && seqnum !in unlinks
    {
      ghost var last, used := next as nat, Used(View());
      ghost var v :| Seqnum.Free(used, v);
      ghost var n := Seqnum.CandidateReaches(last, v);
      ghost var k := 0;
      assert Seqnum.Candidate(last, 0) == next;
      while true
        invariant 0 <= k < n <= WORD && next == Seqnum.Candidate(last, k)
        invariant Seqnum.Free(used, Seqnum.Candidate(last, n))
        invariant forall j :: 1 <= j <= k ==> !Seqnum.Free(used, Seqnum.Candidate(last, j))
        decreases n - k
      {
        NextCandidate(last, k);
        next := (next as nat + 1) % WORD;
        k := k + 1;
        seqnum := next;
        if seqnum != 0 && seqnum !in submits && seqnum !in unlinks {
          Seqnum.NextIsFirstFree(used, last, k);
          return;
        }
      }
    }

    /**
     * Queues a CMD_SUBMIT, or says why not. The reply is registered before the frame is queued.
     * Without a free number an acceptable request would keep the caller searching for ever.
     */
    method Submit(req: Request, reply: Channel) returns (r: Result<nat, TransferError>)
      requires Acceptable(req) && closed.None? ==> Seqnum.HasFree(Used(View()))
      modifies this
      ensures var s := Submitted(old(View()), req, reply);
              match r
              case Ok(seqnum) => s == Accepted(seqnum, View())
              case Err(e) => s == Refused(e) && View() == old(View())
      ensures var sound := if req.direction == Out then |req.data| == req.length
                           else req.data == [];
              && (r == Err(Invalid) <==> !sound)
              && (r.Err? && sound ==> closed.Some? && r.error == Disconnected(closed.value))
      ensures r.Ok? ==>
                && 0 < r.value < WORD && r.value !in old(submits) && r.value !in old(unlinks)
                && old(closed).None? && closed.None? && unlinks == old(unlinks)
                && submits == old(submits)[r.value := Pending(req.direction, req.length, reply)]
                && unlinked == old(unlinked) && replies == old(replies) && reader == old(reader)
                && frames
                   == old(frames)
                   + [Wire.Submit(CmdSubmit(r.value, devid, if req.direction == In then 1 else 0,
                                            req.ep % 0x10, req.transferFlags, req.length,
                                            req.startFrame, req.interval, req.setup, req.data,
                                            req.isoPackets))]
    {
      if req.direction == Out && |req.data| != req.length {
        return Err(Invalid);
      }
      if req.direction == In && req.data != [] {
        return Err(Invalid);
      }
      if closed.Some? {
        return Err(Disconnected(closed.value));
      }
      hide Fresh, Seqnum.HasFree;
      ghost var before := View();
      var seqnum := NextSeqnum();
      var command := CmdSubmit(seqnum, devid, if req.direction == In then 1 else 0, req.ep % 0x10,
                               req.transferFlags, req.length, req.startFrame, req.interval,
                               req.setup, req.data, req.isoPackets);
      submits := submits[seqnum := Pending(req.direction, req.length, reply)];
      frames := frames + [Wire.Submit(command)];
      issued, tickets := issued + 1, tickets[reply := Ticket(seqnum, req.direction, req.length)];
      assert View() == Enlist(before, req, reply, seqnum);
      return Ok(seqnum);
    }

    /** Queues a CMD_UNLINK for a pending transfer that has none yet. */
    method Unlink(target: nat)
      requires Cancellable(View(), target) ==> Seqnum.HasFree(Used(View()))
      modifies this
      ensures View() == UnlinkedAt(old(View()), target)
      ensures var idle := closed.Some? || target !in submits || target in old(unlinks).Values;
              if idle then View() == old(View())
              else
                exists q: u32 ::
                  && q != 0 && q !in old(submits) && q !in old(unlinks)
                  && unlinks == old(unlinks)[q := target]
                  && frames == old(frames) + [Wire.Unlink(CmdUnlink(q, devid, target))]
      ensures submits == old(submits) && unlinked == old(unlinked) && replies == old(replies)
      ensures closed == old(closed) && reader == old(reader)
    {
      if closed.Some? || target !in submits || target in unlinks.Values {
        return;
      }
      hide Fresh, Seqnum.HasFree;
      ghost var before := unlinks;
      var seqnum := NextSeqnum();
      unlinks := unlinks[seqnum := target];
      frames := frames + [Wire.Unlink(CmdUnlink(seqnum, devid, target))];
      issued := issued + 1;
      assert seqnum !in before && unlinks == before[seqnum := target];
    }

    /** Fails every pending transfer. */
    method Close(reason: string)
      modifies this
      ensures View() == Closed(old(View()), reason)
      ensures old(closed).Some? ==> View() == old(View())
      ensures old(closed).None? ==>
                && closed == Some(reason) && submits == map[] && unlinks == map[]
                && (forall q :: q in old(submits) ==>
                      && old(submits)[q].reply in replies
                      && replies[old(submits)[q].reply] == Err(Disconnected(reason)))
                && (forall c :: (forall q :: q in old(submits) ==> old(submits)[q].reply != c) ==>
                      && (c in replies <==> c in old(replies))
                      && (c in replies ==> replies[c] == old(replies)[c]))
      ensures frames == old(frames) && unlinked == old(unlinked) && reader == old(reader)
    {
      if closed.Some? {
        return;
      }
      closed := Some(reason);
      unlinks := map[];
      replies := replies + map c | c in Channels(submits) :: Err(Disconnected(reason));
      submits := map[];
    }

    /** The first half of reading a RET_SUBMIT: how is its payload to be parsed? */
    method ExpectPayload(seqnum: nat) returns (r: Option<(Direction, u32)>)
      modifies this`reader
      ensures r == Expectation(old(View()), seqnum)
      ensures seqnum in submits ==>
                r == Some((submits[seqnum].direction, submits[seqnum].length))
      ensures seqnum !in submits ==>
                if r.None? then forall m :: m in unlinked ==> m.seqnum != seqnum
                else
                  exists i :: 0 <= i < |unlinked| && unlinked[i].seqnum == seqnum
                              && r == Some((unlinked[i].direction, unlinked[i].length))
                              && forall j :: 0 <= j < i ==> unlinked[j].seqnum != seqnum
      ensures View() == if r.Some? then Session.Step(old(View()), SubmitHeader(seqnum))
                        else old(View())
    {
      ghost var memos := unlinked;
      FindMemoFirst(memos, seqnum);
      if seqnum in submits {
        r := Some((submits[seqnum].direction, submits[seqnum].length));
      } else {
        r := None;
        var i := 0;
        while i < |unlinked|
          invariant 0 <= i <= |unlinked| && r == None
          invariant FindMemo(unlinked, seqnum) == FindMemo(unlinked[i..], seqnum)
        {
          assert unlinked[i..][0] == unlinked[i] && unlinked[i..][1..] == unlinked[i + 1..];
          if unlinked[i].seqnum == seqnum {
            r := Some((unlinked[i].direction, unlinked[i].length));
            break;
          }
          i := i + 1;
        }
      }
      if r.Some? {
        reader := Parsing(seqnum, r.value.0, r.value.1);
        if seqnum !in submits {
          ghost var k :| 0 <= k < |memos| && memos[k] == FindMemo(memos, seqnum).value
                         && memos[k].seqnum == seqnum
                         && forall j :: 0 <= j < k ==> memos[j].seqnum != seqnum;
          assert unlinked[k] == memos[k];
        }
      }
    }

    static method Without(memos: seq<Memo>, q: nat) returns (kept: seq<Memo>)
      ensures kept == Forget(memos, q)
    {
      kept := [];
      var i := 0;
      while i < |memos|
        invariant 0 <= i <= |memos|
        invariant Forget(memos, q) == kept + Forget(memos[i..], q)
      {
        assert memos[i..][0] == memos[i] && memos[i..][1..] == memos[i + 1..];
        if memos[i].seqnum != q {
          kept := kept + [memos[i]];
        }
        i := i + 1;
      }
    }

    /** The second half: the transfer, if still pending, is answered. */
    method Resolve(ret: RetSubmit)
      modifies this
      ensures View() == Session.Step(old(View()), SubmitPayload(ret))
      // The transfer, if pending, is answered with the very reply; no one else hears anything.
      ensures replies == if ret.seqnum in old(submits)
                         then old(replies)[old(submits)[ret.seqnum].reply := Ok(ret)]
                         else old(replies)
      ensures submits == old(submits) - {ret.seqnum}
      ensures forall k :: k in unlinks <==> k in old(unlinks) && old(unlinks)[k] != ret.seqnum
      ensures forall k :: k in unlinks ==> unlinks[k] == old(unlinks)[k]
      ensures forall m :: m in unlinked <==> m in old(unlinked) && m.seqnum != ret.seqnum
      ensures frames == old(frames) && closed == old(closed)
    {
      hide Closed, UnlinkConfirmed, Submitted, UnlinkedAt, Expectation;
      var q := ret.seqnum;
      unlinks := map k | k in unlinks && unlinks[k] != q :: unlinks[k];
      unlinked := Without(unlinked, q);
      if q in submits {
        replies := replies[submits[q].reply := Ok(ret)];
      }
      submits := submits - {q};
      reader := Idle;
      assert View() == Resolved(old(View()), ret).(reader := Idle);
    }

    /** A RET_UNLINK: the transfer it cancels is answered and remembered for a while. */
    method ConfirmUnlink(seqnum: nat, status: i32)
      modifies this
      ensures View() == UnlinkConfirmed(old(View()), seqnum, status)
      // Nothing happens unless the number is that of a CMD_UNLINK; only its target is answered.
      ensures seqnum !in old(unlinks) ==> View() == old(View())
      ensures unlinks == old(unlinks) - {seqnum}
      ensures seqnum in old(unlinks) && old(unlinks)[seqnum] in old(submits) ==>
                var target := old(unlinks)[seqnum];
                var p := old(submits)[target];
                && submits == old(submits) - {target}
                && replies == old(replies)[p.reply := Err(Unlinked(status))]
                && unlinked
                   == (if |old(unlinked)| == 256 then old(unlinked)[1..] else old(unlinked))
                   + [Memo(target, p.direction, p.length)]
      ensures seqnum in old(unlinks) && old(unlinks)[seqnum] !in old(submits) ==>
                submits == old(submits) && replies == old(replies) && unlinked == old(unlinked)
      ensures frames == old(frames) && closed == old(closed) && reader == old(reader)
    {
      if seqnum !in unlinks {
        return;
      }
      var target := unlinks[seqnum];
      unlinks := unlinks - {seqnum};
      if target in submits {
        var p := submits[target];
        submits := submits - {target};
        if |unlinked| == MEMORY {
          unlinked := unlinked[1..];
        }
        unlinked := unlinked + [Memo(target, p.direction, p.length)];
        replies := replies[p.reply := Err(Unlinked(status))];
      }
    }
  }
}
