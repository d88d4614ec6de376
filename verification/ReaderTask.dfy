/** The reader task: one reply, read from the connection and applied to the session. */
module ReaderTask {
  import opened Common
  import opened Wire
  import opened Session
  import opened Stream
  import opened WireIO
  import C = Client

  method Fail(client: C.Client, reason: string)
    modifies client
    ensures client.View() == Session.Step(old(client.View()), ReadFailure(reason))
  {
    client.Close(reason);
    client.reader := Stopped;
  }

  /** Both halves with nothing in between. */
  ghost function WholeRead(l: Line): Line {
    var l1 := Next(l, FirstHalf);
    if l1.session.reader.Parsing? then Next(l1, SecondHalf) else l1
  }

  /**
   * Reads one reply: its header, then, for a RET_SUBMIT, the payload as the client's own record of
   * the request says. Anything unexpected closes the session.
   */
  method ReadOne(client: C.Client, cursor: Cursor) returns (ok: bool)
    requires client.reader.Idle?
    modifies client, cursor
    ensures var l := WholeRead(Line(old(client.View()), old(cursor.rest), ReplyUnlink(0, 0)));
            && client.View() == l.session
            && ok == !l.session.reader.Stopped?
            && (ok ==> cursor.rest == l.input)
  {
    hide ReadHeader, ReadPayload, Closed, Resolved, UnlinkConfirmed, Expectation;
    ghost var l := Line(client.View(), cursor.rest, ReplyUnlink(0, 0));
    var header := cursor.ReadReplyHeader();
    if header.Err? {
      Fail(client, "protocol error");
      return false;
    }
    var h := header.value;
    if h.ReplyUnlink? {
      client.ConfirmUnlink(h.seqnum, h.status);
      UnlinkKeepsReader(l.session, h.seqnum, h.status);
      return true;
    }
    var expected := client.ExpectPayload(h.seqnum);
    if expected.None? {
      Fail(client, "RET_SUBMIT for unknown seqnum");
      return false;
    }
    var (direction, length) := expected.value;
    var payload := cursor.ReadSubmitPayload(h, direction == In, length);
    if payload.Err? {
      Fail(client, "protocol error");
      return false;
    }
    client.Resolve(payload.value);
    return true;
  }
}
