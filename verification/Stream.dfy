/**
 * Stream synchronisation. How many bytes follow a RET_SUBMIT header depends on the client's own
 * bookkeeping, looked up in one locked section, while submits, unlinks and a close may happen
 * before the second locked section. Reading nevertheless consumes exactly the server's frames.
 */
module Stream {
  import opened Common
  import opened Wire
  import opened Session
  import opened SessionProofs
  import opened SessionRuns
  import opened Answers
  import opened Projection

  /** The session, the bytes not yet read, and the header read last. */
  datatype Line = Line(session: State, input: seq<byte>, header: Reply)

  datatype Event =
    | Others(event: Session.Event)
    | FirstHalf
    | SecondHalf

  /** Other users of the session submit, unlink or close; the reader does its two halves in turn. */
  predicate Ready(l: Line, e: Event) {
    match e
    case Others(n) =>
      (n.DoSubmit? || n.DoUnlink? || n.DoClose?) && Session.Enabled(l.session, n)
    case FirstHalf => l.session.reader.Idle?
    case SecondHalf => l.session.reader.Parsing?
  }

  ghost function Failed(l: Line): Line {
    l.(session := Session.Step(l.session, ReadFailure("protocol error")))
  }

  ghost function Next(l: Line, e: Event): Line {
    match e
    case Others(n) => l.(session := Session.Step(l.session, n))
    case FirstHalf =>
      (match ReadHeader(l.input)
       case Err(_) => Failed(l)
       case Ok(p) =>
         var step := if p.value.ReplySubmit? then SubmitHeader(p.value.seqnum)
                     else UnlinkReply(p.value.seqnum, p.value.status);
         Line(Session.Step(l.session, step), p.rest, p.value))
    case SecondHalf =>
      if !l.session.reader.Parsing? then l
      else
        match ReadPayload(l.header, l.session.reader.direction == In, l.session.reader.length,
                          l.input)
        case Err(_) => Failed(l)
        case Ok(p) => l.(session := Session.Step(l.session, SubmitPayload(p.value)), input := p.rest)
  }

  // ---------------------------------------------------------------- the server's side

  function BytesOf(fs: seq<ReplyFrame>): seq<byte> {
    if fs == [] then [] else EncodeReply(fs[0]) + BytesOf(fs[1..])
  }

  /**
   * What a server may send now: any RET_UNLINK, or the RET_SUBMIT of a transfer that is pending or
   * remembered as unlinked, in the shape that transfer calls for.
   */
  ghost predicate Legal(s: State, f: ReplyFrame) {
    match f
    case UnlinkFrame(_, _) => true
    case SubmitFrame(ret, _) =>
      && ret.seqnum < WORD
      && var expected := Expectation(s, ret.seqnum);
         expected.Some? && Fits(ret, expected.value.0, expected.value.1)
  }

  /** The reader has consumed `i` frames and, while parsing, the header of the next one. */
  ghost predicate InStep(l: Line, fs: seq<ReplyFrame>, i: nat) {
    && i <= |fs| && !l.session.reader.Stopped?
    && (l.session.reader.Idle? ==> l.input == BytesOf(fs[i..]))
    && (l.session.reader.Parsing? ==>
          && i < |fs| && fs[i].SubmitFrame? && l.header == HeaderOf(fs[i])
          && l.input == Payload(fs[i]) + BytesOf(fs[i + 1..])
          && fs[i].ret.seqnum == l.session.reader.seqnum < WORD
          && Fits(fs[i].ret, l.session.reader.direction, l.session.reader.length))
  }

  ghost function Advanced(l: Line, e: Event, fs: seq<ReplyFrame>, i: nat): nat {
    if e.SecondHalf? || (e.FirstHalf? && i < |fs| && fs[i].UnlinkFrame?) then i + 1 else i
  }

  lemma OthersKeepStep(l: Line, n: Session.Event, fs: seq<ReplyFrame>, i: nat)
    requires InStep(l, fs, i) && Ready(l, Others(n))
    ensures InStep(Next(l, Others(n)), fs, i)
  {
    hide BytesOf, Fits, HeaderOf, Payload;
    assert Session.Step(l.session, n).reader == l.session.reader;
  }

  lemma FirstHalfKeepsStep(l: Line, fs: seq<ReplyFrame>, i: nat)
    requires InStep(l, fs, i) && l.session.reader.Idle? && i < |fs| && Legal(l.session, fs[i])
    ensures InStep(Next(l, FirstHalf), fs, Advanced(l, FirstHalf, fs, i))
    ensures Session.Enabled(l.session, if fs[i].SubmitFrame? then SubmitHeader(fs[i].ret.seqnum)
                                       else UnlinkReply(fs[i].seqnum, fs[i].status))
    ensures Next(l, FirstHalf).session
            == Session.Step(l.session, if fs[i].SubmitFrame? then SubmitHeader(fs[i].ret.seqnum)
                                       else UnlinkReply(fs[i].seqnum, fs[i].status))
  {
    hide ReadHeader, EncodeReply, Payload, Fits;
    var rest := BytesOf(fs[i + 1..]);
    assert fs[i..][0] == fs[i] && fs[i..][1..] == fs[i + 1..];
    assert l.input == EncodeReply(fs[i]) + rest;
    assert fs[i].SubmitFrame? ==> |fs[i].ret.isoPackets| <= MAX_ISO_PACKETS by {
      if fs[i].SubmitFrame? {
        var expected := Expectation(l.session, fs[i].ret.seqnum);
        FitsBoundsPackets(fs[i].ret, expected.value.0, expected.value.1);
      }
    }
    HeaderRoundTrip(fs[i], rest);
    if fs[i].UnlinkFrame? {
      assert Payload(fs[i]) + rest == rest by { NoPayload(fs[i], rest); }
    }
  }

  lemma FitsBoundsPackets(ret: RetSubmit, direction: Direction, length: nat)
    requires Fits(ret, direction, length)
    ensures |ret.isoPackets| <= MAX_ISO_PACKETS
  {
  }

  lemma NoPayload(f: ReplyFrame, rest: seq<byte>)
    requires f.UnlinkFrame?
    ensures Payload(f) + rest == rest
  {
  }

  lemma SecondHalfKeepsStep(l: Line, fs: seq<ReplyFrame>, i: nat)
    requires InStep(l, fs, i) && l.session.reader.Parsing?
    ensures InStep(Next(l, SecondHalf), fs, i + 1)
    ensures Session.Enabled(l.session, SubmitPayload(fs[i].ret))
    ensures Next(l, SecondHalf).session == Session.Step(l.session, SubmitPayload(fs[i].ret))
  {
    hide ReadPayload, Payload, HeaderOf, BytesOf;
    var r := l.session.reader;
    PayloadRoundTrip(fs[i], r.direction, r.length, BytesOf(fs[i + 1..]));
  }

  // ---------------------------------------------------------------- runs

  ghost function RunLine(l: Line, es: seq<Event>): Line
    decreases |es|
  {
    if es == [] then l else RunLine(Next(l, es[0]), es[1..])
  }

  /** Every event is possible when it happens, and every frame met is legal when it is met. */
  ghost predicate Conforming(l: Line, es: seq<Event>, fs: seq<ReplyFrame>, i: nat)
    decreases |es|
  {
    es != [] ==>
      && Ready(l, es[0])
      && (es[0].FirstHalf? ==> i < |fs| && Legal(l.session, fs[i]))
      && Conforming(Next(l, es[0]), es[1..], fs, Advanced(l, es[0], fs, i))
  }

  lemma StepKeepsStep(s: State, l: Line, e: Event, fs: seq<ReplyFrame>, i: nat)
    requires InStep(l, fs, i) && Ready(l, e) && Reaches(s, l.session)
    requires e.FirstHalf? ==> i < |fs| && Legal(l.session, fs[i])
    ensures InStep(Next(l, e), fs, Advanced(l, e, fs, i))
    ensures Reaches(s, Next(l, e).session)
  {
    hide InStep, Reaches;
    match e {
      case Others(n) =>
        OthersKeepStep(l, n, fs, i);
        hide Session.Step;
        ReachesByStep(s, l.session, n);
      case FirstHalf =>
        assert !l.session.reader.Parsing?;
        FirstHalfKeepsStep(l, fs, i);
        hide Session.Step, ReadHeader, Legal;
        ReachesByStep(s, l.session, if fs[i].SubmitFrame? then SubmitHeader(fs[i].ret.seqnum)
                                    else UnlinkReply(fs[i].seqnum, fs[i].status));
      case SecondHalf =>
        assert i < |fs| && fs[i].SubmitFrame? by { ParsingSubmit(l, fs, i); }
        SecondHalfKeepsStep(l, fs, i);
        hide Session.Step, ReadPayload;
        ReachesByStep(s, l.session, SubmitPayload(fs[i].ret));
    }
  }

  lemma ParsingSubmit(l: Line, fs: seq<ReplyFrame>, i: nat)
    requires InStep(l, fs, i) && l.session.reader.Parsing?
    ensures i < |fs| && fs[i].SubmitFrame?
  {
  }

  /** RET_SUBMITs among the first `k` frames. */
  ghost function RepliesIn(fs: seq<ReplyFrame>, k: nat): RetSubmit -> bool {
    ret => exists j :: 0 <= j < k && j < |fs| && fs[j].SubmitFrame? && fs[j].ret == ret
  }

  /** RET_UNLINKs among the first `k` frames. */
  ghost function ConfirmationsIn(fs: seq<ReplyFrame>, k: nat): (nat, i32) -> bool {
    (q: nat, status: i32) =>
      exists j :: 0 <= j < k && j < |fs| && fs[j].UnlinkFrame?
                  && fs[j].seqnum == q && fs[j].status == status
  }

  /** Every answer so far comes from one of the first `i` frames, or from the session's end. */
  ghost predicate Faithful(s: State, fs: seq<ReplyFrame>, i: nat) {
    Sound(s) && CancelsQueued(s) && Backed(s, RepliesIn(fs, i), ConfirmationsIn(fs, i))
  }

  lemma SessionStepKeepsFaithful(s: State, n: Session.Event, fs: seq<ReplyFrame>, i: nat, j: nat)
    requires Faithful(s, fs, i) && i <= j && Session.Enabled(s, n)
    requires n.SubmitPayload? ==> RepliesIn(fs, j)(n.ret)
    requires n.UnlinkReply? ==> ConfirmationsIn(fs, j)(n.seqnum, n.status)
    ensures Faithful(Session.Step(s, n), fs, j)
  {
    hide Session.Step, Enabled, Backed, CancelsQueued;
    assert Accounted(s);
    StepKeepsSound(s, n);
    hide Sound;
    StepKeepsCancelsQueued(s, n);
    StepKeepsBacked(s, n, RepliesIn(fs, i), ConfirmationsIn(fs, i), RepliesIn(fs, j),
                    ConfirmationsIn(fs, j));
  }

  lemma FramesBehindAnswers(s: State, fs: seq<ReplyFrame>, k: nat)
    requires Faithful(s, fs, k) && k <= |fs|
    ensures forall c :: c in s.replies && s.replies[c].Ok? ==>
              exists j :: 0 <= j < k && fs[j].SubmitFrame? && fs[j].ret == s.replies[c].value
    ensures forall c :: c in s.replies && s.replies[c].Err? && s.replies[c].error.Unlinked? ==>
              c in s.tickets
              && exists j :: 0 <= j < k && fs[j].UnlinkFrame?
                             && fs[j].status == s.replies[c].error.status
                             && CancelQueued(s, fs[j].seqnum, s.tickets[c].seqnum)
  {
    hide Sound, CancelQueued;
    forall c | c in s.replies && s.replies[c].Ok?
      ensures exists j :: 0 <= j < k && fs[j].SubmitFrame? && fs[j].ret == s.replies[c].value
    {
      assert BackedAt(s, c, RepliesIn(fs, k), ConfirmationsIn(fs, k));
    }
    forall c | c in s.replies && s.replies[c].Err? && s.replies[c].error.Unlinked?
      ensures c in s.tickets
              && exists j :: 0 <= j < k && fs[j].UnlinkFrame?
                             && fs[j].status == s.replies[c].error.status
                             && CancelQueued(s, fs[j].seqnum, s.tickets[c].seqnum)
    {
      assert BackedAt(s, c, RepliesIn(fs, k), ConfirmationsIn(fs, k));
    }
  }

  lemma StepKeepsFaithful(l: Line, e: Event, fs: seq<ReplyFrame>, i: nat)
    requires InStep(l, fs, i) && Ready(l, e) && Faithful(l.session, fs, i)
    requires e.FirstHalf? ==> i < |fs| && Legal(l.session, fs[i])
    ensures Faithful(Next(l, e).session, fs, Advanced(l, e, fs, i))
  {
    hide Faithful, Legal;
    match e {
      case Others(n) => hide Session.Step; SessionStepKeepsFaithful(l.session, n, fs, i, i);
      case FirstHalf =>
        FirstHalfKeepsStep(l, fs, i);
        hide Session.Step, ReadHeader, Next;
        if fs[i].SubmitFrame? {
          SessionStepKeepsFaithful(l.session, SubmitHeader(fs[i].ret.seqnum), fs, i, i);
        } else {
          SessionStepKeepsFaithful(l.session, UnlinkReply(fs[i].seqnum, fs[i].status), fs, i, i + 1);
        }
      case SecondHalf =>
        ParsingSubmit(l, fs, i);
        SecondHalfKeepsStep(l, fs, i);
        hide Session.Step, ReadPayload, Next;
        SessionStepKeepsFaithful(l.session, SubmitPayload(fs[i].ret), fs, i, i + 1);
    }
  }

  /** The second half delivers the very reply the frame carries, if its transfer is pending. */
  lemma SecondHalfDelivers(l: Line, fs: seq<ReplyFrame>, i: nat)
    requires InStep(l, fs, i) && l.session.reader.Parsing?
    ensures i < |fs| && fs[i].SubmitFrame?
    ensures var s, t, q := l.session, Next(l, SecondHalf).session, fs[i].ret.seqnum;
            && q !in t.submits
            && t.replies == if q in s.submits then s.replies[s.submits[q].reply := Ok(fs[i].ret)]
                            else s.replies
  {
    ParsingSubmit(l, fs, i);
    SecondHalfKeepsStep(l, fs, i);
    hide Next, InStep, Enabled;
  }

  /** The session has ended, and whoever was still waiting has been told. */
  ghost predicate EndedFrom(s: State, t: State) {
    && t.closed.Some? && t.reader.Stopped? && t.submits == map[] && t.unlinks == map[]
    && (s.closed.Some? ==> t.closed == s.closed && t.replies == s.replies)
    && (s.closed.None? ==>
          forall q :: q in s.submits ==>
            s.submits[q].reply in t.replies
            && t.replies[s.submits[q].reply] == Err(Disconnected(t.closed.value)))
  }

  /** Bytes that are no header, or no payload of the shape expected, end the session. */
  lemma MalformedReplyCloses(l: Line)
    requires Numbered(l.session)
    ensures l.session.reader.Idle? && ReadHeader(l.input).Err? ==>
              EndedFrom(l.session, Next(l, FirstHalf).session)
    ensures var r := l.session.reader;
            r.Parsing? && ReadPayload(l.header, r.direction == In, r.length, l.input).Err? ==>
              EndedFrom(l.session, Next(l, SecondHalf).session)
  {
    hide ReadHeader, ReadPayload;
  }

  /** A RET_SUBMIT for a number neither pending nor remembered ends the session. */
  lemma UnknownReplyCloses(l: Line)
    requires l.session.reader.Idle? && Numbered(l.session)
    requires var h := ReadHeader(l.input);
             && h.Ok? && h.value.value.ReplySubmit?
             && h.value.value.seqnum !in l.session.submits
             && forall m :: m in l.session.unlinked ==> m.seqnum != h.value.value.seqnum
    ensures EndedFrom(l.session, Next(l, FirstHalf).session)
  {
    hide ReadHeader;
    FindMemoSound(l.session.unlinked, ReadHeader(l.input).value.value.seqnum);
  }

  /**
   * For any frames, each legal when it is met, and any interleaving with submits, unlinks and
   * closes, the reader always stands at a frame boundary or right behind a header, never fails,
   * and has nothing left over once it has read all frames.
   */
  lemma {:induction false} ReaderStaysInStep(s: State, l: Line, es: seq<Event>,
                                             fs: seq<ReplyFrame>, i: nat) returns (k: nat)
    requires InStep(l, fs, i) && Conforming(l, es, fs, i) && Reaches(s, l.session)
    requires Faithful(l.session, fs, i)
    ensures i <= k <= |fs| && InStep(RunLine(l, es), fs, k) && Reaches(s, RunLine(l, es).session)
    ensures k == |fs| ==> RunLine(l, es).input == []
    ensures Faithful(RunLine(l, es).session, fs, k)
    decreases |es|
  {
    hide Reaches, Next, Ready, Legal, Faithful;
    if es == [] {
      k := i;
      assert fs[|fs|..] == [];
    } else {
      StepKeepsStep(s, l, es[0], fs, i);
      StepKeepsFaithful(l, es[0], fs, i);
      k := ReaderStaysInStep(s, Next(l, es[0]), es[1..], fs, Advanced(l, es[0], fs, i));
    }
  }

  /**
   * From the start of a session: reading consumes exactly the frames' bytes. With fewer than 2^32
   * numbers handed out, the direction and length a reply is parsed with are those of the transfer
   * it will resolve, whatever was submitted, unlinked or closed since its header was looked up, and
   * every reply delivered fits the request it answers. Each reply delivered is that of a frame read,
   * in every field; each transfer answered as unlinked was confirmed, with that status, by a frame
   * read for the CMD_UNLINK that named it.
   */
  lemma StreamStaysSynchronised(devid: u32, fs: seq<ReplyFrame>, es: seq<Event>)
    returns (k: nat)
    requires Conforming(Line(Session.Init(devid), BytesOf(fs), ReplyUnlink(0, 0)), es, fs, 0)
    ensures var l := RunLine(Line(Session.Init(devid), BytesOf(fs), ReplyUnlink(0, 0)), es);
            && k <= |fs| && InStep(l, fs, k) && (k == |fs| ==> l.input == [])
            && (forall c :: c in l.session.replies && l.session.replies[c].Ok? ==>
                  exists j :: 0 <= j < k && fs[j].SubmitFrame?
                              && fs[j].ret == l.session.replies[c].value)
            && (forall c :: c in l.session.replies && l.session.replies[c].Err?
                            && l.session.replies[c].error.Unlinked? ==>
                  c in l.session.tickets
                  && exists j :: 0 <= j < k && fs[j].UnlinkFrame?
                                 && fs[j].status == l.session.replies[c].error.status
                                 && CancelQueued(l.session, fs[j].seqnum,
                                                 l.session.tickets[c].seqnum))
            && (l.session.issued < WORD ==>
                  && Attributed(l.session)
                  && var s, r := l.session, l.session.reader;
                     r.Parsing? && r.seqnum in s.submits ==>
                       && s.submits[r.seqnum].direction == r.direction
                       && s.submits[r.seqnum].length == r.length)
  {
    var l0 := Line(Session.Init(devid), BytesOf(fs), ReplyUnlink(0, 0));
    assert fs[0..] == fs;
    ReachesItself(Session.Init(devid));
    k := ReaderStaysInStep(Session.Init(devid), l0, es, fs, 0);
    var l := RunLine(l0, es);
    FramesBehindAnswers(l.session, fs, k);
    if l.session.issued < WORD {
      var ns :| Possible(Session.Init(devid), ns) && Run(Session.Init(devid), ns) == l.session;
      RepliesReachTheirRequest(devid, ns);
    }
  }

  // ---------------------------------------------------------------- any server

  ghost predicate AllReady(l: Line, es: seq<Event>)
    decreases |es|
  {
    es != [] ==> Ready(l, es[0]) && AllReady(Next(l, es[0]), es[1..])
  }

  /** While a reply is being parsed its header is that of a RET_SUBMIT for the number looked up. */
  ghost predicate HeaderKnown(l: Line) {
    l.session.reader.Parsing? ==>
      && l.header.ReplySubmit? && l.header.seqnum == l.session.reader.seqnum
      && l.header.packets <= MAX_ISO_PACKETS
  }

  lemma HeaderBoundsPackets(b: seq<byte>)
    ensures var r := ReadHeader(b);
            r.Ok? && r.value.value.ReplySubmit? ==> r.value.value.packets <= MAX_ISO_PACKETS
  {
    hide HeaderWords;
  }

  /** What the reader does with arbitrary bytes is a step any session may take. */
  lemma ReadingIsAStep(l: Line, e: Event) returns (n: Session.Event)
    requires HeaderKnown(l) && Ready(l, e)
    ensures Session.Enabled(l.session, n) && Next(l, e).session == Session.Step(l.session, n)
    ensures HeaderKnown(Next(l, e))
  {
    hide ReadHeader, ReadPayload, Fits, Resolved, UnlinkConfirmed;
    match e {
      case Others(event) => n := event;
      case FirstHalf =>
        HeaderBoundsPackets(l.input);
        n := match ReadHeader(l.input)
             case Err(_) => ReadFailure("protocol error")
             case Ok(p) =>
               if p.value.ReplySubmit? then SubmitHeader(p.value.seqnum)
               else UnlinkReply(p.value.seqnum, p.value.status);
        if n.UnlinkReply? { UnlinkKeepsReader(l.session, n.seqnum, n.status); }
      case SecondHalf =>
        var r := l.session.reader;
        PayloadFits(l.header, r.direction, r.length, l.input);
        n := match ReadPayload(l.header, r.direction == In, r.length, l.input)
             case Err(_) => ReadFailure("protocol error")
             case Ok(p) => SubmitPayload(p.value);
    }
  }

  lemma UnlinkKeepsReader(s: State, seqnum: nat, status: i32)
    ensures UnlinkConfirmed(s, seqnum, status).reader == s.reader
  {
  }

  lemma {:induction false} AnyLineIsARun(s: State, l: Line, es: seq<Event>)
    requires HeaderKnown(l) && AllReady(l, es) && Reaches(s, l.session)
    ensures Reaches(s, RunLine(l, es).session)
    decreases |es|
  {
    hide Reaches, Next, Ready, HeaderKnown;
    if es != [] {
      var n := ReadingIsAStep(l, es[0]);
      ReachesByStep(s, l.session, n);
      AnyLineIsARun(s, Next(l, es[0]), es[1..]);
    }
  }

  /**
   * Whatever bytes a server sends, and whatever the session's users do meanwhile, the session goes
   * through a run of its own steps. So the invariants hold and requests are conserved against any
   * server, and until the counter wraps each is answered, if at all, in its own shape.
   */
  lemma AnyServerIsHarmless(devid: u32, bytes: seq<byte>, es: seq<Event>)
    requires AllReady(Line(Session.Init(devid), bytes, ReplyUnlink(0, 0)), es)
    ensures var s := RunLine(Line(Session.Init(devid), bytes, ReplyUnlink(0, 0)), es).session;
            && Reaches(Session.Init(devid), s) && Sound(s)
            && |s.tickets| == |s.submits| + |Completed(s)| + |Cancelled(s)| + |CutOff(s)|
            && (s.issued < WORD ==> Attributed(s))
  {
    hide Sound, Completed, Cancelled, CutOff, Attributed;
    var l := Line(Session.Init(devid), bytes, ReplyUnlink(0, 0));
    ReachesItself(Session.Init(devid));
    AnyLineIsARun(Session.Init(devid), l, es);
    var s := RunLine(l, es).session;
    var ns :| Possible(Session.Init(devid), ns) && Run(Session.Init(devid), ns) == s;
    SessionIsSound(devid, ns);
    Conservation(devid, ns);
    if s.issued < WORD { RepliesReachTheirRequest(devid, ns); }
  }
}
