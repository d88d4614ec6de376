/**
 * The state a USB/IP session keeps under its lock, and what each locked section does to it.
 *
 * Besides the client's own bookkeeping the state records what has happened so far: the commands
 * queued for the writer, the reply channel of every accepted request and the answer sent on it.
 * No operation reads those three.
 */
module Session {
  import opened Common
  import opened Wire
  import Seqnum

  const MEMORY: nat := 256

  /** Who awaits the outcome of a request: a URB of the engine or any other caller. */
  datatype Channel = Urb(token: nat) | Caller(id: nat)

  datatype TransferError = Unlinked(status: i32) | Disconnected(reason: string) | Invalid

  type TransferResult = Result<RetSubmit, TransferError>

  datatype Request = Request(
    ep: byte, direction: Direction, transferFlags: u32, length: u32, setup: Setup,
    data: seq<byte>, startFrame: u32, interval: u32, isoPackets: seq<IsoPacket>)

  datatype Pending = Pending(direction: Direction, length: u32, reply: Channel)

  /** A transfer resolved by RET_UNLINK whose RET_SUBMIT may still arrive. */
  datatype Memo = Memo(seqnum: nat, direction: Direction, length: u32)

  /** What the reader task knows between its two locked sections. */
  datatype Reader = Idle | Parsing(seqnum: nat, direction: Direction, length: u32) | Stopped

  /** What was asked on a channel. */
  datatype Ticket = Ticket(seqnum: nat, direction: Direction, length: u32)

  datatype State = State(
    devid: u32,
    next: nat,
    submits: map<nat, Pending>,
    unlinks: map<nat, nat>,
    unlinked: seq<Memo>,
    closed: Option<string>,
    reader: Reader,
    issued: nat,
    frames: seq<Command>,
    tickets: map<Channel, Ticket>,
    replies: map<Channel, TransferResult>)

  function Init(devid: u32): State {
    State(devid, 0, map[], map[], [], None, Idle, 0, [], map[], map[])
  }

  // ---------------------------------------------------------------- requests

  /** OUT requests carry exactly their data, IN requests none. */
  predicate Acceptable(req: Request) {
    if req.direction == Out then |req.data| == req.length else req.data == []
  }

  function Used(s: State): set<nat> {
    s.submits.Keys + s.unlinks.Keys
  }

  ghost function Fresh(s: State): nat {
    Seqnum.Next(Used(s), s.next)
  }

  /** Every search for a number so far has ended. */
  ghost predicate InRange(s: State) {
    forall q :: q in Used(s) ==> q < WORD
  }

  /** The counter after handing out `seqnum`. */
  function Advance(s: State, seqnum: nat): State {
    s.(next := if seqnum < WORD then seqnum else s.next, issued := s.issued + 1)
  }

  function CommandOf(s: State, req: Request, seqnum: nat): CmdSubmit {
    CmdSubmit(seqnum, s.devid, if req.direction == In then 1 else 0, req.ep % 0x10,
              req.transferFlags, req.length, req.startFrame, req.interval, req.setup, req.data,
              req.isoPackets)
  }

  function Enlist(s: State, req: Request, reply: Channel, seqnum: nat): State {
    Advance(s, seqnum).(
    submits := s.submits[seqnum := Pending(req.direction, req.length, reply)],
    frames := s.frames + [Submit(CommandOf(s, req, seqnum))],
    tickets := s.tickets[reply := Ticket(seqnum, req.direction, req.length)])
  }

  datatype Submission = Accepted(seqnum: nat, state: State) | Refused(error: TransferError)

  ghost function Submitted(s: State, req: Request, reply: Channel): Submission {
    if !Acceptable(req) then Refused(Invalid)
    else if s.closed.Some? then Refused(Disconnected(s.closed.value))
    else Accepted(Fresh(s), Enlist(s, req, reply, Fresh(s)))
  }

  predicate Cancellable(s: State, target: nat) {
    s.closed.None? && target in s.submits && target !in s.unlinks.Values
  }

  ghost function UnlinkedAt(s: State, target: nat): State {
    if Cancellable(s, target) then
      Advance(s, Fresh(s)).(
      unlinks := s.unlinks[Fresh(s) := target],
      frames := s.frames + [Unlink(CmdUnlink(Fresh(s), s.devid, target))])
    else s
  }

  // ---------------------------------------------------------------- replies

  function Channels(submits: map<nat, Pending>): set<Channel> {
    set q | q in submits :: submits[q].reply
  }

  function Closed(s: State, reason: string): State {
    if s.closed.Some? then s
    else
      s.(closed := Some(reason), submits := map[], unlinks := map[],
      replies := s.replies + map c | c in Channels(s.submits) :: Err(Disconnected(reason)))
  }

  function FindMemo(memos: seq<Memo>, seqnum: nat): Option<Memo> {
    if memos == [] then None
    else if memos[0].seqnum == seqnum then Some(memos[0])
    else FindMemo(memos[1..], seqnum)
  }

  function Forget(memos: seq<Memo>, seqnum: nat): (r: seq<Memo>)
    ensures |r| <= |memos|
    ensures forall m :: m in r <==> m in memos && m.seqnum != seqnum
  {
    if memos == [] then []
    else if memos[0].seqnum == seqnum then Forget(memos[1..], seqnum)
    else [memos[0]] + Forget(memos[1..], seqnum)
  }

  function Remember(memos: seq<Memo>, m: Memo): (r: seq<Memo>)
    ensures |memos| <= MEMORY ==> |r| <= MEMORY
  {
    (if |memos| == MEMORY then memos[1..] else memos) + [m]
  }

  /** First locked section for a RET_SUBMIT: how is its payload to be parsed? */
  function Expectation(s: State, seqnum: nat): Option<(Direction, u32)> {
    if seqnum in s.submits then Some((s.submits[seqnum].direction, s.submits[seqnum].length))
    else
      match FindMemo(s.unlinked, seqnum)
      case Some(m) => Some((m.direction, m.length))
      case None => None
  }

  /** Second locked section for a RET_SUBMIT. */
  function Resolved(s: State, ret: RetSubmit): State {
    var q := ret.seqnum;
    s.(unlinks := map k | k in s.unlinks && s.unlinks[k] != q :: s.unlinks[k],
    unlinked := Forget(s.unlinked, q),
    submits := s.submits - {q},
    replies := if q in s.submits then s.replies[s.submits[q].reply := Ok(ret)] else s.replies)
  }

  /** The locked section for a RET_UNLINK. */
  function UnlinkConfirmed(s: State, seqnum: nat, status: i32): State {
    if seqnum !in s.unlinks then s
    else
      var target := s.unlinks[seqnum];
      var s1 := s.(unlinks := s.unlinks - {seqnum});
      if target !in s.submits then s1
      else
        var p := s.submits[target];
        s1.(submits := s.submits - {target},
        unlinked := Remember(s.unlinked, Memo(target, p.direction, p.length)),
        replies := s.replies[p.reply := Err(Unlinked(status))])
  }

  // ---------------------------------------------------------------- runs

  datatype Event =
    | DoSubmit(req: Request, reply: Channel)
    | DoUnlink(target: nat)
    | DoClose(reason: string)
    | SubmitHeader(seqnum: nat)
    | SubmitPayload(ret: RetSubmit)
    | UnlinkReply(seqnum: nat, status: i32)
    | ReadFailure(reason: string)

  /** `SubmitPayload` only happens for the reply whose header was looked up, in the shape `Fits`. */
  predicate Enabled(s: State, e: Event) {
    match e
    case DoSubmit(_, reply) => reply !in s.tickets
    case DoUnlink(_) => true
    case DoClose(_) => true
    case SubmitHeader(_) => s.reader.Idle?
    case SubmitPayload(ret) =>
      s.reader.Parsing? && ret.seqnum == s.reader.seqnum
      && Fits(ret, s.reader.direction, s.reader.length)
    case UnlinkReply(_, _) => s.reader.Idle?
    case ReadFailure(_) => !s.reader.Stopped?
  }

  ghost function Step(s: State, e: Event): State {
    match e
    case DoSubmit(req, reply) =>
      var r := Submitted(s, req, reply);
      if r.Accepted? then r.state else s
    case DoUnlink(target) => UnlinkedAt(s, target)
    case DoClose(reason) => Closed(s, reason)
    case SubmitHeader(seqnum) =>
      (match Expectation(s, seqnum)
       case Some((d, n)) => s.(reader := Parsing(seqnum, d, n))
       case None => Closed(s, "RET_SUBMIT for unknown seqnum").(reader := Stopped))
    case SubmitPayload(ret) => Resolved(s, ret).(reader := Idle)
    case UnlinkReply(seqnum, status) => UnlinkConfirmed(s, seqnum, status)
    case ReadFailure(reason) => Closed(s, reason).(reader := Stopped)
  }

  ghost function Run(s: State, es: seq<Event>): State
    decreases |es|
  {
    if es == [] then s else Run(Step(s, es[0]), es[1..])
  }

  ghost predicate Possible(s: State, es: seq<Event>)
    decreases |es|
  {
    es == [] || (Enabled(s, es[0]) && Possible(Step(s, es[0]), es[1..]))
  }
}
