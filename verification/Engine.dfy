/**
 * The transfer engine, as functions on values: what each piece of work on the serial executor
 * does to an endpoint, to the session and to the record of URBs sent.
 *
 * A ring is modelled by the messages ever placed on it and the position of the head; a message's
 * identity is its position. `acts` records, in order, the URBs sent for the ring's messages and the
 * completions the host accepted; nothing reads it.
 */
module Engine {
  import opened Common
  import opened Wire
  import opened Session
  import HideUas

  // ---------------------------------------------------------------- endpoints and messages

  datatype Key = Key(device: byte, address: byte)

  predicate IsControl(key: Key) {
    key.address % 0x80 == 0
  }

  function DirectionOf(key: Key): Direction {
    if key.address >= 0x80 then In else Out
  }

  /** Only the reads of data endpoints are unlinked by a pause. */
  predicate Pausable(key: Key) {
    DirectionOf(key) == In && !IsControl(key)
  }

  datatype Kind = Control | Isochronous | Bulk | Interrupt

  datatype Info = Info(kind: Kind, maxPacketSize: nat, interval: byte)

  /** URBs kept in flight. */
  function Depth(kind: Kind): (n: nat)
    ensures 1 <= n <= 32
  {
    match kind
    case Isochronous => 32
    case Bulk => 8
    case Control => 1
    case Interrupt => 1
  }

  datatype Speed = UnknownSpeed | Low | Full | High | Wireless | Super | SuperPlus

  function UrbInterval(info: Info, speed: Speed): (n: u32) {
    var b := if info.interval == 0 then 1 else info.interval as nat;
    var capped := if b < 16 then b else 16;
    match info.kind
    case Bulk => 0
    case Control => 0
    case Isochronous => Shifted(capped - 1)
    case Interrupt =>
      if speed in {High, Wireless, Super, SuperPlus} then Shifted(capped - 1) else b
  }

  /** `1 << n`. */
  function Shifted(n: nat): u32
    requires n <= 15
  {
    [1, 2, 4, 8, 0x10, 0x20, 0x40, 0x80, 0x100, 0x200, 0x400, 0x800, 0x1000, 0x2000, 0x4000,
     0x8000][n]
  }

  datatype Transfer =
    | SetupStage(bytes: Setup)
    | Normal(length: u32)
    | StatusStage
    | IsoTransfer(length: u32, frame: Option<byte>)
    | Link(needsResponse: bool)
    | Other(code: nat)

  function LengthOf(t: Transfer): nat {
    if t.Normal? || t.IsoTransfer? then t.length else 0
  }

  datatype Message = Message(transfer: Transfer, buffer: seq<byte>)

  datatype Status =
    | Success | Offline | Timeout | Stopped | ProtocolFault | TransactionFault | Overrun | Stall
    | Failure

  /** Linux errno values of a RET_SUBMIT. */
  function FromUrbStatus(status: i32): Status {
    match -(status as int)
    case 0 => Success
    case 121 => Success
    case 18 => Success
    case 32 => Stall
    case 75 => Overrun
    case 71 => ProtocolFault
    case 84 => ProtocolFault
    case 62 => Timeout
    case 110 => Timeout
    case 19 => Offline
    case 108 => Offline
    case 2 => Status.Stopped
    case 104 => Status.Stopped
    case 70 => TransactionFault
    case 63 => TransactionFault
    case _ => Failure
  }

  function ErrorStatus(e: TransferError): Status {
    match e
    case Disconnected(_) => Offline
    case Unlinked(_) => Status.Stopped
    case Invalid => Failure
  }

  // ---------------------------------------------------------------- rings

  datatype Act =
    | Sent(token: nat, message: nat)
    | Done(message: nat, status: Status, data: seq<byte>, length: nat, source: Option<nat>)

  datatype Ring = Ring(
    id: nat, tape: seq<Message>, head: nat, active: bool, rejects: bool, acts: seq<Act>)

  function Left(r: Ring): nat {
    if r.head < |r.tape| then |r.tape| - r.head else 0
  }

  /** The message `ahead` positions after the head, unless it is a link or not there. */
  function Peek(r: Ring, ahead: nat): Option<Message> {
    if r.head + ahead < |r.tape| && !r.tape[r.head + ahead].transfer.Link?
    then Some(r.tape[r.head + ahead]) else None
  }

  function ReadBuffer(r: Ring, ahead: nat, n: nat): seq<byte> {
    if r.head + ahead >= |r.tape| then []
    else
      var b := r.tape[r.head + ahead].buffer;
      if n < |b| then b[..n] else b
  }

  /** Whether the host takes a completion of the head. */
  predicate Accepts(r: Ring) {
    r.active && !r.rejects && r.head < |r.tape|
  }

  function Completion(r: Ring, status: Status, data: seq<byte>, length: nat, source: Option<nat>)
    : Ring
  {
    r.(head := r.head + 1, acts := r.acts + [Done(r.head, status, data, length, source)])
  }

  // ---------------------------------------------------------------- engine state

  datatype Stage = ControlData | ControlStatus | NormalData | IsoData

  datatype InFlight = InFlight(
    token: nat, message: nat, stage: Stage, direction: Direction, length: u32, seqnum: nat,
    unlinking: bool, result: Option<TransferResult>)

  datatype SetupState = SetupState(bytes: Setup, dataDone: bool)

  datatype Endpoint = Endpoint(
    ring: Ring, info: Info, inFlight: seq<InFlight>, setup: Option<SetupState>,
    hiddenConfig: Option<(nat, nat)>)

  /** What a URB was built from. Tokens index the record of these. */
  datatype Origin = Origin(
    key: Key, ring: nat, message: nat, stage: Stage, info: Info, request: Request)

  /** What work on one endpoint sees: the endpoint, the session, and the URBs sent so far. */
  datatype Scope = Scope(speed: Speed, ep: Endpoint, session: State, origins: seq<Origin>)

  // ---------------------------------------------------------------- building requests

  function NewRequest(ep: byte, direction: Direction, length: u32): Request {
    Request(ep, direction, 0, length, NO_SETUP, [], 0, 0, [])
  }

  function ControlRequest(r: Ring, setup: Setup, length: u32): Request {
    var direction := if setup[0] >= 0x80 then In else Out;
    NewRequest(0, direction, length).(
    setup := setup,
    data := if direction == Out then ReadBuffer(r, 0, length) else [])
  }

  const ISO_ASAP: u32 := 2

  function DataRequest(key: Key, speed: Speed, ep: Endpoint, ahead: nat, t: Transfer)
    : Option<(Request, Stage)>
  {
    var direction := DirectionOf(key);
    var interval := UrbInterval(ep.info, speed);
    if t.Normal? then
      Some((NewRequest(key.address, direction, t.length).(
            interval := interval,
            data := if direction == Out then ReadBuffer(ep.ring, ahead, t.length) else []),
            NormalData))
    else if t.IsoTransfer? then
      Some((NewRequest(key.address, direction, t.length).(
            interval := if interval == 0 then 1 else interval,
            data := if direction == Out then ReadBuffer(ep.ring, ahead, t.length) else [],
            startFrame := if t.frame.Some? then t.frame.value else 0,
            transferFlags := if t.frame.Some? then 0 else ISO_ASAP,
            isoPackets := [IsoPacket(0, t.length, 0, 0)]),
            IsoData))
    else None
  }

  /** What to do about the head message when nothing is in flight. */
  datatype Plan =
    | Answer(status: Status, setup: Option<SetupState>)
    | Wait
    | Ask(request: Request, stage: Stage)

  function WLength(setup: Setup): nat {
    setup[6] as int + 0x100 * setup[7] as int
  }

  function HeadPlan(key: Key, speed: Speed, ep: Endpoint, t: Transfer): Plan {
    if t.Link? then (if t.needsResponse then Answer(Success, ep.setup) else Wait)
    else if !IsControl(key) then
      match DataRequest(key, speed, ep, 0, t)
      case Some((req, stage)) => Ask(req, stage)
      case None => Answer(Failure, ep.setup)
    else
      match t
      case SetupStage(bytes) => Answer(Success, Some(SetupState(bytes, false)))
      case Normal(length) =>
        if ep.setup.Some? && !ep.setup.value.dataDone then
          var w := WLength(ep.setup.value.bytes);
          Ask(ControlRequest(ep.ring, ep.setup.value.bytes, if length < w then length else w),
              ControlData)
        else Answer(Failure, ep.setup)
      case StatusStage =>
        if ep.setup.Some? && !ep.setup.value.dataDone then
          Ask(ControlRequest(ep.ring, ep.setup.value.bytes, 0), ControlStatus)
        else Answer(Success, None)
      case _ => Answer(Failure, ep.setup)
  }

  /** The endpoint after an attempt to complete the head without a URB. */
  function Answered(ep: Endpoint, status: Status, setup: Option<SetupState>): Endpoint {
    if Accepts(ep.ring) then
      ep.(setup := setup, ring := Completion(ep.ring, status, [], 0, None))
    else ep.(setup := setup)
  }

  // ---------------------------------------------------------------- applying results

  datatype Outcome = Outcome(status: Status, data: seq<byte>, length: nat)

  function Truncate(b: seq<byte>, n: nat): (r: seq<byte>)
    ensures |r| == if |b| < n then |b| else n
  {
    if |b| < n then b else b[..n]
  }

  /** What a result means for the message, before any rewriting of descriptors. */
  function OutcomeOf(stage: Stage, direction: Direction, length: nat, result: TransferResult)
    : Outcome
  {
    match result
    case Err(e) => Outcome(ErrorStatus(e), [], 0)
    case Ok(ret) =>
      var perPacket := stage.IsoData? && ret.isoPackets != [];
      var status := if perPacket then ret.isoPackets[0].status else ret.status;
      var actual := if perPacket then ret.isoPackets[0].actualLength else ret.actualLength;
      var n := if actual < length then actual else length;
      Outcome(FromUrbStatus(status), if direction == In then Truncate(ret.data, n) else [], n)
  }

  /** GET_DESCRIPTOR(CONFIGURATION). */
  predicate ReadsConfiguration(setup: Setup) {
    setup[0] == 0x80 && setup[1] == 0x06 && setup[3] == 2
  }

  /** The configuration bytes to deliver, and the totals to remember. */
  function Rewritten(data: seq<byte>, hidden: Option<(nat, nat)>): (seq<byte>, Option<(nat, nat)>)
  {
    match HideUas.Hide(data)
    case Some(f) => (f.bytes, Some((f.original, f.total)))
    case None =>
      if hidden.Some? && |data| >= 4 && HideUas.LittleEndian(data[2], data[3]) == hidden.value.0
      then (HideUas.WithTotal(data, hidden.value.1), hidden)
      else (data, hidden)
  }

  /** The endpoint's control state and the outcome to report once `f`'s result is applied. */
  function Interpreted(ep: Endpoint, f: InFlight): (Endpoint, Outcome)
    requires f.result.Some?
  {
    var o := OutcomeOf(f.stage, f.direction, f.length, f.result.value);
    match f.stage
    case NormalData => (ep, o)
    case IsoData => (ep, o)
    case ControlStatus => (ep.(setup := None), o)
    case ControlData =>
      if ep.setup.None? then (ep, o)
      else
        var ep1 := ep.(setup := Some(ep.setup.value.(dataDone := true)));
        if !ReadsConfiguration(ep.setup.value.bytes) then (ep1, o)
        else
          var (data, hidden) := Rewritten(o.data, ep.hiddenConfig);
          (ep1.(hiddenConfig := hidden),
           o.(data := data, length := if |data| < o.length then |data| else o.length))
  }

  /** The endpoint after an attempt to complete the head with a URB's result. */
  function Applied(ep: Endpoint, f: InFlight): Endpoint
    requires f.result.Some?
  {
    var (ep1, o) := Interpreted(ep, f);
    if Accepts(ep.ring) then
      ep1.(ring := Completion(ep.ring, o.status, o.data, o.length, Some(f.token)))
    else ep1
  }

  /** The result says that the device, or the connection to it, is gone. */
  predicate GoneOffline(f: InFlight)
    requires f.result.Some?
  {
    OutcomeOf(f.stage, f.direction, f.length, f.result.value).status == Offline
  }

  // ---------------------------------------------------------------- sending and cancelling

  /** Sends a URB for `message`, or says why the session refuses it. */
  ghost function Push(key: Key, x: Scope, message: nat, req: Request, stage: Stage)
    : Result<Scope, TransferError>
  {
    var token := |x.origins|;
    match Submitted(x.session, req, Urb(token))
    case Refused(e) => Err(e)
    case Accepted(seqnum, session) =>
      var f := InFlight(token, message, stage, req.direction, req.length, seqnum, false, None);
      Ok(x.(
         session := session,
         origins := x.origins + [Origin(key, x.ep.ring.id, message, stage, x.ep.info, req)],
         ep := x.ep.(
         inFlight := x.ep.inFlight + [f],
         ring := x.ep.ring.(acts := x.ep.ring.acts + [Sent(token, message)]))))
  }

  /** Cancels the URBs of `fs` that have no result yet. */
  ghost function Cancel(s: State, fs: seq<InFlight>): State
    decreases |fs|
  {
    if fs == [] then s
    else Cancel(if fs[0].result.None? then UnlinkedAt(s, fs[0].seqnum) else s, fs[1..])
  }

  /** Forgets the URBs from position `i` on, cancelling those from position `j` on. */
  ghost function Dropped(x: Scope, i: nat, j: nat): Scope
    requires i <= j <= |x.ep.inFlight|
  {
    x.(ep := x.ep.(inFlight := x.ep.inFlight[..i]),
    session := Cancel(x.session, x.ep.inFlight[j..]))
  }

  // ---------------------------------------------------------------- pump and fill

  predicate AnyResult(fs: seq<InFlight>) {
    exists i :: 0 <= i < |fs| && fs[i].result.Some?
  }

  /** The next URB to read ahead for, if anything is to be sent. */
  function ReadAhead(key: Key, x: Scope): Option<(Request, Stage)> {
    var n := |x.ep.inFlight|;
    if n == 0 || n >= Depth(x.ep.info.kind) || AnyResult(x.ep.inFlight) then None
    else
      match Peek(x.ep.ring, n)
      case None => None
      case Some(m) => DataRequest(key, x.speed, x.ep, n, m.transfer)
  }

  ghost function Fill(key: Key, x: Scope): Scope
    decreases 32 - |x.ep.inFlight|
  {
    match ReadAhead(key, x)
    case None => x
    case Some((req, stage)) =>
      match Push(key, x, x.ep.ring.head + |x.ep.inFlight|, req, stage)
      case Err(_) => x
      case Ok(y) => Fill(key, y)
  }

  /** Processes the head of an active ring as far as possible. */
  ghost function Pump(key: Key, x: Scope, offline: bool): Scope
    decreases Left(x.ep.ring), |x.ep.inFlight|
  {
    var ep := x.ep;
    if !ep.ring.active then x
    else if ep.inFlight != [] then
      var front := ep.inFlight[0];
      if front.message != ep.ring.head then Pump(key, Dropped(x, 0, 0), offline)
      else if front.result.Some? then
        var y := x.(ep := Applied(ep.(inFlight := ep.inFlight[1..]), front));
        if !Accepts(ep.ring) then y else Pump(key, y, offline || GoneOffline(front))
      else if offline then x else Fill(key, x)
    else if ep.ring.head >= |ep.ring.tape| || offline then x
    else
      match HeadPlan(key, x.speed, ep, ep.ring.tape[ep.ring.head].transfer)
      case Wait => x
      case Answer(status, setup) =>
        var y := x.(ep := Answered(ep, status, setup));
        if Accepts(ep.ring) then Pump(key, y, offline) else y
      case Ask(req, stage) =>
        match Push(key, x, ep.ring.head, req, stage)
        case Ok(y) => Fill(key, y)
        case Err(e) =>
          var y := x.(ep := Answered(ep, ErrorStatus(e), ep.setup));
          if Accepts(ep.ring) && ErrorStatus(e) != Offline then Pump(key, y, false) else y
  }
}
